/** The adaptive key-repeat rule of `RetroDream::onUpdate` (src/main.cpp):
    while the same key set stays held, the repeat delay drops from the
    configured delay to a quarter, an eighth and a twelfth of it after 1, 3
    and 5 seconds; any change of the key set snaps it back. Times are integer
    milliseconds. */
module Repeat {
  import opened Wrappers
  import opened Keys

  /** C++ `a / d` on `int`: the quotient rounded toward zero. */
  function TruncDiv(a: int, d: int): (q: int)
    requires d > 0
    ensures a >= 0 ==> 0 <= q && q * d <= a < q * d + d
    ensures a < 0 ==> q <= 0 && q * d - d < a <= q * d
  {
    var n := if a >= 0 then a else -a;
    assert n == (n / d) * d + n % d && 0 <= n % d < d;
    if a >= 0 then n / d else -(n / d)
  }

  /** The delay pushed to the input layer on a frame whose key set has been
      held unchanged for `elapsed` ms; `None` when no call is made. */
  function HoldCall(base: int, elapsed: int): (call: Option<int>)
    ensures call.None? <==> elapsed <= 1000
    ensures call.Some? ==> call.value in {TruncDiv(base, 4), TruncDiv(base, 8), TruncDiv(base, 12)}
    ensures elapsed > 5000 ==> call == Some(TruncDiv(base, 12))
  {
    if elapsed > 5000 then Some(TruncDiv(base, 12))
    else if elapsed > 3000 then Some(TruncDiv(base, 8))
    else if elapsed > 1000 then Some(TruncDiv(base, 4))
    else None
  }

  /** The delay in force once the key set has been held for `elapsed` ms,
      the configured delay having been applied when the hold began. */
  function HeldDelay(base: int, elapsed: int): int
  {
    HoldCall(base, elapsed).GetOr(base)
  }

  /** What the controller keeps between frames: the last key set, the clock
      sample at which the timer was last restarted, and the repeat delay
      last pushed to the input layer. */
  datatype RepeatState = RepeatState(oldKeys: Bits, timerStart: int, repeatDelay: int)

  /** One frame: the keys read from the input layer and the clock sample. */
  datatype Frame = Frame(keys: Bits, now: int)

  /** The `setRepeatDelay` call a frame makes, if any. The source's change
      test `(oldKeys ^ keys) != 0` is written as `oldKeys != keys`, which
      `Keys.XorDiffers` shows to be the same test. */
  function Applied(s: RepeatState, base: int, f: Frame): (call: Option<int>)
    ensures f.keys == Delay ==> call.None?
    ensures f.keys != Delay && f.keys != s.oldKeys ==> call == Some(base)
    ensures call.None? ==> f.keys == Delay || (f.keys == s.oldKeys && f.now - s.timerStart <= 1000)
  {
    if f.keys == Delay then None
    else if s.oldKeys != f.keys then Some(base)
    else HoldCall(base, f.now - s.timerStart)
  }

  /** The state after a frame. */
  function Step(s: RepeatState, base: int, f: Frame): (s': RepeatState)
    ensures s'.repeatDelay == Applied(s, base, f).GetOr(s.repeatDelay)
    ensures s'.oldKeys == (if f.keys == Delay then s.oldKeys else f.keys)
    ensures s'.timerStart == (if f.keys != Delay && f.keys != s.oldKeys then f.now else s.timerStart)
  {
    if f.keys == Delay then s
    else if s.oldKeys != f.keys then RepeatState(f.keys, f.now, base)
    else s.(repeatDelay := Applied(s, base, f).GetOr(s.repeatDelay))
  }

  /** The state after a sequence of frames. */
  function Run(s: RepeatState, base: int, frames: seq<Frame>): RepeatState
    decreases |frames|
  {
    if frames == [] then s else Run(Step(s, base, frames[0]), base, frames[1..])
  }

  /** The clock sample of the last frame that carried keys, `t` if none did. */
  function LastSample(t: int, frames: seq<Frame>): int
    decreases |frames|
  {
    if frames == [] then t
    else LastSample(if frames[0].keys == Delay then t else frames[0].now, frames[1..])
  }

  /** Clock samples never go back, starting from `t`. */
  ghost predicate Monotone(t: int, frames: seq<Frame>)
  {
    && (forall i :: 0 <= i < |frames| ==> t <= frames[i].now)
    && (forall i, j :: 0 <= i < j < |frames| ==> frames[i].now <= frames[j].now)
  }

  /** The delay in force is the one due for how long the current key set has
      been held, as of clock sample `t`. */
  ghost predicate Tracks(s: RepeatState, base: int, t: int)
  {
    s.repeatDelay == HeldDelay(base, t - s.timerStart)
  }

  lemma MulLeft(x: int, y1: int, y2: int)
    requires x >= 0 && y1 <= y2
    ensures x * y1 <= x * y2
  {
    assert x * y2 - x * y1 == x * (y2 - y1);
  }

  lemma TruncDivNonIncreasing(a: int, d1: int, d2: int)
    requires a >= 0 && 0 < d1 <= d2
    ensures TruncDiv(a, d2) <= TruncDiv(a, d1)
  {
    var q1, q2 := TruncDiv(a, d1), TruncDiv(a, d2);
    MulLeft(q2, d1, d2);
    if q1 + 1 <= q2 {
      MulLeft(d1, q1 + 1, q2);
    }
  }

  /** For a non-negative configured delay, the delay in force never grows as
      the hold goes on. */
  lemma HeldDelayNonIncreasing(base: int, e1: int, e2: int)
    requires base >= 0 && e1 <= e2
    ensures HeldDelay(base, e2) <= HeldDelay(base, e1)
  {
    TruncDivNonIncreasing(base, 1, 4);
    TruncDivNonIncreasing(base, 4, 8);
    TruncDivNonIncreasing(base, 8, 12);
  }

  /** For a non-negative configured delay, the delay in force lies between a
      twelfth of it and all of it. */
  lemma HeldDelayBounds(base: int, elapsed: int)
    requires base >= 0
    ensures TruncDiv(base, 12) <= HeldDelay(base, elapsed) <= base
  {
    if elapsed <= 5001 {
      HeldDelayNonIncreasing(base, elapsed, 5001);
    }
    if elapsed >= 0 {
      HeldDelayNonIncreasing(base, 0, elapsed);
    }
  }

  /** One frame keeps `Tracks`, with the tracking time moving to the frame's
      sample when the frame carries keys. */
  lemma StepTracks(s: RepeatState, base: int, t: int, f: Frame)
    requires Tracks(s, base, t) && t <= f.now
    ensures Tracks(Step(s, base, f), base, if f.keys == Delay then t else f.now)
  {
  }

  /** Over any run of frames with a clock that never goes back, the delay in
      force stays the one due for the current hold. */
  lemma {:induction false} RunTracks(s: RepeatState, base: int, t: int, frames: seq<Frame>)
    requires Tracks(s, base, t) && Monotone(t, frames)
    ensures Tracks(Run(s, base, frames), base, LastSample(t, frames))
    decreases |frames|
  {
    if frames != [] {
      var f := frames[0];
      StepTracks(s, base, t, f);
      var t' := if f.keys == Delay then t else f.now;
      assert Monotone(t', frames[1..]) by {
        forall i | 0 <= i < |frames[1..]|
          ensures t' <= frames[1..][i].now
        {
          assert frames[1..][i] == frames[i + 1];
          assert frames[0].now <= frames[i + 1].now;
        }
        forall i, j | 0 <= i < j < |frames[1..]|
          ensures frames[1..][i].now <= frames[1..][j].now
        {
          assert frames[1..][i] == frames[i + 1] && frames[1..][j] == frames[j + 1];
        }
      }
      RunTracks(Step(s, base, f), base, t', frames[1..]);
    }
  }

  /** A frame that keeps the same keys held never raises the delay in force
      (non-negative configured delay, clock not going back). */
  lemma HoldStepNonIncreasing(s: RepeatState, base: int, t: int, f: Frame)
    requires base >= 0 && Tracks(s, base, t) && t <= f.now && f.keys == s.oldKeys
    ensures Step(s, base, f).repeatDelay <= s.repeatDelay
  {
    HeldDelayNonIncreasing(base, t - s.timerStart, f.now - s.timerStart);
  }

  /** Over any run of frames, the delay in force is always one of the four
      tiers of the configured delay. */
  lemma {:induction false} RunStaysInTiers(s: RepeatState, base: int, frames: seq<Frame>)
    requires s.repeatDelay in {base, TruncDiv(base, 4), TruncDiv(base, 8), TruncDiv(base, 12)}
    ensures Run(s, base, frames).repeatDelay in {base, TruncDiv(base, 4), TruncDiv(base, 8), TruncDiv(base, 12)}
    decreases |frames|
  {
    if frames != [] {
      RunStaysInTiers(Step(s, base, frames[0]), base, frames[1..]);
    }
  }

  /** With a 200 ms delay and a key held from time 0, frames at 0.5 s, 2 s,
      4 s and 6 s leave the delay at 200, 50, 25 and 16 ms; a different key
      set at 7 s puts it back to 200 ms and restarts the timer. */
  lemma AccelerationExample(k: Bits, k': Bits)
    requires k != Delay && k' != Delay && k' != k
    ensures var s0 := RepeatState(k, 0, 200);
            var s1 := Step(s0, 200, Frame(k, 500));
            var s2 := Step(s1, 200, Frame(k, 2000));
            var s3 := Step(s2, 200, Frame(k, 4000));
            var s4 := Step(s3, 200, Frame(k, 6000));
            var s5 := Step(s4, 200, Frame(k', 7000));
            && s1.repeatDelay == 200 && s2.repeatDelay == 50
            && s3.repeatDelay == 25 && s4.repeatDelay == 16
            && s5 == RepeatState(k', 7000, 200)
  {
  }
}
