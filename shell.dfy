/** The application object `RetroDream` (src/main.cpp), reduced to the state
    its frame hooks update: the key-repeat controller of `onUpdate` and the
    overlay visibility of `onInput`. The widget tree is not modelled. */
module Shell {
  import opened Wrappers
  import opened Keys
  import opened Repeat
  import opened Overlays
  import Config

  class RetroDream {
    /** The configured repeat delay, read once at construction. */
    var inputDelay: int
    var oldKeys: Bits
    /** Clock sample at which `timer` was last restarted. */
    var timerStart: int
    /** The repeat delay last pushed to the input layer. */
    var repeatDelay: int

    var credits: bool
    var optionMenu: bool
    var fileMenu: bool
    var blurLayer: bool
    var quit: bool

    function RepeatView(): RepeatState
      reads this
    {
      RepeatState(oldKeys, timerStart, repeatDelay)
    }

    function OverlayView(): Overlays
      reads this
    {
      Overlays(credits, optionMenu, fileMenu, blurLayer, quit)
    }

    /** The end of the constructor: the configured delay becomes the repeat
        delay and the timer starts at clock sample `now`. Every overlay starts
        hidden. */
    constructor (config: Config.RetroConfig, now: int)
      ensures inputDelay == config.options.inputDelay
      ensures repeatDelay == inputDelay && timerStart == now && oldKeys == 0
      ensures Tracks(RepeatView(), inputDelay, now)
      ensures OverlayView() == Overlays(false, false, false, false, false)
      ensures Exclusive(OverlayView())
    {
      var delay := config.GetInputDelay();
      inputDelay := delay;
      repeatDelay := delay;
      timerStart := now;
      oldKeys := 0;
      credits, optionMenu, fileMenu, blurLayer, quit := false, false, false, false, false;
    }

    /** One frame of key-repeat handling, given the keys the input layer
        reports and the clock sample `now` (ms). Returns the delay passed to
        `setRepeatDelay`, `None` when it is not called. */
    method OnUpdate(keys: Bits, now: int) returns (applied: Option<int>)
      modifies this`oldKeys, this`timerStart, this`repeatDelay
      ensures RepeatView() == Step(old(RepeatView()), inputDelay, Frame(keys, now))
      ensures applied == Applied(old(RepeatView()), inputDelay, Frame(keys, now))
      ensures keys == Delay ==>
        applied == None && oldKeys == old(oldKeys) && timerStart == old(timerStart) && repeatDelay == old(repeatDelay)
      ensures keys != Delay && keys != old(oldKeys) ==>
        applied == Some(inputDelay) && repeatDelay == inputDelay && timerStart == now && oldKeys == keys
      ensures keys != Delay && keys == old(oldKeys) ==>
        && timerStart == old(timerStart) && oldKeys == keys
        && applied == HoldCall(inputDelay, now - timerStart)
        && repeatDelay == applied.GetOr(old(repeatDelay))
    {
      applied := None;
      if keys != Delay {
        var changed := oldKeys != keys;
        oldKeys := keys;
        if !changed {
          var elapsed := now - timerStart;
          if elapsed > 5000 {
            applied := Some(TruncDiv(inputDelay, 12));
          } else if elapsed > 3000 {
            applied := Some(TruncDiv(inputDelay, 8));
          } else if elapsed > 1000 {
            applied := Some(TruncDiv(inputDelay, 4));
          }
          assert applied == HoldCall(inputDelay, elapsed);
        } else {
          applied := Some(inputDelay);
          timerStart := now;
        }
        repeatDelay := applied.GetOr(repeatDelay);
      }
    }

    /** One input event: `keys` are player 0's keys and `selectionIsGame`
        whether the file selected in the browser is a game. Returns the
        branch taken. */
    method OnInput(keys: Bits, selectionIsGame: bool) returns (action: InputAction)
      modifies this`optionMenu, this`fileMenu, this`blurLayer, this`quit
      ensures action == Action(old(OverlayView()), keys, selectionIsGame)
      ensures OverlayView() == Dispatch(old(OverlayView()), keys, selectionIsGame)
      ensures old(credits) ==>
        optionMenu == old(optionMenu) && fileMenu == old(fileMenu) && blurLayer == old(blurLayer)
      ensures action == ToggleOptionMenu ==>
        optionMenu == !old(optionMenu) && !fileMenu && blurLayer == optionMenu
      ensures action == ToggleFileMenu ==>
        !optionMenu && fileMenu == !old(fileMenu) && blurLayer == fileMenu
      ensures action in {Screenshot, NoAction} ==>
        optionMenu == old(optionMenu) && fileMenu == old(fileMenu) && blurLayer == old(blurLayer)
      ensures quit == (old(quit) || Has(keys, Quit))
      ensures Exclusive(old(OverlayView())) ==> Exclusive(OverlayView())
    {
      action := NoAction;
      if !credits {
        if Has(keys, Fire3) && Has(keys, Fire5) && Has(keys, Fire6) {
          action := Screenshot;
        } else if Has(keys, Fire4) {
          if selectionIsGame {
            action := ToggleFileMenu;
            optionMenu := false;
            fileMenu := !fileMenu;
            blurLayer := fileMenu;
          }
        } else if Has(keys, Start) {
          action := ToggleOptionMenu;
          optionMenu := !optionMenu;
          fileMenu := false;
          blurLayer := optionMenu;
        }
      }
      if Has(keys, Quit) {
        quit := true;
      }
    }
  }
}
