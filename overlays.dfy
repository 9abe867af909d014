/** The overlay visibility rules of `RetroDream::onInput` (src/main.cpp):
    which of the option menu, the file menu and the dimming "blur" layer is
    shown, with the credits overlay taking all menu input while it is up.
    Visibility tweens are taken as instantaneous. */
module Overlays {
  import opened Keys

  datatype Overlays = Overlays(credits: bool, optionMenu: bool, fileMenu: bool, blurLayer: bool, quit: bool)

  /** The branch a key set takes. */
  datatype InputAction = Screenshot | ToggleFileMenu | ToggleOptionMenu | NoAction

  /** Fire3, Fire5 and Fire6 held together ask for a screenshot. */
  predicate ScreenshotCombo(keys: Bits)
  {
    Has(keys, Fire3) && Has(keys, Fire5) && Has(keys, Fire6)
  }

  /** Which branch `onInput` takes: nothing while the credits are shown;
      otherwise the screenshot combination first, then Fire4 (acted on only
      when the selected file is a game), then Start. */
  function Action(v: Overlays, keys: Bits, selectionIsGame: bool): (a: InputAction)
    ensures a == Screenshot <==> !v.credits && ScreenshotCombo(keys)
    ensures a == ToggleFileMenu <==> !v.credits && !ScreenshotCombo(keys) && Has(keys, Fire4) && selectionIsGame
    ensures a == ToggleOptionMenu <==> !v.credits && !ScreenshotCombo(keys) && !Has(keys, Fire4) && Has(keys, Start)
  {
    if v.credits then NoAction
    else if ScreenshotCombo(keys) then Screenshot
    else if Has(keys, Fire4) then (if selectionIsGame then ToggleFileMenu else NoAction)
    else if Has(keys, Start) then ToggleOptionMenu
    else NoAction
  }

  /** The visibility after one `onInput` call. */
  function Dispatch(v: Overlays, keys: Bits, selectionIsGame: bool): (w: Overlays)
    ensures w.credits == v.credits
    ensures w.quit == (v.quit || Has(keys, Quit))
    ensures v.credits ==> w.(quit := v.quit) == v
    ensures Exclusive(v) ==> Exclusive(w)
  {
    var shown :=
      match Action(v, keys, selectionIsGame)
      case ToggleFileMenu => v.(optionMenu := false, fileMenu := !v.fileMenu, blurLayer := !v.fileMenu)
      case ToggleOptionMenu => v.(optionMenu := !v.optionMenu, fileMenu := false, blurLayer := !v.optionMenu)
      case _ => v;
    shown.(quit := v.quit || Has(keys, Quit))
  }

  /** At most one menu is shown, and the blur layer is up exactly when one is. */
  predicate Exclusive(v: Overlays)
  {
    !(v.optionMenu && v.fileMenu) && v.blurLayer == (v.optionMenu || v.fileMenu)
  }

  /** One `onInput` input: the keys and whether the selected file is a game. */
  datatype Press = Press(keys: Bits, selectionIsGame: bool)

  function DispatchAll(v: Overlays, presses: seq<Press>): Overlays
    decreases |presses|
  {
    if presses == [] then v
    else DispatchAll(Dispatch(v, presses[0].keys, presses[0].selectionIsGame), presses[1..])
  }

  /** Every input keeps the menus exclusive and the blur layer in step. */
  lemma {:induction false} DispatchAllExclusive(v: Overlays, presses: seq<Press>)
    requires Exclusive(v)
    ensures Exclusive(DispatchAll(v, presses))
    decreases |presses|
  {
    if presses != [] {
      DispatchAllExclusive(Dispatch(v, presses[0].keys, presses[0].selectionIsGame), presses[1..]);
    }
  }

  /** While the credits are shown, no input changes anything but the quit
      flag, and once set the quit flag stays set. */
  lemma {:induction false} DispatchAllUnderCredits(v: Overlays, presses: seq<Press>)
    requires v.credits
    ensures var w := DispatchAll(v, presses);
            w.(quit := v.quit) == v && (v.quit ==> w.quit)
    decreases |presses|
  {
    if presses != [] {
      DispatchAllUnderCredits(Dispatch(v, presses[0].keys, presses[0].selectionIsGame), presses[1..]);
    }
  }

  /** Pressing Start twice from a state with no file menu shown restores the
      menus and blur layer. */
  lemma StartTwiceRestores(v: Overlays, keys: Bits, selectionIsGame: bool)
    requires Exclusive(v) && !v.fileMenu && !v.credits
    requires Has(keys, Start) && !Has(keys, Fire4) && !ScreenshotCombo(keys)
    ensures var w := Dispatch(Dispatch(v, keys, selectionIsGame), keys, selectionIsGame);
            w.(quit := v.quit) == v
  {
  }
}
