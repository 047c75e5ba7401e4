/**
 The compositor's handlers as they update its globals, and what the overlay's restarts look
 like through them: the picture stands still while the game is closed and started again.
 */
module Compositor {
  import opened Screens
  import opened Options

  class Compositor {
    var heldGame: string
    var releasing: bool
    var still: Option<nat>
    var shown: Option<Window>
    var overlayVisible: bool
    var active: bool
    var taken: nat

    ghost function Model(): State
      reads this
    {
      State(heldGame, releasing, still, shown, overlayVisible, active, taken)
    }

    constructor ()
      ensures Model() == Initial()
    {
      heldGame, releasing, still, shown, overlayVisible, active, taken := "", false, None, None, false, false, 0;
    }

    method ForgetStill()
      modifies this`still
      ensures Model() == Screens.ForgetStill(old(Model()))
      ensures still == if heldGame != "" then old(still) else None
    {
      if heldGame != "" { return; }
      still := None;
    }

    method Freeze(grabs: bool) returns (picture: Option<nat>)
      modifies this`still, this`taken
      ensures Model() == Screens.Freeze(old(Model()), grabs) && picture == still
    {
      if still.Some? || !grabs { return still; }
      still := Some(taken);
      taken := taken + 1;
      return still;
    }

    method Paint(grabs: bool) returns (picture: Picture)
      modifies this`still, this`taken
      ensures (Model(), picture) == Painted(old(Model()), grabs)
      ensures heldGame != "" && old(still).Some? ==> picture == Still(old(still)) && still == old(still)
      ensures heldGame == "" && !overlayVisible ==> picture == Live(shown)
    {
      if overlayVisible || heldGame != "" {
        var frozen := Freeze(grabs);
        return Still(frozen);
      }
      return Live(shown);
    }

    method ReleaseHold()
      modifies this`heldGame, this`releasing, this`still
      ensures Model() == Screens.ReleaseHold(old(Model()))
      ensures heldGame == "" && !releasing && still == None
    {
      heldGame := "";
      releasing := false;
      ForgetStill();
    }

    method ReadHold(key: string, grabs: bool)
      modifies this
      ensures Model() == Screens.ReadHold(old(Model()), key, grabs)
      ensures key != "" ==> heldGame == key && !releasing && (old(still).Some? ==> still == old(still))
      ensures key == "" && heldGame != "" ==> releasing && still == old(still)
    {
      if key == "" && heldGame == "" { return; }
      if key == "" && shown.Some? && shown.value.app == heldGame {
        releasing := true;
      } else if key == "" {
        ReleaseHold();
      } else {
        if heldGame == "" && active { var _ := Freeze(grabs); }
        heldGame := key;
        releasing := false;
      }
    }

    method Show(window: Option<Window>, display: Option<bool>)
      modifies this
      ensures Model() == Screens.Show(old(Model()), window, display)
      ensures shown == window
      ensures old(heldGame) != "" && (if window.Some? then window.value.app == old(heldGame) else !old(releasing)) ==>
                heldGame == old(heldGame) && still == old(still)
      ensures window.Some? && heldGame != "" ==> window.value.app == heldGame
    {
      if heldGame != "" && (if window.Some? then window.value.app != heldGame else releasing) { ReleaseHold(); }
      shown := window;
      ForgetStill();
      if display.Some? { Activate(display.value); }
    }

    method Activate(wanted: bool)
      modifies this
      ensures Model() == Screens.Activate(old(Model()), wanted)
      ensures active == wanted && still == if heldGame != "" then old(still) else None
    {
      active := wanted;
      ForgetStill();
    }

    method OnWindowCommit(window: Window, buffer: bool)
      modifies this
      ensures Model() == Commit(old(Model()), window, buffer)
      ensures old(heldGame) != "" && !old(releasing) ==> heldGame == old(heldGame) && still == old(still)
      ensures old(releasing) && buffer && shown == Some(window) ==> heldGame == ""
      ensures heldGame == "" && buffer && shown == Some(window) ==> still == None
    {
      if shown != Some(window) { return; }
      if buffer {
        if releasing { ReleaseHold(); } else { ForgetStill(); }
      }
    }

    method OnWindowUnmap(window: Window, display: Option<bool>)
      modifies this
      ensures Model() == Withdraw(old(Model()), window, display)
      ensures shown != Some(window)
      ensures old(heldGame) != "" && !old(releasing) ==> heldGame == old(heldGame) && still == old(still)
    {
      if shown == Some(window) { Show(None, display); }
    }
  }
}
