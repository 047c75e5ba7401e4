/**
 Which picture the compositor paints: the live surface of the window shown, or a still that
 was taken of it. A hold on a game keeps the still through everything that usually drops it.
 */
module Screens {
  import opened Options

  datatype Window = Window(id: nat, app: string)

  /** What a frame shows of the game: the surface of a window or of none, or a still. */
  datatype Picture = Live(window: Option<Window>) | Still(still: Option<nat>)

  /** `taken` counts the stills taken so far; each still is known by its number. */
  datatype State = State(held: string, releasing: bool, still: Option<nat>, shown: Option<Window>, overlay: bool,
        active: bool, taken: nat)

  function ForgetStill(s: State): State {
    if s.held != "" then s else s.(still := None)
  }

  /** Takes a still unless there is one; taking it may fail. */
  function Freeze(s: State, grabs: bool): State {
    if s.still.Some? || !grabs then s else s.(still := Some(s.taken), taken := s.taken + 1)
  }

  predicate Frozen(s: State) {
    s.overlay || s.held != ""
  }

  function Painted(s: State, grabs: bool): (State, Picture) {
    if Frozen(s) then (Freeze(s, grabs), Still(Freeze(s, grabs).still)) else (s, Live(s.shown))
  }

  function ReleaseHold(s: State): State {
    ForgetStill(s.(held := "", releasing := false))
  }

  predicate Shows(s: State, app: string) {
    s.shown.Some? && s.shown.value.app == app
  }

  /** The hold file says which game to hold, or is gone. */
  function ReadHold(s: State, key: string, grabs: bool): State {
    if key == "" && s.held == "" then s
    else if key == "" && Shows(s, s.held) then s.(releasing := true)
    else if key == "" then ReleaseHold(s)
    else (if s.held == "" && s.active then Freeze(s, grabs) else s).(held := key, releasing := false)
  }

  /** A display is switched to, or to none. */
  function Activate(s: State, active: bool): State {
    ForgetStill(s.(active := active))
  }

  /** Another window, or none, is shown; the display may change with it. */
  function Show(s: State, window: Option<Window>, display: Option<bool>): State {
    var other := if window.Some? then window.value.app != s.held else s.releasing;
    var freed := if s.held != "" && other then ReleaseHold(s) else s;
    var next := ForgetStill(freed.(shown := window));
    match display case None => next case Some(active) => Activate(next, active)
  }

  /** A window has drawn; `buffer` is whether it has a new picture. */
  function Commit(s: State, window: Window, buffer: bool): State {
    if s.shown != Some(window) || !buffer then s
    else if s.releasing then ReleaseHold(s)
    else ForgetStill(s)
  }

  /** A window that is unmapped or minimized is shown no more. */
  function Withdraw(s: State, window: Window, display: Option<bool>): State {
    if s.shown == Some(window) then Show(s, None, display) else s
  }

  datatype Event =
    | Hold(key: string, grabs: bool)
    | Present(window: Window, display: Option<bool>)
    | Gone(window: Window, display: Option<bool>)
    | Draw(window: Window, buffer: bool)
    | Settings
    | Display(on: bool)
    | Cover(overlay: bool)
    | Frame(grabs: bool)

  function Next(s: State, e: Event): State {
    match e
    case Hold(key, grabs) => ReadHold(s, key, grabs)
    case Present(window, display) => Show(s, Some(window), display)
    case Gone(window, display) => Withdraw(s, window, display)
    case Draw(window, buffer) => Commit(s, window, buffer)
    case Settings => ForgetStill(s)
    case Display(on) => Activate(s, on)
    case Cover(overlay) => s.(overlay := overlay)
    case Frame(grabs) => Painted(s, grabs).0
  }

  function Initial(): State {
    State("", false, None, None, false, false, 0)
  }

  ghost predicate Run(states: seq<State>, events: seq<Event>) {
    && |states| == |events| + 1 && states[0] == Initial()
    && forall i :: 0 <= i < |events| ==> states[i + 1] == Next(states[i], events[i])
  }

  /** A hold that is about to be released is one on the game being shown. */
  predicate ReleasingShown(s: State) {
    s.releasing ==> s.held != "" && Shows(s, s.held)
  }

  lemma ReleasingStep(s: State, e: Event)
    requires ReleasingShown(s)
    ensures ReleasingShown(Next(s, e))
  {
  }

  lemma {:induction false} ReleasingMeansHeld(states: seq<State>, events: seq<Event>, i: nat)
    requires Run(states, events) && i < |states|
    ensures ReleasingShown(states[i])
  {
    hide Next, ReleasingShown;
    if i == 0 {
      assert ReleasingShown(Initial()) by { StartsFree(); }
    } else {
      ReleasingMeansHeld(states, events, i - 1);
      ReleasingStep(states[i - 1], events[i - 1]);
    }
  }

  lemma StartsFree()
    ensures ReleasingShown(Initial())
  {
  }

  /** What ends a hold. */
  predicate Ends(s: State, e: Event) {
    match e
    case Hold(key, _) => key == "" && !Shows(s, s.held)
    case Present(window, _) => window.app != s.held
    case Gone(window, _) => s.shown == Some(window) && s.releasing
    case Draw(window, buffer) => s.shown == Some(window) && buffer && s.releasing
    case _ => false
  }

  /** A hold ends for these reasons and no other. */
  lemma HoldEnds(s: State, e: Event)
    requires s.held != ""
    ensures Next(s, e).held == "" <==> Ends(s, e)
  {
  }

  /** A hold that does not end keeps its still. */
  lemma StillStays(s: State, e: Event)
    requires s.held != "" && s.still.Some? && !Ends(s, e)
    ensures Next(s, e).still == s.still && Next(s, e).held != ""
  {
  }

  /** From the moment the still of a hold is there until the hold ends, every frame is painted with that same still. */
  lemma {:induction false} SameStillThroughout(states: seq<State>, events: seq<Event>, i: nat, j: nat, grabs: bool)
    requires Run(states, events) && i <= j < |states| && states[i].still.Some?
    requires forall k :: i <= k <= j ==> states[k].held != ""
    ensures states[j].still == states[i].still
    ensures Painted(states[j], grabs).1 == Still(states[i].still)
  {
    hide Next, Ends;
    if i < j {
      SameStillThroughout(states, events, i, j - 1, grabs);
      assert states[j - 1 + 1] == Next(states[j - 1], events[j - 1]);
      HoldEnds(states[j - 1], events[j - 1]);
      StillStays(states[j - 1], events[j - 1]);
    }
  }

  /** Accepting a hold takes the still at once, if a display is there to take it from. */
  lemma HoldTakesStill(s: State, key: string)
    requires key != "" && (s.still.Some? || (s.active && s.held == ""))
    ensures Next(s, Hold(key, true)).still.Some? && Next(s, Hold(key, true)).held == key
    ensures s.still.Some? ==> Next(s, Hold(key, true)).still == s.still
  {
  }

  // Without a hold no still outlives what it shows.

  /** The picture of the game changes: another window or display, new settings, or a new buffer of the window shown. */
  predicate Outdates(s: State, e: Event) {
    match e
    case Present(_, _) => true
    case Gone(window, _) => s.shown == Some(window)
    case Draw(window, buffer) => s.shown == Some(window) && buffer
    case Settings => true
    case Display(_) => true
    case _ => false
  }

  /** A still is dropped exactly when the picture changes without a hold, or with the event that ends one. */
  lemma StillDropped(s: State, e: Event)
    requires ReleasingShown(s) && s.still.Some?
    ensures Next(s, e).still == None <==>
            (s.held == "" && Outdates(s, e) && Next(s, e).held == "") || (s.held != "" && Ends(s, e))
    ensures Next(s, e).still != None ==> Next(s, e).still == s.still
  {
  }

  /** Nothing but a hold's file takes a hold up. */
  lemma StaysFree(s: State, e: Event)
    requires ReleasingShown(s) && s.held == ""
    ensures Next(s, e).held == if e.Hold? then e.key else ""
  {
  }

  /** A still that is there was taken after the given number of others. */
  predicate Later(s: State, number: nat) {
    s.taken >= number && (s.still.Some? ==> number <= s.still.value < s.taken)
  }

  lemma LaterStep(s: State, e: Event, number: nat)
    requires Later(s, number)
    ensures Later(Next(s, e), number)
  {
  }

  lemma {:induction false} LaterOn(states: seq<State>, events: seq<Event>, i: nat, j: nat, number: nat)
    requires Run(states, events) && i <= j < |states| && Later(states[i], number)
    ensures Later(states[j], number)
  {
    hide Next, Later;
    if i < j {
      LaterOn(states, events, i, j - 1, number);
      assert states[j - 1 + 1] == Next(states[j - 1], events[j - 1]);
      LaterStep(states[j - 1], events[j - 1], number);
    }
  }

  lemma {:induction false} StillsNumbered(states: seq<State>, events: seq<Event>, i: nat)
    requires Run(states, events) && i < |states|
    ensures states[i].still.Some? ==> states[i].still.value < states[i].taken
  {
    LaterOn(states, events, 0, i, 0);
  }

  lemma PaintsLater(s: State, grabs: bool, number: nat)
    requires Later(s, number)
    ensures var picture := Painted(s, grabs).1; picture.Still? && picture.still.Some? ==> picture.still.value >= number
  {
  }

  /** Once the picture has changed without a hold, no frame ever shows a still from before. */
  lemma NoStaleStill(states: seq<State>, events: seq<Event>, i: nat, j: nat, grabs: bool)
    requires Run(states, events) && i < j < |states| && states[i].held == "" && Outdates(states[i], events[i])
    ensures var picture := Painted(states[j], grabs).1;
            picture.Still? && picture.still.Some? ==> picture.still.value >= states[i].taken
  {
    var s, next := states[i], states[i + 1];
    hide Painted;
    ReleasingMeansHeld(states, events, i);
    assert next == Next(s, events[i]);
    assert Later(next, s.taken) by { Outdated(s, events[i]); }
    LaterOn(states, events, i + 1, j, s.taken);
    PaintsLater(states[j], grabs, s.taken);
  }

  lemma Outdated(s: State, e: Event)
    requires ReleasingShown(s) && s.held == "" && Outdates(s, e)
    ensures Next(s, e).still == None && Next(s, e).taken == s.taken
  {
  }

  /**
   What is painted: the live window exactly if neither the overlay nor a hold covers it, and a
   still is taken where there is none.
   */
  lemma PaintsLive(s: State, grabs: bool)
    ensures Painted(s, grabs).1 == Live(s.shown) <==> !s.overlay && s.held == ""
    ensures s.overlay || s.held != "" ==>
              Painted(s, grabs).1 == Still(if s.still.Some? then s.still else if grabs then Some(s.taken) else None)
    ensures Painted(s, grabs).0.still == if Painted(s, grabs).1.Still? then Painted(s, grabs).1.still else s.still
  {
  }

  /**
   A hold takes a still only if it is the first, a display is there, and there is no still yet; a
   frame takes the one it paints.
   */
  lemma StillTaken(s: State, e: Event)
    requires s.still == None
    ensures Next(s, e).still.Some? <==>
            match e
            case Hold(key, grabs) => key != "" && s.held == "" && s.active && grabs
            case Frame(grabs) => (s.overlay || s.held != "") && grabs
            case _ => false
    ensures Next(s, e).still.Some? ==> Next(s, e).still == Some(s.taken) && Next(s, e).taken == s.taken + 1
  {
  }

  /** The file names the game to hold; once it is gone the hold is only waiting for the game that is shown. */
  lemma FileReleases(s: State, key: string, grabs: bool)
    ensures var next := Next(s, Hold(key, grabs));
            && (key != "" ==> next.held == key && !next.releasing)
            && (key == "" && s.held != "" && Shows(s, s.held) ==> next.held == s.held && next.releasing)
            && (key == "" && !(s.held != "" && Shows(s, s.held)) ==> next.held == "")
            && next.shown == s.shown
  {
  }

  /** The compositor starts with nothing shown, held or covered. */
  lemma StartsUncovered(grabs: bool)
    ensures Painted(Initial(), grabs).1 == Live(None) && Initial().still == None && !Initial().active
  {
  }

  /** The window shown and the display are those of the latest event that set them, whatever is held. */
  lemma ShownLatest(s: State, e: Event)
    ensures Next(s, e).shown ==
            match e
            case Present(window, _) => Some(window)
            case Gone(window, _) => if s.shown == Some(window) then None else s.shown
            case _ => s.shown
    ensures Next(s, e).active ==
            match e
            case Display(on) => on
            case Present(_, Some(on)) => on
            case Gone(window, Some(on)) => if s.shown == Some(window) then on else s.active
            case _ => s.active
    ensures Next(s, e).overlay == if e.Cover? then e.overlay else s.overlay
  {
  }
}
