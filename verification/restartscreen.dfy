/**
 Overlay and compositor together: one writes and removes the hold file as a restart goes on,
 the other reads the file some time after each change, while windows come and go.
 */
module RestartScreen {
  import opened Options
  import R = Restarts
  import S = Screens

  /** `unread` is a change of the file that the compositor has not looked at yet. */
  datatype State = State(overlay: R.State, screen: S.State, unread: bool)

  datatype Event =
    | Overlay(step: R.Event)
    | Screen(change: S.Event)
    | ReadFile(grabs: bool)

  /** The hold file names the game while it is there. */
  function FileSays(s: State, game: string): string {
    if s.overlay.held then game else ""
  }

  /** The outside world does not put the window of another game in front. */
  predicate Undisturbed(s: State, e: Event, game: string) {
    match e
    case Overlay(step) => R.Possible(s.overlay, step)
    case Screen(change) => !change.Hold? && (change.Present? ==> change.window.app == game)
    case ReadFile(_) => true
  }

  function Next(s: State, e: Event, game: string): State {
    match e
    case Overlay(step) =>
      var overlay := R.Next(s.overlay, step);
      State(overlay, s.screen, s.unread || overlay.held != s.overlay.held)
    case Screen(change) => State(s.overlay, S.Next(s.screen, change), s.unread)
    case ReadFile(grabs) => State(s.overlay, S.Next(s.screen, S.Hold(FileSays(s, game), grabs)), false)
  }

  ghost predicate Run(states: seq<State>, events: seq<Event>, game: string) {
    && |states| == |events| + 1 && states[0] == State(R.Initial(), S.Initial(), false)
    && forall i :: 0 <= i < |events| ==>
         Undisturbed(states[i], events[i], game) && states[i + 1] == Next(states[i], events[i], game)
  }

  /** Once the compositor has read the file of a restart, it holds that game and is not about to let go. */
  predicate InStep(s: State, game: string) {
    && (!s.unread && s.overlay.held ==> s.screen.held == game && !s.screen.releasing)
    && (s.screen.held == "" || s.screen.held == game)
    && (s.screen.releasing ==> s.screen.held == game && (!s.overlay.held || s.unread))
  }

  lemma StepKeeps(s: State, e: Event, game: string)
    requires game != "" && R.Inv(s.overlay) && InStep(s, game) && Undisturbed(s, e, game)
    ensures R.Inv(Next(s, e, game).overlay) && InStep(Next(s, e, game), game)
  {
    hide R.Inv, R.Next, R.Possible;
    match e
    case Overlay(step) => R.StepKeeps(s.overlay, step);
    case Screen(change) => ScreenKeeps(s, change, game);
    case ReadFile(_) =>
  }

  lemma ScreenKeeps(s: State, change: S.Event, game: string)
    requires game != "" && InStep(s, game) && !change.Hold? && (change.Present? ==> change.window.app == game)
    ensures InStep(State(s.overlay, S.Next(s.screen, change), s.unread), game)
  {
  }

  lemma {:induction false} RunKeeps(states: seq<State>, events: seq<Event>, game: string, i: nat)
    requires game != "" && Run(states, events, game) && i < |states|
    ensures R.Inv(states[i].overlay) && InStep(states[i], game)
  {
    hide Next, Undisturbed;
    if i == 0 {
    } else {
      hide InStep, R.Inv;
      RunKeeps(states, events, game, i - 1);
      StepKeeps(states[i - 1], events[i - 1], game);
    }
  }

  lemma HeldStep(s: State, e: Event, game: string)
    requires game != "" && InStep(s, game) && Undisturbed(s, e, game)
    requires s.overlay.held && !s.unread && s.screen.still.Some?
    ensures Next(s, e, game).screen.still == s.screen.still
  {
    hide R.Next, R.Possible;
  }

  /**
   Every change of the file is unread until the compositor reads it; what it reads then is the file
   of that moment.
   */
  lemma ReadsTheFile(s: State, e: Event, game: string)
    requires game != ""
    ensures var next := Next(s, e, game);
            && (next.unread <==> !e.ReadFile? && (s.unread || next.overlay.held != s.overlay.held))
            && (e.ReadFile? && s.overlay.held ==> next.screen.held == game && !next.screen.releasing)
            && (e.ReadFile? && !s.overlay.held ==> next.screen.held == "" || next.screen.releasing)
            && (!e.Overlay? ==> next.overlay == s.overlay) && (e.Overlay? ==> next.screen == s.screen)
            && (e.Screen? ==> next.screen == S.Next(s.screen, e.change))
  {
    hide R.Next;
  }

  /** The compositor may read the file at any moment of a run. */
  lemma {:induction false} ReadsAnyTime(states: seq<State>, events: seq<Event>, game: string, grabs: bool)
    requires Run(states, events, game)
    ensures Run(states + [Next(states[|states| - 1], ReadFile(grabs), game)], events + [ReadFile(grabs)], game)
  {
    hide Next;
  }

  /** Once the file is gone and read, the first new buffer of the game brings the live picture back. */
  lemma PictureComesBack(s: State, window: S.Window, grabs: bool, game: string)
    requires game != "" && InStep(s, game) && !s.overlay.held
    requires s.screen.shown == Some(window) && window.app == game && !s.screen.overlay
    ensures var read := Next(s, ReadFile(grabs), game);
            var drawn := Next(read, Screen(S.Draw(window, true)), game);
            && drawn.screen.held == "" && drawn.screen.still == None
            && S.Painted(drawn.screen, grabs).1 == S.Live(Some(window))
  {
  }

  /**
   While the restart wants its picture and the compositor has read so, the game may be closed,
   lose its window, be started and get a new one: every frame shows the same still.
   */
  lemma {:induction false} RestartShowsOneStill(states: seq<State>, events: seq<Event>, game: string, i: nat, j: nat,
        grabs: bool)
    requires game != "" && Run(states, events, game) && i <= j < |states| && states[i].screen.still.Some?
    requires forall k :: i <= k <= j ==>
             states[k].overlay.game.phase in {R.Saving, R.Closing, R.Booting, R.Probing} && !states[k].unread
    ensures states[j].screen.still == states[i].screen.still
    ensures S.Painted(states[j].screen, grabs).1 == S.Still(states[i].screen.still)
  {
    hide Next, Undisturbed;
    RunKeeps(states, events, game, j);
    if i < j {
      RestartShowsOneStill(states, events, game, i, j - 1, grabs);
      RunKeeps(states, events, game, j - 1);
      HeldStep(states[j - 1], events[j - 1], game);
    }
  }
}
