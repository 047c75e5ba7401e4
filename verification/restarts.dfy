/**
 Restarting the game in front without leaving it: its state is saved, it is closed, started
 again from that state, and all the while the compositor is told to hold its picture.
 */
module Restarts {
  import opened Options

  datatype Phase = Playing | Saving | Closing | Booting | Probing | Releasing

  predicate Late(phase: Phase) {
    phase == Booting || phase == Probing || phase == Releasing
  }

  /** The game in front: the one that may restart, another one, or none. */
  datatype Front = Ours | Another | Nobody

  /** How starting a game went: refused before anything, a process that could not start, or started. */
  datatype Launch = Refused | Failed | Started

  /** The restart part of the game's record. */
  datatype Game = Game(phase: Phase, running: bool, closing: bool, again: bool, slot: int)

  /** What is seen of the desktop; `shown` is whether the compositor says that it holds the game's picture. */
  datatype Desk = Desk(front: Front, dashboard: bool, rewinds: bool, window: bool, shown: bool)

  /**
   What happened so far: the times of the latest request and the latest start, the request
   given up, the newest slot at the request, the slot whose writing closed the game, and the
   slot it was started with.
   */
  datatype Past = Past(time: nat, asked: int, booted: int, dropped: int, newest: int, written: int,
        resumed: Option<int>)

  datatype State = State(game: Game, held: bool, desk: Desk, past: Past)

  predicate InGame(s: State) {
    s.desk.front == Ours && !s.desk.dashboard
  }

  /** The request is heard: the game is in front, keeps rewinds, and is not being closed by anyone else. */
  predicate Heard(s: State) {
    InGame(s) && s.desk.rewinds && (s.game.closing ==> s.game.phase == Closing)
  }

  function RestartActive(s: State, newest: int): State {
    if !InGame(s) || !s.desk.rewinds || s.game.closing then s
    else if s.game.phase != Playing then s.(game := s.game.(again := s.game.again || Late(s.game.phase)))
    else State(s.game.(phase := Saving, slot := newest), true, s.desk, s.past.(newest := newest))
  }

  /** A setting changes that asks the game in front to restart. */
  function Asked(s: State, newest: int): State {
    if s.desk.front != Ours then s
    else RestartActive(if Heard(s) then s.(past := s.past.(asked := s.past.time)) else s, newest)
  }

  /** A state of the game has been written to this slot. */
  function Advanced(s: State, saved: int): State {
    if saved <= s.game.slot then s
    else if s.game.phase == Saving then
      s.(game := s.game.(phase := Closing, slot := saved, closing := true), past := s.past.(written := saved))
    else if s.game.phase == Probing then s.(game := s.game.(phase := Releasing), held := false)
    else s
  }

  function Ended(s: State): State {
    if s.game.phase == Closing then s.(game := s.game.(running := false))
    else State(s.game.(running := false, phase := Playing, again := false),
               s.held && s.game.phase == Playing,
               s.desk.(front := if s.desk.front == Ours then Nobody else s.desk.front),
               s.past)
  }

  function Play(s: State, launch: Launch): State {
    if launch == Refused then s
    else
      var resuming := s.game.phase == Closing;
      var game := s.game.(phase := if resuming then Booting else Playing, closing := false, running := true);
      var past := s.past.(booted := s.past.time, resumed := if resuming then Some(s.game.slot) else None);
      var started := State(game, s.held, s.desk, past);
      if launch == Failed then Ended(started)
      else if resuming then started
      else started.(desk := s.desk.(front := Ours, dashboard := false))
  }

  /** A process has ended: the game's own, or another. */
  function Reaped(s: State, own: bool, launch: Launch): State {
    var after := if own then Ended(s) else s;
    if !after.game.running && after.game.phase == Closing then Play(after, launch) else after
  }

  /** The game in front may have gone, its window may have come, and the compositor may have let its picture go. */
  function Progressed(s: State, others: bool, job: bool): State {
    var left := (s.desk.front == Ours && !s.game.running && !job) || (s.desk.front == Another && !others);
    var front := if left then Nobody else s.desk.front;
    var phase :=
      if s.game.phase == Booting && s.desk.window then Probing
      else if s.game.phase == Releasing && !s.desk.shown then Playing
      else s.game.phase;
    s.(game := s.game.(phase := phase),
       desk := s.desk.(front := front, dashboard := s.desk.dashboard || front == Nobody))
  }

  /** What follows from the changes of a round of events. */
  function Settled(s: State, newest: int, others: bool, job: bool): State {
    var next := Progressed(s, others, job);
    if next.game.phase == Playing && next.game.again && next.desk.front == Ours then Retried(next, newest) else next
  }

  /** The waiting request is taken up, or given up. */
  function Retried(s: State, newest: int): State {
    var after := RestartActive(s.(game := s.game.(again := false)), newest);
    if after.game.phase == Playing then after.(past := s.past.(dropped := s.past.asked)) else after
  }

  /** A game is opened after its labels were read, which say whether it keeps rewinds; nothing else changes that. */
  datatype Event =
    | Ask(newest: int)
    | Write(saved: int)
    | Reap(own: bool, launch: Launch)
    | Open(launch: Launch, rewinds: bool)
    | Close
    | Settle(newest: int, others: bool, job: bool)
    | Look(front: Front, dashboard: bool, window: bool, shown: bool)

  /** What the outside world does: only a running game ends or is closed, and only one that is not running is opened. */
  predicate Possible(s: State, e: Event) {
    match e
    case Reap(own, _) => own ==> s.game.running
    case Open(_, _) => !s.game.running
    case Close => s.game.running
    case _ => true
  }

  function Acted(s: State, e: Event): State {
    match e
    case Ask(newest) => Asked(s, newest)
    case Write(saved) => Advanced(s, saved)
    case Reap(own, launch) => Reaped(s, own, launch)
    case Open(launch, rewinds) => Play(s.(desk := s.desk.(rewinds := rewinds)), launch)
    case Close => s.(game := s.game.(closing := true))
    case Settle(newest, others, job) => Settled(s, newest, others, job)
    case Look(front, dashboard, window, shown) => s.(desk := Desk(front, dashboard, s.desk.rewinds, window, shown))
  }

  function Later(s: State): State {
    s.(past := s.past.(time := s.past.time + 1))
  }

  function Next(s: State, e: Event): State {
    Later(Acted(s, e))
  }

  function Initial(): State {
    State(Game(Playing, false, false, false, 0), false, Desk(Nobody, true, false, false, false),
      Past(0, -1, -1, -1, 0, 0, None))
  }

  /** States and the events between them. */
  ghost predicate Run(states: seq<State>, events: seq<Event>) {
    && |states| == |events| + 1 && states[0] == Initial()
    && forall i :: 0 <= i < |events| ==> Possible(states[i], events[i]) && states[i + 1] == Next(states[i], events[i])
  }

  // Safety.

  predicate Holding(phase: Phase) {
    phase == Saving || phase == Closing || phase == Booting || phase == Probing
  }

  /** The hold file is there exactly while the phase needs the picture. */
  predicate HeldAsNeeded(s: State) {
    s.held == Holding(s.game.phase)
  }

  /** The slot of a restart: above all states at its request once it closes the game, and the one it is started with. */
  predicate SlotsRight(game: Game, past: Past) {
    && (game.phase == Saving ==> game.slot == past.newest)
    && (game.phase == Closing ==> game.closing)
    && (game.phase == Closing || Late(game.phase) ==> game.slot == past.written && past.written > past.newest)
    && (Late(game.phase) ==> past.resumed == Some(game.slot))
  }

  /** The running instance is newer than the latest request, or that is under way, waiting, or given up. */
  predicate RequestsKept(game: Game, past: Past) {
    && past.asked < past.time && past.booted < past.time
    && (past.asked == past.booted ==> !game.running) && (game.running ==> past.booted >= 0)
    && (game.running && past.asked > past.booted && past.asked != past.dropped ==>
          game.phase == Saving || game.phase == Closing || game.again)
  }

  /** What every event keeps. */
  predicate Inv(s: State) {
    SlotsRight(s.game, s.past) && RequestsKept(s.game, s.past) && (Holding(s.game.phase) ==> s.held)
  }

  lemma AskKeeps(s: State, newest: int)
    requires Inv(s)
    ensures Inv(Later(Asked(s, newest)))
  {
  }

  lemma WriteKeeps(s: State, saved: int)
    requires Inv(s)
    ensures Inv(Advanced(s, saved))
  {
  }

  lemma PlayKeeps(s: State, launch: Launch)
    requires Inv(s) && !s.game.running
    ensures Inv(Later(Play(s, launch)))
  {
  }

  lemma EndKeeps(s: State)
    requires Inv(s)
    ensures Inv(Ended(s)) && !Ended(s).game.running
  {
  }

  lemma LaterKeeps(s: State)
    requires Inv(s)
    ensures Inv(Later(s))
  {
  }

  lemma ReapKeeps(s: State, own: bool, launch: Launch)
    requires Inv(s)
    ensures Inv(Later(Reaped(s, own, launch)))
  {
    hide Inv, Play, Ended, Later;
    if own { EndKeeps(s); }
    var after := if own then Ended(s) else s;
    LaterKeeps(after);
    if !after.game.running { PlayKeeps(after, launch); }
  }

  lemma ProgressKeeps(s: State, others: bool, job: bool)
    requires Inv(s)
    ensures Inv(Progressed(s, others, job))
  {
  }

  lemma RetryKeeps(s: State, newest: int)
    requires Inv(s) && s.game.phase == Playing
    ensures Inv(Retried(s, newest))
  {
  }

  lemma SettleKeeps(s: State, newest: int, others: bool, job: bool)
    requires Inv(s)
    ensures Inv(Settled(s, newest, others, job))
  {
    hide Progressed, Retried, Inv;
    ProgressKeeps(s, others, job);
    var next := Progressed(s, others, job);
    if next.game.phase == Playing { RetryKeeps(next, newest); }
  }

  lemma CloseKeeps(s: State)
    requires Inv(s)
    ensures Inv(s.(game := s.game.(closing := true)))
  {
  }

  lemma DeskKeeps(s: State, desk: Desk)
    requires Inv(s)
    ensures Inv(s.(desk := desk))
  {
  }

  lemma StepKeeps(s: State, e: Event)
    requires Inv(s) && Possible(s, e)
    ensures Inv(Next(s, e))
  {
    hide Inv, Asked, Advanced, Reaped, Play, Settled, Heard, Later;
    match e
    case Ask(newest) => AskKeeps(s, newest);
    case Write(saved) => WriteKeeps(s, saved); LaterKeeps(Acted(s, e));
    case Reap(own, launch) => ReapKeeps(s, own, launch);
    case Open(launch, rewinds) =>
      var labelled := s.(desk := s.desk.(rewinds := rewinds));
      DeskKeeps(s, labelled.desk);
      PlayKeeps(labelled, launch);
    case Close => CloseKeeps(s); LaterKeeps(Acted(s, e));
    case Settle(newest, others, job) => SettleKeeps(s, newest, others, job); LaterKeeps(Acted(s, e));
    case Look(_, _, _, _) => DeskKeeps(s, Acted(s, e).desk); LaterKeeps(Acted(s, e));
  }

  lemma {:induction false} RunKeeps(states: seq<State>, events: seq<Event>, i: nat)
    requires Run(states, events) && i < |states|
    ensures Inv(states[i])
  {
    hide Next, Possible;
    if i == 0 {
      assert Inv(Initial());
    } else {
      hide Inv;
      RunKeeps(states, events, i - 1);
      StepKeeps(states[i - 1], events[i - 1]);
    }
  }

  /**
   A restart closes the game only when a state newer than all at its request has been written, to
   the slot that is kept.
   */
  lemma ClosesOnSavedState(states: seq<State>, events: seq<Event>, i: nat)
    requires Run(states, events) && i < |events|
    requires states[i].game.phase != Closing && states[i + 1].game.phase == Closing
    ensures events[i].Write? && states[i].game.phase == Saving
    ensures events[i].saved > states[i].past.newest
    ensures states[i + 1].game.slot == events[i].saved == states[i + 1].past.written
  {
    hide Inv, Next;
    RunKeeps(states, events, i);
    ClosingStep(states[i], events[i]);
  }

  lemma ClosingStep(s: State, e: Event)
    requires Inv(s) && s.game.phase != Closing && Next(s, e).game.phase == Closing
    ensures e.Write? && s.game.phase == Saving && e.saved > s.past.newest
    ensures Next(s, e).game.slot == e.saved == Next(s, e).past.written
  {
    hide Heard;
  }

  /** From the closing on the slot stays, and the game is started again with it. */
  lemma RelaunchGetsThatSlot(states: seq<State>, events: seq<Event>, i: nat)
    requires Run(states, events) && i < |events| && states[i].game.phase == Closing
    ensures Relaunching(states[i], states[i + 1])
  {
    hide Inv, Next, Possible;
    RunKeeps(states, events, i);
    assert states[i].game.closing && states[i].game.slot == states[i].past.written by { ClosingState(states[i]); }
    RelaunchStep(states[i], events[i]);
  }

  /** What a step may make of a game that is being closed for a restart. */
  predicate Relaunching(s: State, next: State) {
    && (next.game.phase == Closing || next.game.phase == Booting || !next.game.running)
    && next.game.slot == s.game.slot == s.past.written == next.past.written
    && (next.game.phase == Booting ==> next.past.resumed == Some(s.past.written))
  }

  lemma ClosingState(s: State)
    requires Inv(s) && s.game.phase == Closing
    ensures s.game.closing && s.game.slot == s.past.written
  {
  }

  lemma RelaunchStep(s: State, e: Event)
    requires s.game.closing && s.game.slot == s.past.written && Possible(s, e) && s.game.phase == Closing
    ensures Relaunching(s, Next(s, e))
  {
  }

  /** A game that just plays runs with everything asked for, unless the request was given up at a settling. */
  lemma NoRequestLost(states: seq<State>, events: seq<Event>, i: nat)
    requires Run(states, events) && i < |states|
    requires states[i].game.running && states[i].game.phase == Playing && !states[i].game.again
    ensures states[i].past.asked < states[i].past.booted || states[i].past.asked == states[i].past.dropped
  {
    hide Run;
    RunKeeps(states, events, i);
  }

  /** The user closes nothing, and the game is in front of the dashboard whenever a waiting request comes up. */
  ghost predicate StaysInFront(states: seq<State>, events: seq<Event>) {
    && Run(states, events)
    && forall i :: 0 <= i < |events| ==>
         !events[i].Close?
         && (events[i].Settle? && states[i].game.again ==> !states[i].desk.dashboard && states[i].desk.rewinds)
  }

  predicate NothingGivenUp(s: State) {
    (s.game.closing ==> s.game.phase == Closing) && s.past.dropped == -1
  }

  lemma FrontStep(s: State, e: Event)
    requires NothingGivenUp(s) && !e.Close? && (e.Settle? && s.game.again ==> !s.desk.dashboard && s.desk.rewinds)
    ensures NothingGivenUp(Next(s, e))
  {
  }

  lemma {:induction false} FrontKeeps(states: seq<State>, events: seq<Event>, i: nat)
    requires StaysInFront(states, events) && i < |states|
    ensures NothingGivenUp(states[i])
  {
    hide Next, Possible;
    if i > 0 {
      hide NothingGivenUp;
      FrontKeeps(states, events, i - 1);
      FrontStep(states[i - 1], events[i - 1]);
    }
  }

  /**
   While the game stays in front and the user closes nothing, a game that just plays was started
   after the latest request.
   */
  lemma InFrontNothingIsLost(states: seq<State>, events: seq<Event>, i: nat)
    requires StaysInFront(states, events) && i < |states|
    requires states[i].game.running && states[i].game.phase == Playing && !states[i].game.again
    ensures states[i].past.asked < states[i].past.booted
  {
    hide Run;
    RunKeeps(states, events, i);
    FrontKeeps(states, events, i);
  }

  /** A waiting request comes up: the restart before it is over, or ends with this settling. */
  predicate ComesUp(s: State) {
    s.game.again && (s.game.phase == Playing || (s.game.phase == Releasing && !s.desk.shown))
  }

  /**
   It is given up by the settling exactly when the dashboard is open, the game keeps no rewinds, or
   it is being closed.
   */
  lemma SettleGivesUp(s: State, newest: int, others: bool, job: bool)
    requires Inv(s) && s.game.running && s.desk.front == Ours && ComesUp(s)
    ensures var next := Next(s, Settle(newest, others, job));
            && !next.game.again
            && (next.game.phase == Playing <==> s.desk.dashboard || !s.desk.rewinds || s.game.closing)
            && (next.game.phase == Playing ==> next.past.dropped == s.past.asked)
            && (next.game.phase != Playing ==> next.game.phase == Saving && next.held && next.game.slot == newest)
  {
  }

  /** Any other settling leaves what is waiting as it is. */
  lemma SettleWaits(s: State, newest: int, others: bool, job: bool)
    requires Inv(s) && s.game.running && !(s.desk.front == Ours && ComesUp(s))
    ensures var next := Next(s, Settle(newest, others, job));
            next.game.again == s.game.again && next.past.dropped == s.past.dropped && next.past.asked == s.past.asked
  {
  }

  lemma ClosesFor(playing: State)
    requires playing == Next(Initial(), Open(Started, true))
    ensures Next(Next(playing, Ask(3)), Write(4)) ==
            State(Game(Closing, true, true, false, 4), true, Desk(Ours, false, true, false, false),
              Past(3, 1, 0, -1, 3, 4, None))
  {
  }

  lemma ReleasesAfter(closing: State, maps: Event)
    requires closing.game == Game(Closing, true, true, false, 4) && closing.held
    requires closing.past == Past(3, 1, 0, -1, 3, 4, None)
    requires closing.desk.rewinds && maps == Look(Ours, false, true, true)
    ensures Next(Next(Next(Next(closing, Reap(true, Started)), maps), Settle(5, false, false)), Write(5)) ==
            State(Game(Releasing, true, false, false, 4), false, Desk(Ours, false, true, true, true),
              Past(7, 1, 3, -1, 3, 4, Some(4)))
  {
  }

  lemma GivesUpAfter(releasing: State, leaves: Event)
    requires releasing.game == Game(Releasing, true, false, false, 4)
    requires releasing.past == Past(7, 1, 3, -1, 3, 4, Some(4))
    requires releasing.desk == Desk(Ours, false, true, true, true) && leaves == Look(Ours, true, true, false)
    ensures var settled := Next(Next(Next(releasing, Ask(5)), leaves), Settle(5, false, false));
            settled.game == Game(Playing, true, false, false, 4) && settled.past == Past(10, 7, 3, 7, 3, 4, Some(4))
  {
  }

  /**
   A run from the start that loses a request: a restart is nearly over when the game is asked to
   restart again, and the dashboard is opened before the compositor has let the picture go.
   */
  lemma RequestGivenUp() returns (states: seq<State>, events: seq<Event>)
    ensures Run(states, events)
    ensures var last := states[|states| - 1];
            && last.game.running && last.game.phase == Playing && !last.game.again
            && last.past.asked > last.past.booted && last.past.asked == last.past.dropped
  {
    hide Next;
    var opens, reaps, settles := Open(Started, true), Reap(true, Started), Settle(5, false, false);
    var maps, leaves := Look(Ours, false, true, true), Look(Ours, true, true, false);
    var playing := Next(Initial(), opens);
    var saving := Next(playing, Ask(3));
    var closing := Next(saving, Write(4));
    var booting := Next(closing, reaps);
    var mapped := Next(booting, maps);
    var probing := Next(mapped, settles);
    var releasing := Next(probing, Write(5));
    var waiting := Next(releasing, Ask(5));
    var left := Next(waiting, leaves);
    ClosesFor(playing);
    ReleasesAfter(closing, maps);
    GivesUpAfter(releasing, leaves);
    states := [Initial(), playing, saving, closing, booting, mapped, probing, releasing, waiting, left,
      Next(left, settles)];
    events := [opens, Ask(3), Write(4), reaps, maps, settles, Write(5), Ask(5), leaves, settles];
  }

  // A restart from its request to the game that plays again.

  /** A request in front of a playing game that keeps rewinds holds the picture and waits for a state. */
  lemma RequestSaves(s: State, newest: int)
    requires InGame(s) && s.desk.rewinds && !s.game.closing && s.game.phase == Playing
    ensures var next := Next(s, Ask(newest));
            && next.game == s.game.(phase := Saving, slot := newest) && next.held && next.desk == s.desk
            && next.past.asked == s.past.time
  {
  }

  /**
   A request in front of a game that is being restarted waits if that restart is past its start,
   and is covered by it before.
   */
  lemma RequestWaits(s: State, newest: int)
    requires Heard(s) && s.game.phase != Playing
    ensures var next := Next(s, Ask(newest));
            && next.game.phase == s.game.phase && next.held == s.held && next.past.asked == s.past.time
            && (s.game.phase in {Booting, Probing, Releasing} ==> next.game.again)
            && (s.game.phase in {Saving, Closing} ==> next.game.again == s.game.again)
  {
  }

  /**
   A request is not heard at all behind the dashboard, for another game, without rewinds, or while
   the user closes the game.
   */
  lemma RequestUnheard(s: State, newest: int)
    requires !Heard(s)
    ensures Next(s, Ask(newest)) == Later(s)
  {
  }

  /**
   A newer state closes the game that waits for it, and lets the picture go once the game runs
   again; an older one does nothing.
   */
  lemma StateMovesOn(s: State, saved: int)
    ensures var next := Next(s, Write(saved));
            && (next.game.phase == Closing && s.game.phase != Closing <==>
                 s.game.phase == Saving && saved > s.game.slot)
            && (next.game.phase == Releasing && s.game.phase != Releasing <==>
                 s.game.phase == Probing && saved > s.game.slot)
            && (next.game.phase != s.game.phase ==> next.game.phase == Closing || next.game.phase == Releasing)
            && (next.game.phase == Closing && s.game.phase == Saving ==> next.game.closing && next.game.slot == saved)
            && (next.game.phase == Releasing && s.game.phase == Probing ==> !next.held)
            && next.game.running == s.game.running && next.desk == s.desk
  {
  }

  /** The game closed for a restart is started again with its slot as soon as its process has ended. */
  lemma EndRelaunches(s: State, launch: Launch)
    requires s.game.phase == Closing && s.game.running
    ensures var next := Next(s, Reap(true, launch));
            match launch
            case Started =>
              && next.game == s.game.(phase := Booting, closing := false) && next.held == s.held && next.desk == s.desk
              && next.past.resumed == Some(s.game.slot) && next.past.booted == s.past.time
            case Refused => next.game == s.game.(running := false) && next.held == s.held && next.desk == s.desk
            case Failed =>
              && next.game.phase == Playing && !next.game.running && !next.game.again && !next.game.closing
                   && !next.held
              && next.desk.front == if s.desk.front == Ours then Nobody else s.desk.front
  {
  }

  /** Any other end leaves the front, and gives up the restart that was under way. */
  lemma EndGivesUp(s: State, launch: Launch)
    requires s.game.phase != Closing
    ensures var next := Next(s, Reap(true, launch));
            && next.game.phase == Playing && !next.game.running && !next.game.again
            && next.held == (s.held && s.game.phase == Playing)
            && next.desk == s.desk.(front := if s.desk.front == Ours then Nobody else s.desk.front)
  {
  }

  /**
   A game that is opened plays afresh in front; one that is refused changes nothing, one whose
   process fails has ended.
   */
  lemma OpensAfresh(s: State, launch: Launch, rewinds: bool)
    requires s.game.phase != Closing && !s.game.running
    ensures var next := Next(s, Open(launch, rewinds));
            && next.desk.rewinds == rewinds
            && match launch
               case Started =>
                 && next.game == s.game.(phase := Playing, running := true, closing := false)
                 && next.desk == s.desk.(front := Ours, dashboard := false, rewinds := rewinds)
                 && next.past.resumed == None && next.past.booted == s.past.time
               case Failed =>
                 && !next.game.running && next.game.phase == Playing && !next.game.again && !next.game.closing
                 && next.desk.front == if s.desk.front == Ours then Nobody else s.desk.front
               case Refused => next == Later(s.(desk := s.desk.(rewinds := rewinds)))
  {
  }

  /** The user's closing lasts until the game is started again. */
  lemma ClosingLasts(s: State, e: Event)
    requires Inv(s)
    ensures Next(s, e).game.closing <==>
            e.Close? || (s.game.closing && !Starts(s, e))
              || (e.Write? && s.game.phase == Saving && e.saved > s.game.slot)
  {
  }

  /** The event spawns the process of the game, or tries to. */
  predicate Starts(s: State, e: Event) {
    match e
    case Open(launch, _) => launch != Refused
    case Reap(own, launch) => launch != Refused && s.game.phase == Closing && (own || !s.game.running)
    case _ => false
  }

  /**
   A settling sees the window and the picture; the front is left when nothing of it is there any
   more, and that opens the dashboard.
   */
  lemma SettlingMovesOn(s: State, newest: int, others: bool, job: bool)
    ensures var next := Next(s, Settle(newest, others, job));
            var left := if s.desk.front == Ours then !s.game.running && !job else s.desk.front == Another && !others;
            && next.desk.front == (if left then Nobody else s.desk.front)
            && next.desk.dashboard == (s.desk.dashboard || next.desk.front == Nobody)
            && (s.game.phase == Booting ==> next.game.phase == if s.desk.window then Probing else Booting)
            && (s.game.phase == Releasing && s.desk.shown ==> next.game.phase == Releasing)
            && (s.game.phase == Releasing && !s.desk.shown && !s.game.again ==> next.game.phase == Playing)
            && (s.game.phase in {Saving, Closing, Probing} ==> next.game.phase == s.game.phase)
            && next.game.running == s.game.running && next.game.closing == s.game.closing
  {
  }

  /**
   Everything together: a request in front of a running game, a state, the end of its process, its
   window, a state, the picture gone.
   */
  lemma RestartCompletes(s: State, newest: int, saved: int, later: int)
    requires InGame(s) && s.desk.rewinds && !s.game.closing && s.game.phase == Playing
    requires s.game.running && !s.game.again
    requires newest < saved < later
    ensures var closing := Next(Next(s, Ask(newest)), Write(saved));
            var booting := Next(closing, Reap(true, Started));
            var probing := Next(Next(booting, Look(Ours, false, true, true)), Settle(later, false, false));
            var releasing := Next(probing, Write(later));
            var playing := Next(Next(releasing, Look(Ours, false, true, false)), Settle(later, false, false));
            && closing.game.phase == Closing && closing.held
            && booting.game.phase == Booting && booting.held && booting.past.resumed == Some(saved)
            && probing.game.phase == Probing && probing.held
            && releasing.game.phase == Releasing && !releasing.held
            && playing.game == s.game.(slot := saved) && !playing.held
                 && playing.past.booted > playing.past.asked == s.past.time
  {
    var saving := Next(s, Ask(newest));
    var closing := Next(saving, Write(saved));
    RequestSaves(s, newest);
    StateMovesOn(saving, saved);
    EndRelaunches(closing, Started);
    var booting := Next(closing, Reap(true, Started));
    var mapped := Next(booting, Look(Ours, false, true, true));
    SettlingMovesOn(mapped, later, false, false);
    var probing := Next(mapped, Settle(later, false, false));
    StateMovesOn(probing, later);
  }

  /** At the start the dashboard is open and nothing is in front. */
  lemma StartsAtDashboard()
    ensures Initial().desk == Desk(Nobody, true, false, false, false) && !InGame(Initial()) && !Initial().game.running
  {
  }

  // The hold file.

  /** A request that is heard in front of a playing game finds it running. */
  predicate AsksRunning(s: State, e: Event) {
    e.Ask? && Heard(s) && s.game.phase == Playing ==> s.game.running
  }

  /** The hold file is as needed, and a game without a process is being closed or has nothing waiting. */
  predicate Sound(s: State) {
    HeldAsNeeded(s) && (!s.game.running ==> s.game.phase == Closing || (s.game.phase == Playing && !s.game.again))
  }

  lemma StepKeepsSound(s: State, e: Event)
    requires Sound(s) && Possible(s, e) && AsksRunning(s, e)
    ensures Sound(Next(s, e))
  {
  }

  /** States that follow one another from a given one, every request in front of a playing game finding it running. */
  ghost predicate Onward(from: State, states: seq<State>, events: seq<Event>) {
    && |states| == |events| + 1 && states[0] == from
    && forall i :: 0 <= i < |events| ==>
         Possible(states[i], events[i]) && AsksRunning(states[i], events[i])
           && states[i + 1] == Next(states[i], events[i])
  }

  lemma {:induction false} OnwardSound(from: State, states: seq<State>, events: seq<Event>, i: nat)
    requires Sound(from) && Onward(from, states, events) && i < |states|
    ensures Sound(states[i])
  {
    hide Next, Possible, AsksRunning, Sound;
    if i > 0 {
      OnwardSound(from, states, events, i - 1);
      StepKeepsSound(states[i - 1], events[i - 1]);
    }
  }

  /** While requests find the game running, the hold file is there exactly from the request until the picture may go. */
  lemma HoldFollowsPhase(states: seq<State>, events: seq<Event>, i: nat)
    requires Onward(Initial(), states, events) && i < |states|
    ensures states[i].held <==> states[i].game.phase in {Saving, Closing, Booting, Probing}
  {
    hide Onward;
    OnwardSound(Initial(), states, events, i);
  }

  /** The hold file stays in step however things go on. */
  ghost predicate HoldsOn(from: State) {
    forall states, events, i :: Onward(from, states, events) && 0 <= i < |states| ==> HeldAsNeeded(states[i])
  }

  /**
   In a run whose requests found the game running so far, the next event leaves the hold file
   in step for good if and only if it is not a request in front of a playing game that has no
   process: the start of that game forgets the request and leaves the file behind.
   */
  lemma HoldNeedsProcess(states: seq<State>, events: seq<Event>, e: Event)
    requires Onward(Initial(), states, events) && Possible(states[|events|], e)
    ensures HoldsOn(Next(states[|events|], e)) <==> AsksRunning(states[|events|], e)
  {
    var s := states[|events|];
    hide Onward;
    OnwardSound(Initial(), states, events, |events|);
    var next := Next(s, e);
    if AsksRunning(s, e) {
      StepKeepsSound(s, e);
      hide Next, AsksRunning, Possible, Sound;
      forall more, after, i | Onward(next, more, after) && 0 <= i < |more| ensures HeldAsNeeded(more[i]) {
        OnwardSound(next, more, after, i);
        SoundHolds(more[i]);
      }
    } else {
      StartLeavesHold(s, e);
    }
  }

  lemma SoundHolds(s: State)
    requires Sound(s)
    ensures HeldAsNeeded(s)
  {
  }

  lemma StartLeavesHold(s: State, e: Event)
    requires Sound(s) && !AsksRunning(s, e)
    ensures !HoldsOn(Next(s, e))
  {
    var asked := Next(s, e);
    var started := Next(asked, Open(Started, true));
    var more, after := [asked, started], [Open(Started, true)];
    assert Onward(asked, more, after);
    assert !HeldAsNeeded(more[1]);
  }

  /**
   A run from the start that leaves the hold file behind: the game is opened, ends, is being
   prepared again, and a setting changes.
   */
  lemma HoldLeftBehind() returns (states: seq<State>, events: seq<Event>)
    ensures Run(states, events)
    ensures var last := states[|states| - 1]; last.held && last.game.phase == Playing && last.game.running
  {
    var opens, ends, front, asks := Open(Started, true), Reap(true, Refused), Look(Ours, false, false, false), Ask(-1);
    var playing := Next(Initial(), opens);
    var gone := Next(playing, ends);
    var preparing := Next(gone, front);
    var asked := Next(preparing, asks);
    var started := Next(asked, opens);
    states := [Initial(), playing, gone, preparing, asked, started];
    events := [opens, ends, front, asks, opens];
  }
}
