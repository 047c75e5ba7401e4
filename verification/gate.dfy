/**
 The gate between nested guest calls and the live saver.

 Any number of emulated threads run guest code and may call back into it
 (`run_fast_call`); one saver freezes them. They share three words,
 `live_save_nested_calls`, `live_save_stopping` and `live_save_draining`, and sleep
 on the first two through futexes. Every atomic access and every futex call is
 one step here, and the steps of all threads interleave freely.
 */
module Gate {

  /** Where a thread stands in `run_fast_call` and `enter_nested_call`. */
  datatype Place =
    | Outside       // no fast_call is active on this thread
    | Body          // running guest code inside fast_call
    | Announce      // about to add one to the nested calls
    | Check         // announced, about to read `stopping`
    | BackOff       // saw `stopping`, about to take the announcement back
    | Sleep         // about to wait on `stopping` while it is 1
    | Asleep        // waiting on `stopping`
    | Leave         // a nested call returned, about to subtract one
    | ReadDraining  // subtracted the last one, about to read `draining`
    | WakeSaver     // about to wake the sleepers on the nested calls

  /** `depth` is the thread-local call depth. */
  datatype Thread = Thread(depth: nat, at: Place)

  /** Where the saver stands; `drain` says whether it goes on to drain the calls. */
  datatype Saver =
    | Idle
    | StoreStopping | ReadCalls
    | Frozen
    | StoreAllow(drain: bool) | WakeCallers(drain: bool)
    | StoreDraining | ReadDrained | WaitFor(seen: int) | Parked | ClearDraining | ReadLast

  datatype State = State(threads: seq<Thread>, calls: int, stopping: bool, draining: bool, saver: Saver)

  datatype Action =
    | Spawn                 // a thread appears
    | Enter(t: nat)         // thread t starts a fast_call
    | Return(t: nat)        // the innermost fast_call of thread t returns
    | Go(t: nat)            // thread t takes its next step inside the gate
    | Interrupt(t: nat)     // the futex wait of thread t ends without a wake-up
    | Freeze                // the saver starts to stop the threads
    | Thaw                  // the saver resumes the threads
    | AllowAgain            // loading a state allows the calls once more
    | SaverGo               // the saver takes its next step
    | GiveUp                // the deadline of the saver passes

  function SetThread(s: State, t: nat, thread: Thread): State
    requires t < |s.threads|
  {
    s.(threads := s.threads[t := thread])
  }

  /** One step of thread t inside the gate. */
  function CallerGo(s: State, t: nat): State
    requires t < |s.threads|
  {
    var thread := s.threads[t];
    match thread.at
    case Announce => SetThread(s, t, thread.(at := Check)).(calls := s.calls + 1)
    case Check => SetThread(s, t, thread.(at := if s.stopping then BackOff else Body))
    case BackOff => SetThread(s, t, thread.(at := Sleep)).(calls := s.calls - 1)
    case Sleep => SetThread(s, t, thread.(at := if s.stopping then Asleep else Announce))
    case Leave => SetThread(s, t, thread.(at := if s.calls == 1 then ReadDraining else Body)).(calls := s.calls - 1)
    case ReadDraining => SetThread(s, t, thread.(at := if s.draining then WakeSaver else Body))
    case WakeSaver =>
      SetThread(s, t, thread.(at := Body)).(saver := if s.saver.Parked? then ReadDrained else s.saver)
    case _ => s
  }

  function CallerEnter(s: State, t: nat): State
    requires t < |s.threads|
  {
    var thread := s.threads[t];
    SetThread(s, t, Thread(thread.depth + 1, if thread.depth == 0 then Body else Announce))
  }

  function CallerReturn(s: State, t: nat): State
    requires t < |s.threads| && s.threads[t].depth > 0
  {
    var left := s.threads[t].depth - 1;
    SetThread(s, t, Thread(left, if left == 0 then Outside else Leave))
  }

  /** FUTEX_WAKE on `stopping`: every sleeper goes back to announce itself. */
  function Woken(threads: seq<Thread>): seq<Thread> {
    seq(|threads|, i requires 0 <= i < |threads| =>
      if threads[i].at == Asleep then threads[i].(at := Announce) else threads[i])
  }

  function SaverNext(s: State): State {
    match s.saver
    case StoreStopping => s.(stopping := true, saver := ReadCalls)
    case ReadCalls => s.(saver := if s.calls == 0 then Frozen else StoreAllow(true))
    case StoreAllow(drain) => s.(stopping := false, saver := WakeCallers(drain))
    case WakeCallers(drain) => s.(threads := Woken(s.threads), saver := if drain then StoreDraining else Idle)
    case StoreDraining => s.(draining := true, saver := ReadDrained)
    case ReadDrained => s.(saver := if s.calls == 0 then ClearDraining else WaitFor(s.calls))
    case WaitFor(seen) => s.(saver := if s.calls == seen then Parked else ReadDrained)
    case ClearDraining => s.(draining := false, saver := ReadLast)
    case ReadLast => s.(saver := Idle)
    case _ => s
  }

  predicate GatePlace(at: Place) {
    at in {Announce, Check, BackOff, Sleep, Leave, ReadDraining, WakeSaver}
  }

  predicate Enabled(s: State, a: Action) {
    match a
    case Spawn => true
    case Enter(t) => t < |s.threads| && s.threads[t].at in {Outside, Body}
    case Return(t) => t < |s.threads| && s.threads[t].at == Body && s.threads[t].depth > 0
    case Go(t) => t < |s.threads| && GatePlace(s.threads[t].at)
    case Interrupt(t) => t < |s.threads| && s.threads[t].at == Asleep
    case Freeze => s.saver == Idle
    case Thaw => s.saver == Frozen
    case AllowAgain => s.saver == Idle
    case SaverGo => s.saver !in {Idle, Frozen, Parked}
    case GiveUp => s.saver == Parked || (s.saver == ReadDrained && s.calls != 0)
  }

  function Next(s: State, a: Action): State
    requires Enabled(s, a)
  {
    match a
    case Spawn => s.(threads := s.threads + [Thread(0, Outside)])
    case Enter(t) => CallerEnter(s, t)
    case Return(t) => CallerReturn(s, t)
    case Go(t) => CallerGo(s, t)
    case Interrupt(t) => SetThread(s, t, s.threads[t].(at := Announce))
    case Freeze => s.(saver := StoreStopping)
    case Thaw => s.(saver := StoreAllow(false))
    case AllowAgain => s.(saver := StoreAllow(false))
    case SaverGo => SaverNext(s)
    case GiveUp => s.(saver := if s.saver == Parked then ReadDrained else ClearDraining)
  }

  const START := State([], 0, false, false, Idle)

  /** A run: states joined by enabled actions, from the start of the program. */
  ghost predicate Run(states: seq<State>, actions: seq<Action>) {
    && |states| == |actions| + 1
    && states[0] == START
    && forall i :: 0 <= i < |actions| ==> Enabled(states[i], actions[i]) && states[i + 1] == Next(states[i], actions[i])
  }

  // What the shared words mean.

  /** How many of the nested calls counted in the shared word are this thread's. */
  function Announced(thread: Thread): int {
    match thread.at
    case Outside => 0
    case Body => thread.depth - 1
    case Announce => thread.depth - 2
    case Check => thread.depth - 1
    case BackOff => thread.depth - 1
    case Sleep => thread.depth - 2
    case Asleep => thread.depth - 2
    case Leave => thread.depth
    case ReadDraining => thread.depth - 1
    case WakeSaver => thread.depth - 1
  }

  /** Nested fast_call bodies this thread has entered and not finished. */
  function NestedBodies(thread: Thread): int {
    match thread.at
    case Outside => 0
    case Body => thread.depth - 1
    case Leave => thread.depth - 1
    case ReadDraining => thread.depth - 1
    case WakeSaver => thread.depth - 1
    case _ => thread.depth - 2
  }

  predicate WellFormed(thread: Thread) {
    match thread.at
    case Outside => thread.depth == 0
    case Body => thread.depth >= 1
    case Leave => thread.depth >= 1
    case ReadDraining => thread.depth >= 1
    case WakeSaver => thread.depth >= 1
    case _ => thread.depth >= 2
  }

  function TotalAnnounced(threads: seq<Thread>): int {
    if threads == [] then 0 else TotalAnnounced(threads[..|threads| - 1]) + Announced(threads[|threads| - 1])
  }

  /** The saver has read zero calls while stopping them and has not yet allowed them again. */
  predicate Excluding(s: State) {
    s.saver == Frozen || (s.saver == StoreAllow(false) && s.stopping)
  }

  /** A thread that will make the saver look again if it goes on. */
  predicate Waker(thread: Thread) {
    thread.at in {ReadDraining, WakeSaver, Sleep, Announce}
  }

  predicate SomeWaker(threads: seq<Thread>) {
    exists i :: 0 <= i < |threads| && Waker(threads[i])
  }

  ghost predicate Inv(s: State) {
    && (forall i :: 0 <= i < |s.threads| ==> WellFormed(s.threads[i]))
    && s.calls == TotalAnnounced(s.threads)
    && (s.saver in {ReadCalls, Frozen} ==> s.stopping)
    && (s.stopping ==> s.saver in {ReadCalls, Frozen} || s.saver.StoreAllow?)
    && (s.draining <==> s.saver in {ReadDrained, Parked, ClearDraining} || s.saver.WaitFor?)
    && (Excluding(s) ==> forall i :: 0 <= i < |s.threads| ==>
         NestedBodies(s.threads[i]) == 0 && s.threads[i].at != Leave)
    && (forall i :: 0 <= i < |s.threads| && s.threads[i].at == Asleep ==> s.stopping || s.saver.WakeCallers?)
    && (s.saver.WaitFor? ==> s.saver.seen != 0)
    && (s.saver == Parked && s.calls == 0 ==> SomeWaker(s.threads))
  }

  // Sums over the threads.

  lemma {:induction false} TotalUpdate(threads: seq<Thread>, t: nat, thread: Thread)
    requires t < |threads|
    ensures TotalAnnounced(threads[t := thread]) == TotalAnnounced(threads) - Announced(threads[t]) + Announced(thread)
  {
    var last := |threads| - 1;
    if t == last {
      assert threads[t := thread][..last] == threads[..last];
    } else {
      assert threads[t := thread][..last] == threads[..last][t := thread];
      TotalUpdate(threads[..last], t, thread);
    }
  }

  lemma {:induction false} TotalWoken(threads: seq<Thread>)
    ensures TotalAnnounced(Woken(threads)) == TotalAnnounced(threads)
  {
    if threads != [] {
      var last := |threads| - 1;
      assert Woken(threads)[..last] == Woken(threads[..last]);
      TotalWoken(threads[..last]);
    }
  }

  lemma {:induction false} TotalBounds(threads: seq<Thread>)
    requires forall i :: 0 <= i < |threads| ==> WellFormed(threads[i])
    ensures TotalAnnounced(threads) >= 0
    ensures TotalAnnounced(threads) == 0 ==> forall i :: 0 <= i < |threads| ==> Announced(threads[i]) == 0
  {
    if threads != [] {
      var rest := threads[..|threads| - 1];
      TotalBounds(rest);
      assert forall i :: 0 <= i < |rest| ==> threads[i] == rest[i];
    }
  }

  // Every step keeps the invariant.

  lemma KeepsEnter(s: State, t: nat)
    requires Inv(s) && Enabled(s, Enter(t))
    ensures Inv(Next(s, Enter(t)))
  {
    var next := Next(s, Enter(t));
    TotalUpdate(s.threads, t, next.threads[t]);
    if next.saver == Parked && next.calls == 0 {
      var w :| 0 <= w < |s.threads| && Waker(s.threads[w]);
      assert w != t && Waker(next.threads[w]);
    }
  }

  lemma KeepsReturn(s: State, t: nat)
    requires Inv(s) && Enabled(s, Return(t))
    ensures Inv(Next(s, Return(t)))
  {
    var next := Next(s, Return(t));
    TotalUpdate(s.threads, t, next.threads[t]);
    if next.saver == Parked && next.calls == 0 {
      var w :| 0 <= w < |s.threads| && Waker(s.threads[w]);
      assert w != t && Waker(next.threads[w]);
    }
  }

  lemma KeepsWaker(s: State, t: nat, thread: Thread)
    requires t < |s.threads| && SomeWaker(s.threads)
    requires Waker(s.threads[t]) ==> Waker(thread)
    ensures SomeWaker(s.threads[t := thread])
  {
    var w :| 0 <= w < |s.threads| && Waker(s.threads[w]);
    assert Waker(s.threads[t := thread][w]);
  }

  lemma KeepsAnnounce(s: State, t: nat)
    requires Inv(s) && Enabled(s, Go(t)) && s.threads[t].at == Announce
    ensures Inv(Next(s, Go(t)))
  {
    TotalUpdate(s.threads, t, Next(s, Go(t)).threads[t]);
    TotalBounds(s.threads);
  }

  lemma KeepsCheck(s: State, t: nat)
    requires Inv(s) && Enabled(s, Go(t)) && s.threads[t].at == Check
    ensures Inv(Next(s, Go(t)))
  {
    var thread := Next(s, Go(t)).threads[t];
    TotalUpdate(s.threads, t, thread);
    if SomeWaker(s.threads) { KeepsWaker(s, t, thread); }
  }

  lemma KeepsBackOff(s: State, t: nat)
    requires Inv(s) && Enabled(s, Go(t)) && s.threads[t].at == BackOff
    ensures Inv(Next(s, Go(t)))
  {
    var thread := Next(s, Go(t)).threads[t];
    TotalUpdate(s.threads, t, thread);
    assert SomeWaker(s.threads[t := thread]) by { assert Waker(s.threads[t := thread][t]); }
  }

  lemma KeepsSleep(s: State, t: nat)
    requires Inv(s) && Enabled(s, Go(t)) && s.threads[t].at == Sleep
    ensures Inv(Next(s, Go(t)))
  {
    var thread := Next(s, Go(t)).threads[t];
    TotalUpdate(s.threads, t, thread);
    if !s.stopping {
      assert SomeWaker(s.threads[t := thread]) by { assert Waker(s.threads[t := thread][t]); }
    }
  }

  lemma KeepsLeave(s: State, t: nat)
    requires Inv(s) && Enabled(s, Go(t)) && s.threads[t].at == Leave
    ensures Inv(Next(s, Go(t)))
  {
    var thread := Next(s, Go(t)).threads[t];
    TotalUpdate(s.threads, t, thread);
    TotalBounds(s.threads[t := thread]);
    if s.calls == 1 {
      assert SomeWaker(s.threads[t := thread]) by { assert Waker(s.threads[t := thread][t]); }
    }
  }

  lemma KeepsReadDraining(s: State, t: nat)
    requires Inv(s) && Enabled(s, Go(t)) && s.threads[t].at == ReadDraining
    ensures Inv(Next(s, Go(t)))
  {
    var thread := Next(s, Go(t)).threads[t];
    TotalUpdate(s.threads, t, thread);
    if s.draining {
      assert SomeWaker(s.threads[t := thread]) by { assert Waker(s.threads[t := thread][t]); }
    }
  }

  lemma KeepsWakeSaver(s: State, t: nat)
    requires Inv(s) && Enabled(s, Go(t)) && s.threads[t].at == WakeSaver
    ensures Inv(Next(s, Go(t)))
  {
    TotalUpdate(s.threads, t, Next(s, Go(t)).threads[t]);
  }

  lemma KeepsGo(s: State, t: nat)
    requires Inv(s) && Enabled(s, Go(t))
    ensures Inv(Next(s, Go(t)))
  {
    match s.threads[t].at
    case Announce => KeepsAnnounce(s, t);
    case Check => KeepsCheck(s, t);
    case BackOff => KeepsBackOff(s, t);
    case Sleep => KeepsSleep(s, t);
    case Leave => KeepsLeave(s, t);
    case ReadDraining => KeepsReadDraining(s, t);
    case WakeSaver => KeepsWakeSaver(s, t);
  }

  lemma KeepsSaver(s: State)
    requires Inv(s) && Enabled(s, SaverGo)
    ensures Inv(Next(s, SaverGo))
  {
    TotalWoken(s.threads);
    TotalBounds(s.threads);
  }

  lemma KeepsSpawn(s: State)
    requires Inv(s)
    ensures Inv(Next(s, Spawn))
  {
    var next := Next(s, Spawn);
    assert next.threads[..|next.threads| - 1] == s.threads;
    if next.saver == Parked && next.calls == 0 {
      var w :| 0 <= w < |s.threads| && Waker(s.threads[w]);
      assert Waker(next.threads[w]);
    }
  }

  lemma KeepsInterrupt(s: State, t: nat)
    requires Inv(s) && Enabled(s, Interrupt(t))
    ensures Inv(Next(s, Interrupt(t)))
  {
    TotalUpdate(s.threads, t, Next(s, Interrupt(t)).threads[t]);
  }

  lemma KeepsOrder(s: State, a: Action)
    requires Inv(s) && Enabled(s, a) && (a.Freeze? || a.Thaw? || a.AllowAgain? || a.GiveUp?)
    ensures Inv(Next(s, a))
  {
  }

  lemma StepKeepsInv(s: State, a: Action)
    requires Inv(s) && Enabled(s, a)
    ensures Inv(Next(s, a))
  {
    hide Inv, Next;
    match a
    case Spawn => KeepsSpawn(s);
    case Enter(t) => KeepsEnter(s, t);
    case Return(t) => KeepsReturn(s, t);
    case Go(t) => KeepsGo(s, t);
    case Interrupt(t) => KeepsInterrupt(s, t);
    case SaverGo => KeepsSaver(s);
    case _ => KeepsOrder(s, a);
  }

  lemma {:induction false} RunKeepsInv(states: seq<State>, actions: seq<Action>, i: nat)
    requires Run(states, actions) && i < |states|
    ensures Inv(states[i])
  {
    if i > 0 {
      RunKeepsInv(states, actions, i - 1);
      assert states[i - 1 + 1] == Next(states[i - 1], actions[i - 1]);
      StepKeepsInv(states[i - 1], actions[i - 1]);
    }
  }

  // The results.

  /** The shared word always counts the announced calls, transient announcements included. */
  lemma CallsAreCounted(states: seq<State>, actions: seq<Action>, i: nat)
    requires Run(states, actions) && i < |states|
    ensures states[i].calls == TotalAnnounced(states[i].threads) >= 0
  {
    RunKeepsInv(states, actions, i);
    TotalBounds(states[i].threads);
  }

  /** While the saver holds the gate no thread is inside a nested call, at any depth. */
  lemma GateExcludes(states: seq<State>, actions: seq<Action>, i: nat, t: nat)
    requires Run(states, actions) && i < |states| && t < |states[i].threads|
    requires Excluding(states[i])
    ensures NestedBodies(states[i].threads[t]) == 0
    ensures states[i].threads[t].at == Body ==> states[i].threads[t].depth == 1
  {
    RunKeepsInv(states, actions, i);
  }

  /** No wake-up is lost on either futex, and the saver never drains what it is stopping. */
  lemma NoLostWakeUp(states: seq<State>, actions: seq<Action>, i: nat)
    requires Run(states, actions) && i < |states|
    ensures states[i].saver == Parked ==> states[i].calls > 0 || SomeWaker(states[i].threads)
    ensures forall t :: 0 <= t < |states[i].threads| && states[i].threads[t].at == Asleep && !states[i].stopping ==>
                          states[i].saver.WakeCallers?
    ensures states[i].draining ==> !states[i].stopping
  {
    RunKeepsInv(states, actions, i);
    TotalBounds(states[i].threads);
  }

  // What the gate lets through.

  /** The saver goes on alone for `n` steps. */
  function SaverSteps(s: State, n: nat): State {
    if n == 0 then s else SaverNext(SaverSteps(s, n - 1))
  }

  predicate NoneAnnounced(threads: seq<Thread>) {
    forall i :: 0 <= i < |threads| ==> Announced(threads[i]) == 0
  }

  lemma {:induction false} NoneCounted(threads: seq<Thread>)
    requires NoneAnnounced(threads)
    ensures TotalAnnounced(threads) == 0
  {
    if threads != [] { NoneCounted(threads[..|threads| - 1]); }
  }

  /** The saver that has read the calls stops the threads if and only if no thread has announced one. */
  lemma FreezesExactly(s: State)
    requires Inv(s) && s.saver == ReadCalls
    ensures Next(s, SaverGo).saver == Frozen <==> NoneAnnounced(s.threads)
    ensures Next(s, SaverGo).saver == Frozen || Next(s, SaverGo).saver == StoreAllow(true)
  {
    TotalBounds(s.threads);
    if NoneAnnounced(s.threads) { NoneCounted(s.threads); }
  }

  lemma FreezesOrRefuses(s: State)
    requires Inv(s) && s.saver == Idle
    ensures var read := SaverSteps(Next(s, Freeze), 2);
            && (read.saver == Frozen <==> NoneAnnounced(s.threads))
                 && (read.saver != Frozen ==> read.saver == StoreAllow(true))
            && read.threads == s.threads && read.calls == s.calls && read.stopping
  {
    hide Inv;
    StepKeepsInv(s, Freeze);
    var started := Next(s, Freeze);
    StepKeepsInv(started, SaverGo);
    FreezesExactly(SaverNext(started));
    TwoSteps(started);
  }

  lemma TwoSteps(s: State)
    ensures SaverSteps(s, 2) == SaverNext(SaverNext(s))
  {
    hide SaverNext;
    assert SaverSteps(s, 1) == SaverNext(s);
  }

  lemma RunsOn(states: seq<State>, actions: seq<Action>, a: Action)
    requires Run(states, actions) && Enabled(states[|states| - 1], a)
    ensures Run(states + [Next(states[|states| - 1], a)], actions + [a])
  {
    hide Enabled, Next;
  }

  /** From every state of a run in which no call is announced, a save can go on to stop the threads. */
  lemma FreezeIsReached(states: seq<State>, actions: seq<Action>) returns (more: seq<State>)
    requires Run(states, actions)
    requires states[|states| - 1].saver == Idle && NoneAnnounced(states[|states| - 1].threads)
    ensures Run(more, actions + [Freeze] + [SaverGo] + [SaverGo]) && more[|more| - 1].saver == Frozen
    ensures more[..|states|] == states && more[|more| - 1].threads == states[|states| - 1].threads
  {
    var s, last: nat := states[|states| - 1], |states| - 1;
    hide Inv, NoneAnnounced, Run;
    RunKeepsInv(states, actions, last);
    FreezesOrRefuses(s);
    var started := Next(s, Freeze);
    var stored := SaverNext(started);
    TwoSteps(started);
    RunsOn(states, actions, Freeze);
    RunsOn(states + [started], actions + [Freeze], SaverGo);
    RunsOn(states + [started] + [stored], actions + [Freeze] + [SaverGo], SaverGo);
    more := states + [started] + [stored] + [SaverNext(stored)];
  }

  lemma WokenAll(threads: seq<Thread>)
    ensures |Woken(threads)| == |threads|
    ensures forall i :: 0 <= i < |threads| ==>
              Woken(threads)[i].depth == threads[i].depth && Woken(threads)[i].at != Asleep
              && (if threads[i].at == Asleep then Woken(threads)[i].at == Announce else Woken(threads)[i] == threads[i])
  {
  }

  /** A refused saver lets everyone go, draws attention to itself, and sleeps until the calls change. */
  lemma RefusalParks(s: State)
    requires s.saver == StoreAllow(true) && s.calls != 0
    ensures SaverSteps(s, 5) == s.(threads := Woken(s.threads), stopping := false, draining := true, saver := Parked)
  {
    var woken := s.(threads := Woken(s.threads), stopping := false);
    assert SaverSteps(s, 1) == s.(stopping := false, saver := WakeCallers(true));
    assert SaverSteps(s, 2) == woken.(saver := StoreDraining);
    assert SaverSteps(s, 3) == woken.(draining := true, saver := ReadDrained);
    assert SaverSteps(s, 4) == woken.(draining := true, saver := WaitFor(s.calls));
  }

  /** A thaw, or allowing the calls again, lets everyone go who waited. */
  lemma ThawLetsGo(s: State, a: Action)
    requires Inv(s) && Enabled(s, a) && (a.Thaw? || a.AllowAgain?)
    ensures SaverSteps(Next(s, a), 2) == s.(threads := Woken(s.threads), stopping := false, saver := Idle)
  {
    var thawing := Next(s, a);
    assert SaverSteps(thawing, 1) == s.(stopping := false, saver := WakeCallers(false));
  }

  /** A drain is over at the first reading of no calls, and at no other. */
  lemma DrainIsOver(s: State)
    requires Inv(s) && s.saver == ReadDrained
    ensures Next(s, SaverGo).saver == ClearDraining <==> NoneAnnounced(s.threads)
    ensures SaverSteps(s.(saver := ClearDraining), 2) == s.(draining := false, saver := Idle)
  {
    TotalBounds(s.threads);
    if NoneAnnounced(s.threads) { NoneCounted(s.threads); }
    var clearing := s.(saver := ClearDraining);
    assert SaverSteps(clearing, 1) == s.(draining := false, saver := ReadLast);
  }

  /**
   When its deadline passes a waiting saver looks once more, and then gives the drain up; one that
   sees no calls has no need to.
   */
  lemma DeadlineEndsDrain(s: State)
    requires s.saver == Parked
    ensures Enabled(s, GiveUp) && Next(s, GiveUp) == s.(saver := ReadDrained)
    ensures var looking := Next(s, GiveUp);
            if s.calls == 0 then !Enabled(looking, GiveUp)
              && SaverSteps(looking, 3) == s.(draining := false, saver := Idle)
            else Enabled(looking, GiveUp)
                   && SaverSteps(Next(looking, GiveUp), 2) == s.(draining := false, saver := Idle)
  {
    var clearing := s.(saver := ClearDraining);
    TwoSteps(clearing);
    if s.calls == 0 { assert SaverSteps(s.(saver := ReadDrained), 1) == clearing; }
  }

  /** Thread t takes `n` steps inside the gate, and nobody else moves. */
  function CallerSteps(s: State, t: nat, n: nat): (next: State)
    requires t < |s.threads|
    ensures |next.threads| == |s.threads|
  {
    if n == 0 then s else CallerGo(CallerSteps(s, t, n - 1), t)
  }

  /** A first call is never held up, and while nobody stops the calls a nested one gets in as well. */
  lemma CallGetsIn(s: State, t: nat)
    requires t < |s.threads| && Enabled(s, Enter(t)) && WellFormed(s.threads[t])
    ensures var depth, entered := s.threads[t].depth, Next(s, Enter(t));
            if depth == 0 then entered == SetThread(s, t, Thread(1, Body))
            else !s.stopping ==>
              CallerSteps(entered, t, 2) == SetThread(s, t, Thread(depth + 1, Body)).(calls := s.calls + 1)
  {
    var entered := Next(s, Enter(t));
    assert CallerSteps(entered, t, 1) == CallerGo(entered, t);
  }

  /** While the calls are stopped a nested one takes its announcement back and sleeps; woken, it tries again. */
  lemma CallWaits(s: State, t: nat)
    requires t < |s.threads| && s.threads[t].at == Announce && s.stopping
    ensures var waiting := CallerSteps(s, t, 4);
            && waiting == SetThread(s, t, s.threads[t].(at := Asleep))
            && Next(waiting, Interrupt(t)) == s
  {
    var thread := s.threads[t];
    assert CallerSteps(s, t, 1) == SetThread(s, t, thread.(at := Check)).(calls := s.calls + 1);
    assert CallerSteps(s, t, 2) == SetThread(s, t, thread.(at := BackOff)).(calls := s.calls + 1);
    assert CallerSteps(s, t, 3) == SetThread(s, t, thread.(at := Sleep));
    assert s.threads[t := thread] == s.threads;
  }

  /** A sleep that comes too late is none. */
  lemma CallNeedNotWait(s: State, t: nat)
    requires t < |s.threads| && s.threads[t].at == Sleep && !s.stopping
    ensures Next(s, Go(t)) == SetThread(s, t, s.threads[t].(at := Announce))
  {
  }

  /** A call that returns is taken back; the last one of all wakes a saver that waits for it. */
  lemma CallReturns(s: State, t: nat)
    requires Inv(s) && Enabled(s, Return(t))
    ensures var depth, returned := s.threads[t].depth, Next(s, Return(t));
            if depth == 1 then returned == SetThread(s, t, Thread(0, Outside))
            else
              var back := SetThread(s, t, Thread(depth - 1, Body)).(calls := s.calls - 1);
              if s.calls > 1 then CallerSteps(returned, t, 1) == back
              else if !s.draining then CallerSteps(returned, t, 2) == back
              else CallerSteps(returned, t, 3) == back.(saver := if s.saver == Parked then ReadDrained else s.saver)
  {
    var returned, left := Next(s, Return(t)), s.threads[t].depth - 1;
    if left > 0 {
      TotalBounds(s.threads);
      SomeAnnounced(s.threads, t);
      var taken := SetThread(s, t, Thread(left, ReadDraining)).(calls := s.calls - 1);
      assert CallerSteps(returned, t, 1) == CallerGo(returned, t);
      if s.calls == 1 {
        assert CallerSteps(returned, t, 1) == taken;
        assert CallerSteps(returned, t, 2) == CallerGo(taken, t);
      }
    }
  }

  lemma {:induction false} SomeAnnounced(threads: seq<Thread>, t: nat)
    requires t < |threads| && Announced(threads[t]) > 0 && forall i :: 0 <= i < |threads| ==> WellFormed(threads[i])
    ensures TotalAnnounced(threads) >= 1
  {
    var rest := threads[..|threads| - 1];
    TotalBounds(rest);
    if t < |rest| { SomeAnnounced(rest, t); }
  }

  // A parked saver cannot be stranded: the callers alone wake it, in a bounded number of steps.

  /** A step a thread takes without starting a new call. */
  predicate Finishing(s: State, a: Action) {
    (a.Go? || a.Return?) && Enabled(s, a)
  }

  function Rank(thread: Thread): int {
    10 * thread.depth +
    match thread.at
    case Outside => 0
    case BackOff => 9
    case Sleep => 8
    case Leave => 8
    case Announce => 7
    case ReadDraining => 7
    case Check => 6
    case WakeSaver => 6
    case Body => 5
    case Asleep => 0
  }

  function TotalRank(threads: seq<Thread>): int {
    if threads == [] then 0 else TotalRank(threads[..|threads| - 1]) + Rank(threads[|threads| - 1])
  }

  lemma {:induction false} RankUpdate(threads: seq<Thread>, t: nat, thread: Thread)
    requires t < |threads|
    ensures TotalRank(threads[t := thread]) == TotalRank(threads) - Rank(threads[t]) + Rank(thread)
  {
    var last := |threads| - 1;
    if t == last {
      assert threads[t := thread][..last] == threads[..last];
    } else {
      assert threads[t := thread][..last] == threads[..last][t := thread];
      RankUpdate(threads[..last], t, thread);
    }
  }

  lemma {:induction false} RankNatural(threads: seq<Thread>)
    ensures TotalRank(threads) >= 0
  {
    if threads != [] { RankNatural(threads[..|threads| - 1]); }
  }

  lemma {:induction false} SomeoneAnnounced(threads: seq<Thread>) returns (t: nat)
    requires TotalAnnounced(threads) > 0
    ensures t < |threads| && Announced(threads[t]) > 0
  {
    if Announced(threads[|threads| - 1]) > 0 {
      t := |threads| - 1;
    } else {
      t := SomeoneAnnounced(threads[..|threads| - 1]);
    }
  }

  /** No deadlock: while the saver is parked some thread can go on without a new call. */
  lemma ParkedSaverHasHelp(s: State) returns (a: Action)
    requires Inv(s) && s.saver == Parked
    ensures Finishing(s, a)
  {
    if s.calls == 0 {
      var w :| 0 <= w < |s.threads| && Waker(s.threads[w]);
      a := Go(w);
    } else {
      TotalBounds(s.threads);
      var t := SomeoneAnnounced(s.threads);
      a := if s.threads[t].at == Body then Return(t) else Go(t);
    }
  }

  lemma FinishingMovesOne(s: State, a: Action)
    requires Inv(s) && !s.stopping && Finishing(s, a)
    ensures a.t < |s.threads| == |Next(s, a).threads| && Next(s, a).threads == s.threads[a.t := Next(s, a).threads[a.t]]
    ensures Rank(Next(s, a).threads[a.t]) < Rank(s.threads[a.t]) && !Next(s, a).stopping
  {
    hide TotalAnnounced, Excluding, SomeWaker, NestedBodies;
  }

  /** Threads finishing their calls move down the rank while nothing stops them. */
  lemma FinishingLowersRank(s: State, a: Action)
    requires Inv(s) && !s.stopping && Finishing(s, a)
    ensures TotalRank(Next(s, a).threads) < TotalRank(s.threads)
    ensures !Next(s, a).stopping
  {
    hide TotalRank, Inv;
    var t := a.t;
    FinishingMovesOne(s, a);
    RankUpdate(s.threads, t, Next(s, a).threads[t]);
  }

  /** The states reached by a list of actions. */
  ghost predicate Path(states: seq<State>, actions: seq<Action>) {
    && |states| == |actions| + 1
    && forall i :: 0 <= i < |actions| ==> Enabled(states[i], actions[i]) && states[i + 1] == Next(states[i], actions[i])
  }

  /** However the threads are scheduled, more than TotalRank finishing steps wake the saver. */
  lemma {:induction false} DrainEnds(states: seq<State>, actions: seq<Action>)
    requires Path(states, actions) && Inv(states[0])
    requires forall i :: 0 <= i < |actions| ==> Finishing(states[i], actions[i])
    requires forall i :: 0 <= i < |states| ==> states[i].saver == Parked
    ensures |actions| <= TotalRank(states[0].threads)
  {
    RankNatural(states[0].threads);
    if actions != [] {
      FinishingLowersRank(states[0], actions[0]);
      StepKeepsInv(states[0], actions[0]);
      var rest, next := states[1..], actions[1..];
      assert rest[0] == Next(states[0], actions[0]);
      forall i | 0 <= i < |next| ensures Enabled(rest[i], next[i]) && rest[i + 1] == Next(rest[i], next[i]) {
        assert rest[i] == states[i + 1] && next[i] == actions[i + 1];
      }
      forall i | 0 <= i < |next| ensures Finishing(rest[i], next[i]) {
        assert rest[i] == states[i + 1] && next[i] == actions[i + 1];
      }
      DrainEnds(rest, next);
    }
  }
}
