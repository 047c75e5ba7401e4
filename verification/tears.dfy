/**
 The slot that is armed for the next boot may be torn before that boot: by which scripts,
 with power failing after any of their steps.
 */
module Tears {
  import opened Options
  import opened Updates

  predicate Armed(s: State, slot: Slot) {
    s.env == Env(Other(slot), slot, true)
  }

  /** The other slot is to be tried next, and holds a whole release. */
  predicate ArmedWhole(s: State, slot: Slot) {
    Armed(s, slot) && ContentOf(s, Other(slot)).Whole?
  }

  predicate ArmedTorn(s: State, slot: Slot) {
    Armed(s, slot) && ContentOf(s, Other(slot)) == Torn
  }

  /** The events that begin to write the other slot. */
  predicate Tears(known: Record, version: int, e: Event) {
    match e
    case Poll(release, choice) => Syncs(known, release, version, choice) && choice.sync != Unmounted
    case Update(release, sync) => release != version && sync != Unmounted
    case _ => false
  }

  // Which scripts wipe.

  lemma {:induction false} SyncWipes(release: int, slot: Slot, sync: Sync)
    ensures Wipe(Other(slot)) in SyncOps(release, slot, sync) <==> sync != Unmounted
  {
    var ops := SyncOps(release, slot, sync);
    if sync != Unmounted { assert ops[0] == Wipe(Other(slot)); }
  }

  lemma {:induction false} UpdateWipes(release: int, version: int, slot: Slot, sync: Sync)
    ensures Wipe(Other(slot)) in UpdateOps(release, version, slot, sync) <==> release != version && sync != Unmounted
  {
    hide SyncOps;
    SyncWipes(release, slot, sync);
  }

  lemma {:induction false} PollWipes(known: Record, release: int, version: int, slot: Slot, c: Choice)
    ensures Wipe(Other(slot)) in PollOps(known, release, version, slot, c) <==>
            Syncs(known, release, version, c) && c.sync != Unmounted
  {
    hide SyncOps;
    SyncWipes(release, slot, c.sync);
  }

  // What a script does to the armed slot when it is cut short.

  /**
   One step of a machine watching from this slot leaves the other one armed; a wipe tears it,
   anything else leaves or fills it.
   */
  lemma OneTears(s: State, m: Machine, op: Op)
    requires Armed(s, m.slot) && m.stage == Watching && Fitting(m, op)
    ensures Armed(Done(s, op), m.slot)
    ensures op == Wipe(Other(m.slot)) ==> ArmedTorn(Done(s, op), m.slot)
    ensures op != Wipe(Other(m.slot)) && ArmedWhole(s, m.slot) ==> ArmedWhole(Done(s, op), m.slot)
  {
  }

  lemma {:induction false} StaysArmed(s: State, m: Machine, ops: seq<Op>)
    requires Armed(s, m.slot) && m.stage == Watching && OpsFit(m, ops)
    ensures Armed(Executed(s, ops), m.slot)
    ensures ArmedWhole(s, m.slot) && Wipe(Other(m.slot)) !in ops ==> ArmedWhole(Executed(s, ops), m.slot)
    ensures ops != [] && ops[|ops| - 1] == Wipe(Other(m.slot)) ==> ArmedTorn(Executed(s, ops), m.slot)
  {
    hide Done, Fitting, ArmedTorn;
    if ops != [] {
      var rest, last := ops[..|ops| - 1], ops[|ops| - 1];
      assert last in ops;
      StaysArmed(s, m, rest);
      OneTears(Executed(s, rest), m, last);
    }
  }

  /** After some of the steps the armed slot is torn. */
  ghost predicate MayTear(s: State, slot: Slot, ops: seq<Op>) {
    exists n :: 0 <= n <= |ops| && ArmedTorn(Executed(s, ops[..n]), slot)
  }

  lemma FitsUpTo(m: Machine, ops: seq<Op>, n: nat)
    requires OpsFit(m, ops) && n <= |ops|
    ensures OpsFit(m, ops[..n])
  {
  }

  lemma {:induction false} CutShort(s: State, m: Machine, ops: seq<Op>)
    requires ArmedWhole(s, m.slot) && m.stage == Watching && OpsFit(m, ops)
    ensures MayTear(s, m.slot, ops) <==> Wipe(Other(m.slot)) in ops
  {
    hide Executed, OpsFit;
    if Wipe(Other(m.slot)) in ops {
      var k :| 0 <= k < |ops| && ops[k] == Wipe(Other(m.slot));
      FitsUpTo(m, ops, k + 1);
      StaysArmed(s, m, ops[..k + 1]);
    } else {
      forall n | 0 <= n <= |ops| ensures !ArmedTorn(Executed(s, ops[..n]), m.slot) {
        FitsUpTo(m, ops, n);
        StaysArmed(s, m, ops[..n]);
      }
    }
  }

  // Over runs.

  /** What a poll or an update makes a watching machine do. */
  function Todo(m: Machine, e: Event): seq<Op> {
    match e
    case Poll(release, choice) => PollOps(m.known, release, m.version, m.slot, choice)
    case Update(release, sync) => UpdateOps(release, m.version, m.slot, sync)
    case _ => []
  }

  lemma TodoFits(m: Machine, e: Event)
    requires m.stage == Watching
    ensures OpsFit(m, Todo(m, e))
    ensures Wipe(Other(m.slot)) in Todo(m, e) <==> Tears(m.known, m.version, e)
  {
    hide PollOps, UpdateOps, Fitting, Syncs;
    var busy := m.(todo := Todo(m, e));
    match e
    case Poll(release, choice) =>
      PollFits(m.known, release, m.version, m.slot, choice, busy);
      PollWipes(m.known, release, m.version, m.slot, choice);
      SameFit(busy, m);
    case Update(release, sync) =>
      UpdateFits(release, m.version, m.slot, sync, busy);
      UpdateWipes(release, m.version, m.slot, sync);
      SameFit(busy, m);
    case _ =>
  }

  lemma SameFit(busy: Machine, m: Machine)
    requires busy == m.(todo := busy.todo) && AllFit(busy)
    ensures OpsFit(m, busy.todo)
  {
  }

  /** While the other slot is armed, power failing after the first steps of a script is part of a run. */
  lemma {:induction false} ReachesCut(s: State, n: nat)
    requires Reached(s) && s.power.Some? && n <= |s.power.value.todo| && Reboot !in s.power.value.todo[..n]
    ensures Reached(Executed(Idle(s), s.power.value.todo[..n]).(power := None))
    decreases n
  {
    hide Reached, Executed;
    var todo := s.power.value.todo;
    if n == 0 {
      ReachesOn(s, Crash);
      NoSteps(Idle(s));
      assert todo[..0] == [];
    } else {
      assert todo[0] in todo[..n];
      ReachesOn(s, Step);
      var next := Next(s, Step);
      assert Idle(next) == Done(Idle(s), todo[0]) && next.power.value.todo == todo[1..];
      FirstStep(Idle(s), todo[0], todo[1..n]);
      assert [todo[0]] + todo[1..n] == todo[..n];
      assert todo[1..][..n - 1] == todo[1..n];
      forall op | op in todo[1..n] ensures op in todo[..n] {
        assert op in [todo[0]] + todo[1..n];
      }
      ReachesCut(next, n - 1);
    }
  }

  lemma {:induction false} RebootsLast(m: Machine, e: Event)
    ensures forall k :: 0 <= k < |Todo(m, e)| - 1 ==> Todo(m, e)[k] != Reboot
  {
    hide Syncs, Due, Noticed, AfterSync;
    NoReboot(m, e);
  }

  /** Everything before a reboot of a poll. */
  lemma {:induction false} NoReboot(m: Machine, e: Event)
    ensures e.Poll? && e.release != m.version ==>
              var noticed := Noticed(m.known, e.release, e.choice.now);
              var synced := AfterSync(noticed, e.release, e.choice);
              Reboot !in (if m.known.version != e.release then Remember(noticed) else [])
                         + (if Due(noticed, e.choice) then SyncOps(e.release, m.slot, e.choice.sync) else [])
                         + (if synced.status == Synced && e.choice.install then StageOps(e.release, m.slot) else [])
    ensures e.Update? ==> Reboot !in Todo(m, e)
  {
  }

  /**
   For every poll and every update that begins while the other slot is armed and whole: with power
   failing at some moment the armed slot is torn, if and only if the script begins a sync.
   */
  lemma TearsExactly(s: State, slot: Slot, version: int, e: Event)
    requires Reached(s) && Watches(s, slot, version) && ArmedWhole(s, slot) && (e.Poll? || e.Update?)
    ensures Enabled(s, e) && Next(s, e).power.Some?
    ensures MayTear(s, slot, Next(s, e).power.value.todo) <==> Tears(s.power.value.known, version, e)
    ensures Tears(s.power.value.known, version, e) ==>
              exists torn :: Reached(torn) && torn.power == None && ArmedTorn(torn, slot) && slot in torn.good
  {
    hide Reached, Executed, PollOps, UpdateOps, OpsFit, ArmedTorn, Tears;
    var m := s.power.value;
    var next, ops := Next(s, e), Todo(m, e);
    TodoFits(m, e);
    CutShort(s, m, ops);
    if Wipe(Other(slot)) in ops {
      ReachesOn(s, e);
      assert Idle(next) == s;
      var k :| 0 <= k < |ops| && ops[k] == Wipe(Other(slot));
      RebootsLast(m, e);
      FitsUpTo(m, ops, k + 1);
      StaysArmed(s, m, ops[..k + 1]);
      ReachesCut(next, k + 1);
      var torn := Executed(s, ops[..k + 1]).(power := None);
      assert ArmedTorn(torn, slot) by { Unpowered(Executed(s, ops[..k + 1]), slot); }
      ReachedKeeps(torn);
      StillGood(torn, slot);
    }
  }

  lemma Unpowered(s: State, slot: Slot)
    ensures ArmedTorn(s.(power := None), slot) <==> ArmedTorn(s, slot)
  {
  }

  lemma StillGood(s: State, slot: Slot)
    requires Inv(s) && ArmedTorn(s, slot)
    ensures slot in s.good
  {
  }

  /** No other step of any machine tears it. */
  lemma OnlyWipingTears(s: State, e: Event, slot: Slot)
    requires Inv(s) && Enabled(s, e) && ArmedWhole(s, slot)
    ensures ArmedTorn(Next(s, e), slot) <==> e.Step? && s.power.value.todo[0] == Wipe(Other(slot))
  {
    hide MarkGoodOps, PollOps, UpdateOps;
  }

  /**
   A run from installation: an update arms the other slot, another one fails, power fails, and the
   machine is started on a slot that is half written.
   */
  lemma BootsTornSlot() returns (s: State)
    ensures Reached(s) && Enabled(s, On(0))
    ensures var booted := Next(s, On(0)); booted.power.Some? && ContentOf(booted, booted.power.value.slot) == Torn
  {
    hide Reached, Executed, UpdateOps, Watches, ArmedTorn;
    var watching, slot, version := TrialsInARow(0);
    s := ArmedThenTorn(watching, slot, version);
    Boots(s, slot);
  }

  lemma ArmedThenTorn(watching: State, slot: Slot, version: int) returns (torn: State)
    requires Reached(watching) && Watches(watching, slot, version)
    ensures Reached(torn) && torn.power == None && ArmedTorn(torn, slot)
  {
    hide Reached, Executed, UpdateOps, ArmedTorn;
    var release := version + 1;
    ReachesOn(watching, Update(release, Complete));
    var updating := Next(watching, Update(release, Complete));
    UpdateNeverReboots(release, version, slot);
    ReachesDone(updating);
    assert Idle(updating) == watching;
    var updated := Executed(watching, UpdateOps(release, version, slot, Complete));
    UpdateArmsWhole(watching, release, version, slot);
    TearsExactly(updated, slot, version, Update(release, Failed));
    torn :| Reached(torn) && torn.power == None && ArmedTorn(torn, slot) && slot in torn.good;
  }

  lemma Boots(s: State, slot: Slot)
    requires s.power == None && ArmedTorn(s, slot)
    ensures Enabled(s, On(0))
    ensures var booted := Next(s, On(0)); booted.power.Some? && ContentOf(booted, booted.power.value.slot) == Torn
  {
  }
}
