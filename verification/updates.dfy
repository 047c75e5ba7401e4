/**
 Updating a machine with two system slots. Releases are synced to the slot that is not
 running, which is then armed for one trial boot; power may fail after any single step.
 */
module Updates {
  import opened Options

  datatype Slot = A | B

  function Other(slot: Slot): Slot {
    if slot == A then B else A
  }

  /** The boot loader's environment: the slot to try, the one to fall back to, and whether a try is left. */
  datatype Env = Env(slot: Slot, prev: Slot, tries: bool)

  datatype Status = Nothing | Available | Synced | Staged | Installed

  /** The state file; what a script knows after reading it. */
  datatype Record = Record(status: Status, version: int, since: int)

  /** A slot holds a release, or is half written. */
  datatype Content = Whole(version: int) | Torn

  /** The single steps of the update scripts that outlast a loss of power. */
  datatype Op =
    | Truncate
    | Write(record: Record)
    | Wipe(slot: Slot)
    | Fill(slot: Slot, version: int)
    | Arm(slot: Slot, prev: Slot)
    | Reboot

  // The scripts, as the steps they take.

  function Remember(record: Record): seq<Op> {
    [Truncate, Write(record)]
  }

  function MarkGoodOps(known: Record, version: int, slot: Slot): seq<Op> {
    [Arm(slot, slot)] + if known.version == version then Remember(Record(Installed, version, 0)) else []
  }

  /** How a sync goes: the slot cannot be mounted, the copying fails, or all is well. */
  datatype Sync = Unmounted | Failed | Complete

  function SyncOps(release: int, slot: Slot, sync: Sync): seq<Op> {
    match sync
    case Unmounted => []
    case Failed => [Wipe(Other(slot))]
    case Complete => [Wipe(Other(slot)), Fill(Other(slot), release)] + Remember(Record(Synced, release, 0))
  }

  function StageOps(release: int, slot: Slot): seq<Op> {
    [Arm(Other(slot), slot)] + Remember(Record(Staged, release, 0))
  }

  function UpdateOps(release: int, version: int, slot: Slot, sync: Sync): seq<Op> {
    if release == version then []
    else SyncOps(release, slot, sync) + if sync == Complete then StageOps(release, slot) else []
  }

  /** The settings and the clock that a poll finds. */
  datatype Choice = Choice(now: int, delay: int, install: bool, reboot: bool, sync: Sync)

  function Noticed(known: Record, release: int, now: int): Record {
    if known.version != release then Record(Available, release, now) else known
  }

  predicate Due(known: Record, c: Choice) {
    known.status == Available && c.now - known.since >= c.delay
  }

  function AfterSync(known: Record, release: int, c: Choice): Record {
    if Due(known, c) && c.sync == Complete then Record(Synced, release, 0) else known
  }

  /** A poll works with what its script knew at its start, whatever the file says by now. */
  function PollOps(known: Record, release: int, version: int, slot: Slot, c: Choice): seq<Op> {
    if release == version then []
    else
      var noticed := Noticed(known, release, c.now);
      var synced := AfterSync(noticed, release, c);
      var staging := synced.status == Synced && c.install;
      (if known.version != release then Remember(noticed) else [])
      + (if Due(noticed, c) then SyncOps(release, slot, c.sync) else [])
      + (if staging then StageOps(release, slot) else [])
      + (if (staging || synced.status == Staged) && c.reboot then [Reboot] else [])
  }

  // The machine.

  /** Booted; marking itself good; watching for releases. */
  datatype Stage = Fresh | Marking | Watching

  datatype Machine = Machine(slot: Slot, version: int, stage: Stage, known: Record, todo: seq<Op>)

  /** A boot: its target, the fallback at that time, and whether it reached the mark. */
  datatype Boot = Boot(target: Slot, prev: Slot, marked: bool)

  /**
   `good` are the slots that marked themselves good, or were installed, and that no sync has touched since;
   `armed` is the latest arming since the latest boot.
   */
  datatype State = State(
    env: Env, file: Option<Record>, a: Content, b: Content, good: set<Slot>, power: Option<Machine>, boots: seq<Boot>,
    armed: Option<Op>)

  function ContentOf(s: State, slot: Slot): Content {
    if slot == A then s.a else s.b
  }

  function WithContent(s: State, slot: Slot, content: Content): State {
    if slot == A then s.(a := content) else s.(b := content)
  }

  function Known(file: Option<Record>): Record {
    match file
    case None => Record(Nothing, 0, 0)
    case Some(record) => record
  }

  /** The mark is reached when a slot arms itself. */
  function Marked(boots: seq<Boot>): seq<Boot> {
    if boots == [] then boots else boots[|boots| - 1 := boots[|boots| - 1].(marked := true)]
  }

  function Done(s: State, op: Op): State {
    match op
    case Truncate => s.(file := None)
    case Write(record) => s.(file := Some(record))
    case Wipe(slot) => WithContent(s, slot, Torn).(good := s.good - {slot})
    case Fill(slot, version) => WithContent(s, slot, Whole(version))
    case Arm(slot, prev) =>
      var armed := s.(env := Env(slot, prev, true), armed := Some(op));
      if slot == prev then armed.(good := s.good + {slot}, boots := Marked(s.boots)) else armed
    case Reboot => s.(power := None)
  }

  /** The boot loader takes the armed slot once, and the fallback otherwise. */
  function PowerOn(s: State, version: int): State {
    var target := if s.env.tries then s.env.slot else s.env.prev;
    s.(env := s.env.(tries := false),
       power := Some(Machine(target, version, Fresh, Record(Nothing, 0, 0), [])),
       boots := s.boots + [Boot(target, s.env.prev, false)],
       armed := None)
  }

  datatype Event =
    | On(version: int)
    | Crash
    | Mark
    | Watch
    | Poll(release: int, choice: Choice)
    | Update(release: int, sync: Sync)
    | Step

  predicate Enabled(s: State, e: Event) {
    match e
    case On(version) =>
      var content := ContentOf(s, if s.env.tries then s.env.slot else s.env.prev);
      s.power == None && (content.Whole? ==> version == content.version)
    case Crash => s.power.Some?
    case Mark => s.power.Some? && s.power.value.stage == Fresh
    case Watch => s.power.Some? && s.power.value.stage == Marking && s.power.value.todo == []
    case Poll(_, _) => s.power.Some? && s.power.value.stage == Watching && s.power.value.todo == []
    case Update(_, _) => s.power.Some? && s.power.value.stage == Watching && s.power.value.todo == []
    case Step => s.power.Some? && s.power.value.todo != []
  }

  function Next(s: State, e: Event): State
    requires Enabled(s, e)
  {
    match e
    case On(version) => PowerOn(s, version)
    case Crash => s.(power := None)
    case Mark =>
      var m := s.power.value;
      s.(power := Some(m.(stage := Marking, todo := MarkGoodOps(Known(s.file), m.version, m.slot))))
    case Watch => s.(power := Some(s.power.value.(stage := Watching, known := Known(s.file))))
    case Poll(release, choice) =>
      var m := s.power.value;
      s.(power := Some(m.(todo := PollOps(m.known, release, m.version, m.slot, choice))))
    case Update(release, sync) =>
      var m := s.power.value;
      s.(power := Some(m.(todo := UpdateOps(release, m.version, m.slot, sync))))
    case Step =>
      var m := s.power.value;
      Done(s.(power := Some(m.(todo := m.todo[1..]))), m.todo[0])
  }

  /** As installed: both slots filled, the first one armed and its own fallback. */
  function Initial(version: int): State {
    State(Env(A, A, true), None, Whole(version), Whole(version), {A}, None, [], None)
  }

  ghost predicate Run(states: seq<State>, events: seq<Event>) {
    && |states| == |events| + 1 && (exists version :: states[0] == Initial(version))
    && forall i :: 0 <= i < |events| ==> Enabled(states[i], events[i]) && states[i + 1] == Next(states[i], events[i])
  }

  // What power failures cannot break.

  /**
   Steps a machine may have before it: it writes only the other slot, and falls back only to its
   own, which is marked good by then.
   */
  predicate Fitting(m: Machine, op: Op) {
    match op
    case Wipe(slot) => slot == Other(m.slot) && m.stage == Watching
    case Arm(slot, prev) => prev == m.slot && (if m.stage == Watching then slot == Other(m.slot) else slot == m.slot)
    case _ => true
  }

  predicate AllFit(m: Machine) {
    forall k :: 0 <= k < |m.todo| ==> Fitting(m, m.todo[k])
  }

  predicate MachineFits(s: State, m: Machine) {
    && s.boots != [] && s.boots[|s.boots| - 1].target == m.slot
    && AllFit(m)
    && (m.stage == Fresh ==> m.todo == [] && !s.boots[|s.boots| - 1].marked)
    && (m.stage == Marking && !s.boots[|s.boots| - 1].marked ==> m.todo != [] && m.todo[0] == Arm(m.slot, m.slot))
    && (m.stage == Watching ==> s.boots[|s.boots| - 1].marked)
  }

  /** The boot loader's environment as the latest boot and the armings since have left it. */
  predicate Arming(s: State) {
    if s.boots == [] then s.armed == None && s.env.slot == s.env.prev
    else
      var last := s.boots[|s.boots| - 1];
      match s.armed
      case None => !last.marked && !s.env.tries && s.env.prev == last.prev
      case Some(op) => last.marked && op.Arm? && op.prev == last.target && s.env == Env(op.slot, op.prev, true)
  }

  predicate Inv(s: State) {
    && s.env.prev in s.good
    && (s.power.Some? ==> MachineFits(s, s.power.value))
    && Arming(s)
  }

  lemma {:induction false} MarkFits(known: Record, version: int, slot: Slot, m: Machine)
    requires m.slot == slot && m.stage == Marking && m.todo == MarkGoodOps(known, version, slot)
    ensures AllFit(m) && m.todo != [] && m.todo[0] == Arm(slot, slot)
  {
  }

  predicate OpsFit(m: Machine, ops: seq<Op>) {
    forall k :: 0 <= k < |ops| ==> Fitting(m, ops[k])
  }

  lemma {:induction false} JoinFits(m: Machine, first: seq<Op>, second: seq<Op>)
    requires OpsFit(m, first) && OpsFit(m, second)
    ensures OpsFit(m, first + second)
  {
    hide Fitting;
  }

  lemma {:induction false} PartsFit(m: Machine, release: int, record: Record, sync: Sync)
    requires m.stage == Watching
    ensures OpsFit(m, Remember(record)) && OpsFit(m, SyncOps(release, m.slot, sync))
    ensures OpsFit(m, StageOps(release, m.slot))
    ensures OpsFit(m, []) && OpsFit(m, [Reboot])
  {
  }

  lemma {:induction false} UpdateFits(release: int, version: int, slot: Slot, sync: Sync, m: Machine)
    requires m.slot == slot && m.stage == Watching && m.todo == UpdateOps(release, version, slot, sync)
    ensures AllFit(m)
  {
    hide OpsFit, SyncOps, StageOps;
    PartsFit(m, release, Record(Nothing, 0, 0), sync);
    JoinFits(m, SyncOps(release, slot, sync), if sync == Complete then StageOps(release, slot) else []);
    FitsAll(m);
  }

  lemma {:induction false} FitsAll(m: Machine)
    ensures OpsFit(m, m.todo) ==> AllFit(m)
  {
  }

  lemma {:induction false} PollFits(known: Record, release: int, version: int, slot: Slot, c: Choice, m: Machine)
    requires m.slot == slot && m.stage == Watching && m.todo == PollOps(known, release, version, slot, c)
    ensures AllFit(m)
  {
    hide OpsFit, SyncOps, StageOps, Remember;
    var noticed := Noticed(known, release, c.now);
    var synced := AfterSync(noticed, release, c);
    var staging := synced.status == Synced && c.install;
    var first := if known.version != release then Remember(noticed) else [];
    var second := if Due(noticed, c) then SyncOps(release, slot, c.sync) else [];
    var third := if staging then StageOps(release, slot) else [];
    PartsFit(m, release, noticed, c.sync);
    JoinFits(m, first, second);
    JoinFits(m, first + second, third);
    JoinFits(m, first + second + third, if (staging || synced.status == Staged) && c.reboot then [Reboot] else []);
    FitsAll(m);
  }

  lemma DoneKeeps(s: State)
    requires Inv(s) && Enabled(s, Step)
    ensures Inv(Next(s, Step))
  {
    var m := s.power.value;
    assert Fitting(m, m.todo[0]);
    RestFits(m);
    hide AllFit;
  }

  lemma RestFits(m: Machine)
    requires AllFit(m) && m.todo != []
    ensures AllFit(m.(todo := m.todo[1..]))
  {
    var rest := m.(todo := m.todo[1..]);
    forall k | 0 <= k < |rest.todo| ensures Fitting(rest, rest.todo[k]) {
      assert Fitting(m, m.todo[k + 1]);
    }
  }

  lemma {:induction false} StepKeeps(s: State, e: Event)
    requires Inv(s) && Enabled(s, e)
    ensures Inv(Next(s, e))
  {
    hide MarkGoodOps, PollOps, UpdateOps, Done;
    match e
    case Mark => var m := Next(s, e).power.value; MarkFits(Known(s.file), m.version, m.slot, m);
    case Poll(release, choice) =>
      var m := Next(s, e).power.value;
      PollFits(m.known, release, m.version, m.slot, choice, m);
    case Update(release, sync) =>
      var m := Next(s, e).power.value;
      UpdateFits(release, m.version, m.slot, sync, m);
    case Step => DoneKeeps(s);
    case _ =>
  }

  lemma {:induction false} RunKeeps(states: seq<State>, events: seq<Event>, i: nat)
    requires Run(states, events) && i < |states|
    ensures Inv(states[i])
  {
    hide Next, Enabled;
    if i > 0 {
      hide Inv;
      RunKeeps(states, events, i - 1);
      StepKeeps(states[i - 1], events[i - 1]);
    }
  }

  /**
   Whenever power fails, the fallback is a slot that marked itself good, or was installed, and that
   no sync has written since.
   */
  lemma FallbackIsGood(states: seq<State>, events: seq<Event>, i: nat)
    requires Run(states, events) && i < |states|
    ensures states[i].env.prev in states[i].good
  {
    hide Run;
    RunKeeps(states, events, i);
  }

  /** A slot is good only as long as no sync touches it: the steps that make and unmake it so. */
  lemma GoodMeans(s: State, e: Event, slot: Slot)
    requires Inv(s) && Enabled(s, e)
    ensures slot in Next(s, e).good <==>
            if e.Step? && s.power.value.todo[0] == Wipe(slot) then false
            else slot in s.good || (e.Step? && s.power.value.todo[0] == Arm(slot, slot))
    ensures slot in s.good && slot in Next(s, e).good && !(e.Step? && s.power.value.todo[0].Fill?) ==>
              ContentOf(Next(s, e), slot) == ContentOf(s, slot)
  {
  }

  /** Boots are only ever added, and only the latest can still reach its mark. */
  lemma BootsGrow(s: State, e: Event)
    requires Inv(s) && Enabled(s, e)
    ensures |s.boots| <= |Next(s, e).boots|
    ensures forall k :: 0 <= k < |s.boots| - 1 ==> Next(s, e).boots[k] == s.boots[k]
    ensures e.On? ==> Next(s, e).boots[..|s.boots|] == s.boots
  {
  }

  /** A boot that does not reach its mark is followed by a boot of the fallback it had. */
  predicate FallsBack(boots: seq<Boot>) {
    forall k :: 0 <= k < |boots| - 1 && !boots[k].marked ==> boots[k + 1].target == boots[k + 1].prev == boots[k].prev
  }

  lemma FallsBackStep(s: State, e: Event)
    requires Inv(s) && Enabled(s, e) && FallsBack(s.boots)
    ensures FallsBack(Next(s, e).boots)
  {
    hide MarkGoodOps, PollOps, UpdateOps;
    if e.On? {
      var next := Next(s, e);
      assert next.boots[..|s.boots|] == s.boots;
    }
  }

  lemma {:induction false} AlwaysFallsBack(states: seq<State>, events: seq<Event>, i: nat)
    requires Run(states, events) && i < |states|
    ensures FallsBack(states[i].boots)
  {
    hide Next, Enabled;
    if i > 0 {
      hide Inv, FallsBack;
      AlwaysFallsBack(states, events, i - 1);
      RunKeeps(states, events, i - 1);
      FallsBackStep(states[i - 1], events[i - 1]);
    }
  }

  /** Two boots in a row away from the fallback: the first one has proved itself in between. */
  lemma TrialsProveThemselves(states: seq<State>, events: seq<Event>, i: nat, k: nat)
    requires Run(states, events) && i < |states| && k + 1 < |states[i].boots|
    requires var boots := states[i].boots; boots[k].target != boots[k].prev && boots[k + 1].target != boots[k + 1].prev
    ensures states[i].boots[k].marked
  {
    hide Run;
    AlwaysFallsBack(states, events, i);
  }

  /**
   A boot is a trial exactly when the latest arming since the boot before armed the other slot;
   that boot was marked by then.
   */
  lemma BootIsTrial(states: seq<State>, events: seq<Event>, i: nat)
    requires Run(states, events) && i < |events| && events[i].On?
    ensures var s, next := states[i], states[i + 1];
            var boot := next.boots[|next.boots| - 1];
            if s.boots == [] then boot.target == boot.prev
            else
              var last := s.boots[|s.boots| - 1];
              && (boot.target != boot.prev <==> s.armed == Some(Arm(Other(last.target), last.target)))
              && (boot.target != boot.prev ==> last.marked)
  {
    RunKeeps(states, events, i);
    var s := states[i];
    if s.boots != [] && s.armed.Some? { assert s.armed.value == Arm(s.armed.value.slot, s.armed.value.prev); }
  }

  /** What the latest arming is: none since the boot, or the one of the latest step that armed a slot. */
  lemma ArmedMeans(s: State, e: Event)
    requires Enabled(s, e)
    ensures Next(s, e).armed ==
            if e.On? then None
            else if e.Step? && s.power.value.todo[0].Arm? then Some(s.power.value.todo[0])
            else s.armed
  {
    hide MarkGoodOps, PollOps, UpdateOps;
  }

  // Arming.

  /** The steps of a script without a loss of power in between. */
  function Executed(s: State, ops: seq<Op>): State {
    if ops == [] then s else Done(Executed(s, ops[..|ops| - 1]), ops[|ops| - 1])
  }

  lemma {:induction false} ExecutedInTwo(s: State, first: seq<Op>, second: seq<Op>)
    ensures Executed(s, first + second) == Executed(Executed(s, first), second)
  {
    hide Done;
    if second == [] {
      assert first + second == first;
    } else {
      ExecutedInTwo(s, first, second[..|second| - 1]);
      assert (first + second)[..|first + second| - 1] == first + second[..|second| - 1];
    }
  }

  /** The first of several steps. */
  lemma FirstStep(s: State, op: Op, rest: seq<Op>)
    ensures Executed(s, [op] + rest) == Executed(Done(s, op), rest)
  {
    hide Done;
    ExecutedInTwo(s, [op], rest);
    assert [op][..0] == [];
  }

  lemma RememberExecuted(s: State, record: Record)
    ensures Executed(s, Remember(record)) == s.(file := Some(record))
  {
    FirstStep(s, Truncate, [Write(record)]);
    FirstStep(Done(s, Truncate), Write(record), []);
    assert Remember(record) == [Truncate] + [Write(record)] && [Write(record)] + [] == [Write(record)];
  }

  function SyncedState(s: State, release: int, slot: Slot, sync: Sync): State {
    match sync
    case Unmounted => s
    case Failed => WithContent(s, Other(slot), Torn).(good := s.good - {Other(slot)})
    case Complete =>
      WithContent(s, Other(slot), Whole(release))
      .(good := s.good - {Other(slot)}, file := Some(Record(Synced, release, 0)))
  }

  lemma SyncExecuted(s: State, release: int, slot: Slot, sync: Sync)
    ensures Executed(s, SyncOps(release, slot, sync)) == SyncedState(s, release, slot, sync)
  {
    var other := Other(slot);
    var wiped := Done(s, Wipe(other));
    match sync
    case Unmounted =>
    case Failed => FirstStep(s, Wipe(other), []); assert [Wipe(other)] + [] == [Wipe(other)];
    case Complete =>
      var record := Record(Synced, release, 0);
      FirstStep(s, Wipe(other), [Fill(other, release)] + Remember(record));
      FirstStep(wiped, Fill(other, release), Remember(record));
      RememberExecuted(Done(wiped, Fill(other, release)), record);
      assert SyncOps(release, slot, sync) == [Wipe(other)] + ([Fill(other, release)] + Remember(record));
  }

  function StagedState(s: State, release: int, slot: Slot): State {
    s.(env := Env(Other(slot), slot, true), file := Some(Record(Staged, release, 0)),
       armed := Some(Arm(Other(slot), slot)))
  }

  lemma StageExecuted(s: State, release: int, slot: Slot)
    ensures Executed(s, StageOps(release, slot)) == StagedState(s, release, slot)
  {
    var armed := Done(s, Arm(Other(slot), slot));
    FirstStep(s, Arm(Other(slot), slot), Remember(Record(Staged, release, 0)));
    RememberExecuted(armed, Record(Staged, release, 0));
  }

  /** An update from the console arms what it has just synced, whole. */
  lemma UpdateArmsWhole(s: State, release: int, version: int, slot: Slot)
    requires release != version
    ensures var next := Executed(s, UpdateOps(release, version, slot, Complete));
            && next.env == Env(Other(slot), slot, true) && ContentOf(next, Other(slot)) == Whole(release)
            && ContentOf(next, slot) == ContentOf(s, slot) && next.file == Some(Record(Staged, release, 0))
            && next.boots == s.boots && next.power == s.power
  {
    hide Executed, SyncOps, StageOps;
    ExecutedInTwo(s, SyncOps(release, slot, Complete), StageOps(release, slot));
    SyncExecuted(s, release, slot, Complete);
    StageExecuted(SyncedState(s, release, slot, Complete), release, slot);
  }

  /** After a trial boot that reached its mark, an update makes the next boot a trial again: two in a row. */
  lemma SecondTrial(s: State, release: int, version: int)
    requires Inv(s) && s.power.Some? && s.power.value.stage == Watching && release != s.power.value.version
    requires s.boots[|s.boots| - 1].target != s.boots[|s.boots| - 1].prev
    ensures var m, k := s.power.value, |s.boots| - 1;
            var boots := PowerOn(Executed(s, UpdateOps(release, m.version, m.slot, Complete)), version).boots;
            && |boots| == k + 2 && boots[k].marked
            && boots[k].target != boots[k].prev && boots[k + 1].target != boots[k + 1].prev
  {
    hide Executed, UpdateOps;
    UpdateArmsWhole(s, release, s.power.value.version, s.power.value.slot);
  }

  // Trials in a row.

  ghost predicate Leads(states: seq<State>, events: seq<Event>, s: State) {
    Run(states, events) && states[|states| - 1] == s
  }

  ghost predicate Reached(s: State) {
    exists states, events :: Leads(states, events, s)
  }

  lemma Starts(version: int)
    ensures Reached(Initial(version))
  {
    var states, events: seq<Event> := [Initial(version)], [];
    assert states[0] == Initial(version);
    assert Leads(states, events, Initial(version));
  }

  lemma {:induction false} RunsOn(states: seq<State>, events: seq<Event>, e: Event)
    requires Run(states, events) && Enabled(states[|states| - 1], e)
    ensures Run(states + [Next(states[|states| - 1], e)], events + [e])
  {
    hide Next, Enabled;
    var more, longer := states + [Next(states[|states| - 1], e)], events + [e];
    var version :| states[0] == Initial(version);
    assert more[0] == Initial(version);
  }

  lemma ReachesOn(s: State, e: Event)
    requires Reached(s) && Enabled(s, e)
    ensures Reached(Next(s, e))
  {
    hide Next, Enabled;
    var states, events :| Leads(states, events, s);
    RunsOn(states, events, e);
    assert Leads(states + [Next(s, e)], events + [e], Next(s, e));
  }

  lemma ReachedKeeps(s: State)
    requires Reached(s)
    ensures Inv(s)
  {
    hide Inv;
    var states, events :| Leads(states, events, s);
    RunKeeps(states, events, |states| - 1);
  }

  function Idle(s: State): State
    requires s.power.Some?
  {
    s.(power := Some(s.power.value.(todo := [])))
  }

  /** Without a loss of power a machine gets all its steps done. */
  lemma {:induction false} ReachesDone(s: State)
    requires Reached(s) && s.power.Some? && Reboot !in s.power.value.todo
    ensures Reached(Executed(Idle(s), s.power.value.todo))
    decreases if s.power.Some? then |s.power.value.todo| else 0
  {
    hide Reached, Executed;
    var todo := s.power.value.todo;
    if todo == [] {
      assert Idle(s) == s;
      NoSteps(s);
    } else {
      ReachesOn(s, Step);
      var next := Next(s, Step);
      assert Idle(next) == Done(Idle(s), todo[0]) && next.power.value.todo == todo[1..];
      FirstStep(Idle(s), todo[0], todo[1..]);
      assert [todo[0]] + todo[1..] == todo;
      ReachesDone(next);
    }
  }

  /** Watching from slot `slot` with nothing left to do. */
  predicate Watches(s: State, slot: Slot, version: int) {
    s.power.Some? && s.power.value.stage == Watching && s.power.value.todo == [] && s.power.value.slot == slot
      && s.power.value.version == version
  }

  /** A machine that has just booted marks itself good and watches. */
  lemma Settles(s: State) returns (next: State)
    requires Reached(s) && s.power.Some? && s.power.value.stage == Fresh
    ensures Reached(next) && Watches(next, s.power.value.slot, s.power.value.version)
    ensures |next.boots| == |s.boots| > 0 && next.boots[..|s.boots| - 1] == s.boots[..|s.boots| - 1]
    ensures var last, was := next.boots[|s.boots| - 1], s.boots[|s.boots| - 1]; last == was.(marked := true)
  {
    hide Reached, Executed;
    ReachedKeeps(s);
    ReachesOn(s, Mark);
    var marking := Next(s, Mark);
    var m := marking.power.value;
    ReachesDone(marking);
    var armed := Arm(m.slot, m.slot);
    var rest := m.todo[1..];
    assert m.todo == [armed] + rest;
    FirstStep(Idle(marking), armed, rest);
    var done := Executed(Idle(marking), m.todo);
    RememberExecuted(Done(Idle(marking), armed), Record(Installed, m.version, 0));
    NoSteps(Done(Idle(marking), armed));
    assert rest == [] || rest == Remember(Record(Installed, m.version, 0));
    ReachesOn(done, Watch);
    next := Next(done, Watch);
  }

  /** An update, and the power fails: the next boot is a trial of the other slot, and may prove itself in turn. */
  lemma AnotherTrial(s: State, slot: Slot, version: int, release: int) returns (next: State)
    requires Reached(s) && Watches(s, slot, version) && release != version
    ensures Reached(next) && Watches(next, Other(slot), release)
    ensures next.boots == s.boots + [Boot(Other(slot), slot, true)]
  {
    hide Reached, Executed, UpdateOps;
    ReachesOn(s, Update(release, Complete));
    var updating := Next(s, Update(release, Complete));
    UpdateNeverReboots(release, version, slot);
    ReachesDone(updating);
    var updated := Executed(Idle(updating), UpdateOps(release, version, slot, Complete));
    UpdateArmsWhole(Idle(updating), release, version, slot);
    ReachesOn(updated, Crash);
    var off := Next(updated, Crash);
    ReachesOn(off, On(release));
    var booted := Next(off, On(release));
    assert booted.boots == s.boots + [Boot(Other(slot), slot, false)];
    next := Settles(booted);
    assert next.boots == next.boots[..|s.boots|] + [next.boots[|s.boots|]];
  }

  lemma UpdateNeverReboots(release: int, version: int, slot: Slot)
    ensures Reboot !in UpdateOps(release, version, slot, Complete)
  {
  }

  /** The last `n` boots were trials that proved themselves. */
  predicate EndsInTrials(boots: seq<Boot>, n: nat) {
    n <= |boots| && forall k :: |boots| - n <= k < |boots| ==> boots[k].target != boots[k].prev && boots[k].marked
  }

  /** Any number of boots in a row can be trials. */
  lemma {:induction false} TrialsInARow(n: nat) returns (s: State, slot: Slot, version: int)
    ensures Reached(s) && Watches(s, slot, version) && EndsInTrials(s.boots, n)
  {
    hide Reached;
    if n == 0 {
      Starts(1);
      ReachesOn(Initial(1), On(1));
      s := Settles(Next(Initial(1), On(1)));
      slot, version := A, 1;
    } else {
      var before, was, number := TrialsInARow(n - 1);
      s := AnotherTrial(before, was, number, number + 1);
      slot, version := Other(was), number + 1;
    }
  }

  /** A poll syncs when the release is new to its script and needs no delay, or was known as available long enough. */
  predicate Syncs(known: Record, release: int, version: int, c: Choice) {
    && release != version
    && if known.version != release then c.delay <= 0 else known.status == Available && c.now - known.since >= c.delay
  }

  predicate Stages(known: Record, release: int, version: int, c: Choice) {
    && release != version && c.install
    && ((Syncs(known, release, version, c) && c.sync == Complete)
         || (known.version == release && known.status == Synced))
  }

  /** A poll restarts the machine when it has staged a release, or knew of one that is. */
  predicate Reboots(known: Record, release: int, version: int, c: Choice) {
    && release != version && c.reboot
    && (Stages(known, release, version, c) || (known.version == release && known.status == Staged))
  }

  /** What the state file says after a poll: the furthest that it got, or what it said before. */
  function FileAfter(s: State, known: Record, release: int, version: int, c: Choice): Option<Record> {
    if release == version then s.file
    else if Stages(known, release, version, c) then Some(Record(Staged, release, 0))
    else if Syncs(known, release, version, c) && c.sync == Complete then Some(Record(Synced, release, 0))
    else if known.version != release then Some(Record(Available, release, c.now))
    else s.file
  }

  /**
   What a whole poll does: it arms the other slot with the release it synced, or with whatever
   is there if its script knew of an earlier sync.
   */
  lemma PollDoes(s: State, known: Record, release: int, version: int, slot: Slot, c: Choice)
    ensures var next, syncs :=
            Executed(s, PollOps(known, release, version, slot, c)), Syncs(known, release, version, c);
            && ContentOf(next, Other(slot)) ==
               (if !syncs || c.sync == Unmounted then ContentOf(s, Other(slot))
                else if c.sync == Failed then Torn else Whole(release))
            && next.env == (if Stages(known, release, version, c) then Env(Other(slot), slot, true) else s.env)
            && ContentOf(next, slot) == ContentOf(s, slot)
            && next.power == (if Reboots(known, release, version, c) then None else s.power)
            && next.file == FileAfter(s, known, release, version, c)
  {
    hide Executed, PollOps, ContentOf, SyncedState;
    if release != version {
      PollInParts(s, known, release, version, slot, c);
      var noticed := Noticed(known, release, c.now);
      var one := if known.version != release then s.(file := Some(noticed)) else s;
      SyncedContent(one, release, slot, c.sync);
      SameContent(s, one, slot);
      var two := if Due(noticed, c) then SyncedState(one, release, slot, c.sync) else one;
      SameContent(two, Executed(s, PollOps(known, release, version, slot, c)), slot);
    } else {
      NoPoll(s, known, release, slot, c);
    }
  }

  lemma SyncedContent(s: State, release: int, slot: Slot, sync: Sync)
    ensures var next := SyncedState(s, release, slot, sync);
            && ContentOf(next, slot) == ContentOf(s, slot)
            && ContentOf(next, Other(slot)) == (match sync
                                                case Unmounted => ContentOf(s, Other(slot))
                                                case Failed => Torn
                                                case Complete => Whole(release))
            && next.env == s.env && next.power == s.power
            && next.file == if sync == Complete then Some(Record(Synced, release, 0)) else s.file
  {
  }

  lemma SameContent(s: State, next: State, slot: Slot)
    requires next.a == s.a && next.b == s.b
    ensures ContentOf(next, slot) == ContentOf(s, slot) && ContentOf(next, Other(slot)) == ContentOf(s, Other(slot))
  {
  }

  lemma NoPoll(s: State, known: Record, version: int, slot: Slot, c: Choice)
    ensures Executed(s, PollOps(known, version, version, slot, c)) == s
  {
  }

  lemma PollInParts(s: State, known: Record, release: int, version: int, slot: Slot, c: Choice)
    requires release != version
    ensures var noticed := Noticed(known, release, c.now);
            var synced := AfterSync(noticed, release, c);
            var staging := synced.status == Synced && c.install;
            var one := if known.version != release then s.(file := Some(noticed)) else s;
            var two := if Due(noticed, c) then SyncedState(one, release, slot, c.sync) else one;
            var three := if staging then StagedState(two, release, slot) else two;
            var four := if (staging || synced.status == Staged) && c.reboot then three.(power := None) else three;
            Executed(s, PollOps(known, release, version, slot, c)) == four
  {
    hide Executed, SyncOps, StageOps, Remember, SyncedState, StagedState;
    var noticed := Noticed(known, release, c.now);
    var synced := AfterSync(noticed, release, c);
    var staging := synced.status == Synced && c.install;
    var first := if known.version != release then Remember(noticed) else [];
    var second := if Due(noticed, c) then SyncOps(release, slot, c.sync) else [];
    var third := if staging then StageOps(release, slot) else [];
    var fourth := if (staging || synced.status == Staged) && c.reboot then [Reboot] else [];
    assert PollOps(known, release, version, slot, c) == first + second + third + fourth;
    ExecutedInTwo(s, first + second + third, fourth);
    ExecutedInTwo(s, first + second, third);
    ExecutedInTwo(s, first, second);
    NoSteps(s);
    RememberExecuted(s, noticed);
    var one := Executed(s, first);
    NoSteps(one);
    SyncExecuted(one, release, slot, c.sync);
    var two := Executed(one, second);
    NoSteps(two);
    StageExecuted(two, release, slot);
    var three := Executed(two, third);
    NoSteps(three);
    RebootExecuted(three);
  }

  lemma RebootExecuted(s: State)
    ensures Executed(s, [Reboot]) == s.(power := None)
  {
    FirstStep(s, Reboot, []);
    assert [Reboot] + [] == [Reboot];
  }

  /**
   A mark arms the running slot as its own fallback, and notes an installation only of the release
   that it knew to be on its way.
   */
  lemma MarkDoes(s: State, known: Record, version: int, slot: Slot)
    ensures var next := Executed(s, MarkGoodOps(known, version, slot));
            && next.env == Env(slot, slot, true) && next.good == s.good + {slot} && next.boots == Marked(s.boots)
            && next.file == (if known.version == version then Some(Record(Installed, version, 0)) else s.file)
            && next.a == s.a && next.b == s.b && next.power == s.power
  {
    var armed := Done(s, Arm(slot, slot));
    FirstStep(s, Arm(slot, slot), []);
    FirstStep(s, Arm(slot, slot), Remember(Record(Installed, version, 0)));
    RememberExecuted(armed, Record(Installed, version, 0));
    NoSteps(armed);
    assert [Arm(slot, slot)] + [] == [Arm(slot, slot)];
  }

  /** An update of the running version does nothing; any other arms the other slot exactly if its sync is complete. */
  lemma UpdateDoes(s: State, release: int, version: int, slot: Slot, sync: Sync)
    ensures var next := Executed(s, UpdateOps(release, version, slot, sync));
            if release == version then next == s
            else if sync == Complete then next == StagedState(SyncedState(s, release, slot, Complete), release, slot)
            else next == SyncedState(s, release, slot, sync)
  {
    hide Executed, SyncOps, StageOps;
    NoSteps(s);
    SyncExecuted(s, release, slot, sync);
    var synced := SyncedState(s, release, slot, sync);
    StageExecuted(synced, release, slot);
    NoSteps(synced);
    ExecutedInTwo(s, SyncOps(release, slot, sync), if sync == Complete then StageOps(release, slot) else []);
  }

  /**
   What the slots hold and what a watch knows: a boot runs what its slot holds, and a watch knows
   what the file says when it begins.
   */
  lemma BootsItsContent(s: State, version: int)
    requires Enabled(s, On(version))
    ensures s.power == None
    ensures var booted := Next(s, On(version)).power.value;
            && booted.slot == (if s.env.tries then s.env.slot else s.env.prev) && booted.version == version
            && (ContentOf(s, booted.slot).Whole? ==> version == ContentOf(s, booted.slot).version)
            && booted.stage == Fresh && booted.todo == []
  {
  }

  lemma WatchKnows(s: State)
    requires Enabled(s, Watch)
    ensures Next(s, Watch).power.Some? && Next(s, Watch).power.value.stage == Watching
    ensures Next(s, Watch).power.value.known ==
            match s.file case None => Record(Nothing, 0, 0) case Some(record) => record
    ensures s.power.value.stage == Marking && s.power.value.todo == []
  {
  }

  /** A file that was being written when power failed says nothing. */
  lemma TornFileSaysNothing(s: State, record: Record)
    requires s.power.Some? && s.power.value.todo == Remember(record)
    ensures Next(Next(s, Step), Crash).file == None
    ensures Next(Next(s, Step), Step).file == Some(record)
  {
  }

  /** Scripts run one after the other: a poll and an update wait until the one before is through, and for the watch. */
  lemma ScriptsTakeTurns(s: State, e: Event)
    requires e.Poll? || e.Update?
    ensures Enabled(s, e) <==> s.power.Some? && s.power.value.stage == Watching && s.power.value.todo == []
  {
  }

  /** Without a delay the first poll of a watch syncs. */
  lemma NoDelayNoWait(s: State, known: Record, release: int, version: int, slot: Slot, c: Choice)
    requires known.version != release && release != version && c.delay <= 0 && c.sync == Complete
    ensures ContentOf(Polled(s, known, release, version, slot, [c]), Other(slot)) == Whole(release)
  {
    hide PollOps, Executed;
    assert [c][..0] == [];
    PollDoes(s, known, release, version, slot, c);
  }

  lemma NoSteps(s: State)
    ensures Executed(s, []) == s
  {
  }

  /**
   A poll that follows one that has staged, in the same watch, may tear the slot that is armed:
   its script still does not know of the release. The fallback is not touched.
   */
  lemma ArmedSlotMayTear(s: State, known: Record, release: int, version: int, slot: Slot)
    requires known.version != release && release != version
    ensures var staging, failing := Choice(0, 0, true, false, Complete), Choice(0, 0, true, false, Failed);
            var staged := Executed(s, PollOps(known, release, version, slot, staging));
            var torn := Executed(staged, PollOps(known, release, version, slot, failing));
            && staged.env == torn.env == Env(Other(slot), slot, true)
            && ContentOf(staged, Other(slot)) == Whole(release) && ContentOf(torn, Other(slot)) == Torn
            && ContentOf(torn, slot) == ContentOf(s, slot)
  {
    hide Executed, PollOps;
    var staging, failing := Choice(0, 0, true, false, Complete), Choice(0, 0, true, false, Failed);
    PollDoes(s, known, release, version, slot, staging);
    PollDoes(Executed(s, PollOps(known, release, version, slot, staging)), known, release, version, slot, failing);
  }

  /** A release with a delay is not synced by the watch that first sees it, however often that polls. */
  lemma {:induction false} DelayNeedsRestart(s: State, known: Record, release: int, version: int, slot: Slot,
        polls: seq<Choice>)
    requires known.version != release
    requires forall k :: 0 <= k < |polls| ==> polls[k].delay > 0 && !polls[k].reboot
    ensures ContentOf(Polled(s, known, release, version, slot, polls), Other(slot)) == ContentOf(s, Other(slot))
    ensures Polled(s, known, release, version, slot, polls).env == s.env
  {
    hide PollOps, Executed;
    if polls != [] {
      var rest, last := polls[..|polls| - 1], polls[|polls| - 1];
      DelayNeedsRestart(s, known, release, version, slot, rest);
      PollDoes(Polled(s, known, release, version, slot, rest), known, release, version, slot, last);
    }
  }

  /** The polls of one watch: each starts from what the watch knew. */
  function Polled(s: State, known: Record, release: int, version: int, slot: Slot, polls: seq<Choice>): State {
    if polls == [] then s
    else
      Executed(Polled(s, known, release, version, slot, polls[..|polls| - 1]),
        PollOps(known, release, version, slot, polls[|polls| - 1]))
  }
}
