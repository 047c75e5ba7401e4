/**
 Runs of the pad daemon, from its start, after which a seat does not show what its devices
 ask for: one for each event that can bring that about.
 */
module PadRuns {
  import opened Options
  import opened Pads

  /** A connected pad without a guide button. */
  function APad(id: nat, seat: Seat, mode: Mode, raw: Row): Device {
    Device(id, seat, false, Pad, mode, raw, None)
  }

  // The events that set the scene do what they look like.

  lemma {:induction false} NoneToRelease(s: State, n: nat)
    requires Shaped(s) && n <= |s.devices| && forall k :: 0 <= k < n ==> s.devices[k].id == 0
    ensures ReleaseFirst(s, n) == s
  {
    hide Release;
    if n > 0 { NoneToRelease(s, n - 1); }
  }

  lemma {:induction false} NothingToLetGo(s: State, j: nat, n: nat)
    requires Shaped(s) && j < |s.devices| && n <= CONTROL_COUNT && Quiet(s.devices[j].raw)
    ensures LetGo(s, j, n) == s
  {
    hide SyncPad, FollowDial;
    if n > 0 { NothingToLetGo(s, j, n - 1); }
  }

  lemma ReleasesNothing(s: State, j: nat)
    requires Shaped(s) && j < |s.devices| && Quiet(s.devices[j].raw) && s.devices[j].swallowed == None
    ensures Release(s, j) == s
  {
    hide LetGo, Quiet;
    NothingToLetGo(s, j, CONTROL_COUNT);
    assert s.devices[j := s.devices[j]] == s.devices;
  }

  lemma AssignsQuiet(s: State, j: nat, seat: Seat)
    requires Shaped(s) && Live(s, j) && Quiet(s.devices[j].raw) && s.devices[j].swallowed == None
    ensures Next(s, EvAssign(j, seat)) == s.(devices := s.devices[j := s.devices[j].(seat := seat)])
  {
    hide Release, Quiet;
    ReleasesNothing(s, j);
    assert s.devices[j := s.devices[j]] == s.devices;
  }

  lemma SetsQuiet(s: State, j: nat, mode: Mode)
    requires Shaped(s) && Live(s, j) && Quiet(s.devices[j].raw) && s.devices[j].swallowed == None
    requires s.devices[j].kind == Pad
    ensures Next(s, EvMode(j, mode)) == s.(devices := s.devices[j := s.devices[j].(mode := mode)])
  {
    hide Release, Quiet;
    ReleasesNothing(s, j);
    assert s.devices[j := s.devices[j]] == s.devices;
  }

  lemma RestingIsQuiet()
    ensures Quiet(Resting())
  {
  }

  lemma StartAgrees()
    ensures Agrees(Run([]))
  {
    SilentAgrees(Initial());
  }

  /** An event that keeps agreement, added to a run that has it. */
  lemma StillAgrees(events: seq<Event>, e: Event)
    requires Agrees(Run(events)) && WillAgree(Run(events), e)
    ensures Agrees(Run(events + [e]))
  {
    hide Run, Agrees, WillAgree, Next;
    NothingStuck(events);
    NextAgrees(Run(events), e);
    RunStep(events, e);
  }

  lemma AgreesNoMore(events: seq<Event>, e: Event)
    requires Agrees(Run(events)) && !WillAgree(Run(events), e)
    ensures !Agrees(Run(events + [e]))
  {
    hide Run, Agrees, WillAgree, Next;
    NothingStuck(events);
    NextAgrees(Run(events), e);
    RunStep(events, e);
  }

  /** The only device on a seat gets what it asks for. */
  lemma OnlyDevice(s: State, j: nat, seat: Seat, i: Control)
    requires Shaped(s) && j < |s.devices| && On(s.devices[j], seat)
    requires forall k :: 0 <= k < |s.devices| && k != j ==> !On(s.devices[k], seat)
    ensures Fold(s, seat, i, |s.devices|) == Effective(s, s.devices[j], i)
  {
    hide Effective, Fold;
    FoldIsStrongest(s, seat, i, |s.devices|);
  }

  lemma NoDevice(s: State, seat: Seat)
    requires Shaped(s) && 0 <= seat && forall k :: 0 <= k < |s.devices| ==> !On(s.devices[k], seat)
    ensures FoldAll(s, seat) == Resting()
  {
    hide Fold, Quiet;
    RestsWithoutHolder(s, seat);
  }

  /** Without routes a control passes on as it is. */
  lemma Unrouted(s: State, raw: Row, i: Control)
    requires Shaped(s) && s.routes == [] && s.rerouted[i] == Sides(false, false)
    ensures Mapped(s, raw, i) == raw[i]
  {
  }

  /** The daemon after its start, with these devices in the first slots. */
  function With(devices: seq<Device>): State
    requires |devices| <= DEVICES_MAX
  {
    Initial().(devices := devices + seq(DEVICES_MAX - |devices|, _ => FreeDevice()), nextId := |devices| + 1)
  }

  lemma FreeBehind(devices: seq<Device>, n: nat)
    requires n < |devices| && n <= 1 && devices[n].id == 0 && forall k :: 0 <= k < n ==> devices[k].id != 0
    ensures FreeSlot(devices) == Some(n)
  {
    assert FreeSlot(devices[n..]) == Some(0) by { assert devices[n..][0] == devices[n]; }
    if n == 0 { assert devices[0..] == devices; }
  }

  lemma OneMoreDevice(devices: seq<Device>, added: Device)
    requires |devices| < DEVICES_MAX
    ensures With(devices).devices[|devices| := added] == With(devices + [added]).devices
    ensures With(devices).devices[|devices|].id == 0
    ensures forall k :: 0 <= k < |devices| ==> With(devices).devices[k] == devices[k]
  {
  }

  lemma Connects(s: State, devices: seq<Device>)
    requires |devices| < DEVICES_MAX && s.devices == With(devices).devices && s.nextId == |devices| + 1 && Shaped(s)
    requires |devices| <= 1 && forall k :: 0 <= k < |devices| ==> devices[k].id != 0
    ensures var next := With(devices + [APad(|devices| + 1, NO_PAD, Analog, Resting())]);
            Next(s, EvConnect(Pad, false)) == s.(devices := next.devices, nextId := next.nextId)
  {
    hide FreeSlot;
    OneMoreDevice(devices, APad(|devices| + 1, NO_PAD, Analog, Resting()));
    FreeBehind(s.devices, |devices|);
  }

  lemma Placed(devices: seq<Device>, j: nat, d: Device)
    requires j < |devices| <= DEVICES_MAX
    ensures With(devices).devices[j := d] == With(devices[j := d]).devices
    ensures With(devices).devices[j] == devices[j]
  {
  }

  // The runs.

  /** The menu opens, a pad is connected and seated, its first button goes down, and the menu closes. */
  lemma ClosingMenuMayDisagree() returns (before: seq<Event>)
    ensures Agrees(Run(before)) && !Agrees(Run(before + [EvMenu(false)]))
  {
    hide Run, Next, Agrees, WillAgree, Quiet, FoldAll, Effective, Unstuck;
    RestingIsQuiet();
    var one, two, three :=
      [EvMenu(true)], [EvMenu(true), EvConnect(Pad, false)], [EvMenu(true), EvConnect(Pad, false), EvAssign(0, 0)];
    before := three + [EvDrive(0, 0, 1)];
    var start := Initial().(menuOpen := true);
    assert Run(one) == start by { StartsWith(EvMenu(true)); OpensMenu(); }
    RunStep(one, EvConnect(Pad, false));
    assert two == one + [EvConnect(Pad, false)];
    var idle := APad(1, NO_PAD, Analog, Resting());
    Connects(start, []);
    assert [] + [idle] == [idle];
    var connected := With([idle]).(menuOpen := true);
    assert Run(two) == connected;
    RunStep(two, EvAssign(0, 0));
    assert three == two + [EvAssign(0, 0)];
    Placed([idle], 0, idle.(seat := 0));
    AssignsQuiet(connected, 0, 0);
    var seated := With([idle.(seat := 0)]).(menuOpen := true);
    assert Run(three) == seated;
    RunStep(three, EvDrive(0, 0, 1));
    var pressed := APad(1, 0, Analog, Resting()[0 := 1]);
    Placed([idle.(seat := 0)], 0, pressed);
    assert Run(before) == With([pressed]).(menuOpen := true) by { PressesUnderMenu(seated, pressed); }
    NothingStuck(before);
    UnderMenuAgrees(Run(before));
    Uncovered(Run(before), pressed);
    AgreesNoMore(before, EvMenu(false));
  }

  lemma StartsWith(e: Event)
    ensures Run([e]) == Next(Initial(), e)
  {
    RunStep([], e);
    assert [] + [e] == [e];
  }

  lemma OpensMenu()
    ensures Next(Initial(), EvMenu(true)) == Initial().(menuOpen := true)
  {
    hide ReleaseFirst;
    NoneToRelease(Initial(), DEVICES_MAX);
  }

  lemma PressesUnderMenu(s: State, pressed: Device)
    requires Shaped(s) && s.menuOpen && Live(s, 0) && s.devices[0].raw == Resting()
    requires pressed == s.devices[0].(raw := Resting()[0 := 1])
    ensures Next(s, EvDrive(0, 0, 1)) == s.(devices := s.devices[0 := pressed])
  {
    hide SyncPad, FollowDial;
    assert s.devices[0].raw[0] == 0;
  }

  lemma UnderMenuAgrees(s: State)
    requires Shaped(s) && s.menuOpen && Unstuck(s)
    ensures Agrees(s)
  {
    hide SomeHolding, Agrees;
    SilentAgrees(s);
  }

  lemma Uncovered(s: State, pressed: Device)
    requires pressed == APad(1, 0, Analog, Resting()[0 := 1]) && s == With([pressed]).(menuOpen := true)
    ensures !WillAgree(s, EvMenu(false))
  {
    hide Effective, Fold;
    var closed := s.(menuOpen := false);
    OnlyDevice(closed, 0, 0, 0);
    Asks(closed, 0, 0);
    assert FoldAll(closed, 0)[0] == Fold(closed, 0, 0, |closed.devices|);
    assert s.plugged[0];
  }

  lemma Asks(s: State, j: nat, i: Control)
    requires Shaped(s) && j < |s.devices| && Routed(s, s.devices[j]) && s.devices[j].mode == Analog
    requires s.routes == [] && s.rerouted[i] == Sides(false, false)
    ensures Effective(s, s.devices[j], i) == s.devices[j].raw[i]
  {
    hide Mapped;
    Unrouted(s, s.devices[j].raw, i);
  }

  lemma AsksDial(s: State, j: nat)
    requires Shaped(s) && j < |s.devices| && Routed(s, s.devices[j]) && s.devices[j].mode == Digital
    requires s.routes == [] && s.rerouted[LEFT_X] == s.rerouted[RIGHT_X] == Sides(false, false)
    ensures Effective(s, s.devices[j], LEFT_X) ==
            if !s.dial then AXIS_CENTER else s.devices[j].raw[if s.dialAbsolute then RIGHT_X else LEFT_X]
  {
    hide Mapped;
    Unrouted(s, s.devices[j].raw, LEFT_X);
    Unrouted(s, s.devices[j].raw, RIGHT_X);
  }

  /** A pad connected and seated. */
  lemma Seated(seat: Seat) returns (events: seq<Event>)
    requires 0 <= seat
    ensures Run(events) == With([APad(1, seat, Analog, Resting())]) && Agrees(Run(events))
  {
    hide Run, Next, Agrees, Quiet;
    RestingIsQuiet();
    StartAgrees();
    var connect, assign := EvConnect(Pad, false), EvAssign(0, seat);
    var idle := APad(1, NO_PAD, Analog, Resting());
    StartsWith(connect);
    Connects(Initial(), []);
    assert [] + [idle] == [idle];
    StillAgrees([], connect);
    assert [] + [connect] == [connect];
    Placed([idle], 0, idle.(seat := seat));
    AssignsQuiet(With([idle]), 0, seat);
    RunStep([connect], assign);
    StillAgrees([connect], assign);
    events := [connect] + [assign];
  }

  /** A drive keeps everything but the control, what is emitted and the dial. */
  lemma Driven(events: seq<Event>, j: nat, i: Control, value: int)
    requires Live(Run(events), j)
    ensures Moves(Run(events), Run(events + [EvDrive(j, i, value)]), j)
    ensures Run(events + [EvDrive(j, i, value)]).devices[j].raw == Run(events).devices[j].raw[i := value]
    ensures !Turns(Run(events), j, i, value) && Agrees(Run(events)) ==> Agrees(Run(events + [EvDrive(j, i, value)]))
    ensures Run(events + [EvDrive(j, i, value)]).dialAbsolute ==
            if Turns(Run(events), j, i, value) then !Run(events).dialAbsolute else Run(events).dialAbsolute
  {
    hide Run, Drive, Turns, Agrees, SameLeftX;
    RunStep(events, EvDrive(j, i, value));
    DriveMoves(Run(events), j, i, value);
    DriveTurns(Run(events), j, i, value);
    if Agrees(Run(events)) { DriveAgrees(Run(events), j, i, value); }
  }

  /** A pad is seated on a seat that is not plugged, its first button goes down, and the seat is plugged. */
  lemma PluggingMayDisagree() returns (before: seq<Event>)
    ensures Agrees(Run(before)) && !Agrees(Run(before + [EvPads(2)]))
  {
    hide Run, Agrees, WillAgree, Moves;
    var seated := Seated(1);
    before := seated + [EvDrive(0, 0, 1)];
    Driven(seated, 0, 0, 1);
    var s := Run(before);
    assert !WillAgree(s, EvPads(2)) by { AwaitsPlug(With([APad(1, 1, Analog, Resting())]), s); }
    AgreesNoMore(before, EvPads(2));
  }

  lemma AwaitsPlug(was: State, s: State)
    requires Shaped(s) && was == With([APad(1, 1, Analog, Resting())]) && Moves(was, s, 0)
    requires s.devices[0].raw == was.devices[0].raw[0 := 1]
    ensures !WillAgree(s, EvPads(2))
  {
    hide Effective, Fold;
    OnlyDevice(s, 0, 1, 0);
    Asks(s, 0, 0);
    assert FoldAll(s, 1)[0] == Fold(s, 1, 0, |s.devices|) == 1;
    assert Resting()[0] == 0;
    assert !s.plugged[1];
  }

  /** A digital pad holds its first stick to the right, and a dial is set. */
  lemma SettingDialMayDisagree() returns (before: seq<Event>)
    ensures Agrees(Run(before)) && !Agrees(Run(before + [EvDial(true, false)]))
  {
    hide Run, Agrees, WillAgree, Moves, Quiet;
    RestingIsQuiet();
    var seated := Seated(0);
    var mode := EvMode(0, Digital);
    var idle := APad(1, 0, Analog, Resting());
    SetsQuiet(With([idle]), 0, Digital);
    Placed([idle], 0, idle.(mode := Digital));
    RunStep(seated, mode);
    assert Agrees(Run(seated + [mode])) by { ModeKeeps(seated, mode); }
    before := seated + [mode] + [EvDrive(0, LEFT_X, AXIS_MAX)];
    assert Run(seated + [mode]) == With([idle.(mode := Digital)]);
    Driven(seated + [mode], 0, LEFT_X, AXIS_MAX);
    var s := Run(before);
    assert !WillAgree(s, EvDial(true, false)) by { AwaitsDial(With([idle.(mode := Digital)]), s); }
    AgreesNoMore(before, EvDial(true, false));
  }

  lemma ModeKeeps(events: seq<Event>, e: Event)
    requires Agrees(Run(events)) && e.EvMode?
    ensures Agrees(Run(events + [e]))
  {
    hide Run, Agrees;
    StillAgrees(events, e);
  }

  lemma AwaitsDial(was: State, s: State)
    requires Shaped(s) && was == With([APad(1, 0, Digital, Resting())]) && Moves(was, s, 0)
    requires s.devices[0].raw == was.devices[0].raw[LEFT_X := AXIS_MAX]
    ensures !WillAgree(s, EvDial(true, false))
  {
    hide Effective, Fold;
    var dialled := s.(dial := true, dialAbsolute := false);
    OnlyDevice(s, 0, 0, LEFT_X);
    AsksDial(s, 0);
    OnlyDevice(dialled, 0, 0, LEFT_X);
    AsksDial(dialled, 0);
    assert !SameLeftX(s, dialled, 0);
    assert s.plugged[0];
  }

  /** A remote pad sends a number that no button has, and it is emitted. */
  lemma RemotePadMayExceed() returns (events: seq<Event>)
    ensures !AllRange(Run(events))
  {
    hide Run, Agrees, WillAgree, Next;
    var seated := Seated(0);
    var input := EvInput(0, 0, 7);
    var s := Run(seated);
    assert WillAgree(s, input) by { Undialled(s, input); }
    StillAgrees(seated, input);
    RunStep(seated, input);
    events := seated + [input];
    Exceeds(s, Run(events));
  }

  lemma Undialled(s: State, e: Event)
    requires Shaped(s) && !s.dial && e.EvInput?
    ensures WillAgree(s, e)
  {
  }

  lemma Exceeds(s: State, next: State)
    requires s == With([APad(1, 0, Analog, Resting())]) && Shaped(next)
    requires next == Next(s, EvInput(0, 0, 7)) && Agrees(next)
    ensures !AllRange(next)
  {
    hide Effective, Fold, SyncPad, FollowDial;
    assert next == Drive(s, 0, 0, 7);
    DriveMoves(s, 0, 0, 7);
    hide Drive, PadInput;
    OnlyDevice(next, 0, 0, 0);
    Asks(next, 0, 0);
    assert next.emitted[0] == FoldAll(next, 0);
    assert FoldAll(next, 0)[0] == Fold(next, 0, 0, |next.devices|) == 7;
    assert !Ranges(0, next.emitted[0][0]);
  }

  /** Both pads on plugged seats, digital, under a relative dial; the second one holds its first stick to the right. */
  function Pair(second: Row): State {
    With([APad(1, 0, Digital, Resting()), APad(2, 1, Digital, second)])
    .(plugged := [true, true, false, false], dial := true, dialAbsolute := false)
  }

  /** A run and what it leads to. */
  ghost predicate Leads(events: seq<Event>, s: State) {
    Run(events) == s && Agrees(s)
  }

  lemma LeadsOn(events: seq<Event>, s: State, e: Event, next: State)
    requires Leads(events, s) && Shaped(s) && Next(s, e) == next && WillAgree(s, e)
    ensures Leads(events + [e], next)
  {
    hide Run, Agrees, WillAgree, Next;
    StillAgrees(events, e);
    RunStep(events, e);
  }

  lemma PlugsSecond()
    ensures Next(Initial(), EvPads(2)) == Initial().(plugged := [true, true, false, false])
    ensures WillAgree(Initial(), EvPads(2))
  {
    hide Fold;
    var s := Initial();
    NoDevice(s, 1);
    assert Next(s, EvPads(2)).emitted == s.emitted;
    assert Next(s, EvPads(2)).plugged == [true, true, false, false];
  }

  /** Two pads connected, with the second seat plugged. */
  lemma TwoConnected() returns (events: seq<Event>)
    ensures Leads(events, With([APad(1, NO_PAD, Analog, Resting()), APad(2, NO_PAD, Analog, Resting())])
                          .(plugged := [true, true, false, false]))
  {
    hide Run, Agrees, Next, Quiet, Fold, Leads;
    var plugged := [true, true, false, false];
    var first, second := APad(1, NO_PAD, Analog, Resting()), APad(2, NO_PAD, Analog, Resting());
    assert Leads([], Initial()) by { StartLeads(); }
    PlugsSecond();
    LeadsOn([], Initial(), EvPads(2), Initial().(plugged := plugged));
    Connects(Initial().(plugged := plugged), []);
    assert [] + [first] == [first] && [first] + [second] == [first, second];
    LeadsOn([] + [EvPads(2)], Initial().(plugged := plugged), EvConnect(Pad, false),
      With([first]).(plugged := plugged));
    Connects(With([first]).(plugged := plugged), [first]);
    events := [] + [EvPads(2)] + [EvConnect(Pad, false)] + [EvConnect(Pad, false)];
    LeadsOn([] + [EvPads(2)] + [EvConnect(Pad, false)], With([first]).(plugged := plugged), EvConnect(Pad, false),
            With([first, second]).(plugged := plugged));
  }

  lemma StartLeads()
    ensures Leads([], Initial())
  {
    StartAgrees();
  }

  /** Seating a pad and making it digital. */
  lemma MadeDigital(events: seq<Event>, devices: seq<Device>, j: nat, seat: Seat) returns (more: seq<Event>)
    requires |devices| == 2 && j < 2 && devices[j] == APad(j + 1, NO_PAD, Analog, Resting()) && 0 <= seat
    requires Leads(events, With(devices).(plugged := [true, true, false, false]))
    ensures var digital := devices[j := APad(j + 1, seat, Digital, Resting())];
            Leads(more, With(digital).(plugged := [true, true, false, false]))
  {
    hide Run, Agrees, Next, Quiet, Leads, Resting;
    RestingIsQuiet();
    var plugged := [true, true, false, false];
    var seated := devices[j := APad(j + 1, seat, Analog, Resting())];
    var digital := devices[j := APad(j + 1, seat, Digital, Resting())];
    Placed(devices, j, seated[j]);
    AssignsQuiet(With(devices).(plugged := plugged), j, seat);
    LeadsOn(events, With(devices).(plugged := plugged), EvAssign(j, seat), With(seated).(plugged := plugged));
    Placed(seated, j, digital[j]);
    assert seated[j := digital[j]] == digital;
    SetsQuiet(With(seated).(plugged := plugged), j, Digital);
    LeadsOn(events + [EvAssign(j, seat)], With(seated).(plugged := plugged), EvMode(j, Digital),
      With(digital).(plugged := plugged));
    more := events + [EvAssign(j, seat)] + [EvMode(j, Digital)];
  }

  lemma DialWhileQuiet(s: State)
    requires Shaped(s) && AllQuiet(s, |s.devices|)
    ensures WillAgree(s, EvDial(true, false))
  {
    hide Fold, Quiet;
    var dialled := s.(dial := true, dialAbsolute := false);
    forall seat: Seat ensures SameLeftX(s, dialled, seat) {
      QuietFold(s, seat, LEFT_X, |s.devices|);
      QuietFold(dialled, seat, LEFT_X, |s.devices|);
    }
  }

  /** Two digital pads share a dial; one holds the relative stick, and the other turns the absolute one. */
  lemma TurningMayDisagree() returns (before: seq<Event>)
    ensures Agrees(Run(before)) && !Agrees(Run(before + [EvDrive(0, RIGHT_X, AXIS_MAX)]))
  {
    hide Run, Agrees, Next, WillAgree, Leads, Quiet, Resting, Moves, Turns;
    RestingIsQuiet();
    var idle := [APad(1, NO_PAD, Analog, Resting()), APad(2, NO_PAD, Analog, Resting())];
    var connected := TwoConnected();
    var one := MadeDigital(connected, idle, 0, 0);
    var half := idle[0 := APad(1, 0, Digital, Resting())];
    var both := MadeDigital(one, half, 1, 1);
    var pair := [APad(1, 0, Digital, Resting()), APad(2, 1, Digital, Resting())];
    assert half[1 := APad(2, 1, Digital, Resting())] == pair;
    var ready := With(pair).(plugged := [true, true, false, false]);
    assert WillAgree(ready, EvDial(true, false)) by { PairIsQuiet(ready, pair); DialWhileQuiet(ready); }
    assert Next(ready, EvDial(true, false)) == Pair(Resting()) by { SetsDial(ready); }
    LeadsOn(both, ready, EvDial(true, false), Pair(Resting()));
    var dialled := both + [EvDial(true, false)];
    assert Run(dialled) == Pair(Resting()) && Agrees(Run(dialled)) by { LeadsTo(dialled, Pair(Resting())); }
    before := dialled + [EvDrive(1, LEFT_X, AXIS_MAX)];
    Driven(dialled, 1, LEFT_X, AXIS_MAX);
    assert !Turns(Pair(Resting()), 1, LEFT_X, AXIS_MAX) by { RelativeTurnsNothing(); }
    var s := Run(before);
    assert !WillAgree(s, EvDrive(0, RIGHT_X, AXIS_MAX)) by { TurnSeen(s); }
    AgreesNoMore(before, EvDrive(0, RIGHT_X, AXIS_MAX));
  }

  lemma LeadsTo(events: seq<Event>, s: State)
    requires Leads(events, s)
    ensures Run(events) == s && Agrees(Run(events))
  {
  }

  lemma PairIsQuiet(s: State, pair: seq<Device>)
    requires |pair| == 2 && Quiet(pair[0].raw) && Quiet(pair[1].raw) && s.devices == With(pair).devices
    ensures AllQuiet(s, |s.devices|)
  {
    hide Quiet;
  }

  lemma SetsDial(s: State)
    ensures Shaped(s) ==> Next(s, EvDial(true, false)) == s.(dial := true, dialAbsolute := false)
  {
  }

  lemma RelativeTurnsNothing()
    ensures !Turns(Pair(Resting()), 1, LEFT_X, AXIS_MAX)
  {
  }

  lemma TurnSeen(s: State)
    requires Shaped(s) && Moves(Pair(Resting()), s, 1) && !s.dialAbsolute
    requires s.devices[1].raw == Resting()[LEFT_X := AXIS_MAX]
    ensures !WillAgree(s, EvDrive(0, RIGHT_X, AXIS_MAX))
  {
    hide Effective, Fold;
    var was := Pair(Resting());
    assert s.devices[0] == was.devices[0] && s.devices[1] == was.devices[1].(raw := s.devices[1].raw);
    assert Resting()[RIGHT_X] == AXIS_CENTER;
    OnlyDevice(s, 1, 1, LEFT_X);
    AsksDial(s, 1);
    OnlyDevice(Turned(s), 1, 1, LEFT_X);
    AsksDial(Turned(s), 1);
    assert !SameLeftX(s, Turned(s), 1);
    assert Turns(s, 0, RIGHT_X, AXIS_MAX);
    assert s.plugged[1];
  }
}
