/**
 The pad daemon folds any number of input devices onto a few virtual pads. A device sits on
 a seat, works in a mode, and may be remapped by the running game; the menu takes all
 devices away from the seats while it is open.
 */
module Pads {
  import opened Options

  const PADS := 4
  const DEVICES_MAX := 64
  const CONTROL_COUNT := 25
  const AXIS_MAX := 255
  const AXIS_CENTER := 128
  const AXIS_REACH := AXIS_MAX / 4
  const TRIGGER_PRESS := AXIS_MAX / 2

  /** Controls in the order of the table: buttons, sticks, triggers, directions. */
  type Control = i: int | 0 <= i < CONTROL_COUNT witness 0
  type Row = s: seq<int> | |s| == CONTROL_COUNT witness seq(CONTROL_COUNT, _ => 0)
  type Seat = s: int | -1 <= s < PADS witness -1

  const BACK: Control := 8
  const START: Control := 9
  const GUIDE: Control := 10
  const LEFT_X: Control := 15
  const LEFT_Y: Control := 16
  const RIGHT_X: Control := 17
  const UP: Control := 21
  const DOWN: Control := 22
  const LEFT: Control := 23
  const RIGHT: Control := 24
  const NO_PAD: Seat := -1

  predicate IsStick(i: Control) {
    15 <= i <= 18
  }

  predicate IsTrigger(i: Control) {
    19 <= i <= 20
  }

  predicate IsHat(i: Control) {
    21 <= i
  }

  /** Up and left are negative, down and right positive. */
  function Direction(i: Control): int {
    if !IsHat(i) then 0 else if i % 2 == 1 then -1 else 1
  }

  /** The stick that works as this direction as well. */
  function StickOf(i: Control): Control {
    if i <= 22 then LEFT_Y else LEFT_X
  }

  datatype Mode = Analog | Digital | Keys | Pointer | Desktop
  datatype Kind = Pad | Keyboard | Mouse
  function Native(kind: Kind): Mode {
    match kind
    case Pad => Analog
    case Keyboard => Keys
    case Mouse => Pointer
  }

  predicate Allows(kind: Kind, mode: Mode) {
    match kind
    case Pad => true
    case Keyboard => mode == Keys || mode == Digital
    case Mouse => mode == Pointer || mode == Analog
  }

  datatype Device = Device(id: nat, seat: Seat, guide: bool, kind: Kind, mode: Mode, raw: Row,
        swallowed: Option<Control>)

  /** A remapping of the running game; `sign` picks a side of a stick. */
  datatype Route = Route(source: Control, sign: int, target: Control)

  datatype Sides = Sides(negative: bool, positive: bool)

  /** All that the daemon keeps about devices, seats and remapping. */
  datatype State = State(
    devices: seq<Device>,
    plugged: seq<bool>,
    emitted: seq<Row>,
    routes: seq<Route>,
    rerouted: seq<Sides>,
    menuOpen: bool,
    dial: bool,
    dialAbsolute: bool,
    nextId: nat)

  predicate Shaped(s: State) {
    |s.plugged| == PADS && |s.emitted| == PADS && |s.rerouted| == CONTROL_COUNT && s.nextId > 0
  }

  // Values.

  function Rest(i: Control): int {
    if IsStick(i) then AXIS_CENTER else 0
  }

  function Resting(): Row {
    seq(CONTROL_COUNT, i requires 0 <= i < CONTROL_COUNT => Rest(i))
  }

  function Abs(x: int): int {
    if x < 0 then -x else x
  }

  function StickDirection(value: int): int {
    if value < AXIS_CENTER - AXIS_REACH then -1 else if value > AXIS_CENTER + AXIS_REACH then 1 else 0
  }

  predicate Pressed(i: Control, value: int) {
    if IsTrigger(i) then value > TRIGGER_PRESS else value > 0
  }

  function Bit(b: bool): int {
    if b then 1 else 0
  }

  function Stronger(i: Control, value: int, candidate: int): int {
    if Abs(candidate - Rest(i)) > Abs(value - Rest(i)) then candidate else value
  }

  function Clamp(low: real, x: real, high: real): real {
    if x < low then low else if x > high then high else x
  }

  /** Rounds to the nearest whole number, halves away from zero. */
  function Lround(x: real): int {
    if x >= 0.0 then (x + 0.5).Floor else -(-x + 0.5).Floor
  }

  function AxisValue(unit: real): int {
    Lround((Clamp(-1.0, unit, 1.0) + 1.0) * 255.0 / 2.0)
  }

  /** How far a control is moved, from -1 to 1. */
  function Amount(source: Control, raw: int): real {
    if IsStick(source) then (raw - AXIS_CENTER) as real / 127.0
    else if IsTrigger(source) then raw as real / 255.0
    else if IsHat(source) then (raw * Direction(source)) as real
    else raw as real
  }

  function Converted(route: Route, raw: int): int {
    var full := Amount(route.source, raw);
    var amount := if route.sign == 0 then full
                  else if route.sign as real * full > 0.0 then route.sign as real * full
                  else 0.0;
    if IsStick(route.target) then AxisValue(amount)
    else if IsTrigger(route.target) then Lround(Clamp(0.0, if amount < 0.0 then -amount else amount, 1.0) * 255.0)
    else if !IsStick(route.source) then Bit(Pressed(route.source, raw))
    else if route.sign != 0 then Bit(StickDirection(raw) == route.sign)
    else Bit(StickDirection(raw) != 0)
  }

  /** A control whose moved side is remapped does not pass on its own value. */
  function Direct(i: Control, sides: Sides, raw: int): int {
    if (raw < Rest(i) && sides.negative) || (raw > Rest(i) && sides.positive) then Rest(i) else raw
  }

  /** The strongest of the own value and the first `n` routes to the control. */
  function MappedBy(s: State, raw: Row, i: Control, n: nat): int
    requires Shaped(s) && n <= |s.routes|
  {
    if n == 0 then Direct(i, s.rerouted[i], raw[i])
    else
      var value, route := MappedBy(s, raw, i, n - 1), s.routes[n - 1];
      if route.target == i then Stronger(i, value, Converted(route, raw[route.source])) else value
  }

  function Mapped(s: State, raw: Row, i: Control): int
    requires Shaped(s)
  {
    MappedBy(s, raw, i, |s.routes|)
  }

  predicate Routed(s: State, d: Device) {
    d.seat != NO_PAD && !s.menuOpen
  }

  predicate Passes(mode: Mode) {
    mode == Analog || mode == Digital
  }

  /** What the device asks of a control of its seat. */
  function Effective(s: State, d: Device, i: Control): int
    requires Shaped(s)
  {
    if !Routed(s, d) || !Passes(d.mode) then Rest(i)
    else
      var value := Mapped(s, d.raw, i);
      if d.mode == Analog then value
      else if IsHat(i) then Bit(value != 0 || StickDirection(Mapped(s, d.raw, StickOf(i))) == Direction(i))
      else if s.dial && i == LEFT_X then if s.dialAbsolute then Mapped(s, d.raw, RIGHT_X) else value
      else if IsStick(i) then AXIS_CENTER
      else if IsTrigger(i) then if Pressed(i, value) then AXIS_MAX else 0
      else value
  }

  predicate On(d: Device, seat: Seat) {
    d.id != 0 && d.seat == seat
  }

  /** The strongest wish of the first `n` devices. */
  function Fold(s: State, seat: Seat, i: Control, n: nat): int
    requires Shaped(s) && n <= |s.devices|
  {
    if n == 0 then Rest(i)
    else if On(s.devices[n - 1], seat) then Stronger(i, Fold(s, seat, i, n - 1), Effective(s, s.devices[n - 1], i))
    else Fold(s, seat, i, n - 1)
  }

  function FoldAll(s: State, seat: Seat): Row
    requires Shaped(s)
  {
    seq(CONTROL_COUNT, i requires 0 <= i < CONTROL_COUNT => Fold(s, seat, i, |s.devices|))
  }

  // Events.

  function SyncPad(s: State, seat: Seat): State
    requires Shaped(s) && seat != NO_PAD
  {
    if s.plugged[seat] then s.(emitted := s.emitted[seat := FoldAll(s, seat)]) else s
  }

  /** Turning the other stick of a dial switches between relative and absolute. */
  function FollowDial(s: State, i: Control, value: int): State {
    if !s.dial || (i != LEFT_X && i != RIGHT_X) || StickDirection(value) == 0 then s
    else s.(dialAbsolute := i == RIGHT_X)
  }

  function SetRaw(s: State, j: nat, i: Control, value: int): State
    requires j < |s.devices|
  {
    s.(devices := s.devices[j := s.devices[j].(raw := s.devices[j].raw[i := value])])
  }

  function Drive(s: State, j: nat, i: Control, value: int): (next: State)
    requires Shaped(s) && j < |s.devices|
    ensures Shaped(next) && |next.devices| == |s.devices|
  {
    var d := s.devices[j];
    if d.raw[i] == value then s
    else
      var moved := SetRaw(s, j, i, value);
      if !Routed(s, d) || !Passes(d.mode) then moved
      else SyncPad(if d.mode == Digital then FollowDial(moved, i, value) else moved, d.seat)
  }

  function Partner(i: Control): Option<Control> {
    if i == BACK then Some(START) else if i == START then Some(BACK) else None
  }

  predicate HasGuide(s: State, j: nat)
    requires j < |s.devices|
  {
    exists k :: 0 <= k < |s.devices| && GuideFor(s, j, k)
  }

  predicate GuideFor(s: State, j: nat, k: nat)
    requires j < |s.devices| && k < |s.devices|
  {
    var other := s.devices[k];
    other.id != 0 && other.guide && (k == j || (s.devices[j].seat != NO_PAD && other.seat == s.devices[j].seat))
  }

  /** The input of a pad: back and start together are the guide button of a pad without one. */
  function PadInput(s: State, j: nat, i: Control, value: int): (next: State)
    requires Shaped(s) && j < |s.devices|
    ensures Shaped(next) && |next.devices| == |s.devices|
  {
    var d := s.devices[j];
    if i == GUIDE then s
    else if d.swallowed == Some(i) then
      if value != 0 then s else s.(devices := s.devices[j := d.(swallowed := None)])
    else if value != 0 && Partner(i).Some? && d.raw[Partner(i).value] != 0 && !HasGuide(s, j) then
      s.(devices := s.devices[j := d.(swallowed := Some(i))])
    else Drive(s, j, i, value)
  }

  /** The first `n` controls of the device let go. */
  function LetGo(s: State, j: nat, n: nat): (next: State)
    requires Shaped(s) && j < |s.devices| && n <= CONTROL_COUNT
    ensures Shaped(next) && |next.devices| == |s.devices|
  {
    if n == 0 then s else Drive(LetGo(s, j, n - 1), j, n - 1, Rest(n - 1))
  }

  function Release(s: State, j: nat): (next: State)
    requires Shaped(s) && j < |s.devices|
    ensures Shaped(next) && |next.devices| == |s.devices|
  {
    var quiet := LetGo(s, j, CONTROL_COUNT);
    quiet.(devices := quiet.devices[j := quiet.devices[j].(swallowed := None)])
  }

  /** The first `n` devices released. */
  function ReleaseFirst(s: State, n: nat): (next: State)
    requires Shaped(s) && n <= |s.devices|
    ensures Shaped(next) && |next.devices| == |s.devices|
  {
    if n == 0 then s
    else
      var rest := ReleaseFirst(s, n - 1);
      if rest.devices[n - 1].id != 0 then Release(rest, n - 1) else rest
  }

  function ReleaseAll(s: State): (next: State)
    requires Shaped(s)
    ensures Shaped(next) && |next.devices| == |s.devices|
  {
    ReleaseFirst(s, |s.devices|)
  }

  function Assign(s: State, j: nat, seat: Seat): State
    requires Shaped(s) && j < |s.devices|
  {
    if s.devices[j].seat == seat then s
    else
      var quiet := Release(s, j);
      quiet.(devices := quiet.devices[j := quiet.devices[j].(seat := seat)])
  }

  function SetMode(s: State, j: nat, mode: Mode): State
    requires Shaped(s) && j < |s.devices|
  {
    var d := s.devices[j];
    if !Allows(d.kind, mode) || d.mode == mode then s
    else
      var quiet := Release(s, j);
      quiet.(devices := quiet.devices[j := quiet.devices[j].(mode := mode)])
  }

  function SetMenu(s: State, open: bool): State
    requires Shaped(s)
  {
    (if open then ReleaseAll(s) else s).(menuOpen := open)
  }

  /** An entry of a game's pad map: a sign, and the two named controls where they exist. */
  datatype Entry = Entry(sign: int, source: Option<Control>, target: Option<Control>)

  predicate Accepted(e: Entry) {
    e.source.Some? && e.target.Some? && (e.sign != 0 ==> IsStick(e.source.value))
  }

  function Reroute(sides: Sides, sign: int): Sides {
    if sign < 0 then sides.(negative := true)
    else if sign > 0 then sides.(positive := true)
    else Sides(true, true)
  }

  function AddRoute(s: State, e: Entry): (next: State)
    requires Shaped(s)
    ensures Shaped(next)
  {
    if !Accepted(e) then s
    else
      var source := e.source.value;
      s.(routes := s.routes + [Route(source, e.sign, e.target.value)],
         rerouted := s.rerouted[source := Reroute(s.rerouted[source], e.sign)])
  }

  function AddRoutes(s: State, entries: seq<Entry>): (next: State)
    requires Shaped(s)
    ensures Shaped(next)
  {
    if entries == [] then s else AddRoute(AddRoutes(s, entries[..|entries| - 1]), entries[|entries| - 1])
  }

  function Unmapped(s: State): (next: State)
    requires Shaped(s)
    ensures Shaped(next)
  {
    ReleaseAll(s).(routes := [], rerouted := seq(CONTROL_COUNT, _ => Sides(false, false)))
  }

  /** A game starts or ends; its map replaces the one before. */
  function LoadMaps(s: State, entries: seq<Entry>): State
    requires Shaped(s)
  {
    AddRoutes(Unmapped(s), entries)
  }

  function Plug(s: State, seat: Seat): State
    requires Shaped(s) && seat != NO_PAD
  {
    if s.plugged[seat] then s else s.(plugged := s.plugged[seat := true], emitted := s.emitted[seat := Resting()])
  }

  function Unplug(s: State, seat: Seat): State
    requires Shaped(s) && seat != NO_PAD
  {
    s.(plugged := s.plugged[seat := false])
  }

  /** The first `seats` seats after `set_pads`: the first one always stays. */
  function SetPads(s: State, count: int, seats: nat): (next: State)
    requires Shaped(s) && seats <= PADS
    ensures Shaped(next)
  {
    if seats == 0 then s
    else
      var rest, seat := SetPads(s, count, seats - 1), seats - 1;
      if seat < count || seat == 0 then Plug(rest, seat) else Unplug(rest, seat)
  }

  function FreeSlot(devices: seq<Device>): (slot: Option<nat>)
    ensures slot == None ==> forall k :: 0 <= k < |devices| ==> devices[k].id != 0
    ensures slot.Some? ==> slot.value < |devices| && devices[slot.value].id == 0
                           && forall k :: 0 <= k < slot.value ==> devices[k].id != 0
  {
    if devices == [] then None
    else if devices[0].id == 0 then Some(0)
    else match FreeSlot(devices[1..]) case None => None case Some(j) => Some(j + 1)
  }

  function Connect(s: State, kind: Kind, guide: bool): State
    requires Shaped(s)
  {
    match FreeSlot(s.devices)
    case None => s
    case Some(j) =>
      s.(devices := s.devices[j := Device(s.nextId, NO_PAD, guide, kind, Native(kind), Resting(), None)],
         nextId := s.nextId + 1)
  }

  function Disconnect(s: State, j: nat): State
    requires Shaped(s) && j < |s.devices|
  {
    var quiet := Release(s, j);
    quiet.(devices := quiet.devices[j := quiet.devices[j].(id := 0)])
  }

  datatype Event =
    | EvInput(slot: nat, control: Control, value: int)
    | EvDrive(slot: nat, control: Control, value: int)
    | EvAssign(slot: nat, seat: Seat)
    | EvMode(slot: nat, mode: Mode)
    | EvMenu(open: bool)
    | EvMaps(entries: seq<Entry>)
    | EvDial(on: bool, absolute: bool)
    | EvPads(count: int)
    | EvConnect(kind: Kind, guide: bool)
    | EvDisconnect(slot: nat)

  predicate Live(s: State, j: nat) {
    j < |s.devices| && s.devices[j].id != 0
  }

  function Next(s: State, e: Event): State
    requires Shaped(s)
  {
    match e
    case EvInput(j, i, value) => if Live(s, j) then PadInput(s, j, i, value) else s
    case EvDrive(j, i, value) => if Live(s, j) then Drive(s, j, i, value) else s
    case EvAssign(j, seat) => if Live(s, j) then Assign(s, j, seat) else s
    case EvMode(j, mode) => if Live(s, j) then SetMode(s, j, mode) else s
    case EvMenu(open) => SetMenu(s, open)
    case EvMaps(entries) => LoadMaps(s, entries)
    case EvDial(on, absolute) => s.(dial := on, dialAbsolute := absolute)
    case EvPads(count) => SetPads(s, count, PADS)
    case EvConnect(kind, guide) => Connect(s, kind, guide)
    case EvDisconnect(j) => if Live(s, j) then Disconnect(s, j) else s
  }

  function FreeDevice(): Device {
    Device(0, NO_PAD, false, Pad, Analog, Resting(), None)
  }

  /** The daemon after start: an empty table and the first seat plugged. */
  function Initial(): State {
    State(seq(DEVICES_MAX, _ => FreeDevice()), [true, false, false, false], seq(PADS, _ => Resting()),
          [], seq(CONTROL_COUNT, _ => Sides(false, false)), false, false, false, 1)
  }

  function Run(events: seq<Event>): (s: State)
    ensures Shaped(s)
  {
    if events == [] then Initial() else Next(Run(events[..|events| - 1]), events[|events| - 1])
  }

  // At rest.

  predicate Quiet(raw: Row) {
    forall k: Control :: raw[k] == Rest(k)
  }

  /** Every route turns a source at rest into a target at rest, rounding included. */
  lemma RestConverts(route: Route)
    ensures Converted(route, Rest(route.source)) == Rest(route.target)
  {
    assert Amount(route.source, Rest(route.source)) == 0.0 by {
      assert 0.0 / 127.0 == 0.0 && 0.0 / 255.0 == 0.0;
    }
    assert route.sign as real * 0.0 == 0.0;
    assert AxisValue(0.0) == AXIS_CENTER by {
      assert (Clamp(-1.0, 0.0, 1.0) + 1.0) * 255.0 / 2.0 == 127.5;
    }
    assert Lround(Clamp(0.0, 0.0, 1.0) * 255.0) == 0;
  }

  lemma {:induction false} RestMaps(s: State, raw: Row, i: Control, n: nat)
    requires Shaped(s) && n <= |s.routes| && Quiet(raw)
    ensures MappedBy(s, raw, i, n) == Rest(i)
  {
    hide Converted;
    if n > 0 {
      RestMaps(s, raw, i, n - 1);
      RestConverts(s.routes[n - 1]);
    }
  }

  /** Whatever the mode, the dial and the remapping, a device at rest asks for nothing. */
  lemma QuietAsksNothing(s: State, d: Device, i: Control)
    requires Shaped(s) && Quiet(d.raw)
    ensures Effective(s, d, i) == Rest(i)
  {
    hide MappedBy;
    RestMaps(s, d.raw, i, |s.routes|);
    RestMaps(s, d.raw, StickOf(i), |s.routes|);
    RestMaps(s, d.raw, RIGHT_X, |s.routes|);
  }

  /** A device that keeps a seat from resting: it may pass its controls on, and one of them is moved. */
  predicate Holding(s: State, j: nat, seat: Seat) {
    && j < |s.devices| && On(s.devices[j], seat)
    && Passes(s.devices[j].mode) && !Quiet(s.devices[j].raw)
  }

  predicate SomeHolding(s: State, seat: Seat) {
    exists j :: 0 <= j < |s.devices| && Holding(s, j, seat)
  }

  /** No virtual control is stuck: one away from rest has the menu closed and a moved control behind it. */
  predicate Unstuck(s: State)
    requires Shaped(s)
  {
    forall seat :: 0 <= seat < PADS && s.plugged[seat] && s.emitted[seat] != Resting() ==>
      !s.menuOpen && SomeHolding(s, seat)
  }

  lemma {:induction false} FoldNeedsHolder(s: State, seat: Seat, i: Control, n: nat)
    requires Shaped(s) && n <= |s.devices| && seat != NO_PAD && (s.menuOpen || !SomeHolding(s, seat))
    ensures Fold(s, seat, i, n) == Rest(i)
  {
    hide Effective, Quiet;
    if n > 0 {
      FoldNeedsHolder(s, seat, i, n - 1);
      var d := s.devices[n - 1];
      if On(d, seat) {
        AsksNothing(s, n - 1, seat, i);
      }
    }
  }

  lemma AsksNothing(s: State, j: nat, seat: Seat, i: Control)
    requires Shaped(s) && seat != NO_PAD && j < |s.devices| && On(s.devices[j], seat)
    requires s.menuOpen || !Holding(s, j, seat)
    ensures Effective(s, s.devices[j], i) == Rest(i)
  {
    hide Mapped, Quiet;
    if Quiet(s.devices[j].raw) {
      QuietAsksNothing(s, s.devices[j], i);
    }
  }

  lemma RestsWithoutHolder(s: State, seat: Seat)
    requires Shaped(s) && seat != NO_PAD && (s.menuOpen || !SomeHolding(s, seat))
    ensures FoldAll(s, seat) == Resting()
  {
    hide Fold, SomeHolding;
    forall i: Control ensures Fold(s, seat, i, |s.devices|) == Rest(i) {
      FoldNeedsHolder(s, seat, i, |s.devices|);
    }
  }

  // Every event keeps the seats unstuck.

  /** Nothing but the controls of this device, what is emitted and the dial may differ. */
  predicate Moves(s: State, next: State, j: nat) {
    && j < |s.devices| == |next.devices|
    && (forall k :: 0 <= k < |s.devices| && k != j ==> next.devices[k] == s.devices[k])
    && next.devices[j] == s.devices[j].(raw := next.devices[j].raw)
    && next == s.(devices := next.devices, emitted := next.emitted, dialAbsolute := next.dialAbsolute)
  }

  lemma HolderStays(s: State, next: State, j: nat, seat: Seat)
    requires |s.devices| == |next.devices|
    requires forall k :: 0 <= k < |s.devices| && k != j ==> next.devices[k] == s.devices[k]
    requires SomeHolding(s, seat) && !Holding(s, j, seat)
    ensures SomeHolding(next, seat)
  {
    hide Quiet;
    var k :| 0 <= k < |s.devices| && Holding(s, k, seat);
    assert Holding(next, k, seat);
  }

  lemma DriveMoves(s: State, j: nat, i: Control, value: int)
    requires Shaped(s) && j < |s.devices|
    ensures Moves(s, Drive(s, j, i, value), j)
    ensures Drive(s, j, i, value).devices[j].raw == s.devices[j].raw[i := value]
  {
    hide FoldAll, StickDirection;
  }

  lemma DriveKeepsUnstuck(s: State, j: nat, i: Control, value: int)
    requires Shaped(s) && j < |s.devices| && Unstuck(s)
    ensures Unstuck(Drive(s, j, i, value))
  {
    hide FoldAll, StickDirection, SomeHolding;
    var next, d := Drive(s, j, i, value), s.devices[j];
    DriveMoves(s, j, i, value);
    forall seat: Seat | 0 <= seat && next.plugged[seat] && next.emitted[seat] != Resting()
      ensures !next.menuOpen && SomeHolding(next, seat)
    {
      if d.seat == seat && Routed(s, d) && Passes(d.mode) && d.raw[i] != value {
        SyncedSeat(s, j, i, value);
        if !SomeHolding(next, seat) { RestsWithoutHolder(next, seat); }
      } else if d.raw[i] != value {
        assert !Holding(s, j, seat);
        HolderStays(s, next, j, seat);
      }
    }
  }

  /** Right after a device that passes its controls on moved one, its plugged seat shows the devices as they are. */
  lemma SyncedSeat(s: State, j: nat, i: Control, value: int)
    requires Shaped(s) && j < |s.devices| && s.devices[j].raw[i] != value
    requires Routed(s, s.devices[j]) && Passes(s.devices[j].mode) && s.plugged[s.devices[j].seat]
    ensures var next, seat := Drive(s, j, i, value), s.devices[j].seat; next.emitted[seat] == FoldAll(next, seat)
  {
    var seat := s.devices[j].seat;
    var moved := SetRaw(s, j, i, value);
    var followed := if s.devices[j].mode == Digital then FollowDial(moved, i, value) else moved;
    var next := Drive(s, j, i, value);
    assert next == followed.(emitted := next.emitted) by { hide FoldAll, StickDirection; }
    AlikeFolds(followed, next, seat);
  }

  /** The same remapping, menu and dial. */
  predicate Alike(s: State, next: State) {
    && next.routes == s.routes && next.rerouted == s.rerouted && next.menuOpen == s.menuOpen
    && next.dial == s.dial && (s.dial ==> next.dialAbsolute == s.dialAbsolute)
  }

  /** What a device adds to a control of a seat. */
  function Wish(s: State, d: Device, seat: Seat, i: Control): int
    requires Shaped(s)
  {
    if On(d, seat) then Effective(s, d, i) else Rest(i)
  }

  lemma {:induction false} FoldOfWishes(s: State, next: State, seat: Seat, i: Control, n: nat)
    requires Shaped(s) && Shaped(next) && n <= |s.devices| == |next.devices|
    requires forall k :: 0 <= k < n ==> Wish(next, next.devices[k], seat, i) == Wish(s, s.devices[k], seat, i)
    ensures Fold(next, seat, i, n) == Fold(s, seat, i, n)
  {
    hide Effective;
    if n > 0 {
      FoldOfWishes(s, next, seat, i, n - 1);
      assert Wish(next, next.devices[n - 1], seat, i) == Wish(s, s.devices[n - 1], seat, i);
    }
  }

  /** The fold depends on the devices and on nothing that a sync changes. */
  lemma AlikeFolds(s: State, next: State, seat: Seat)
    requires Shaped(s) && Shaped(next) && Alike(s, next) && next.devices == s.devices
    ensures FoldAll(next, seat) == FoldAll(s, seat)
  {
    hide Effective, Fold;
    forall i: Control ensures Fold(next, seat, i, |s.devices|) == Fold(s, seat, i, |s.devices|) {
      forall k | 0 <= k < |s.devices| ensures Wish(next, next.devices[k], seat, i) == Wish(s, s.devices[k], seat, i) {
        AlikeEffective(s, next, s.devices[k], i);
      }
      FoldOfWishes(s, next, seat, i, |s.devices|);
    }
  }

  lemma AlikeFold(s: State, next: State, seat: Seat, i: Control)
    requires Shaped(s) && Shaped(next) && Alike(s, next) && next.devices == s.devices
    ensures Fold(next, seat, i, |s.devices|) == Fold(s, seat, i, |s.devices|)
  {
    hide Fold;
    AlikeFolds(s, next, seat);
    assert FoldAll(next, seat)[i] == FoldAll(s, seat)[i];
  }

  lemma AlikeEffective(s: State, next: State, d: Device, i: Control)
    requires Shaped(s) && Shaped(next) && Alike(s, next)
    ensures Effective(next, d, i) == Effective(s, d, i)
  {
    AlikeMapped(s, next, d.raw, i, |s.routes|);
    AlikeMapped(s, next, d.raw, StickOf(i), |s.routes|);
    AlikeMapped(s, next, d.raw, RIGHT_X, |s.routes|);
    hide MappedBy;
  }

  lemma {:induction false} AlikeMapped(s: State, next: State, raw: Row, i: Control, n: nat)
    requires Shaped(s) && Shaped(next) && next.routes == s.routes && next.rerouted == s.rerouted && n <= |s.routes|
    ensures MappedBy(next, raw, i, n) == MappedBy(s, raw, i, n)
  {
    hide Converted, Stronger;
    if n > 0 { AlikeMapped(s, next, raw, i, n - 1); }
  }

  lemma {:induction false} LetGoKeeps(s: State, j: nat, n: nat)
    requires Shaped(s) && j < |s.devices| && n <= CONTROL_COUNT
    ensures Moves(s, LetGo(s, j, n), j)
    ensures forall k: Control :: k < n ==> LetGo(s, j, n).devices[j].raw[k] == Rest(k)
    ensures Unstuck(s) ==> Unstuck(LetGo(s, j, n))
  {
    hide Drive, Unstuck;
    if n > 0 {
      LetGoKeeps(s, j, n - 1);
      DriveMoves(LetGo(s, j, n - 1), j, n - 1, Rest(n - 1));
      if Unstuck(s) {
        DriveKeepsUnstuck(LetGo(s, j, n - 1), j, n - 1, Rest(n - 1));
      }
    }
  }

  /** A released device is at rest; changing it afterwards, other than its controls, leaves the seats unstuck. */
  lemma ReleaseKeeps(s: State, j: nat, changed: Device)
    requires Shaped(s) && j < |s.devices| && Unstuck(s)
    requires changed.raw == Release(s, j).devices[j].raw
    ensures var next := Release(s, j);
            && Quiet(next.devices[j].raw)
            && (forall k :: 0 <= k < |s.devices| && k != j ==> next.devices[k] == s.devices[k])
            && next.devices[j] == s.devices[j].(raw := next.devices[j].raw, swallowed := None)
            && Unstuck(next.(devices := next.devices[j := changed]))
  {
    hide LetGo, SomeHolding;
    LetGoKeeps(s, j, CONTROL_COUNT);
    var quiet := LetGo(s, j, CONTROL_COUNT);
    var next := Release(s, j);
    var after := next.(devices := next.devices[j := changed]);
    forall seat: Seat | 0 <= seat && after.plugged[seat] && after.emitted[seat] != Resting()
      ensures !after.menuOpen && SomeHolding(after, seat)
    {
      HolderStays(quiet, after, j, seat);
    }
  }

  /** All devices in the table that are in use are at rest. */
  predicate AllQuiet(s: State, n: nat) {
    forall k :: 0 <= k < |s.devices| && k < n && s.devices[k].id != 0 ==> Quiet(s.devices[k].raw)
  }

  lemma {:induction false} ReleaseFirstKeeps(s: State, n: nat)
    requires Shaped(s) && n <= |s.devices| && Unstuck(s)
    ensures Unstuck(ReleaseFirst(s, n)) && AllQuiet(ReleaseFirst(s, n), n)
  {
    hide Release, Quiet, Unstuck;
    if n > 0 {
      ReleaseFirstKeeps(s, n - 1);
      var rest := ReleaseFirst(s, n - 1);
      if rest.devices[n - 1].id != 0 {
        var next := Release(rest, n - 1);
        ReleaseKeeps(rest, n - 1, next.devices[n - 1]);
        assert next.(devices := next.devices[n - 1 := next.devices[n - 1]]) == next;
      }
    }
  }

  predicate Silent(s: State)
    requires Shaped(s)
  {
    forall seat :: 0 <= seat < PADS && s.plugged[seat] ==> s.emitted[seat] == Resting()
  }

  /** With every device released, no virtual control is away from rest. */
  lemma ReleaseAllSilences(s: State)
    requires Shaped(s) && Unstuck(s)
    ensures Silent(ReleaseAll(s))
  {
    hide ReleaseFirst, Quiet;
    ReleaseFirstKeeps(s, |s.devices|);
  }

  lemma {:induction false} RoutesOnly(s: State, entries: seq<Entry>)
    requires Shaped(s)
    ensures var next := AddRoutes(s, entries); next == s.(routes := next.routes, rerouted := next.rerouted)
  {
    hide Accepted, Reroute;
    if entries != [] {
      RoutesOnly(s, entries[..|entries| - 1]);
    }
  }

  lemma HeldAlike(s: State, next: State, seat: Seat)
    requires next.devices == s.devices && SomeHolding(s, seat)
    ensures SomeHolding(next, seat)
  {
    hide Quiet, Passes, On;
    var k :| 0 <= k < |s.devices| && Holding(s, k, seat);
    assert Holding(next, k, seat);
  }

  lemma {:induction false} PadsKeepUnstuck(s: State, count: int, seats: nat)
    requires Shaped(s) && seats <= PADS && Unstuck(s)
    ensures Unstuck(SetPads(s, count, seats))
    ensures SetPads(s, count, seats).devices == s.devices
  {
    hide SomeHolding, Resting;
    if seats > 0 {
      PadsKeepUnstuck(s, count, seats - 1);
      var rest, next := SetPads(s, count, seats - 1), SetPads(s, count, seats);
      forall seat: Seat | 0 <= seat && next.plugged[seat] && next.emitted[seat] != Resting()
        ensures !next.menuOpen && SomeHolding(next, seat)
      {
        HeldAlike(rest, next, seat);
      }
    }
  }

  lemma ConnectKeepsUnstuck(s: State, kind: Kind, guide: bool)
    requires Shaped(s) && Unstuck(s)
    ensures Unstuck(Connect(s, kind, guide))
  {
    hide Quiet, SomeHolding;
    var next := Connect(s, kind, guide);
    var slot := FreeSlot(s.devices);
    if slot.Some? {
      forall seat: Seat | 0 <= seat && next.plugged[seat] && next.emitted[seat] != Resting()
        ensures !next.menuOpen && SomeHolding(next, seat)
      {
        HolderStays(s, next, slot.value, seat);
      }
    }
  }

  lemma SwallowKeepsUnstuck(s: State, j: nat, swallowed: Option<Control>)
    requires Shaped(s) && j < |s.devices| && Unstuck(s)
    ensures Unstuck(s.(devices := s.devices[j := s.devices[j].(swallowed := swallowed)]))
  {
    hide Quiet;
    var next := s.(devices := s.devices[j := s.devices[j].(swallowed := swallowed)]);
    forall seat: Seat | 0 <= seat && next.plugged[seat] && next.emitted[seat] != Resting()
      ensures !next.menuOpen && SomeHolding(next, seat)
    {
      var k :| 0 <= k < |s.devices| && Holding(s, k, seat);
      assert Holding(next, k, seat);
    }
  }

  lemma InputKeepsUnstuck(s: State, j: nat, i: Control, value: int)
    requires Shaped(s) && j < |s.devices| && Unstuck(s)
    ensures Unstuck(PadInput(s, j, i, value))
  {
    hide Drive, Unstuck, HasGuide;
    DriveKeepsUnstuck(s, j, i, value);
    SwallowKeepsUnstuck(s, j, None);
    SwallowKeepsUnstuck(s, j, Some(i));
  }

  lemma SilentIsUnstuck(s: State)
    requires Shaped(s) && Silent(s)
    ensures Unstuck(s)
  {
  }

  lemma NextKeepsUnstuck(s: State, e: Event)
    requires Shaped(s) && Unstuck(s)
    ensures Unstuck(Next(s, e))
  {
    hide Release, ReleaseAll, PadInput, Drive, SetPads, Connect, SomeHolding, AddRoutes, Quiet;
    match e
    case EvInput(j, i, value) => if Live(s, j) { InputKeepsUnstuck(s, j, i, value); }
    case EvDrive(j, i, value) => if Live(s, j) { DriveKeepsUnstuck(s, j, i, value); }
    case EvAssign(j, seat) => if Live(s, j) { ReleaseKeeps(s, j, Release(s, j).devices[j].(seat := seat)); }
    case EvMode(j, mode) => if Live(s, j) { ReleaseKeeps(s, j, Release(s, j).devices[j].(mode := mode)); }
    case EvMenu(open) => if open { ReleaseAllSilences(s); }
    case EvMaps(entries) => ReleaseAllSilences(s); RoutesOnly(Unmapped(s), entries); SilentIsUnstuck(Next(s, e));
    case EvDial(on, absolute) =>
      forall seat: Seat | SomeHolding(s, seat) ensures SomeHolding(Next(s, e), seat) {
        SameHolders(s, Next(s, e), seat);
      }
    case EvPads(count) => PadsKeepUnstuck(s, count, PADS);
    case EvConnect(kind, guide) => ConnectKeepsUnstuck(s, kind, guide);
    case EvDisconnect(j) => if Live(s, j) { ReleaseKeeps(s, j, Release(s, j).devices[j].(id := 0)); }
  }

  lemma SameHolders(s: State, next: State, seat: Seat)
    requires next.devices == s.devices && SomeHolding(s, seat)
    ensures SomeHolding(next, seat)
  {
    hide Quiet;
    var k :| 0 <= k < |s.devices| && Holding(s, k, seat);
    assert Holding(next, k, seat);
  }

  /** Over every sequence of events no virtual control gets stuck. */
  lemma {:induction false} NothingStuck(events: seq<Event>)
    ensures Unstuck(Run(events))
  {
    hide Next, Unstuck;
    if events == [] {
      SilentIsUnstuck(Initial());
    } else {
      NothingStuck(events[..|events| - 1]);
      NextKeepsUnstuck(Run(events[..|events| - 1]), events[|events| - 1]);
    }
  }

  /** Once every device on a seat is let go, or the menu is open, the virtual pad of that seat is at rest. */
  lemma LettingGoRests(events: seq<Event>, seat: Seat)
    requires var s := Run(events);
             && 0 <= seat && s.plugged[seat]
             && (s.menuOpen || forall j :: 0 <= j < |s.devices| && On(s.devices[j], seat) ==> Quiet(s.devices[j].raw))
    ensures Run(events).emitted[seat] == Resting()
  {
    hide Run, Quiet;
    NothingStuck(events);
  }

  // What is emitted and what the devices ask for.

  /** A control's strongest wish is one of the wishes, or rest; none is farther from rest. */
  lemma {:induction false} FoldIsStrongest(s: State, seat: Seat, i: Control, n: nat)
    requires Shaped(s) && n <= |s.devices|
    ensures Fold(s, seat, i, n) == Rest(i)
            || exists k :: 0 <= k < n && On(s.devices[k], seat) && Fold(s, seat, i, n) == Effective(s, s.devices[k], i)
    ensures forall k :: 0 <= k < n && On(s.devices[k], seat) ==>
              Abs(Effective(s, s.devices[k], i) - Rest(i)) <= Abs(Fold(s, seat, i, n) - Rest(i))
  {
    hide Effective;
    if n > 0 {
      FoldIsStrongest(s, seat, i, n - 1);
    }
  }

  /** Every plugged seat shows what its devices ask for. */
  predicate Agrees(s: State)
    requires Shaped(s)
  {
    forall seat :: 0 <= seat < PADS && s.plugged[seat] ==> s.emitted[seat] == FoldAll(s, seat)
  }

  /** A change to one device that asks for as much before as after leaves the fold. */
  lemma FoldKept(s: State, next: State, j: nat, seat: Seat)
    requires Shaped(s) && Shaped(next) && Alike(s, next)
    requires j < |s.devices| == |next.devices|
    requires forall k :: 0 <= k < |s.devices| && k != j ==> next.devices[k] == s.devices[k]
    requires forall i: Control :: Wish(next, next.devices[j], seat, i) == Wish(s, s.devices[j], seat, i)
    ensures FoldAll(next, seat) == FoldAll(s, seat)
  {
    hide Effective, Fold;
    forall i: Control ensures Fold(next, seat, i, |s.devices|) == Fold(s, seat, i, |s.devices|) {
      forall k | 0 <= k < |s.devices| ensures Wish(next, next.devices[k], seat, i) == Wish(s, s.devices[k], seat, i) {
        if k != j { AlikeEffective(s, next, s.devices[k], i); }
      }
      FoldOfWishes(s, next, seat, i, |s.devices|);
    }
  }

  /** The same but for the dial. */
  predicate Dialled(s: State, next: State) {
    next == s.(dial := next.dial, dialAbsolute := next.dialAbsolute)
  }

  /** The first stick's horizontal axis, the only control that a dial bears on, is folded alike. */
  predicate SameLeftX(s: State, next: State, seat: Seat)
    requires Shaped(s) && Shaped(next)
  {
    Fold(next, seat, LEFT_X, |next.devices|) == Fold(s, seat, LEFT_X, |s.devices|)
  }

  lemma DialSparesOthers(s: State, next: State, seat: Seat, i: Control)
    requires Shaped(s) && Dialled(s, next) && i != LEFT_X
    ensures Fold(next, seat, i, |s.devices|) == Fold(s, seat, i, |s.devices|)
  {
    hide Mapped;
    forall k | 0 <= k < |s.devices| ensures Wish(next, next.devices[k], seat, i) == Wish(s, s.devices[k], seat, i) {
      DialSparesDevice(s, next, s.devices[k], i);
    }
    FoldOfWishes(s, next, seat, i, |s.devices|);
  }

  lemma DialSparesDevice(s: State, next: State, d: Device, i: Control)
    requires Shaped(s) && Dialled(s, next) && i != LEFT_X
    ensures Effective(next, d, i) == Effective(s, d, i)
  {
    AlikeMapped(s, next, d.raw, i, |s.routes|);
    AlikeMapped(s, next, d.raw, StickOf(i), |s.routes|);
    hide MappedBy;
  }

  /** What a seat is asked for stays when the dial changes exactly if that axis stays. */
  lemma DialFolds(s: State, next: State, seat: Seat)
    requires Shaped(s) && Dialled(s, next)
    ensures FoldAll(next, seat) == FoldAll(s, seat) <==> SameLeftX(s, next, seat)
  {
    hide Fold;
    forall i: Control | i != LEFT_X ensures Fold(next, seat, i, |s.devices|) == Fold(s, seat, i, |s.devices|) {
      DialSparesOthers(s, next, seat, i);
    }
    assert FoldAll(next, seat)[LEFT_X] == Fold(next, seat, LEFT_X, |next.devices|);
    assert FoldAll(s, seat)[LEFT_X] == Fold(s, seat, LEFT_X, |s.devices|);
  }

  /** The axis stays where no digital device tells the two sticks apart. */
  lemma DialUnseen(s: State, next: State, seat: Seat)
    requires Shaped(s) && Dialled(s, next) && next.dial == s.dial
    requires forall k :: 0 <= k < |s.devices| && On(s.devices[k], seat) && s.devices[k].mode == Digital ==>
               Mapped(s, s.devices[k].raw, LEFT_X) == Mapped(s, s.devices[k].raw, RIGHT_X)
    ensures SameLeftX(s, next, seat)
  {
    forall k | 0 <= k < |s.devices|
      ensures Wish(next, next.devices[k], seat, LEFT_X) == Wish(s, s.devices[k], seat, LEFT_X)
    {
      AlikeMapped(s, next, s.devices[k].raw, LEFT_X, |s.routes|);
      AlikeMapped(s, next, s.devices[k].raw, RIGHT_X, |s.routes|);
    }
    FoldOfWishes(s, next, seat, LEFT_X, |s.devices|);
  }

  /** Moving this control switches the dial between relative and absolute. */
  predicate Turns(s: State, j: nat, i: Control, value: int)
    requires j < |s.devices|
  {
    var d := s.devices[j];
    && d.raw[i] != value && Routed(s, d) && d.mode == Digital
    && s.dial && (i == LEFT_X || i == RIGHT_X) && StickDirection(value) != 0 && (i == RIGHT_X) != s.dialAbsolute
  }

  function Turned(s: State): State {
    s.(dialAbsolute := !s.dialAbsolute)
  }

  /** A drive leaves all other seats asked for what they were: it does not turn the dial, or they do not tell. */
  predicate TurnUnseen(s: State, j: nat, i: Control, value: int)
    requires Shaped(s) && j < |s.devices|
  {
    Turns(s, j, i, value) ==>
      forall seat :: 0 <= seat < PADS && s.plugged[seat] && seat != s.devices[j].seat ==> SameLeftX(s, Turned(s), seat)
  }

  lemma DriveTurns(s: State, j: nat, i: Control, value: int)
    requires Shaped(s) && j < |s.devices|
    ensures Drive(s, j, i, value).dialAbsolute == if Turns(s, j, i, value) then !s.dialAbsolute else s.dialAbsolute
  {
    hide FoldAll, StickDirection;
  }

  /** A seat that the driven device is not on. */
  lemma OtherSeat(s: State, j: nat, i: Control, value: int, seat: Seat)
    requires Shaped(s) && j < |s.devices| && !On(s.devices[j], seat)
    ensures FoldAll(Drive(s, j, i, value), seat) == FoldAll(s, seat)
            <==> Turns(s, j, i, value) ==> SameLeftX(s, Turned(s), seat)
  {
    hide FoldAll, SameLeftX, Effective, Turns;
    var next := Drive(s, j, i, value);
    DriveMoves(s, j, i, value);
    DriveTurns(s, j, i, value);
    var turned := s.(dialAbsolute := next.dialAbsolute);
    assert FoldAll(next, seat) == FoldAll(turned, seat) by { hide Drive; FoldKept(turned, next, j, seat); }
    DialFolds(s, turned, seat);
  }

  /** The seat of the driven device itself. */
  lemma OwnSeat(s: State, j: nat, i: Control, value: int)
    requires Shaped(s) && Live(s, j) && Agrees(s) && s.devices[j].seat != NO_PAD && s.plugged[s.devices[j].seat]
    ensures var next, seat := Drive(s, j, i, value), s.devices[j].seat; next.emitted[seat] == FoldAll(next, seat)
  {
    hide FoldAll, StickDirection, Mapped;
    var next, d := Drive(s, j, i, value), s.devices[j];
    if d.raw[i] != value {
      if Routed(s, d) && Passes(d.mode) {
        SyncedSeat(s, j, i, value);
      } else {
        DriveMoves(s, j, i, value);
        FoldKept(s, next, j, d.seat);
      }
    }
  }

  lemma DriveSparesOthers(s: State, j: nat, i: Control, value: int, seat: Seat)
    requires Shaped(s) && j < |s.devices| && 0 <= seat && seat != s.devices[j].seat
    ensures Drive(s, j, i, value).emitted[seat] == s.emitted[seat] && Drive(s, j, i, value).plugged == s.plugged
  {
    hide FoldAll, StickDirection;
  }

  /**
   A drive keeps the plugged seats showing what their devices ask for, exactly unless it turns the
   dial for another seat.
   */
  lemma DriveAgrees(s: State, j: nat, i: Control, value: int)
    requires Shaped(s) && Live(s, j) && Agrees(s)
    ensures Agrees(Drive(s, j, i, value)) <==> TurnUnseen(s, j, i, value)
  {
    hide FoldAll, Turns, SameLeftX, Drive;
    var next, d := Drive(s, j, i, value), s.devices[j];
    assert next.plugged == s.plugged by { DriveMoves(s, j, i, value); }
    forall seat: Seat | 0 <= seat && s.plugged[seat]
      ensures next.emitted[seat] == FoldAll(next, seat)
              <==> (seat != d.seat && Turns(s, j, i, value) ==> SameLeftX(s, Turned(s), seat))
    {
      if seat == d.seat {
        OwnSeat(s, j, i, value);
      } else {
        DriveSparesOthers(s, j, i, value, seat);
        OtherSeat(s, j, i, value, seat);
      }
    }
  }

  /** Letting go turns no dial. */
  lemma {:induction false} LetGoKeepsAgreement(s: State, j: nat, n: nat)
    requires Shaped(s) && Live(s, j) && n <= CONTROL_COUNT && Agrees(s)
    ensures Agrees(LetGo(s, j, n))
  {
    hide Drive, Agrees, SameLeftX;
    if n > 0 {
      LetGoKeepsAgreement(s, j, n - 1);
      LetGoKeeps(s, j, n - 1);
      DriveAgrees(LetGo(s, j, n - 1), j, n - 1, Rest(n - 1));
    }
  }

  /** A released device may change seat, mode or be gone: it asks for nothing either way. */
  lemma ReleaseKeepsAgreement(s: State, j: nat, changed: Device)
    requires Shaped(s) && Live(s, j) && Agrees(s)
    requires changed.raw == Release(s, j).devices[j].raw
    ensures var next := Release(s, j); Agrees(next.(devices := next.devices[j := changed]))
  {
    hide LetGo, Quiet, FoldAll, Effective;
    var quiet, next := LetGo(s, j, CONTROL_COUNT), Release(s, j);
    var after := next.(devices := next.devices[j := changed]);
    LetGoKeepsAgreement(s, j, CONTROL_COUNT);
    LetGoKeeps(s, j, CONTROL_COUNT);
    assert Quiet(quiet.devices[j].raw) by { LetGoQuiets(s, j); }
    forall seat: Seat | 0 <= seat && after.plugged[seat] ensures after.emitted[seat] == FoldAll(after, seat) {
      forall i: Control ensures Wish(after, changed, seat, i) == Wish(quiet, quiet.devices[j], seat, i) {
        QuietAsksNothing(after, changed, i);
        QuietAsksNothing(quiet, quiet.devices[j], i);
      }
      FoldKept(quiet, after, j, seat);
    }
  }

  lemma LetGoQuiets(s: State, j: nat)
    requires Shaped(s) && j < |s.devices|
    ensures Quiet(LetGo(s, j, CONTROL_COUNT).devices[j].raw)
  {
    hide LetGo;
    LetGoKeeps(s, j, CONTROL_COUNT);
  }

  lemma {:induction false} QuietFold(s: State, seat: Seat, i: Control, n: nat)
    requires Shaped(s) && n <= |s.devices| && (s.menuOpen || AllQuiet(s, |s.devices|))
    ensures Fold(s, seat, i, n) == Rest(i)
  {
    hide Effective, Quiet;
    if n > 0 {
      QuietFold(s, seat, i, n - 1);
      var d := s.devices[n - 1];
      if s.menuOpen {
        assert Effective(s, d, i) == Rest(i) by { MenuAsksNothing(s, d, i); }
      } else if On(d, seat) {
        QuietAsksNothing(s, d, i);
      }
    }
  }

  lemma MenuAsksNothing(s: State, d: Device, i: Control)
    requires Shaped(s) && s.menuOpen
    ensures Effective(s, d, i) == Rest(i)
  {
  }

  lemma SilentAgrees(s: State)
    requires Shaped(s) && Silent(s) && (s.menuOpen || AllQuiet(s, |s.devices|))
    ensures Agrees(s)
  {
    hide Fold, Quiet;
    forall seat: Seat ensures FoldAll(s, seat) == Resting() {
      forall i: Control ensures Fold(s, seat, i, |s.devices|) == Rest(i) {
        QuietFold(s, seat, i, |s.devices|);
      }
    }
  }

  lemma SwallowKeepsAgreement(s: State, j: nat, swallowed: Option<Control>)
    requires Shaped(s) && j < |s.devices| && Agrees(s)
    ensures Agrees(s.(devices := s.devices[j := s.devices[j].(swallowed := swallowed)]))
  {
    hide FoldAll, Mapped;
    var next := s.(devices := s.devices[j := s.devices[j].(swallowed := swallowed)]);
    forall seat: Seat | 0 <= seat && next.plugged[seat] ensures next.emitted[seat] == FoldAll(next, seat) {
      forall i: Control ensures Wish(next, next.devices[j], seat, i) == Wish(s, s.devices[j], seat, i) {
        AlikeEffective(s, next, s.devices[j], i);
        SameAsking(next, s.devices[j], next.devices[j], i);
      }
      FoldKept(s, next, j, seat);
    }
  }

  lemma SameAsking(s: State, d: Device, other: Device, i: Control)
    requires Shaped(s) && other == d.(swallowed := other.swallowed)
    ensures Effective(s, other, i) == Effective(s, d, i)
  {
    hide Mapped;
  }

  lemma ConnectKeepsAgreement(s: State, kind: Kind, guide: bool)
    requires Shaped(s) && Agrees(s)
    ensures Agrees(Connect(s, kind, guide))
  {
    hide FoldAll, Mapped;
    var next, slot := Connect(s, kind, guide), FreeSlot(s.devices);
    if slot.Some? {
      forall seat: Seat | 0 <= seat && next.plugged[seat] ensures next.emitted[seat] == FoldAll(next, seat) {
        FoldKept(s, next, slot.value, seat);
      }
    }
  }

  lemma PadFrame(s: State, count: int, seats: nat, k: Seat)
    requires Shaped(s) && seats < PADS && 0 <= k
    ensures var rest, next := SetPads(s, count, seats), SetPads(s, count, seats + 1);
            && next == rest.(plugged := next.plugged, emitted := next.emitted)
            && (next.plugged[k] == if k == seats then k < count || k == 0 else rest.plugged[k])
            && (next.plugged[k] ==>
                 next.emitted[k] == if k == seats && !rest.plugged[k] then Resting() else rest.emitted[k])
  {
    hide Resting;
  }

  lemma {:induction false} PadsFrame(s: State, count: int, seats: nat, k: Seat)
    requires Shaped(s) && seats <= PADS && 0 <= k
    ensures var next := SetPads(s, count, seats);
            && next == s.(plugged := next.plugged, emitted := next.emitted)
            && (next.plugged[k] == if k < seats then k < count || k == 0 else s.plugged[k])
            && (next.plugged[k] ==> next.emitted[k] == if k < seats && !s.plugged[k] then Resting() else s.emitted[k])
  {
    hide Resting, SetPads, Plug, Unplug;
    if seats > 0 {
      PadsFrame(s, count, seats - 1, k);
      PadFrame(s, count, seats - 1, k);
    } else {
      NoPads(s, count);
    }
  }

  lemma NoPads(s: State, count: int)
    requires Shaped(s)
    ensures SetPads(s, count, 0) == s
  {
  }

  /** Plugging seats leaves agreement exactly when no device already asks for something on a seat newly plugged. */
  lemma PluggingAgrees(s: State, count: int)
    requires Shaped(s) && Agrees(s)
    ensures Agrees(Next(s, EvPads(count))) <==>
            forall seat :: 0 <= seat < PADS && !s.plugged[seat] && (seat < count || seat == 0) ==>
              FoldAll(s, seat) == Resting()
  {
    hide FoldAll, SetPads, Resting;
    var next := Next(s, EvPads(count));
    forall seat: Seat | 0 <= seat
      ensures next.plugged[seat] <==> seat < count || seat == 0
      ensures next.plugged[seat] ==> next.emitted[seat] == if s.plugged[seat] then s.emitted[seat] else Resting()
      ensures FoldAll(next, seat) == FoldAll(s, seat)
    {
      PadsFrame(s, count, PADS, seat);
      AlikeFolds(s, next, seat);
    }
  }

  /** Setting the dial leaves agreement exactly when the axis it bears on stays on every plugged seat. */
  lemma SettingDialAgrees(s: State, on: bool, absolute: bool)
    requires Shaped(s) && Agrees(s)
    ensures Agrees(Next(s, EvDial(on, absolute))) <==>
            forall seat :: 0 <= seat < PADS && s.plugged[seat] ==>
              SameLeftX(s, s.(dial := on, dialAbsolute := absolute), seat)
  {
    hide FoldAll, SameLeftX;
    var next := Next(s, EvDial(on, absolute));
    forall seat: Seat ensures FoldAll(next, seat) == FoldAll(s, seat) <==> SameLeftX(s, next, seat) {
      DialFolds(s, next, seat);
    }
  }

  /** Closing the menu leaves agreement exactly when no device already asks for something on a plugged seat. */
  lemma ClosingAgrees(s: State)
    requires Shaped(s) && Unstuck(s) && s.menuOpen
    ensures Agrees(Next(s, EvMenu(false))) <==>
            forall seat :: 0 <= seat < PADS && s.plugged[seat] ==> FoldAll(s.(menuOpen := false), seat) == Resting()
  {
    hide FoldAll, SomeHolding;
    assert Next(s, EvMenu(false)) == s.(menuOpen := false);
  }

  /** The input is driven on, not taken for the guide combination. */
  predicate DrivesOn(s: State, j: nat, i: Control, value: int)
    requires j < |s.devices|
  {
    var d := s.devices[j];
    && i != GUIDE && d.swallowed != Some(i)
    && !(value != 0 && Partner(i).Some? && d.raw[Partner(i).value] != 0 && !HasGuide(s, j))
  }

  /** Whether the seats will show what their devices ask for after the event, as can be told before it. */
  predicate WillAgree(s: State, e: Event)
    requires Shaped(s)
  {
    match e
    case EvInput(j, i, value) => Live(s, j) && DrivesOn(s, j, i, value) ==> TurnUnseen(s, j, i, value)
    case EvDrive(j, i, value) => Live(s, j) ==> TurnUnseen(s, j, i, value)
    case EvDial(on, absolute) =>
      forall seat :: 0 <= seat < PADS && s.plugged[seat] ==>
        SameLeftX(s, s.(dial := on, dialAbsolute := absolute), seat)
    case EvMenu(open) =>
      !open && s.menuOpen ==>
        forall seat :: 0 <= seat < PADS && s.plugged[seat] ==> FoldAll(s.(menuOpen := false), seat) == Resting()
    case EvPads(count) =>
      forall seat :: 0 <= seat < PADS && !s.plugged[seat] && (seat < count || seat == 0) ==>
        FoldAll(s, seat) == Resting()
    case _ => true
  }

  lemma InputAgrees(s: State, j: nat, i: Control, value: int)
    requires Shaped(s) && Live(s, j) && Agrees(s)
    ensures Agrees(PadInput(s, j, i, value)) <==> (DrivesOn(s, j, i, value) ==> TurnUnseen(s, j, i, value))
  {
    hide Drive, Agrees, TurnUnseen, HasGuide;
    DriveAgrees(s, j, i, value);
    SwallowKeepsAgreement(s, j, None);
    SwallowKeepsAgreement(s, j, Some(i));
  }

  /**
   For every event: the plugged seats go on showing what their devices ask for if and only if that
   could be told before.
   */
  lemma NextAgrees(s: State, e: Event)
    requires Shaped(s) && Unstuck(s) && Agrees(s)
    ensures Agrees(Next(s, e)) <==> WillAgree(s, e)
  {
    hide Release, ReleaseFirst, Drive, PadInput, Connect, AddRoutes, Quiet, FoldAll, Agrees, Unstuck, SameLeftX,
         TurnUnseen, DrivesOn, SetPads;
    match e
    case EvInput(j, i, value) => if Live(s, j) { InputAgrees(s, j, i, value); }
    case EvDrive(j, i, value) => if Live(s, j) { DriveAgrees(s, j, i, value); }
    case EvAssign(j, seat) => if Live(s, j) { ReleaseKeepsAgreement(s, j, Release(s, j).devices[j].(seat := seat)); }
    case EvMode(j, mode) => if Live(s, j) { ReleaseKeepsAgreement(s, j, Release(s, j).devices[j].(mode := mode)); }
    case EvMenu(open) =>
      if open {
        ReleaseAllSilences(s);
        SilentAgrees(Next(s, e));
      } else if s.menuOpen {
        ClosingAgrees(s);
      } else {
        assert Next(s, e) == s;
      }
    case EvMaps(entries) =>
      ReleaseAllSilences(s);
      ReleaseFirstKeeps(s, |s.devices|);
      RoutesOnly(Unmapped(s), entries);
      SilentAgrees(Next(s, e));
    case EvDial(on, absolute) => SettingDialAgrees(s, on, absolute);
    case EvPads(count) => PluggingAgrees(s, count);
    case EvConnect(kind, guide) => ConnectKeepsAgreement(s, kind, guide);
    case EvDisconnect(j) => if Live(s, j) { ReleaseKeepsAgreement(s, j, Release(s, j).devices[j].(id := 0)); }
  }

  /** Over a run whose events all keep agreement, the plugged seats always show what their devices ask for. */
  lemma {:induction false} RunAgrees(events: seq<Event>)
    requires forall k :: 0 <= k < |events| ==> WillAgree(Run(events[..k]), events[k])
    ensures Agrees(Run(events))
  {
    hide Next, Agrees, WillAgree;
    if events == [] {
      SilentAgrees(Initial());
    } else {
      var rest, last := events[..|events| - 1], |events| - 1;
      forall k | 0 <= k < |rest| ensures WillAgree(Run(rest[..k]), rest[k]) {
        assert rest[..k] == events[..k] && rest[k] == events[k];
      }
      RunAgrees(rest);
      NothingStuck(rest);
      NextAgrees(Run(rest), events[last]);
    }
  }

  // The remapping of a game.

  /** The routes of the accepted entries, in order. */
  function RoutesOf(entries: seq<Entry>): seq<Route> {
    if entries == [] then []
    else
      var rest, e := RoutesOf(entries[..|entries| - 1]), entries[|entries| - 1];
      if Accepted(e) then rest + [Route(e.source.value, e.sign, e.target.value)] else rest
  }

  lemma {:induction false} RoutesAdded(s: State, entries: seq<Entry>)
    requires Shaped(s)
    ensures AddRoutes(s, entries).routes == s.routes + RoutesOf(entries)
  {
    hide Accepted;
    if entries != [] {
      RoutesAdded(s, entries[..|entries| - 1]);
    }
  }

  /** The keys of a map are distinct, and so are the sides of controls that they name. */
  predicate DistinctKeys(entries: seq<Entry>) {
    && (forall a :: 0 <= a < |entries| ==> -1 <= entries[a].sign <= 1)
    && forall a, b :: 0 <= a < b < |entries| && entries[a].source.Some? ==>
         entries[a].source != entries[b].source || entries[a].sign != entries[b].sign
  }

  function Code(source: Control, sign: int): int {
    3 * source + sign + 1
  }

  lemma {:induction false} Pigeons(codes: seq<int>, n: nat)
    requires forall a :: 0 <= a < |codes| ==> 0 <= codes[a] < n
    requires forall a, b :: 0 <= a < b < |codes| ==> codes[a] != codes[b]
    ensures |codes| <= n
  {
    var least := if codes == [] then 0 else codes[0];
    if n > 0 {
      if k :| 0 <= k < |codes| && codes[k] == n - 1 {
        Pigeons(codes[..k] + codes[k + 1..], n - 1);
      } else {
        Pigeons(codes, n - 1);
      }
    }
  }

  /** Where the routes of the accepted entries come from. */
  function EntriesOf(entries: seq<Entry>): (at: seq<nat>)
    ensures |at| == |RoutesOf(entries)|
    ensures forall a :: 0 <= a < |at| ==>
              at[a] < |entries| && Accepted(entries[at[a]])
              && RoutesOf(entries)[a].source == entries[at[a]].source.value
                   && RoutesOf(entries)[a].sign == entries[at[a]].sign
    ensures forall a, b :: 0 <= a < b < |at| ==> at[a] < at[b]
  {
    if entries == [] then []
    else
      var rest, last := EntriesOf(entries[..|entries| - 1]), |entries| - 1;
      if Accepted(entries[last]) then rest + [last] else rest
  }

  /** The table of routes, with room for three per control, is never overrun. */
  lemma RoutesFit(s: State, entries: seq<Entry>)
    requires Shaped(s) && DistinctKeys(entries)
    ensures |LoadMaps(s, entries).routes| <= CONTROL_COUNT * 3
  {
    hide ReleaseAll, RoutesOf;
    RoutesAdded(Unmapped(s), entries);
    var routes, at := RoutesOf(entries), EntriesOf(entries);
    var codes := seq(|routes|, a requires 0 <= a < |routes| => Code(routes[a].source, routes[a].sign));
    forall a, b | 0 <= a < b < |codes| ensures codes[a] != codes[b] {
      assert entries[at[a]].source != entries[at[b]].source || entries[at[a]].sign != entries[at[b]].sign;
    }
    Pigeons(codes, CONTROL_COUNT * 3);
  }

  /** A side of a control is hidden exactly when some route starts from it. */
  predicate RerouteMatches(s: State)
    requires Shaped(s)
  {
    forall i: Control ::
      && (s.rerouted[i].negative <==>
           exists r :: 0 <= r < |s.routes| && s.routes[r].source == i && s.routes[r].sign <= 0)
      && (s.rerouted[i].positive <==>
           exists r :: 0 <= r < |s.routes| && s.routes[r].source == i && s.routes[r].sign >= 0)
  }

  lemma {:induction false} AddRoutesMatch(s: State, entries: seq<Entry>)
    requires Shaped(s) && RerouteMatches(s)
    ensures RerouteMatches(AddRoutes(s, entries))
  {
    if entries != [] {
      var before, e := AddRoutes(s, entries[..|entries| - 1]), entries[|entries| - 1];
      AddRoutesMatch(s, entries[..|entries| - 1]);
      if Accepted(e) {
        var after := AddRoute(before, e);
        assert after.routes[|before.routes|].source == e.source.value;
        assert forall r :: 0 <= r < |before.routes| ==> after.routes[r] == before.routes[r];
      }
    }
  }

  lemma MapsMatch(s: State, entries: seq<Entry>)
    requires Shaped(s)
    ensures RerouteMatches(LoadMaps(s, entries))
  {
    hide ReleaseAll, AddRoutes;
    AddRoutesMatch(Unmapped(s), entries);
  }

  // Ranges.

  /** The values that the virtual pad declares for a control. */
  // What a route does to a control.

  lemma LroundGrows(x: real, y: real)
    requires 0.0 <= x <= y
    ensures Lround(x) <= Lround(y)
  {
  }

  lemma AxisGrows(x: real, y: real)
    requires x <= y
    ensures AxisValue(x) <= AxisValue(y)
    ensures x >= 1.0 ==> AxisValue(x) == AXIS_MAX
    ensures x <= -1.0 ==> AxisValue(x) == 0
    ensures x == 0.0 ==> AxisValue(x) == AXIS_CENTER
  {
    LroundGrows((Clamp(-1.0, x, 1.0) + 1.0) * 255.0 / 2.0, (Clamp(-1.0, y, 1.0) + 1.0) * 255.0 / 2.0);
  }

  lemma AmountGrows(source: Control, raw: int, more: int)
    requires raw <= more
    ensures if Direction(source) < 0 then Amount(source, raw) >= Amount(source, more)
            else Amount(source, raw) <= Amount(source, more)
  {
  }

  /** A stick remapped to a stick moves it the same way, or with a negative sign the other way. */
  lemma StickFollowsStick(route: Route, raw: int, more: int)
    requires IsStick(route.source) && IsStick(route.target) && route.sign in {-1, 0, 1} && raw <= more
    ensures if route.sign < 0 then Converted(route, raw) >= Converted(route, more)
            else Converted(route, raw) <= Converted(route, more)
  {
    hide AxisValue, Amount;
    AmountGrows(route.source, raw, more);
    var from, until := Routing(route, raw), Routing(route, more);
    if route.sign < 0 { AxisGrows(until, from); } else { AxisGrows(from, until); }
  }

  /** The part of a movement that a route passes on. */
  function Routing(route: Route, raw: int): real {
    var full := Amount(route.source, raw);
    if route.sign == 0 then full else if route.sign as real * full > 0.0 then route.sign as real * full else 0.0
  }

  /** A full tilt becomes a full tilt, one to the side that is not routed none at all. */
  lemma FullTilt(route: Route)
    requires IsStick(route.source) && IsStick(route.target)
    ensures route.sign == 0 ==> Converted(route, AXIS_MAX) == AXIS_MAX && Converted(route, 0) == 0
    ensures route.sign == 1 ==> Converted(route, AXIS_MAX) == AXIS_MAX
    ensures route.sign == -1 ==> Converted(route, 0) == AXIS_MAX
    ensures route.sign == 1 ==> forall raw :: raw <= AXIS_CENTER ==> Converted(route, raw) == AXIS_CENTER
    ensures route.sign == -1 ==> forall raw :: raw >= AXIS_CENTER ==> Converted(route, raw) == AXIS_CENTER
  {
    hide AxisValue;
    AxisGrows(-1.0, 0.0);
    AxisGrows(0.0, 1.0);
    AxisGrows(1.0, 1.0);
    AxisGrows(-128.0 / 127.0, 128.0 / 127.0);
    AxisGrows(128.0 / 127.0, 128.0 / 127.0);
  }

  /** A button, a trigger or a direction moves a stick the way it points, all the way when it is all the way down. */
  lemma PressTilts(route: Route)
    requires !IsStick(route.source) && IsStick(route.target) && route.sign == 0
    ensures var down := if IsTrigger(route.source) then AXIS_MAX else 1;
            Converted(route, down) == if Direction(route.source) < 0 then 0 else AXIS_MAX
  {
    hide AxisValue;
    AxisGrows(-1.0, 1.0);
    AxisGrows(1.0, 1.0);
  }

  /** A stick pulls a trigger by its distance from the middle, on the routed side only. */
  lemma StickPullsTrigger(route: Route, raw: int, further: int)
    requires IsStick(route.source) && IsTrigger(route.target) && route.sign in {-1, 0, 1}
    ensures AXIS_CENTER <= raw <= further && route.sign >= 0 ==> Converted(route, raw) <= Converted(route, further)
    ensures further <= raw <= AXIS_CENTER && route.sign <= 0 ==> Converted(route, raw) <= Converted(route, further)
    ensures route.sign >= 0 ==> Converted(route, AXIS_MAX) == AXIS_MAX
    ensures route.sign <= 0 ==> Converted(route, 0) == AXIS_MAX
    ensures raw <= AXIS_CENTER && route.sign > 0 ==> Converted(route, raw) == 0
    ensures raw >= AXIS_CENTER && route.sign < 0 ==> Converted(route, raw) == 0
  {
    TriggerPulled(route, raw);
    TriggerPulled(route, further);
    TriggerPulled(route, AXIS_MAX);
    TriggerPulled(route, 0);
    hide Converted, Pull;
    PulledSoFar(Routing(route, raw), Routing(route, further));
    PulledSoFar(Routing(route, AXIS_MAX), Routing(route, AXIS_MAX));
    PulledSoFar(Routing(route, 0), Routing(route, 0));
  }

  lemma TriggerPulled(route: Route, raw: int)
    requires IsTrigger(route.target)
    ensures Converted(route, raw) == Pull(Routing(route, raw))
  {
    hide Lround, Clamp;
  }

  function Pull(amount: real): int {
    Lround(Clamp(0.0, if amount < 0.0 then -amount else amount, 1.0) * 255.0)
  }

  lemma PulledSoFar(near: real, far: real)
    ensures 0.0 <= near <= far ==> Pull(near) <= Pull(far)
    ensures far <= near <= 0.0 ==> Pull(near) <= Pull(far)
    ensures near >= 1.0 || near <= -1.0 ==> Pull(near) == AXIS_MAX
    ensures near == 0.0 ==> Pull(near) == 0
  {
    var one, other := Clamp(0.0, if near < 0.0 then -near else near, 1.0),
      Clamp(0.0, if far < 0.0 then -far else far, 1.0);
    if one <= other { LroundGrows(one * 255.0, other * 255.0); }
  }

  /** A trigger keeps its value on another trigger; a button and a direction pull it through. */
  lemma PressPulls(route: Route, raw: int)
    requires !IsStick(route.source) && IsTrigger(route.target) && route.sign == 0 && Ranges(route.source, raw)
    ensures Converted(route, raw) == if IsTrigger(route.source) then raw else raw * AXIS_MAX
  {
    if IsTrigger(route.source) { assert raw as real / 255.0 * 255.0 == raw as real; }
  }

  /**
   A button, or a direction, is pressed by a stick past its reach on the routed side, and by
   anything else that is pressed.
   */
  lemma PressedByRoute(route: Route, raw: int)
    requires !IsStick(route.target) && !IsTrigger(route.target) && route.sign in {-1, 0, 1}
    requires route.sign != 0 ==> IsStick(route.source)
    ensures Converted(route, raw) == 1 || Converted(route, raw) == 0
    ensures IsStick(route.source) ==>
              (Converted(route, raw) == 1 <==>
                (route.sign >= 0 && raw > AXIS_CENTER + AXIS_REACH)
                  || (route.sign <= 0 && raw < AXIS_CENTER - AXIS_REACH))
    ensures IsTrigger(route.source) ==> (Converted(route, raw) == 1 <==> raw > TRIGGER_PRESS)
    ensures !IsStick(route.source) && !IsTrigger(route.source) ==> (Converted(route, raw) == 1 <==> raw > 0)
  {
  }

  /** What one route, or the control itself, would make of it. */
  function Source(s: State, raw: Row, i: Control, r: int): int
    requires Shaped(s) && -1 <= r < |s.routes|
  {
    if r < 0 then Direct(i, s.rerouted[i], raw[i])
    else if s.routes[r].target == i then Converted(s.routes[r], raw[s.routes[r].source])
    else Rest(i)
  }

  /** A mapped control has the value of one of its sources, and none of them is farther from rest. */
  lemma {:induction false} MappedIsStrongest(s: State, raw: Row, i: Control, n: nat)
    requires Shaped(s) && n <= |s.routes|
    ensures exists r :: -1 <= r < n && MappedBy(s, raw, i, n) == Source(s, raw, i, r)
    ensures forall r :: -1 <= r < n ==> Abs(Source(s, raw, i, r) - Rest(i)) <= Abs(MappedBy(s, raw, i, n) - Rest(i))
  {
    hide Converted, Direct;
    if n == 0 {
      assert MappedBy(s, raw, i, 0) == Source(s, raw, i, -1);
    } else {
      MappedIsStrongest(s, raw, i, n - 1);
      var r :| -1 <= r < n - 1 && MappedBy(s, raw, i, n - 1) == Source(s, raw, i, r);
      assert MappedBy(s, raw, i, n) == Source(s, raw, i, r) || MappedBy(s, raw, i, n) == Source(s, raw, i, n - 1);
    }
  }

  /** A control passes on its own value except on a side that is routed elsewhere. */
  lemma PassesOwn(i: Control, sides: Sides, raw: int)
    ensures Direct(i, sides, raw) != raw <==> (raw < Rest(i) && sides.negative) || (raw > Rest(i) && sides.positive)
    ensures Direct(i, sides, raw) == raw || Direct(i, sides, raw) == Rest(i)
  {
  }

  // What a digital device asks for.

  /**
   Without a map the first stick of a digital device works as its directions, and nothing else does
   but they themselves.
   */
  lemma StickWorksAsDirections(s: State, d: Device, i: Control)
    requires Shaped(s) && Routed(s, d) && d.mode == Digital && IsHat(i) && s.routes == []
    requires forall c: Control :: s.rerouted[c] == Sides(false, false)
    ensures Effective(s, d, i) == 1 || Effective(s, d, i) == 0
    ensures i == UP ==> (Effective(s, d, i) == 1 <==> d.raw[UP] != 0 || d.raw[LEFT_Y] < AXIS_CENTER - AXIS_REACH)
    ensures i == DOWN ==> (Effective(s, d, i) == 1 <==> d.raw[DOWN] != 0 || d.raw[LEFT_Y] > AXIS_CENTER + AXIS_REACH)
    ensures i == LEFT ==> (Effective(s, d, i) == 1 <==> d.raw[LEFT] != 0 || d.raw[LEFT_X] < AXIS_CENTER - AXIS_REACH)
    ensures i == RIGHT ==> (Effective(s, d, i) == 1 <==> d.raw[RIGHT] != 0 || d.raw[LEFT_X] > AXIS_CENTER + AXIS_REACH)
  {
  }

  /** Without a map a digital device pulls a trigger through past its half, and passes its buttons on. */
  lemma DigitalPresses(s: State, d: Device, i: Control)
    requires Shaped(s) && Routed(s, d) && d.mode == Digital && !IsHat(i) && !IsStick(i) && s.routes == []
    requires forall c: Control :: s.rerouted[c] == Sides(false, false)
    ensures Effective(s, d, i) ==
            if !IsTrigger(i) then d.raw[i] else if d.raw[i] > TRIGGER_PRESS then AXIS_MAX else 0
  {
  }

  /** An analog device without a map asks for just what its controls say. */
  lemma AnalogPassesOn(s: State, d: Device, i: Control)
    requires Shaped(s) && Routed(s, d) && d.mode == Analog && s.routes == []
    requires forall c: Control :: s.rerouted[c] == Sides(false, false)
    ensures Effective(s, d, i) == d.raw[i]
  {
  }

  /** Under a dial the first stick's axis is that of the stick turned last. */
  lemma DialShows(s: State, d: Device, value: int, i: Control)
    requires Shaped(s) && Routed(s, d) && d.mode == Digital && s.dial && (i == LEFT_X || i == RIGHT_X)
    requires value < AXIS_CENTER - AXIS_REACH || value > AXIS_CENTER + AXIS_REACH
    ensures var turned := FollowDial(s, i, value);
            turned.dial && Effective(turned, d, LEFT_X) == Mapped(turned, d.raw, i)
  {
  }

  predicate Ranges(i: Control, value: int) {
    0 <= value <= if IsStick(i) || IsTrigger(i) then AXIS_MAX else 1
  }

  predicate RowRanges(raw: Row) {
    forall i: Control :: Ranges(i, raw[i])
  }

  lemma ConvertedRanges(route: Route, raw: int)
    ensures Ranges(route.target, Converted(route, raw))
  {
    hide Amount, StickDirection, Pressed;
  }

  lemma {:induction false} MappedRanges(s: State, raw: Row, i: Control, n: nat)
    requires Shaped(s) && n <= |s.routes| && RowRanges(raw)
    ensures Ranges(i, MappedBy(s, raw, i, n))
  {
    hide Converted;
    if n > 0 {
      MappedRanges(s, raw, i, n - 1);
      ConvertedRanges(s.routes[n - 1], raw[s.routes[n - 1].source]);
    } else {
      assert Ranges(i, raw[i]);
    }
  }

  /** No mode, remapping or dial drives a virtual control out of the range it was declared with. */
  lemma {:induction false} FoldRanges(s: State, seat: Seat, i: Control, n: nat)
    requires Shaped(s) && n <= |s.devices|
    requires forall k :: 0 <= k < n ==> RowRanges(s.devices[k].raw)
    ensures Ranges(i, Fold(s, seat, i, n))
  {
    hide MappedBy, StickDirection;
    if n > 0 {
      FoldRanges(s, seat, i, n - 1);
      MappedRanges(s, s.devices[n - 1].raw, i, |s.routes|);
      MappedRanges(s, s.devices[n - 1].raw, RIGHT_X, |s.routes|);
    }
  }

  /** Every control of every device, and everything emitted, is in its range. */
  predicate AllRange(s: State)
    requires Shaped(s)
  {
    && (forall k :: 0 <= k < |s.devices| ==> RowRanges(s.devices[k].raw))
    && (forall seat :: 0 <= seat < PADS ==> RowRanges(s.emitted[seat]))
  }

  /** Input in the range of its control; a remote pad may send any number. */
  predicate InputRanges(e: Event) {
    match e
    case EvInput(_, i, value) => Ranges(i, value)
    case EvDrive(_, i, value) => Ranges(i, value)
    case _ => true
  }

  lemma RestRanges()
    ensures RowRanges(Resting()) && forall i: Control :: Ranges(i, Rest(i))
  {
  }

  lemma FoldAllRanges(s: State, seat: Seat)
    requires Shaped(s) && forall k :: 0 <= k < |s.devices| ==> RowRanges(s.devices[k].raw)
    ensures RowRanges(FoldAll(s, seat))
  {
    hide Fold, RowRanges, Ranges;
    forall i: Control ensures Ranges(i, FoldAll(s, seat)[i]) { FoldRanges(s, seat, i, |s.devices|); }
    EachRanges(FoldAll(s, seat));
  }

  lemma EachRanges(row: Row)
    ensures RowRanges(row) <==> forall i: Control :: Ranges(i, row[i])
  {
  }

  lemma DriveRanges(s: State, j: nat, i: Control, value: int)
    requires Shaped(s) && j < |s.devices| && AllRange(s) && Ranges(i, value)
    ensures AllRange(Drive(s, j, i, value))
  {
    hide FoldAll, StickDirection, Ranges;
    var d := s.devices[j];
    if d.raw[i] != value {
      assert RowRanges(d.raw[i := value]);
      hide RowRanges;
      if Routed(s, d) && Passes(d.mode) {
        var moved := SetRaw(s, j, i, value);
        FoldAllRanges(if d.mode == Digital then FollowDial(moved, i, value) else moved, d.seat);
      }
    }
  }

  lemma {:induction false} LetGoRanges(s: State, j: nat, n: nat)
    requires Shaped(s) && j < |s.devices| && n <= CONTROL_COUNT && AllRange(s)
    ensures AllRange(LetGo(s, j, n))
  {
    hide Drive, AllRange;
    RestRanges();
    if n > 0 {
      LetGoRanges(s, j, n - 1);
      DriveRanges(LetGo(s, j, n - 1), j, n - 1, Rest(n - 1));
    }
  }

  lemma ReleaseRanges(s: State, j: nat, changed: Device)
    requires Shaped(s) && j < |s.devices| && AllRange(s) && changed.raw == Release(s, j).devices[j].raw
    ensures AllRange(Release(s, j)) && AllRange(Release(s, j).(devices := Release(s, j).devices[j := changed]))
  {
    hide LetGo, RowRanges;
    LetGoRanges(s, j, CONTROL_COUNT);
  }

  lemma {:induction false} ReleaseFirstRanges(s: State, n: nat)
    requires Shaped(s) && n <= |s.devices| && AllRange(s)
    ensures AllRange(ReleaseFirst(s, n))
  {
    hide Release, AllRange;
    if n > 0 {
      ReleaseFirstRanges(s, n - 1);
      var rest := ReleaseFirst(s, n - 1);
      ReleaseRanges(rest, n - 1, Release(rest, n - 1).devices[n - 1]);
    }
  }

  lemma {:induction false} PadsRanges(s: State, count: int, seats: nat)
    requires Shaped(s) && seats <= PADS && AllRange(s)
    ensures AllRange(SetPads(s, count, seats))
  {
    hide RowRanges;
    RestRanges();
    if seats > 0 { PadsRanges(s, count, seats - 1); }
  }

  /** A moved control leaves everything in range exactly if it is itself. */
  lemma DriveRangesExactly(s: State, j: nat, i: Control, value: int)
    requires Shaped(s) && j < |s.devices| && AllRange(s)
    ensures AllRange(Drive(s, j, i, value)) <==> Ranges(i, value)
  {
    hide Drive, Ranges;
    if Ranges(i, value) {
      DriveRanges(s, j, i, value);
    } else {
      DriveMoves(s, j, i, value);
      OutOfRange(Drive(s, j, i, value).devices[j].raw, i);
    }
  }

  lemma OutOfRange(raw: Row, i: Control)
    requires !Ranges(i, raw[i])
    ensures !RowRanges(raw)
  {
  }

  /** Whether everything stays in range with the event, as can be told before it. */
  predicate WillRange(s: State, e: Event) {
    match e
    case EvInput(j, i, value) => Live(s, j) && DrivesOn(s, j, i, value) ==> Ranges(i, value)
    case EvDrive(j, i, value) => Live(s, j) ==> Ranges(i, value)
    case _ => true
  }

  lemma InputRangesExactly(s: State, j: nat, i: Control, value: int)
    requires Shaped(s) && j < |s.devices| && AllRange(s)
    ensures AllRange(PadInput(s, j, i, value)) <==> (DrivesOn(s, j, i, value) ==> Ranges(i, value))
  {
    hide Drive, RowRanges, Ranges, HasGuide;
    DriveRangesExactly(s, j, i, value);
  }

  /** For every event: everything stays in range if and only if that could be told before. */
  lemma NextRanges(s: State, e: Event)
    requires Shaped(s) && AllRange(s)
    ensures AllRange(Next(s, e)) <==> WillRange(s, e)
  {
    hide Release, ReleaseFirst, Drive, PadInput, AddRoutes, SetPads, RowRanges, Ranges, Resting, DrivesOn;
    RestRanges();
    match e
    case EvInput(j, i, value) => if Live(s, j) { InputRangesExactly(s, j, i, value); }
    case EvDrive(j, i, value) => if Live(s, j) { DriveRangesExactly(s, j, i, value); }
    case EvAssign(j, seat) => if Live(s, j) { ReleaseRanges(s, j, Release(s, j).devices[j].(seat := seat)); }
    case EvMode(j, mode) => if Live(s, j) { ReleaseRanges(s, j, Release(s, j).devices[j].(mode := mode)); }
    case EvMenu(open) => ReleaseFirstRanges(s, |s.devices|);
    case EvMaps(entries) => ReleaseFirstRanges(s, |s.devices|); RoutesOnly(Unmapped(s), entries);
    case EvDial(_, _) =>
    case EvPads(count) => PadsRanges(s, count, PADS);
    case EvConnect(_, _) =>
    case EvDisconnect(j) => if Live(s, j) { ReleaseRanges(s, j, Release(s, j).devices[j].(id := 0)); }
  }

  lemma WillTakeInRange(s: State, e: Event)
    requires InputRanges(e)
    ensures WillRange(s, e)
  {
  }

  /** Over every run whose input is in range, no mode, remapping or dial drives anything emitted out of range. */
  lemma {:induction false} EmitsInRange(events: seq<Event>)
    requires forall k :: 0 <= k < |events| ==> InputRanges(events[k])
    ensures AllRange(Run(events))
  {
    hide Next, AllRange, InputRanges;
    if events == [] {
      StartRanges();
    } else {
      EmitsInRange(events[..|events| - 1]);
      WillTakeInRange(Run(events[..|events| - 1]), events[|events| - 1]);
      NextRanges(Run(events[..|events| - 1]), events[|events| - 1]);
    }
  }

  /** Everything is in range at the start and after every event. */
  ghost predicate RangesThroughout(events: seq<Event>) {
    forall k :: 0 <= k <= |events| ==> AllRange(Run(events[..k]))
  }

  /** Every input that is taken is in range. */
  ghost predicate TakesInRange(events: seq<Event>) {
    forall k :: 0 <= k < |events| ==> WillRange(Run(events[..k]), events[k])
  }

  lemma ThroughoutStep(events: seq<Event>, e: Event)
    ensures RangesThroughout(events + [e]) <==> RangesThroughout(events) && AllRange(Next(Run(events), e))
  {
    hide Run, Next, AllRange;
    var more := events + [e];
    assert Run(more) == Next(Run(events), e) by { RunStep(events, e); }
    assert forall k :: 0 <= k <= |events| ==> more[..k] == events[..k];
    assert more[..|more|] == more && events[..|events|] == events;
  }

  lemma RunStep(events: seq<Event>, e: Event)
    ensures Run(events + [e]) == Next(Run(events), e)
  {
    assert (events + [e])[..|events|] == events;
  }

  lemma TakesStep(events: seq<Event>, e: Event)
    ensures TakesInRange(events + [e]) <==> TakesInRange(events) && WillRange(Run(events), e)
  {
    hide Run, WillRange;
    var more := events + [e];
    assert forall k :: 0 <= k < |events| ==> more[..k] == events[..k] && more[k] == events[k];
    assert more[..|events|] == events && more[|events|] == e;
  }

  /** A run stays in range throughout if and only if every input it takes is in range. */
  lemma {:induction false} RunRanges(events: seq<Event>)
    ensures RangesThroughout(events) <==> TakesInRange(events)
  {
    hide Next, AllRange, WillRange, Run;
    if events == [] {
      NoEvents();
    } else {
      var rest, e := events[..|events| - 1], events[|events| - 1];
      assert events == rest + [e];
      RunRanges(rest);
      ThroughoutStep(rest, e);
      TakesStep(rest, e);
      if RangesThroughout(rest) { InRangeNow(rest); NextRanges(Run(rest), e); }
    }
  }

  lemma NoEvents()
    ensures RangesThroughout([]) && TakesInRange([])
  {
    hide AllRange;
    StartRanges();
  }

  lemma InRangeNow(events: seq<Event>)
    requires RangesThroughout(events)
    ensures AllRange(Run(events))
  {
    hide AllRange, Run;
    assert events[..|events|] == events;
  }

  lemma StartRanges()
    ensures AllRange(Initial())
  {
    hide RowRanges, Resting;
    RestRanges();
  }

  lemma DigitalWish(s: State, d: Device, i: Control)
    requires Shaped(s) && d.mode == Digital && !s.dial && RowRanges(d.raw)
    ensures Effective(s, d, i) == Rest(i) || (!IsStick(i) && Effective(s, d, i) == if IsTrigger(i) then AXIS_MAX else 1)
  {
    hide MappedBy, StickDirection;
    MappedRanges(s, d.raw, i, |s.routes|);
  }

  /**
   Over such runs a digital pad is digital: without a dial its sticks stay in the middle, and
   everything else is off or fully on.
   */
  lemma DigitalIsDigital(events: seq<Event>, j: nat, i: Control)
    requires forall k :: 0 <= k < |events| ==> InputRanges(events[k])
    requires j < |Run(events).devices| && Run(events).devices[j].mode == Digital && !Run(events).dial
    ensures var wish := Effective(Run(events), Run(events).devices[j], i);
            wish == Rest(i) || (!IsStick(i) && wish == if IsTrigger(i) then AXIS_MAX else 1)
  {
    hide Run, Effective, InputRanges, RowRanges;
    EmitsInRange(events);
    DigitalWish(Run(events), Run(events).devices[j], i);
  }

  /** A press taken as half of the guide combination leaves no trace once it is let go. */
  lemma SwallowedLeavesNoTrace(s: State, j: nat, i: Control, value: int)
    requires Shaped(s) && j < |s.devices| && value != 0 && s.devices[j].swallowed == None && i != GUIDE
    requires Partner(i).Some? && s.devices[j].raw[Partner(i).value] != 0 && !HasGuide(s, j)
    ensures PadInput(PadInput(s, j, i, value), j, i, 0) == s
  {
    hide Drive;
    var pressed := PadInput(s, j, i, value);
    assert pressed.devices[j := s.devices[j]] == s.devices;
  }

  // What a game reads from the virtual pad.

  /**
   The virtual device: keys, sticks and triggers by control, the buttons behind the triggers, and
   the two hat axes.
   */
  datatype Report = Report(values: Row, buttons: seq<bool>, hatX: int, hatY: int)

  predicate Horizontal(i: Control) {
    i >= 23
  }

  /** The sum of the directions of one hat axis among the first `n` controls. */
  function HatOf(row: Row, horizontal: bool, n: nat): int
    requires n <= CONTROL_COUNT
  {
    if n == 0 then 0
    else HatOf(row, horizontal, n - 1) +
         if IsHat(n - 1) && Horizontal(n - 1) == horizontal && row[n - 1] != 0 then Direction(n - 1) else 0
  }

  function ReportOf(row: Row): Report {
    Report(seq(CONTROL_COUNT, i requires 0 <= i < CONTROL_COUNT => if IsHat(i) then 0 else row[i]),
           [row[19] > 0, row[20] > 0], HatOf(row, true, CONTROL_COUNT), HatOf(row, false, CONTROL_COUNT))
  }

  lemma {:induction false} HatKept(row: Row, i: Control, value: int, horizontal: bool, n: nat)
    requires n <= CONTROL_COUNT && (!IsHat(i) || Horizontal(i) != horizontal || n <= i)
    ensures HatOf(row[i := value], horizontal, n) == HatOf(row, horizontal, n)
  {
    if n > 0 { HatKept(row, i, value, horizontal, n - 1); }
  }

  /** One control written to the device keeps it reporting the whole row. */
  lemma WritingReports(row: Row, i: Control, value: int)
    ensures var now, report := row[i := value], ReportOf(row);
            ReportOf(now) ==
            if IsHat(i) then
              if Horizontal(i) then report.(hatX := HatOf(now, true, CONTROL_COUNT))
              else report.(hatY := HatOf(now, false, CONTROL_COUNT))
            else
              report.(values := report.values[i := value],
                      buttons := if IsTrigger(i) then report.buttons[i - 19 := value > 0] else report.buttons)
  {
    HatKept(row, i, value, true, if IsHat(i) && Horizontal(i) then 0 else CONTROL_COUNT);
    HatKept(row, i, value, false, if IsHat(i) && !Horizontal(i) then 0 else CONTROL_COUNT);
    hide HatOf;
    var now := row[i := value];
    assert ReportOf(now).values == if IsHat(i) then ReportOf(row).values else ReportOf(row).values[i := value];
  }

  lemma {:induction false} HatRests(horizontal: bool, n: nat)
    requires n <= CONTROL_COUNT
    ensures HatOf(Resting(), horizontal, n) == 0
  {
    if n > 0 { HatRests(horizontal, n - 1); }
  }

  /** A pad at rest reports both sticks in the middle and everything else off; opposite directions cancel out. */
  lemma RestReportsNothing(row: Row)
    ensures var report := ReportOf(Resting());
            && report.hatX == report.hatY == 0 && report.buttons == [false, false]
            && forall i: Control :: report.values[i] == if IsStick(i) then AXIS_CENTER else 0
    ensures -1 <= ReportOf(row).hatX <= 1 && -1 <= ReportOf(row).hatY <= 1
    ensures row[23] != 0 && row[24] != 0 ==> ReportOf(row).hatX == 0
    ensures row[21] != 0 && row[22] != 0 ==> ReportOf(row).hatY == 0
  {
    HatRests(true, CONTROL_COUNT);
    HatRests(false, CONTROL_COUNT);
    HatEnds(row, true);
    HatEnds(row, false);
    hide HatOf;
  }

  lemma HatEnds(row: Row, horizontal: bool)
    ensures HatOf(row, horizontal, CONTROL_COUNT) ==
            (if row[if horizontal then 24 else 22] != 0 then 1 else 0)
            - (if row[if horizontal then 23 else 21] != 0 then 1 else 0)
  {
    HatFree(row, horizontal, 21);
    assert HatOf(row, horizontal, 22) == HatOf(row, horizontal, 21) + if !horizontal && row[21] != 0 then -1 else 0;
    assert HatOf(row, horizontal, 23) == HatOf(row, horizontal, 22) + if !horizontal && row[22] != 0 then 1 else 0;
    assert HatOf(row, horizontal, 24) == HatOf(row, horizontal, 23) + if horizontal && row[23] != 0 then -1 else 0;
    assert HatOf(row, horizontal, 25) == HatOf(row, horizontal, 24) + if horizontal && row[24] != 0 then 1 else 0;
  }

  lemma {:induction false} HatFree(row: Row, horizontal: bool, n: nat)
    requires n <= 21
    ensures HatOf(row, horizontal, n) == 0
  {
    if n > 0 { HatFree(row, horizontal, n - 1); }
  }
}
