/**
 The daemon's own state, updated in place the way its event handlers do it. Every handler is
 proved to do what the function of the same name says in Pads.
 */
module Padd {
  import opened Pads
  import opened Options

  class Daemon {
    var devices: seq<Device>
    var plugged: seq<bool>
    var emitted: seq<Row>
    var routes: seq<Route>
    var rerouted: seq<Sides>
    var menuOpen: bool
    var dial: bool
    var dialAbsolute: bool
    var nextId: nat
    var reported: seq<Report>

    ghost function Model(): State
      reads this
    {
      State(devices, plugged, emitted, routes, rerouted, menuOpen, dial, dialAbsolute, nextId)
    }

    /** Every plugged virtual device reports what is emitted for its seat. */
    ghost predicate Reports()
      reads this
    {
      && |reported| == |plugged| == |emitted|
      && forall seat :: 0 <= seat < |plugged| && plugged[seat] ==> reported[seat] == ReportOf(emitted[seat])
    }

    ghost predicate Valid()
      reads this
    {
      Shaped(Model()) && Reports()
    }

    constructor ()
      ensures Valid() && Model() == Initial()
    {
      devices := seq(DEVICES_MAX, _ => Pads.FreeDevice());
      plugged := [true, false, false, false];
      emitted := seq(PADS, _ => Resting());
      routes := [];
      rerouted := seq(CONTROL_COUNT, _ => Sides(false, false));
      menuOpen, dial, dialAbsolute, nextId := false, false, false, 1;
      reported := seq(PADS, _ => ReportOf(Resting()));
    }

    method Mapped(raw: Row, i: Control) returns (value: int)
      requires Valid()
      ensures value == Pads.Mapped(Model(), raw, i)
    {
      value := Direct(i, rerouted[i], raw[i]);
      var r := 0;
      while r < |routes|
        invariant 0 <= r <= |routes|
        invariant value == MappedBy(Model(), raw, i, r)
      {
        if routes[r].target == i { value := Stronger(i, value, Converted(routes[r], raw[routes[r].source])); }
        r := r + 1;
      }
    }

    method Effective(d: Device, i: Control) returns (value: int)
      requires Valid()
      ensures value == Pads.Effective(Model(), d, i)
    {
      hide Pads.Mapped;
      if d.seat == NO_PAD || menuOpen || (d.mode != Analog && d.mode != Digital) { return Rest(i); }
      value := Mapped(d.raw, i);
      if d.mode == Analog { return; }
      if IsHat(i) {
        var tilt := Mapped(d.raw, StickOf(i));
        return Bit(value != 0 || StickDirection(tilt) == Direction(i));
      }
      if dial && i == LEFT_X {
        if dialAbsolute { value := Mapped(d.raw, RIGHT_X); }
        return;
      }
      if IsStick(i) { return AXIS_CENTER; }
      if IsTrigger(i) { return if Pressed(i, value) then AXIS_MAX else 0; }
    }

    /** The position of a hat axis of the seat. */
    method Hat(seat: Seat, horizontal: bool) returns (value: int)
      requires Shaped(Model()) && seat != NO_PAD
      ensures value == HatOf(emitted[seat], horizontal, CONTROL_COUNT)
    {
      value := 0;
      var i := 0;
      while i < CONTROL_COUNT
        invariant 0 <= i <= CONTROL_COUNT && value == HatOf(emitted[seat], horizontal, i)
      {
        if IsHat(i) && Horizontal(i) == horizontal && emitted[seat][i] != 0 { value := value + Direction(i); }
        i := i + 1;
      }
    }

    /** Writes one control to the virtual device: a key, a hat axis, or an axis and the button behind it. */
    method WriteEvent(seat: Seat, i: Control, value: int, ghost before: Row)
      requires Shaped(Model()) && seat != NO_PAD && |reported| == PADS
      requires emitted[seat] == before[i := value] && reported[seat] == ReportOf(before)
      modifies this`reported
      ensures reported == old(reported)[seat := ReportOf(emitted[seat])]
    {
      WritingReports(before, i, value);
      var report := reported[seat];
      if IsHat(i) {
        var hat := Hat(seat, Horizontal(i));
        report := if Horizontal(i) then report.(hatX := hat) else report.(hatY := hat);
      } else {
        report := report.(values := report.values[i := value]);
        if IsTrigger(i) { report := report.(buttons := report.buttons[i - 19 := value > 0]); }
      }
      reported := reported[seat := report];
    }

    method SyncControl(seat: Seat, i: Control)
      requires Valid() && seat != NO_PAD && plugged[seat]
      modifies this`emitted, this`reported
      ensures Valid()
      ensures emitted == old(emitted)[seat := old(emitted)[seat][i := Fold(old(Model()), seat, i, |devices|)]]
    {
      hide Pads.Effective;
      var value := Rest(i);
      var j := 0;
      while j < |devices|
        modifies {}
        invariant 0 <= j <= |devices|
        invariant value == Fold(Model(), seat, i, j)
      {
        var d := devices[j];
        if d.id != 0 && d.seat == seat {
          var wish := Effective(d, i);
          value := Stronger(i, value, wish);
        }
        j := j + 1;
      }
      if value == emitted[seat][i] {
        assert emitted[seat][i := value] == emitted[seat] && emitted[seat := emitted[seat]] == emitted;
        return;
      }
      ghost var before := emitted[seat];
      emitted := emitted[seat := emitted[seat][i := value]];
      WriteEvent(seat, i, value, before);
    }

    method SyncPad(seat: Seat)
      requires Valid() && seat != NO_PAD
      modifies this`emitted, this`reported
      ensures Valid() && Model() == Pads.SyncPad(old(Model()), seat)
    {
      hide Fold;
      ghost var before := Model();
      var i := 0;
      while plugged[seat] && i < CONTROL_COUNT
        invariant 0 <= i <= CONTROL_COUNT && Valid() && Model() == before.(emitted := emitted)
        invariant !plugged[seat] ==> i == 0
        invariant forall k: Seat :: 0 <= k && k != seat ==> emitted[k] == before.emitted[k]
        invariant forall k: Control :: k < i ==> emitted[seat][k] == Fold(before, seat, k, |devices|)
        invariant i == 0 ==> emitted == before.emitted
      {
        AlikeFold(before, Model(), seat, i);
        SyncControl(seat, i);
        i := i + 1;
      }
      if plugged[seat] {
        assert emitted[seat] == FoldAll(before, seat);
        assert emitted == before.emitted[seat := FoldAll(before, seat)];
      }
    }

    method FollowDial(i: Control, value: int)
      modifies this`dialAbsolute
      ensures Model() == Pads.FollowDial(old(Model()), i, value)
    {
      var absolute := i == RIGHT_X;
      if !dial || (i != LEFT_X && !absolute) || StickDirection(value) == 0 || absolute == dialAbsolute { return; }
      dialAbsolute := absolute;
    }

    method DriveControl(j: nat, i: Control, value: int)
      requires Valid() && j < |devices|
      modifies this
      ensures Valid() && Model() == Drive(old(Model()), j, i, value)
    {
      hide Fold, StickDirection, FoldAll;
      var d := devices[j];
      if d.raw[i] == value { return; }
      devices := devices[j := d.(raw := d.raw[i := value])];
      if d.seat == NO_PAD || menuOpen { return; }
      if d.mode == Digital { FollowDial(i, value); }
      if d.mode == Analog || d.mode == Digital { SyncPad(d.seat); }
    }

    method PadHasGuide(j: nat) returns (found: bool)
      requires j < |devices|
      ensures found == HasGuide(Model(), j)
    {
      var k := 0;
      while k < |devices|
        invariant 0 <= k <= |devices|
        invariant forall m :: 0 <= m < k ==> !GuideFor(Model(), j, m)
      {
        var other := devices[k];
        if other.id != 0 && other.guide && (k == j || (devices[j].seat != NO_PAD && other.seat == devices[j].seat)) {
          assert GuideFor(Model(), j, k);
          return true;
        }
        k := k + 1;
      }
      return false;
    }

    method PadInput(j: nat, i: Control, value: int)
      requires Valid() && j < |devices|
      modifies this
      ensures Valid() && Model() == Pads.PadInput(old(Model()), j, i, value)
    {
      hide Drive;
      var d := devices[j];
      if i == GUIDE { return; }
      if d.swallowed == Some(i) {
        if value != 0 { return; }
        devices := devices[j := d.(swallowed := None)];
        return;
      }
      if value != 0 && Partner(i).Some? && d.raw[Partner(i).value] != 0 {
        var guide := PadHasGuide(j);
        if !guide {
          devices := devices[j := d.(swallowed := Some(i))];
          return;
        }
      }
      DriveControl(j, i, value);
    }

    method Release(j: nat)
      requires Valid() && j < |devices|
      modifies this
      ensures Valid() && Model() == Pads.Release(old(Model()), j)
    {
      hide Drive;
      var i := 0;
      while i < CONTROL_COUNT
        invariant 0 <= i <= CONTROL_COUNT && Valid()
        invariant Model() == LetGo(old(Model()), j, i)
      {
        DriveControl(j, i, Rest(i));
        i := i + 1;
      }
      devices := devices[j := devices[j].(swallowed := None)];
    }

    method ReleaseAll()
      requires Valid()
      modifies this
      ensures Valid() && Model() == Pads.ReleaseAll(old(Model()))
    {
      hide Pads.Release;
      var j := 0;
      ghost var count := |devices|;
      while j < |devices|
        invariant 0 <= j <= |devices| == count && Valid()
        invariant Model() == ReleaseFirst(old(Model()), j)
      {
        if devices[j].id != 0 { Release(j); }
        j := j + 1;
      }
    }

    method Assign(j: nat, seat: Seat)
      requires Valid() && j < |devices|
      modifies this
      ensures Valid() && Model() == Pads.Assign(old(Model()), j, seat)
    {
      hide Pads.Release;
      if devices[j].seat == seat { return; }
      Release(j);
      devices := devices[j := devices[j].(seat := seat)];
    }

    method SetMode(j: nat, mode: Mode)
      requires Valid() && j < |devices|
      modifies this
      ensures Valid() && Model() == Pads.SetMode(old(Model()), j, mode)
    {
      hide Pads.Release;
      if !Allows(devices[j].kind, mode) || mode == devices[j].mode { return; }
      Release(j);
      devices := devices[j := devices[j].(mode := mode)];
    }

    method SetMenu(open: bool)
      requires Valid()
      modifies this
      ensures Valid() && Model() == Pads.SetMenu(old(Model()), open)
    {
      hide Pads.ReleaseAll;
      if open { ReleaseAll(); }
      menuOpen := open;
    }

    method AddRoute(e: Entry)
      requires Valid()
      modifies this`routes, this`rerouted
      ensures Valid() && Model() == Pads.AddRoute(old(Model()), e)
    {
      if e.source == None || e.target == None || (e.sign != 0 && !IsStick(e.source.value)) { return; }
      var source := e.source.value;
      routes := routes + [Route(source, e.sign, e.target.value)];
      rerouted := rerouted[source := Reroute(rerouted[source], e.sign)];
    }

    method LoadMaps(entries: seq<Entry>)
      requires Valid()
      modifies this
      ensures Valid() && Model() == Pads.LoadMaps(old(Model()), entries)
    {
      hide Pads.ReleaseAll, Pads.AddRoute;
      ReleaseAll();
      rerouted := seq(CONTROL_COUNT, _ => Sides(false, false));
      routes := [];
      ghost var bare := Model();
      var n := 0;
      while n < |entries|
        invariant 0 <= n <= |entries| && Valid()
        invariant Model() == AddRoutes(bare, entries[..n])
      {
        AddRoute(entries[n]);
        n := n + 1;
        assert entries[..n][..n - 1] == entries[..n - 1];
      }
      assert entries[..n] == entries;
      assert bare == Unmapped(old(Model()));
    }

    method Plug(seat: Seat)
      requires Valid() && seat != NO_PAD
      modifies this`plugged, this`emitted, this`reported
      ensures Valid() && Model() == Pads.Plug(old(Model()), seat)
    {
      if plugged[seat] { return; }
      var i := 0;
      ghost var before := emitted;
      while i < CONTROL_COUNT
        modifies this`emitted
        invariant 0 <= i <= CONTROL_COUNT && |emitted| == PADS
        invariant forall k: Seat :: 0 <= k && k != seat ==> emitted[k] == before[k]
        invariant forall k: Control :: k < i ==> emitted[seat][k] == Rest(k)
      {
        emitted := emitted[seat := emitted[seat][i := Rest(i)]];
        i := i + 1;
      }
      assert emitted[seat] == Resting();
      assert emitted == before[seat := Resting()];
      plugged := plugged[seat := true];
      reported := reported[seat := ReportOf(Resting())];
    }

    method Unplug(seat: Seat)
      requires Valid() && seat != NO_PAD
      modifies this`plugged
      ensures Valid() && Model() == Pads.Unplug(old(Model()), seat)
    {
      if !plugged[seat] { return; }
      plugged := plugged[seat := false];
    }

    method SetPads(count: int)
      requires Valid()
      modifies this
      ensures Valid() && Model() == Pads.SetPads(old(Model()), count, PADS)
    {
      hide Pads.Plug, Pads.Unplug;
      var seat := 0;
      while seat < PADS
        invariant 0 <= seat <= PADS && Valid()
        invariant Model() == Pads.SetPads(old(Model()), count, seat)
      {
        if seat < count || seat == 0 { Plug(seat); } else { Unplug(seat); }
        seat := seat + 1;
      }
    }

    method NewDevice(kind: Kind, guide: bool) returns (slot: Option<nat>)
      requires Valid()
      modifies this
      ensures Valid() && Model() == Connect(old(Model()), kind, guide)
      ensures slot == FreeSlot(old(devices))
    {
      var j := 0;
      while j < |devices|
        invariant 0 <= j <= |devices| && Model() == old(Model())
        invariant forall k :: 0 <= k < j ==> devices[k].id != 0
      {
        if devices[j].id == 0 {
          devices := devices[j := Device(nextId, NO_PAD, guide, kind, Native(kind), Resting(), None)];
          nextId := nextId + 1;
          return Some(j);
        }
        j := j + 1;
      }
      return None;
    }

    method FreeDevice(j: nat)
      requires Valid() && j < |devices|
      modifies this
      ensures Valid() && Model() == Disconnect(old(Model()), j)
    {
      hide Pads.Release;
      Release(j);
      devices := devices[j := devices[j].(id := 0)];
    }
  }
}
