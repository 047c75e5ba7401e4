/**
 What the commands of the pad daemon bring about: which are refused, whom they change, and
 how devices are told apart over a run.
 */
module PadEvents {
  import opened Options
  import opened Pads

  /** The device is let go and keeps everything else; no other device changes. */
  lemma Released(s: State, j: nat)
    requires Shaped(s) && j < |s.devices|
    ensures var next := Release(s, j);
            && (forall k :: 0 <= k < |s.devices| && k != j ==> next.devices[k] == s.devices[k])
            && next.devices[j] == s.devices[j].(raw := next.devices[j].raw, swallowed := None)
            && Quiet(next.devices[j].raw) && next.nextId == s.nextId
  {
    hide LetGo, Quiet;
    LetGoKeeps(s, j, CONTROL_COUNT);
    LetGoQuiets(s, j);
  }

  /** Nobody but device `j` has changed. */
  predicate OnlyChanges(s: State, next: State, j: nat) {
    |next.devices| == |s.devices| && forall k :: 0 <= k < |s.devices| && k != j ==> next.devices[k] == s.devices[k]
  }

  /** A device that is assigned sits on its new seat, let go; one that is there already keeps what it holds. */
  lemma AssignSeats(s: State, j: nat, seat: Seat)
    requires Shaped(s) && j < |s.devices| && s.devices[j].id != 0
    ensures var next, was := Next(s, EvAssign(j, seat)), s.devices[j];
            if was.seat == seat then next == s
            else
              && OnlyChanges(s, next, j) && Quiet(next.devices[j].raw)
              && next.devices[j] == was.(seat := seat, raw := next.devices[j].raw, swallowed := None)
  {
    hide Release, Quiet;
    Released(s, j);
  }

  /** A pad may work in every mode, a keyboard and a mouse in their own and one of a pad's. */
  lemma ModesAllowed(kind: Kind, mode: Mode)
    ensures Allows(kind, mode) <==>
            kind == Pad || (kind == Keyboard && (mode == Keys || mode == Digital))
            || (kind == Mouse && (mode == Pointer || mode == Analog))
    ensures Allows(kind, Native(kind))
  {
  }

  /** A device changes to a mode that its kind has, let go; it refuses any other, and keeps the one it is in. */
  lemma ModeChanges(s: State, j: nat, mode: Mode)
    requires Shaped(s) && j < |s.devices| && s.devices[j].id != 0
    ensures var next, was := Next(s, EvMode(j, mode)), s.devices[j];
            if !Allows(was.kind, mode) || was.mode == mode then next == s
            else
              && OnlyChanges(s, next, j) && Quiet(next.devices[j].raw)
              && next.devices[j] == was.(mode := mode, raw := next.devices[j].raw, swallowed := None)
  {
    hide Release, Quiet;
    Released(s, j);
  }

  /** A device that leaves is let go, and its slot is free. */
  lemma DisconnectFrees(s: State, j: nat)
    requires Shaped(s) && j < |s.devices| && s.devices[j].id != 0
    ensures var next := Next(s, EvDisconnect(j));
            OnlyChanges(s, next, j) && next.devices[j].id == 0 && Quiet(next.devices[j].raw) && next.nextId == s.nextId
  {
    hide Release, Quiet;
    Released(s, j);
  }

  /** Nothing is done with a slot that is free. */
  lemma FreeSlotIgnored(s: State, e: Event)
    requires Shaped(s) && (e.EvInput? || e.EvDrive? || e.EvAssign? || e.EvMode? || e.EvDisconnect?)
    requires e.slot >= |s.devices| || s.devices[e.slot].id == 0
    ensures Next(s, e) == s
  {
  }

  /**
   A new device takes the first free slot, at rest, on no seat, in its own mode, under an id of its
   own; without one it is refused.
   */
  lemma ConnectSeatsNobody(s: State, kind: Kind, guide: bool)
    requires Shaped(s)
    ensures var next := Next(s, EvConnect(kind, guide));
            match FreeSlot(s.devices)
            case None => next == s && forall k :: 0 <= k < |s.devices| ==> s.devices[k].id != 0
            case Some(j) =>
              && j < |s.devices| && s.devices[j].id == 0 && (forall k :: 0 <= k < j ==> s.devices[k].id != 0)
              && OnlyChanges(s, next, j) && next.nextId == s.nextId + 1 && next.devices[j].id == s.nextId
              && next.devices[j].seat == NO_PAD && next.devices[j].kind == kind && next.devices[j].mode == Native(kind)
              && next.devices[j].guide == guide && next.devices[j].raw == Resting() && next.devices[j].swallowed == None
  {
  }

  // Devices are told apart by ids.

  predicate OwnIds(s: State) {
    && (forall k :: 0 <= k < |s.devices| ==> s.devices[k].id < s.nextId)
    && forall j, k :: 0 <= j < k < |s.devices| && s.devices[j].id != 0 ==> s.devices[j].id != s.devices[k].id
  }

  /** What an event keeps of the ids: each slot keeps its own or becomes free, or takes the next one. */
  ghost predicate KeepsIds(s: State, next: State) {
    && |next.devices| == |s.devices| && next.nextId >= s.nextId
    && forall k :: 0 <= k < |s.devices| ==> next.devices[k].id in {0, s.devices[k].id}
  }

  lemma {:induction false} ReleaseFirstIds(s: State, n: nat)
    requires Shaped(s) && n <= |s.devices|
    ensures var next := ReleaseFirst(s, n);
            next.nextId == s.nextId && forall k :: 0 <= k < |s.devices| ==> next.devices[k].id == s.devices[k].id
  {
    hide Release;
    if n > 0 {
      ReleaseFirstIds(s, n - 1);
      var rest := ReleaseFirst(s, n - 1);
      Released(rest, n - 1);
    }
  }

  lemma InputIds(s: State, j: nat, i: Control, value: int)
    requires Shaped(s) && j < |s.devices|
    ensures KeepsIds(s, PadInput(s, j, i, value)) && KeepsIds(s, Drive(s, j, i, value))
  {
    hide Drive, HasGuide;
    DriveMoves(s, j, i, value);
  }

  lemma PadsIds(s: State, count: int)
    requires Shaped(s)
    ensures SetPads(s, count, PADS).devices == s.devices && SetPads(s, count, PADS).nextId == s.nextId
  {
    PadsFrame(s, count, PADS, 0);
  }

  lemma OthersIds(s: State, e: Event)
    requires Shaped(s) && !e.EvConnect?
    ensures KeepsIds(s, Next(s, e))
  {
    hide Release, ReleaseFirst, Drive, PadInput, AddRoutes, SetPads, Quiet;
    match e
    case EvInput(j, i, value) => if Live(s, j) { InputIds(s, j, i, value); }
    case EvDrive(j, i, value) => if Live(s, j) { InputIds(s, j, i, value); }
    case EvAssign(j, seat) => if Live(s, j) { Released(s, j); }
    case EvMode(j, mode) => if Live(s, j) { Released(s, j); }
    case EvMenu(open) => ReleaseFirstIds(s, |s.devices|);
    case EvMaps(entries) => ReleaseFirstIds(s, |s.devices|); RoutesOnly(Unmapped(s), entries);
    case EvDial(_, _) =>
    case EvPads(count) => PadsIds(s, count);
    case EvDisconnect(j) => if Live(s, j) { Released(s, j); }
  }

  /** Over every run no two devices have the same id, and none is given twice. */
  lemma {:induction false} IdsAreOwn(events: seq<Event>)
    ensures OwnIds(Run(events))
    ensures events != [] ==> Run(events).nextId >= Run(events[..|events| - 1]).nextId
  {
    hide Next, Connect;
    if events != [] {
      var before, e := Run(events[..|events| - 1]), events[|events| - 1];
      IdsAreOwn(events[..|events| - 1]);
      if e.EvConnect? { ConnectSeatsNobody(before, e.kind, e.guide); } else { OthersIds(before, e); }
    }
  }

  // The guide combination.

  /** The device, or one on the same seat, has a guide button of its own. */
  lemma GuideIsThere(s: State, j: nat)
    requires j < |s.devices|
    ensures HasGuide(s, j) <==>
            exists k :: 0 <= k < |s.devices| && s.devices[k].id != 0 && s.devices[k].guide
                        && (k == j || (s.devices[j].seat >= 0 && s.devices[k].seat == s.devices[j].seat))
  {
    if k: nat :| k < |s.devices| && GuideFor(s, j, k) {
      assert s.devices[k].guide;
    }
    if k: nat :| k < |s.devices| && s.devices[k].id != 0 && s.devices[k].guide
                 && (k == j || (s.devices[j].seat >= 0 && s.devices[k].seat == s.devices[j].seat))
    {
      assert GuideFor(s, j, k);
    }
  }

  /** Back with start held, or start with back held, is taken as the guide button exactly where there is none. */
  lemma CombinationTaken(s: State, j: nat, i: Control, value: int)
    requires Shaped(s) && Live(s, j) && s.devices[j].swallowed != Some(i)
    ensures var next := Next(s, EvInput(j, i, value));
            var taken := value != 0 && !HasGuide(s, j)
                         && ((i == BACK && s.devices[j].raw[START] != 0)
                              || (i == START && s.devices[j].raw[BACK] != 0));
            && (taken ==> next == s.(devices := s.devices[j := s.devices[j].(swallowed := Some(i))]))
            && (!taken && i != GUIDE ==> next == Drive(s, j, i, value))
            && (i == GUIDE ==> next == s)
  {
    hide Drive, HasGuide;
  }

  /** While a button is taken it reaches no seat; once it is let go it is itself again. */
  lemma TakenIsSilent(s: State, j: nat, i: Control, value: int)
    requires Shaped(s) && Live(s, j) && s.devices[j].swallowed == Some(i) && i != GUIDE
    ensures Next(s, EvInput(j, i, value)) ==
            if value != 0 then s else s.(devices := s.devices[j := s.devices[j].(swallowed := None)])
  {
  }

  // Seats, maps and ties.

  /** A seat that is not plugged shows nothing new. */
  lemma UnpluggedKept(s: State, j: nat, i: Control, value: int, seat: Seat)
    requires Shaped(s) && Live(s, j) && seat >= 0 && (!s.plugged[seat] || seat != s.devices[j].seat)
    ensures Drive(s, j, i, value).emitted[seat] == s.emitted[seat]
  {
    hide FoldAll, StickDirection;
  }

  /** Of two wishes that are as strong the earlier one counts. */
  lemma EarlierCounts(i: Control, value: int, candidate: int)
    ensures Stronger(i, value, candidate) == candidate <==>
            candidate == value || Abs(candidate - Rest(i)) > Abs(value - Rest(i))
    ensures Stronger(i, value, candidate) in {value, candidate}
  {
  }

  /** An entry becomes a route exactly if it names two controls, and a side only of a stick. */
  lemma EntryCounts(s: State, e: Entry)
    requires Shaped(s)
    ensures var next := AddRoute(s, e);
            if e.source.Some? && e.target.Some? && (e.sign == 0 || 15 <= e.source.value <= 18)
            then next.routes == s.routes + [Route(e.source.value, e.sign, e.target.value)]
            else next == s
  {
  }

  /** The daemon starts with the first seat plugged and at rest, no device, no map, no menu and no dial. */
  lemma StartsSilent()
    ensures Silent(Initial()) && Initial().plugged[0] && forall seat :: 1 <= seat < PADS ==> !Initial().plugged[seat]
    ensures forall k :: 0 <= k < |Initial().devices| ==> Initial().devices[k].id == 0
    ensures Initial().routes == [] && forall i: Control :: Initial().rerouted[i] == Sides(false, false)
    ensures !Initial().menuOpen && !Initial().dial && !Initial().dialAbsolute && |Initial().devices| == DEVICES_MAX
  {
  }
}
