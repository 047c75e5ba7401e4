/**
 Splitting memory extents over the cores.

 While the emulator is frozen its shared memory is copied extent by extent. The
 extents are cut so that every core copies an equal share of the bytes.
 */
module Slices {

  type Byte = bv8

  /** Bytes `start` up to `end` of file `source`, copied to the same offsets of file `copy`. */
  datatype Extent = Extent(source: int, copy: int, start: int, end: int)

  /** One byte that has to be copied. */
  datatype Cell = Cell(source: int, copy: int, offset: int)

  predicate Ordered(extents: seq<Extent>) {
    forall i :: 0 <= i < |extents| ==> extents[i].start <= extents[i].end
  }

  function Size(extents: seq<Extent>): int {
    if extents == [] then 0
    else Size(extents[..|extents| - 1]) + extents[|extents| - 1].end - extents[|extents| - 1].start
  }

  /** The bytes of one extent, in order. */
  function CellsOf(extent: Extent): (cells: seq<Cell>)
    ensures extent.start <= extent.end ==> |cells| == extent.end - extent.start
  {
    if extent.start > extent.end then []
    else seq(extent.end - extent.start, k => Cell(extent.source, extent.copy, extent.start + k))
  }

  /** The bytes of a list of extents, in order. */
  function Cells(extents: seq<Extent>): seq<Cell> {
    if extents == [] then [] else Cells(extents[..|extents| - 1]) + CellsOf(extents[|extents| - 1])
  }

  /** The bytes of all slices, core after core. */
  function AllCells(slices: seq<seq<Extent>>): seq<Cell> {
    if slices == [] then [] else AllCells(slices[..|slices| - 1]) + Cells(slices[|slices| - 1])
  }

  lemma CellsAppend(extents: seq<Extent>, extent: Extent)
    ensures Cells(extents + [extent]) == Cells(extents) + CellsOf(extent)
    ensures Size(extents + [extent]) == Size(extents) + extent.end - extent.start
  {
    assert (extents + [extent])[..|extents|] == extents;
  }

  /** Cutting an extent in two keeps its bytes. */
  lemma CellsCut(extent: Extent, middle: int)
    requires extent.start <= middle <= extent.end
    ensures CellsOf(extent) == CellsOf(extent.(end := middle)) + CellsOf(extent.(start := middle))
  {
  }

  lemma NoCellsOf(extent: Extent)
    requires extent.end <= extent.start
    ensures CellsOf(extent) == []
  {
  }

  lemma {:induction false} SizeNatural(extents: seq<Extent>)
    requires Ordered(extents)
    ensures Size(extents) >= 0
    ensures |Cells(extents)| == Size(extents)
  {
    if extents != [] { SizeNatural(extents[..|extents| - 1]); }
  }

  lemma {:induction false} SizePrefix(extents: seq<Extent>, n: nat)
    requires Ordered(extents) && n <= |extents|
    ensures Size(extents[..n]) <= Size(extents)
    ensures n < |extents| ==> Size(extents[..n]) + extents[n].end - extents[n].start <= Size(extents)
  {
    if n < |extents| {
      var rest := extents[..|extents| - 1];
      assert rest[..n] == extents[..n];
      SizePrefix(rest, n);
      if n == |rest| { assert rest[..n] == rest; }
    } else {
      assert extents[..n] == extents;
    }
  }

  /** The bytes of the slices before `core`, then those of slice `core`, when the others are empty. */
  lemma {:induction false} AllCellsOfPrefix(slices: seq<seq<Extent>>, core: nat)
    requires core <= |slices|
    requires forall k :: core <= k < |slices| ==> slices[k] == []
    ensures AllCells(slices) == AllCells(slices[..core])
  {
    if core < |slices| {
      var rest := slices[..|slices| - 1];
      assert rest[..core] == slices[..core];
      AllCellsOfPrefix(rest, core);
    } else {
      assert slices[..core] == slices;
    }
  }

  lemma AllCellsOfOneMore(slices: seq<seq<Extent>>, core: nat)
    requires core < |slices|
    ensures AllCells(slices[..core + 1]) == AllCells(slices[..core]) + Cells(slices[core])
  {
    assert slices[..core + 1][..core] == slices[..core];
  }

  lemma AllCellsPush(slices: seq<seq<Extent>>, core: nat, piece: Extent)
    requires core < |slices|
    requires forall k :: core < k < |slices| ==> slices[k] == []
    ensures AllCells(slices[core := slices[core] + [piece]]) == AllCells(slices) + CellsOf(piece)
  {
    hide AllCells, Cells, CellsOf;
    var pushed := slices[core := slices[core] + [piece]];
    AllCellsOfPrefix(pushed, core + 1);
    AllCellsOfPrefix(slices, core + 1);
    AllCellsOfOneMore(pushed, core);
    AllCellsOfOneMore(slices, core);
    assert pushed[..core] == slices[..core];
    CellsAppend(slices[core], piece);
  }

  lemma ShareCovers(total: int, cores: int)
    requires total >= 0 && cores >= 1
    ensures total <= cores * ((total + cores - 1) / cores)
    ensures (total + cores - 1) / cores >= 0
    ensures total > 0 ==> (total + cores - 1) / cores >= 1
    ensures total == 0 ==> (total + cores - 1) / cores == 0
  {
    var share := (total + cores - 1) / cores;
    assert total + cores - 1 == cores * share + (total + cores - 1) % cores;
  }

  /** The bytes in `cores` full shares. */
  function Shares(cores: nat, share: int): int {
    if cores == 0 then 0 else Shares(cores - 1, share) + share
  }

  lemma {:induction false} SharesProduct(cores: nat, share: int)
    ensures Shares(cores, share) == cores * share
  {
    if cores > 0 {
      SharesProduct(cores - 1, share);
      assert cores * share == (cores - 1) * share + share;
    }
  }

  lemma {:induction false} SharesOrder(few: nat, many: nat, share: int)
    requires few <= many && share >= 0
    ensures Shares(few, share) <= Shares(many, share)
  {
    if few < many { SharesOrder(few, many - 1, share); }
  }

  /** No piece is empty or turned round. */
  predicate Proper(slice: seq<Extent>) {
    forall j :: 0 <= j < |slice| ==> slice[j].start < slice[j].end
  }

  /** Pieces of `done` have been dealt out: `core` has `filled` bytes, the cores before it are full. */
  ghost predicate Dealt(slices: seq<seq<Extent>>, core: nat, filled: int, share: int, total: int, done: seq<Cell>) {
    && 0 <= filled && (total > 0 ==> filled < share)
    && Shares(core, share) + filled == |done|
    && AllCells(slices) == done
    && (forall k :: 0 <= k < core && k < |slices| ==> Size(slices[k]) == share)
    && (core < |slices| ==> Size(slices[core]) == filled && (filled == 0 ==> slices[core] == []))
    && (forall k :: core < k < |slices| ==> slices[k] == [])
    && (forall k :: 0 <= k < |slices| ==> Proper(slices[k]))
  }

  /** Bytes are left, so the current core is in range. */
  lemma CoreInRange(slices: seq<seq<Extent>>, core: nat, filled: int, share: int, total: int, done: seq<Cell>)
    requires Dealt(slices, core, filled, share, total, done)
    requires |done| < total <= Shares(|slices|, share)
    ensures core < |slices| && 0 <= filled < share
  {
    if core >= |slices| { SharesOrder(|slices|, core, share); }
  }

  /** One more piece keeps the deal. */
  lemma DealPiece(slices: seq<seq<Extent>>, core: nat, filled: int, share: int, total: int, done: seq<Cell>,
        cut: Extent)
      returns (next: seq<seq<Extent>>, more: seq<Cell>)
    requires Dealt(slices, core, filled, share, total, done) && core < |slices|
    requires cut.start < cut.end && filled + cut.end - cut.start <= share
    ensures next == slices[core := slices[core] + [cut]] && more == done + CellsOf(cut)
    ensures filled + cut.end - cut.start < share ==>
              Dealt(next, core, filled + cut.end - cut.start, share, total, more)
    ensures filled + cut.end - cut.start == share ==> Dealt(next, core + 1, 0, share, total, more)
  {
    next, more := slices[core := slices[core] + [cut]], done + CellsOf(cut);
    var pushed := slices[core] + [cut];
    assert Size(pushed) == filled + cut.end - cut.start by { CellsAppend(slices[core], cut); }
    assert AllCells(next) == more by { AllCellsPush(slices, core, cut); }
    assert |more| == |done| + cut.end - cut.start;
    assert Proper(pushed);
    assert forall k :: 0 <= k < |slices| && k != core ==> next[k] == slices[k];
  }

  lemma NoBytes()
    ensures Size([]) == 0
  {
  }

  lemma DealIsFair(slices: seq<seq<Extent>>, core: nat, filled: int, share: int, total: int, done: seq<Cell>)
    requires Dealt(slices, core, filled, share, total, done) && share >= 0 && total >= |done|
    requires total == 0 ==> share == 0
    ensures AllCells(slices) == done
    ensures forall k :: 0 <= k < |slices| ==> Proper(slices[k]) && Size(slices[k]) <= share
    ensures forall k :: 0 < k < |slices| && slices[k] != [] ==> Size(slices[k - 1]) == share
  {
    hide AllCells, Cells, Size;
    NoBytes();
    if total == 0 { SharesOrder(0, core, share); }
  }

  lemma NothingDealt(slices: seq<seq<Extent>>, share: int, total: int)
    requires forall k :: 0 <= k < |slices| ==> slices[k] == []
    requires total > 0 ==> share > 0
    ensures Dealt(slices, 0, 0, share, total, [])
  {
    AllCellsOfPrefix(slices, 0);
  }

  lemma NothingYet(extents: seq<Extent>)
    ensures Size(extents[..0]) == 0 && Cells(extents[..0]) == []
  {
  }

  lemma OneMore(extents: seq<Extent>, i: nat)
    requires i < |extents|
    ensures Size(extents[..i + 1]) == Size(extents[..i]) + extents[i].end - extents[i].start
    ensures Cells(extents[..i + 1]) == Cells(extents[..i]) + CellsOf(extents[i])
  {
    assert extents[..i + 1][..i] == extents[..i];
  }

  lemma PieceJoins(done: seq<Cell>, extent: Extent, from: int, until: int)
    requires extent.start <= from <= until
    ensures done + CellsOf(extent.(end := from)) + CellsOf(Extent(extent.source, extent.copy, from, until))
            == done + CellsOf(extent.(end := until))
  {
    CellsCut(extent.(end := until), from);
  }

  /** The inner loop: cuts one extent over the cores, from byte `filled` of `first` on. */
  method DealExtent(slices: array<seq<Extent>>, extent: Extent, first: nat, taken: int, share: int, ghost total: int,
        ghost done: seq<Cell>)
      returns (core: nat, filled: int)
    requires extent.start <= extent.end && (extent.start < extent.end ==> share > 0)
    requires Dealt(slices[..], first, taken, share, total, done)
    requires |done| + extent.end - extent.start <= total <= Shares(slices.Length, share)
    modifies slices
    ensures Dealt(slices[..], core, filled, share, total, done + CellsOf(extent))
  {
    hide AllCells, Cells, Size, Shares, Dealt;
    core, filled := first, taken;
    var piece := extent;
    ghost var dealt := done;
    assert done + CellsOf(extent.(end := extent.start)) == done;
    while piece.start < piece.end
      invariant extent.start <= piece.start <= piece.end && piece == extent.(start := piece.start)
      invariant dealt == done + CellsOf(extent.(end := piece.start))
      invariant Dealt(slices[..], core, filled, share, total, dealt)
      decreases piece.end - piece.start
    {
      var taken := if piece.end - piece.start < share - filled then piece.end - piece.start else share - filled;
      var cut := Extent(piece.source, piece.copy, piece.start, piece.start + taken);
      CoreInRange(slices[..], core, filled, share, total, dealt);
      ghost var next, more := DealPiece(slices[..], core, filled, share, total, dealt, cut);
      PieceJoins(done, extent, piece.start, piece.start + taken);
      slices[core] := slices[core] + [cut];
      assert slices[..] == next;
      dealt := more;
      piece := piece.(start := piece.start + taken);
      filled := filled + taken;
      if filled == share {
        core := core + 1;
        filled := 0;
      }
    }
  }

  /**
   The cores together copy every byte of every extent exactly once and in order,
   no core copies more than its share, and a core is only begun when the ones
   before it have their full share.
   */
  method CopyOnEveryCore(extents: seq<Extent>, hardware: nat) returns (slices: array<seq<Extent>>, share: int)
    requires Ordered(extents)
    ensures fresh(slices)
    ensures slices.Length == if hardware == 0 then 1 else hardware
    ensures share == (Size(extents) + slices.Length - 1) / slices.Length
    ensures AllCells(slices[..]) == Cells(extents)
    ensures forall k :: 0 <= k < slices.Length ==> Proper(slices[k]) && Size(slices[k]) <= share
    ensures forall k :: 0 < k < slices.Length && slices[k] != [] ==> Size(slices[k - 1]) == share
  {
    hide AllCells, Cells, Size, Dealt, Shares;
    var cores := if hardware == 0 then 1 else hardware;
    var total := 0;
    NothingYet(extents);
    for i := 0 to |extents|
      invariant total == Size(extents[..i])
    {
      OneMore(extents, i);
      total := total + extents[i].end - extents[i].start;
    }
    assert extents[..|extents|] == extents;
    SizeNatural(extents);
    ShareCovers(total, cores);
    SharesProduct(cores, (total + cores - 1) / cores);
    share := (total + cores - 1) / cores;
    slices := new seq<Extent>[cores](_ => []);
    var core, filled := 0, 0;
    NothingDealt(slices[..], share, total);
    for i := 0 to |extents|
      invariant 0 <= core
      invariant Dealt(slices[..], core, filled, share, total, Cells(extents[..i]))
    {
      SizePrefix(extents, i);
      SizeNatural(extents[..i]);
      OneMore(extents, i);
      core, filled := DealExtent(slices, extents[i], core, filled, share, total, Cells(extents[..i]));
    }
    DealIsFair(slices[..], core, filled, share, total, Cells(extents));
  }

  /** The bytes copied in the extents so far and up to byte `from` of the next one come first in the slice. */
  lemma {:induction false} ComesFirst(slice: seq<Extent>, i: nat)
    requires i <= |slice|
    ensures Cells(slice[..i]) <= Cells(slice)
    decreases |slice|
  {
    hide CellsOf;
    if i < |slice| {
      var rest := slice[..|slice| - 1];
      assert rest[..i] == slice[..i];
      ComesFirst(rest, i);
    } else {
      assert slice[..i] == slice;
    }
  }

  lemma PartComesFirst(slice: seq<Extent>, i: nat, from: int)
    requires i < |slice| && slice[i].start <= from <= slice[i].end
    ensures Cells(slice[..i]) + CellsOf(slice[i].(end := from)) <= Cells(slice)
  {
    hide CellsOf, Cells;
    CellsCut(slice[i], from);
    OneMore(slice, i);
    ComesFirst(slice, i + 1);
  }

  /**
   The work of one core. `moved(step, offset, wanted)` is what the kernel answers to the request
   number `step`, for `wanted` bytes from `offset` on: it may move fewer, and moving none is a
   failure. Unless it fails, the core copies exactly the bytes of its slice, in order.
   */
  method CopyExtents(slice: seq<Extent>, moved: (nat, int, int) -> int) returns (copied: seq<Cell>, failed: bool)
    requires forall step, offset, wanted :: moved(step, offset, wanted) <= wanted
    ensures !failed ==> copied == Cells(slice)
    ensures failed ==> copied <= Cells(slice)
    ensures failed ==> exists step, offset, wanted :: wanted > 0 && moved(step, offset, wanted) <= 0
  {
    copied, failed := [], false;
    var step := 0;
    NothingYet(slice);
    hide Cells, Size, CellsOf;
    for i := 0 to |slice|
      invariant copied == Cells(slice[..i])
    {
      var from := slice[i].start;
      ghost var before := copied;
      assert before + CellsOf(slice[i].(end := from)) == before by { NoCellsOf(slice[i].(end := from)); }
      while from < slice[i].end
        invariant if slice[i].start > slice[i].end then from == slice[i].start
                  else slice[i].start <= from <= slice[i].end
        invariant copied == before + CellsOf(slice[i].(end := from))
        decreases slice[i].end - from
      {
        var wanted := slice[i].end - from;
        var count := moved(step, from, wanted);
        step := step + 1;
        if count <= 0 {
          PartComesFirst(slice, i, from);
          failed := true;
          return;
        }
        PieceJoins(before, slice[i], from, from + count);
        copied := copied + CellsOf(Extent(slice[i].source, slice[i].copy, from, from + count));
        from := from + count;
      }
      OneMore(slice, i);
      if slice[i].end < slice[i].start { NoCellsOf(slice[i]); NoCellsOf(slice[i].(end := from)); }
    }
    assert slice[..|slice|] == slice;
  }

  // Copying the slices on concurrent threads.

  /** The files being filled: the byte at each offset of each copy. */
  type Files = map<(int, int), Byte>

  /** Copies the listed bytes one after the other. */
  function Copied(order: seq<Cell>, memory: (int, int) -> Byte, files: Files): Files {
    if order == [] then files
    else
      var cell := order[|order| - 1];
      Copied(order[..|order| - 1], memory, files)[(cell.copy, cell.offset) := memory(cell.source, cell.offset)]
  }

  /** No two sources are copied to the same byte. */
  predicate Separate(cells: seq<Cell>) {
    forall i, j :: 0 <= i < |cells| && 0 <= j < |cells| && SamePlace(cells[i], cells[j]) ==>
      cells[i].source == cells[j].source
  }

  predicate SamePlace(cell: Cell, other: Cell) {
    cell.copy == other.copy && cell.offset == other.offset
  }

  lemma {:induction false} CopiedAt(order: seq<Cell>, memory: (int, int) -> Byte, files: Files, at: (int, int))
    requires Separate(order)
    ensures forall i :: 0 <= i < |order| && (order[i].copy, order[i].offset) == at ==>
                          at in Copied(order, memory, files)
                            && Copied(order, memory, files)[at] == memory(order[i].source, order[i].offset)
    ensures (forall i :: 0 <= i < |order| ==> (order[i].copy, order[i].offset) != at) ==>
              (at in Copied(order, memory, files) <==> at in files) &&
              (at in files ==> Copied(order, memory, files)[at] == files[at])
  {
    if order != [] {
      var rest := order[..|order| - 1];
      CopiedAt(rest, memory, files, at);
      assert forall i :: 0 <= i < |rest| ==> rest[i] == order[i];
    }
  }

  /**
   Whatever way the cores interleave, the copies end up with the bytes of their
   sources, and nothing else changes: every order of the same bytes gives the same files.
   */
  lemma AnyInterleaving(extents: seq<Extent>, order: seq<Cell>, memory: (int, int) -> Byte, files: Files)
    requires multiset(order) == multiset(Cells(extents)) && Separate(Cells(extents))
    ensures Copied(order, memory, files) == Copied(Cells(extents), memory, files)
  {
    var cells := Cells(extents);
    forall cell ensures cell in order <==> cell in cells {
      assert cell in multiset(order) <==> cell in multiset(cells);
    }
    assert Separate(order) by {
      forall i, j | 0 <= i < |order| && 0 <= j < |order| && SamePlace(order[i], order[j])
        ensures order[i].source == order[j].source
      {
        assert order[i] in cells && order[j] in cells;
      }
    }
    var left, right := Copied(order, memory, files), Copied(cells, memory, files);
    forall at ensures (at in left <==> at in right) && (at in left ==> left[at] == right[at]) {
      CopiedAt(order, memory, files, at);
      CopiedAt(cells, memory, files, at);
      if i :| 0 <= i < |order| && (order[i].copy, order[i].offset) == at {
        assert order[i] in cells;
      } else {
        forall j | 0 <= j < |cells| ensures (cells[j].copy, cells[j].offset) != at {
          assert cells[j] in order;
        }
      }
    }
  }

  /**
   The copies as they should be: the bytes of the extents as their sources have them, and
   everything else as before.
   */
  ghost predicate CopiesOf(extents: seq<Extent>, memory: (int, int) -> Byte, before: Files, after: Files) {
    && (forall k, offset :: 0 <= k < |extents| && extents[k].start <= offset < extents[k].end ==>
          (extents[k].copy, offset) in after && after[(extents[k].copy, offset)] == memory(extents[k].source, offset))
    && (forall at :: Untouched(extents, at) ==>
         (at in after <==> at in before) && (at in before ==> after[at] == before[at]))
  }

  predicate Untouched(extents: seq<Extent>, at: (int, int)) {
    forall k :: 0 <= k < |extents| ==> !Covers(extents[k], at)
  }

  predicate Covers(extent: Extent, at: (int, int)) {
    extent.copy == at.0 && extent.start <= at.1 < extent.end
  }

  /** The cells of a list of extents are the bytes the extents cover, and name their sources. */
  lemma {:induction false} CellsAreBytes(extents: seq<Extent>, cell: Cell)
    ensures cell in Cells(extents) <==>
            exists k :: 0 <= k < |extents| && extents[k].source == cell.source
              && Covers(extents[k], (cell.copy, cell.offset))
  {
    if extents != [] {
      var rest, last := extents[..|extents| - 1], extents[|extents| - 1];
      CellsAreBytes(rest, cell);
      CellsOfOne(last, cell);
      assert forall k :: 0 <= k < |rest| ==> rest[k] == extents[k];
    }
  }

  lemma CellsOfOne(extent: Extent, cell: Cell)
    ensures cell in CellsOf(extent) <==> extent.source == cell.source && Covers(extent, (cell.copy, cell.offset))
  {
    if extent.source == cell.source && Covers(extent, (cell.copy, cell.offset)) {
      assert CellsOf(extent)[cell.offset - extent.start] == cell;
    }
  }

  /** Whatever order the bytes are copied in, the copies are those of the extents and nothing else has changed. */
  lemma CopiesEveryByte(extents: seq<Extent>, order: seq<Cell>, memory: (int, int) -> Byte, files: Files)
    requires multiset(order) == multiset(Cells(extents)) && Separate(Cells(extents))
    ensures CopiesOf(extents, memory, files, Copied(order, memory, files))
  {
    hide Cells, CellsOf;
    var cells := Cells(extents);
    AnyInterleaving(extents, order, memory, files);
    forall k, offset | 0 <= k < |extents| && extents[k].start <= offset < extents[k].end
      ensures (extents[k].copy, offset) in Copied(cells, memory, files)
      ensures Copied(cells, memory, files)[(extents[k].copy, offset)] == memory(extents[k].source, offset)
    {
      var cell := Cell(extents[k].source, extents[k].copy, offset);
      CellsAreBytes(extents, cell);
      CopiedAt(cells, memory, files, (extents[k].copy, offset));
      var i :| 0 <= i < |cells| && cells[i] == cell;
    }
    forall at | Untouched(extents, at)
      ensures (at in Copied(cells, memory, files) <==> at in files)
      ensures at in files ==> Copied(cells, memory, files)[at] == files[at]
    {
      forall i | 0 <= i < |cells| ensures (cells[i].copy, cells[i].offset) != at { CellsAreBytes(extents, cells[i]); }
      CopiedAt(cells, memory, files, at);
    }
  }

  /** So whatever the cores do at the same time, each of them with its slice, the files are copied. */
  lemma CoresCopyTheFiles(extents: seq<Extent>, slices: seq<seq<Extent>>, order: seq<Cell>, memory: (int, int) -> Byte,
        files: Files)
    requires AllCells(slices) == Cells(extents) && Separate(Cells(extents))
    requires multiset(order) == multiset(AllCells(slices))
    ensures CopiesOf(extents, memory, files, Copied(order, memory, files))
  {
    CopiesEveryByte(extents, order, memory, files);
  }
}
