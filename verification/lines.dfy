/**
 Breaking shaped text into lines.

 The reference below says which lines a text has in terms of ranges of glyphs; the
 loop of the scene engine, which carries widths from glyph to glyph, computes exactly
 these lines and keeps them until the text, the size or the room changes.
 */
module Lines {
  import opened Options

  /** A glyph as the shaper left it; a line may end before a breakable one. */
  datatype Shaped = Shaped(id: nat, advance: real, breakable: bool)

  /** Glyphs `start` up to `end`, and their width. */
  datatype Line = Line(start: nat, end: nat, width: real)

  /** The room for a line. */
  datatype Room = Unlimited | Within(width: real)

  predicate Over(width: real, room: Room) {
    room.Within? && width > room.width
  }

  function Advance(glyph: Shaped, ratio: real): real {
    glyph.advance * ratio
  }

  /** The width of glyphs `from` up to `to`. */
  function Width(glyphs: seq<Shaped>, ratio: real, from: nat, until: nat): real
    requires until <= |glyphs|
    decreases until
  {
    if until <= from then 0.0 else Width(glyphs, ratio, from, until - 1) + Advance(glyphs[until - 1], ratio)
  }

  /** The first glyph from `from` on, other than the first of the line, that does not fit any more. */
  function Overflow(glyphs: seq<Shaped>, ratio: real, room: Room, start: nat, from: nat): (at: nat)
    requires start <= from <= |glyphs|
    ensures from <= at <= |glyphs|
    ensures at < |glyphs| ==> at > start && Over(Width(glyphs, ratio, start, at + 1), room)
    ensures forall i :: from < i <= at && i > start + 1 ==> !Over(Width(glyphs, ratio, start, i), room)
    decreases |glyphs| - from
  {
    if from == |glyphs| then from
    else if from > start && Over(Width(glyphs, ratio, start, from + 1), room) then from
    else Overflow(glyphs, ratio, room, start, from + 1)
  }

  /** The last break point after `start` and up to `at`, or -1. */
  function LastBreak(glyphs: seq<Shaped>, start: nat, at: nat): (point: int)
    requires at < |glyphs|
    ensures point == -1 || (start < point <= at && glyphs[point].breakable)
    ensures forall i :: start < i <= at && glyphs[i].breakable ==> i <= point
    decreases at
  {
    if at <= start then -1 else if glyphs[at].breakable then at else LastBreak(glyphs, start, at - 1)
  }

  /** Where the line that overflows at glyph `at` ends. */
  function Cut(glyphs: seq<Shaped>, start: nat, at: nat): (end: nat)
    requires start < at < |glyphs|
    ensures start < end <= at
  {
    var point := LastBreak(glyphs, start, at);
    if point >= 0 then point else at
  }

  /** The lines of the glyphs from `start` on, of which those before `from` are already known to be carried. */
  function LinesFrom(glyphs: seq<Shaped>, ratio: real, room: Room, start: nat, from: nat): (lines: seq<Line>)
    requires start <= from <= |glyphs| && start < |glyphs|
    ensures lines != []
    decreases |glyphs| - from
  {
    var at := Overflow(glyphs, ratio, room, start, from);
    if at == |glyphs| then [Line(start, at, Width(glyphs, ratio, start, at))]
    else
      var end := Cut(glyphs, start, at);
      [Line(start, end, Width(glyphs, ratio, start, end))] + LinesFrom(glyphs, ratio, room, end, at + 1)
  }

  /** The lines of a text. */
  function Broken(glyphs: seq<Shaped>, ratio: real, wrap: bool, room: Room): seq<Line> {
    if glyphs == [] then [] else LinesFrom(glyphs, ratio, if wrap then room else Unlimited, 0, 0)
  }

  // What the lines promise.

  /** The lines follow one another from `start` to the end of the text, and none is empty. */
  predicate Follows(lines: seq<Line>, start: nat, end: nat) {
    && lines != [] && lines[0].start == start && lines[|lines| - 1].end == end
    && (forall k :: 0 <= k < |lines| ==> lines[k].start < lines[k].end)
    && (forall k :: 0 <= k < |lines| - 1 ==> lines[k].end == lines[k + 1].start)
  }

  /** The widths are the true widths of the ranges. */
  predicate Measured(glyphs: seq<Shaped>, ratio: real, lines: seq<Line>) {
    forall k :: 0 <= k < |lines| ==>
      lines[k].end <= |glyphs| && lines[k].width == Width(glyphs, ratio, lines[k].start, lines[k].end)
  }

  lemma OneLineMore(glyphs: seq<Shaped>, ratio: real, first: Line, rest: seq<Line>)
    requires Measured(glyphs, ratio, [first]) && Measured(glyphs, ratio, rest) && first.start < first.end
    requires Follows(rest, first.end, |glyphs|)
    ensures Measured(glyphs, ratio, [first] + rest) && Follows([first] + rest, first.start, |glyphs|)
  {
    hide Width;
    var lines := [first] + rest;
    assert [first][0] == first;
    assert forall k :: 1 <= k < |lines| ==> lines[k] == rest[k - 1];
  }

  lemma {:induction false} LinesCover(glyphs: seq<Shaped>, ratio: real, room: Room, start: nat, from: nat)
    requires start <= from <= |glyphs| && start < |glyphs|
    ensures var lines := LinesFrom(glyphs, ratio, room, start, from);
            Follows(lines, start, |glyphs|) && |lines| <= |glyphs| - start && Measured(glyphs, ratio, lines)
    decreases |glyphs| - from
  {
    hide Width, Overflow, Cut, LastBreak;
    var at := Overflow(glyphs, ratio, room, start, from);
    if at < |glyphs| {
      var end := Cut(glyphs, start, at);
      LinesCover(glyphs, ratio, room, end, at + 1);
      var first, rest := Line(start, end, Width(glyphs, ratio, start, end)),
        LinesFrom(glyphs, ratio, room, end, at + 1);
      assert LinesFrom(glyphs, ratio, room, start, from) == [first] + rest;
      hide LinesFrom;
      OneLineMore(glyphs, ratio, first, rest);
    }
  }

  /** The lines are non-empty, follow one another, cover every glyph and have their true widths. */
  lemma BrokenCovers(glyphs: seq<Shaped>, ratio: real, wrap: bool, room: Room)
    requires glyphs != []
    ensures var lines := Broken(glyphs, ratio, wrap, room);
            Follows(lines, 0, |glyphs|) && |lines| <= |glyphs| && Measured(glyphs, ratio, lines)
  {
    LinesCover(glyphs, ratio, if wrap then room else Unlimited, 0, 0);
  }

  /** Why a line ends at `end`: glyph `at` overflows it, and `end` is its last break point, or `at` if it has none. */
  ghost predicate EndsBecauseOf(glyphs: seq<Shaped>, ratio: real, room: Room, line: Line, at: nat) {
    && line.start < line.end <= at < |glyphs|
    && Over(Width(glyphs, ratio, line.start, at + 1), room)
    && (line.end == at || glyphs[line.end].breakable)
    && forall i :: line.start < i <= at && glyphs[i].breakable ==> i <= line.end && glyphs[line.end].breakable
  }

  /** Every line but the last ends for a reason; without wrapping there is only one line. */
  lemma {:induction false} LinesEndForAReason(glyphs: seq<Shaped>, ratio: real, room: Room, start: nat, from: nat,
        k: nat)
      returns (at: nat)
    requires start <= from <= |glyphs| && start < |glyphs|
    requires k < |LinesFrom(glyphs, ratio, room, start, from)| - 1
    ensures EndsBecauseOf(glyphs, ratio, room, LinesFrom(glyphs, ratio, room, start, from)[k], at)
    decreases |glyphs| - from
  {
    at := Overflow(glyphs, ratio, room, start, from);
    if k > 0 {
      at := LinesEndForAReason(glyphs, ratio, room, Cut(glyphs, start, at), at + 1, k - 1);
    }
  }

  /** A line ends inside a word only if there is no break point after its start, up to the glyph that overflowed it. */
  lemma MidWordOnlyWithoutBreaks(glyphs: seq<Shaped>, ratio: real, wrap: bool, room: Room, k: nat)
    requires k < |Broken(glyphs, ratio, wrap, room)| - 1
    ensures var line := Broken(glyphs, ratio, wrap, room)[k];
            && wrap && line.end < |glyphs|
            && (!glyphs[line.end].breakable ==>
                  && (forall i :: line.start < i <= line.end ==> !glyphs[i].breakable)
                  && Over(Width(glyphs, ratio, line.start, line.end + 1), room))
  {
    var at := LinesEndForAReason(glyphs, ratio, if wrap then room else Unlimited, 0, 0, k);
  }

  // Widths of ranges.

  /** The ratio scales every width alike. */
  lemma {:induction false} WidthScales(glyphs: seq<Shaped>, ratio: real, from: nat, until: nat)
    requires until <= |glyphs|
    ensures Width(glyphs, ratio, from, until) == ratio * Width(glyphs, 1.0, from, until)
    decreases until
  {
    if from < until {
      WidthScales(glyphs, ratio, from, until - 1);
      var before, advance := Width(glyphs, 1.0, from, until - 1), glyphs[until - 1].advance;
      assert ratio * (before + advance) == ratio * before + advance * ratio;
    }
  }

  /** What is as wide as the room fits; nothing is too wide for unlimited room. */
  lemma JustFits(width: real, room: Room)
    ensures Over(width, room) <==> room.Within? && room.width < width
    ensures !Over(width, Within(width)) && !Over(width, Unlimited)
  {
  }

  /** At ratio one a width is the sum of the advances, so that of one glyph is its advance. */
  lemma WidthOfOne(glyphs: seq<Shaped>, i: nat)
    requires i < |glyphs|
    ensures Width(glyphs, 1.0, i, i + 1) == glyphs[i].advance
  {
  }

  lemma {:induction false} NarrowerScales(glyphs: seq<Shaped>, ratio: real, scale: real, room: real, start: nat,
        from: nat)
    requires start <= from <= |glyphs| && scale > 0.0
    ensures Overflow(glyphs, ratio * scale, Within(room * scale), start, from) ==
            Overflow(glyphs, ratio, Within(room), start, from)
    decreases |glyphs| - from
  {
    hide Width;
    if from < |glyphs| {
      NarrowerScales(glyphs, ratio, scale, room, start, from + 1);
      WidthScales(glyphs, ratio * scale, start, from + 1);
      WidthScales(glyphs, ratio, start, from + 1);
      OverScales(ratio, scale, room, Width(glyphs, 1.0, start, from + 1));
    }
  }

  lemma OverScales(ratio: real, scale: real, room: real, width: real)
    requires scale > 0.0
    ensures ratio * scale * width > room * scale <==> ratio * width > room
  {
    var beyond := ratio * width - room;
    assert ratio * scale * width - room * scale == scale * beyond;
    if beyond > 0.0 { Positive(scale, beyond); } else { AdvanceForward(-beyond, scale); }
  }

  lemma Positive(a: real, b: real)
    requires a > 0.0 && b > 0.0
    ensures a * b > 0.0
  {
  }

  /** The same breaks in the same places: a text in another size breaks alike in room of that size. */
  predicate SameBreaks(lines: seq<Line>, others: seq<Line>, scale: real) {
    && |lines| == |others|
    && forall k :: 0 <= k < |lines| ==>
         others[k].start == lines[k].start && others[k].end == lines[k].end && others[k].width == lines[k].width * scale
  }

  lemma WidthInScale(glyphs: seq<Shaped>, ratio: real, scale: real, from: nat, until: nat)
    requires until <= |glyphs|
    ensures Width(glyphs, ratio * scale, from, until) == Width(glyphs, ratio, from, until) * scale
  {
    hide Width;
    WidthScales(glyphs, ratio * scale, from, until);
    WidthScales(glyphs, ratio, from, until);
    Rescaled(ratio, scale, Width(glyphs, 1.0, from, until));
  }

  lemma Rescaled(ratio: real, scale: real, width: real)
    ensures ratio * scale * width == ratio * width * scale
  {
  }

  lemma {:induction false} LinesScale(glyphs: seq<Shaped>, ratio: real, scale: real, room: real, start: nat, from: nat)
    requires start <= from <= |glyphs| && start < |glyphs| && scale > 0.0
    ensures SameBreaks(LinesFrom(glyphs, ratio, Within(room), start, from),
                       LinesFrom(glyphs, ratio * scale, Within(room * scale), start, from), scale)
    decreases |glyphs| - from
  {
    hide Width, Overflow, Cut;
    var at := Overflow(glyphs, ratio, Within(room), start, from);
    NarrowerScales(glyphs, ratio, scale, room, start, from);
    var end := if at == |glyphs| then at else Cut(glyphs, start, at);
    WidthInScale(glyphs, ratio, scale, start, end);
    if at < |glyphs| { LinesScale(glyphs, ratio, scale, room, end, at + 1); }
  }

  /** A text drawn in another size breaks in the same places when the room is scaled with it. */
  lemma BrokenScales(glyphs: seq<Shaped>, ratio: real, scale: real, room: real)
    requires scale > 0.0
    ensures SameBreaks(Broken(glyphs, ratio, true, Within(room)),
                       Broken(glyphs, ratio * scale, true, Within(room * scale)), scale)
  {
    if glyphs != [] { LinesScale(glyphs, ratio, scale, room, 0, 0); }
  }

  predicate Forward(glyphs: seq<Shaped>, ratio: real) {
    ratio >= 0.0 && forall i :: 0 <= i < |glyphs| ==> glyphs[i].advance >= 0.0
  }

  lemma AdvanceForward(advance: real, ratio: real)
    requires advance >= 0.0 && ratio >= 0.0
    ensures advance * ratio >= 0.0
  {
  }

  lemma {:induction false} WidthSplits(glyphs: seq<Shaped>, ratio: real, from: nat, middle: nat, until: nat)
    requires from <= middle <= until <= |glyphs|
    ensures Width(glyphs, ratio, from, until) ==
            Width(glyphs, ratio, from, middle) + Width(glyphs, ratio, middle, until)
    decreases until
  {
    if middle < until { WidthSplits(glyphs, ratio, from, middle, until - 1); }
  }

  lemma {:induction false} WidthForward(glyphs: seq<Shaped>, ratio: real, from: nat, until: nat)
    requires Forward(glyphs, ratio) && until <= |glyphs|
    ensures Width(glyphs, ratio, from, until) >= 0.0
    decreases until
  {
    if from < until {
      WidthForward(glyphs, ratio, from, until - 1);
      AdvanceForward(glyphs[until - 1].advance, ratio);
    }
  }

  /** A range inside another is no wider. */
  lemma WidthGrows(glyphs: seq<Shaped>, ratio: real, from: nat, start: nat, end: nat, until: nat)
    requires Forward(glyphs, ratio) && from <= start <= end <= until <= |glyphs|
    ensures Width(glyphs, ratio, start, end) <= Width(glyphs, ratio, from, until)
  {
    WidthSplits(glyphs, ratio, from, start, until);
    WidthSplits(glyphs, ratio, start, end, until);
    WidthForward(glyphs, ratio, from, start);
    WidthForward(glyphs, ratio, end, until);
  }

  /** No break point lies between the start of a line and the glyphs still to come. */
  predicate Unbroken(glyphs: seq<Shaped>, start: nat, from: nat)
    requires from <= |glyphs|
  {
    forall i :: start < i < from ==> !glyphs[i].breakable
  }

  /** What is carried into a line: it has no break point, and all of it but its last glyph fits. */
  ghost predicate Carried(glyphs: seq<Shaped>, ratio: real, room: Room, start: nat, from: nat) {
    && start <= from <= |glyphs| && start < |glyphs|
    && Unbroken(glyphs, start, from)
    && (from > start ==> !Over(Width(glyphs, ratio, start, from - 1), room))
  }

  /** Up to the glyph that overflows the line, all but the last glyph fits, and so does what is carried on. */
  lemma OverflowFits(glyphs: seq<Shaped>, ratio: real, room: Room, start: nat, from: nat)
    requires Forward(glyphs, ratio) && !Over(0.0, room) && Carried(glyphs, ratio, room, start, from)
    ensures var at := Overflow(glyphs, ratio, room, start, from);
            && !Over(Width(glyphs, ratio, start, at - 1), room)
            && (at < |glyphs| ==> Carried(glyphs, ratio, room, Cut(glyphs, start, at), at + 1))
  {
    var at := Overflow(glyphs, ratio, room, start, from);
    if from < at && at - 1 > start {
      assert !Over(Width(glyphs, ratio, start, at), room);
      WidthGrows(glyphs, ratio, start, start, at - 1, at);
      if at < |glyphs| { WidthGrows(glyphs, ratio, start, Cut(glyphs, start, at), at, at); }
    } else if at < |glyphs| {
      assert Cut(glyphs, start, at) == at;
    }
  }

  /** All but the last glyph of every line fits the room. */
  lemma {:induction false} LinesFitButOne(glyphs: seq<Shaped>, ratio: real, room: Room, start: nat, from: nat, k: nat)
    requires Forward(glyphs, ratio) && !Over(0.0, room) && Carried(glyphs, ratio, room, start, from)
    requires k < |LinesFrom(glyphs, ratio, room, start, from)|
    ensures var line := LinesFrom(glyphs, ratio, room, start, from)[k];
            line.start < line.end <= |glyphs| && !Over(Width(glyphs, ratio, line.start, line.end - 1), room)
    decreases |glyphs| - from
  {
    hide Width, Overflow, Cut, LastBreak;
    var at := Overflow(glyphs, ratio, room, start, from);
    OverflowFits(glyphs, ratio, room, start, from);
    if at < |glyphs| {
      var end := Cut(glyphs, start, at);
      if k == 0 {
        WidthGrows(glyphs, ratio, start, start, end - 1, at - 1);
      } else {
        LinesFitButOne(glyphs, ratio, room, end, at + 1, k - 1);
      }
    }
  }

  lemma BrokenFitsButOne(glyphs: seq<Shaped>, ratio: real, room: Room, k: nat)
    requires Forward(glyphs, ratio) && !Over(0.0, room)
    requires k < |Broken(glyphs, ratio, true, room)|
    ensures var line := Broken(glyphs, ratio, true, room)[k];
            line.start < line.end <= |glyphs| && !Over(Width(glyphs, ratio, line.start, line.end - 1), room)
  {
    LinesFitButOne(glyphs, ratio, room, 0, 0, k);
  }

  // Whole lines may exceed the room; exactly when is decided by what is carried past each break.

  /** Each line opens with what was carried into it (its first glyph at least); all of that fits. */
  predicate OpeningsFit(glyphs: seq<Shaped>, ratio: real, room: Room, start: nat, from: nat)
    requires start <= from <= |glyphs| && start < |glyphs|
    decreases |glyphs| - from
  {
    var at := Overflow(glyphs, ratio, room, start, from);
    && !Over(Width(glyphs, ratio, start, if from > start then from else start + 1), room)
    && (at < |glyphs| ==> OpeningsFit(glyphs, ratio, room, Cut(glyphs, start, at), at + 1))
  }

  /** The first line exceeds the room exactly when its opening does. */
  lemma FirstLineFits(glyphs: seq<Shaped>, ratio: real, room: Room, start: nat, from: nat)
    requires Forward(glyphs, ratio) && !Over(0.0, room) && Carried(glyphs, ratio, room, start, from)
    ensures Over(LinesFrom(glyphs, ratio, room, start, from)[0].width, room) <==>
            Over(Width(glyphs, ratio, start, if from > start then from else start + 1), room)
  {
    var at := Overflow(glyphs, ratio, room, start, from);
    var opening := if from > start then from else start + 1;
    var end := if at < |glyphs| then Cut(glyphs, start, at) else at;
    if Over(Width(glyphs, ratio, start, opening), room) {
      assert at == opening || at == from by {
        if at > opening { WidthGrows(glyphs, ratio, start, start, opening, opening + 1); }
      }
      assert end >= opening;
      WidthGrows(glyphs, ratio, start, start, opening, end);
    } else if at > opening {
      assert !Over(Width(glyphs, ratio, start, at), room);
      WidthGrows(glyphs, ratio, start, start, end, at);
    } else {
      WidthGrows(glyphs, ratio, start, start, end, opening);
    }
  }

  predicate NoneOver(lines: seq<Line>, room: Room) {
    forall k :: 0 <= k < |lines| ==> !Over(lines[k].width, room)
  }

  lemma NoneOverFirst(first: Line, rest: seq<Line>, room: Room)
    ensures NoneOver([first] + rest, room) <==> !Over(first.width, room) && NoneOver(rest, room)
  {
    var lines := [first] + rest;
    if NoneOver(lines, room) {
      assert lines[0] == first;
      assert forall k :: 0 <= k < |rest| ==> lines[k + 1] == rest[k];
    }
  }

  /** Every line fits the room if and only if every opening does. */
  lemma {:induction false} AllLinesFit(glyphs: seq<Shaped>, ratio: real, room: Room, start: nat, from: nat)
    requires Forward(glyphs, ratio) && !Over(0.0, room) && Carried(glyphs, ratio, room, start, from)
    ensures NoneOver(LinesFrom(glyphs, ratio, room, start, from), room) <==>
            OpeningsFit(glyphs, ratio, room, start, from)
    decreases |glyphs| - from
  {
    hide Width, Overflow, Cut, LastBreak, Over;
    var at := Overflow(glyphs, ratio, room, start, from);
    var lines := LinesFrom(glyphs, ratio, room, start, from);
    FirstLineFits(glyphs, ratio, room, start, from);
    OverflowFits(glyphs, ratio, room, start, from);
    if at < |glyphs| {
      var end := Cut(glyphs, start, at);
      var rest := LinesFrom(glyphs, ratio, room, end, at + 1);
      AllLinesFit(glyphs, ratio, room, end, at + 1);
      assert lines == [lines[0]] + rest;
      NoneOverFirst(lines[0], rest, room);
    }
  }

  /** Every line of a wrapped text fits if and only if nothing carried past a break overflows. */
  lemma EveryLineFits(glyphs: seq<Shaped>, ratio: real, room: Room)
    requires Forward(glyphs, ratio) && !Over(0.0, room) && glyphs != []
    ensures NoneOver(Broken(glyphs, ratio, true, room), room) <==> OpeningsFit(glyphs, ratio, room, 0, 0)
  {
    AllLinesFit(glyphs, ratio, room, 0, 0);
  }

  // A condition on the text alone: no stretch between break points is too wide for a line.

  function StretchStart(glyphs: seq<Shaped>, i: nat): (start: nat)
    requires i < |glyphs|
    ensures start <= i
  {
    if i == 0 || glyphs[i].breakable then i else StretchStart(glyphs, i - 1)
  }

  function StretchEnd(glyphs: seq<Shaped>, i: nat): (end: nat)
    requires i <= |glyphs|
    ensures i <= end <= |glyphs|
    ensures end == |glyphs| || glyphs[end].breakable
    decreases |glyphs| - i
  {
    if i == |glyphs| || glyphs[i].breakable then i else StretchEnd(glyphs, i + 1)
  }

  /** The stretch of every glyph, from the break point before it to the one after it, fits the room. */
  predicate StretchesFit(glyphs: seq<Shaped>, ratio: real, room: Room) {
    forall i :: 0 <= i < |glyphs| ==>
      !Over(Width(glyphs, ratio, StretchStart(glyphs, i), StretchEnd(glyphs, i + 1)), room)
  }

  lemma UnbrokenFits(glyphs: seq<Shaped>, ratio: real, room: Room, from: nat, until: nat)
    requires Forward(glyphs, ratio) && StretchesFit(glyphs, ratio, room)
    requires from < until <= |glyphs| && Unbroken(glyphs, from, until)
    ensures !Over(Width(glyphs, ratio, from, until), room)
  {
    hide Width, StretchEnd, StretchStart;
    assert until <= StretchEnd(glyphs, from + 1);
    WidthGrows(glyphs, ratio, StretchStart(glyphs, from), from, until, StretchEnd(glyphs, from + 1));
  }

  lemma {:induction false} StretchesOpen(glyphs: seq<Shaped>, ratio: real, room: Room, start: nat, from: nat)
    requires Forward(glyphs, ratio) && !Over(0.0, room) && Carried(glyphs, ratio, room, start, from)
    requires StretchesFit(glyphs, ratio, room)
    ensures OpeningsFit(glyphs, ratio, room, start, from)
    decreases |glyphs| - from
  {
    hide Width, Overflow, Cut, LastBreak, Over, StretchesFit;
    var at := Overflow(glyphs, ratio, room, start, from);
    UnbrokenFits(glyphs, ratio, room, start, if from > start then from else start + 1);
    OverflowFits(glyphs, ratio, room, start, from);
    if at < |glyphs| { StretchesOpen(glyphs, ratio, room, Cut(glyphs, start, at), at + 1); }
  }

  /** If every stretch between break points fits the room, so does every line, and no word is cut. */
  lemma FittingStretchesFit(glyphs: seq<Shaped>, ratio: real, room: Room)
    requires Forward(glyphs, ratio) && !Over(0.0, room) && glyphs != [] && StretchesFit(glyphs, ratio, room)
    ensures var lines := Broken(glyphs, ratio, true, room);
            && NoneOver(lines, room)
            && forall k :: 0 <= k < |lines| - 1 ==> lines[k].end < |glyphs| && glyphs[lines[k].end].breakable
  {
    hide StretchesFit, Width, OpeningsFit, NoneOver, Over;
    StretchesOpen(glyphs, ratio, room, 0, 0);
    EveryLineFits(glyphs, ratio, room);
    var lines := Broken(glyphs, ratio, true, room);
    forall k | 0 <= k < |lines| - 1 ensures lines[k].end < |glyphs| && glyphs[lines[k].end].breakable {
      EndsAtABreak(glyphs, ratio, room, k);
    }
  }

  lemma EndsAtABreak(glyphs: seq<Shaped>, ratio: real, room: Room, k: nat)
    requires Forward(glyphs, ratio) && StretchesFit(glyphs, ratio, room)
    requires k < |Broken(glyphs, ratio, true, room)| - 1 && glyphs != []
    ensures var end := Broken(glyphs, ratio, true, room)[k].end; end < |glyphs| && glyphs[end].breakable
  {
    hide StretchesFit, Width, Over, Broken;
    BrokenCovers(glyphs, ratio, true, room);
    MidWordOnlyWithoutBreaks(glyphs, ratio, true, room, k);
    var line := Broken(glyphs, ratio, true, room)[k];
    if !glyphs[line.end].breakable { UnbrokenFits(glyphs, ratio, room, line.start, line.end + 1); }
  }

  /** A text whose second line is wider than the room although it could have been broken again. */
  lemma CarriedTailOverflows()
    ensures var glyphs := [Shaped(1, 1.0, false), Shaped(2, 1.0, true), Shaped(3, 2.0, false)];
            Broken(glyphs, 1.0, true, Within(2.5)) == [Line(0, 1, 1.0), Line(1, 3, 3.0)]
  {
    var glyphs, room := [Shaped(1, 1.0, false), Shaped(2, 1.0, true), Shaped(3, 2.0, false)], Within(2.5);
    assert Width(glyphs, 1.0, 0, 1) == 1.0 by { assert Width(glyphs, 1.0, 0, 0) == 0.0; }
    assert Width(glyphs, 1.0, 0, 2) == 2.0;
    assert Width(glyphs, 1.0, 0, 3) == 4.0;
    assert Width(glyphs, 1.0, 1, 2) == 1.0 by { assert Width(glyphs, 1.0, 1, 1) == 0.0; }
    assert Width(glyphs, 1.0, 1, 3) == 3.0;
    assert Overflow(glyphs, 1.0, room, 0, 2) == 2;
    assert Overflow(glyphs, 1.0, room, 0, 1) == 2;
    assert Overflow(glyphs, 1.0, room, 0, 0) == 2;
    assert LastBreak(glyphs, 0, 1) == 1;
    assert Cut(glyphs, 0, 2) == 1;
    assert LinesFrom(glyphs, 1.0, room, 1, 3) == [Line(1, 3, 3.0)];
    assert LinesFrom(glyphs, 1.0, room, 0, 0) == [Line(0, 1, 1.0)] + [Line(1, 3, 3.0)];
  }

  // The node that holds a text, its glyphs and its lines.

  /** The shaper: the glyphs of a text in a face. */
  type Shaper = (int, string) -> seq<Shaped>

  /** The widths and the break point the loop carries along. */
  ghost predicate Pending(glyphs: seq<Shaped>, ratio: real, start: nat, i: nat, lastBreak: int, width: real,
        widthAtBreak: real) {
    && start <= i <= |glyphs| && (glyphs != [] ==> start < |glyphs|)
    && width == Width(glyphs, ratio, start, i)
    && (if lastBreak > start
        then i > 0 && lastBreak < i && lastBreak == LastBreak(glyphs, start, i - 1)
               && widthAtBreak == Width(glyphs, ratio, start, lastBreak)
        else i > 0 ==> LastBreak(glyphs, start, i - 1) == -1)
  }

  lemma NothingPending(glyphs: seq<Shaped>, ratio: real, room: Room)
    ensures Pending(glyphs, ratio, 0, 0, -1, 0.0, 0.0)
    ensures Leads([], glyphs, ratio, room, 0, 0)
  {
  }

  /** The lines found so far, and then those of the rest of the text, are the lines of the text. */
  ghost predicate Leads(lines: seq<Line>, glyphs: seq<Shaped>, ratio: real, room: Room, start: nat, i: nat) {
    && start <= i <= |glyphs|
    && if glyphs == [] then lines == []
       else start < |glyphs| && lines + LinesFrom(glyphs, ratio, room, start, i) == LinesFrom(glyphs, ratio, room, 0, 0)
  }

  /** A glyph that fits only extends the line. */
  lemma Extends(lines: seq<Line>, glyphs: seq<Shaped>, ratio: real, room: Room, start: nat, i: nat)
    requires Leads(lines, glyphs, ratio, room, start, i) && i < |glyphs|
    requires i == start || !Over(Width(glyphs, ratio, start, i + 1), room)
    ensures Leads(lines, glyphs, ratio, room, start, i + 1)
  {
    hide Width, Cut;
    assert LinesFrom(glyphs, ratio, room, start, i) == LinesFrom(glyphs, ratio, room, start, i + 1);
  }

  /** A glyph that overflows ends the line. */
  lemma Ends(lines: seq<Line>, glyphs: seq<Shaped>, ratio: real, room: Room, start: nat, i: nat)
    requires Leads(lines, glyphs, ratio, room, start, i) && start < i < |glyphs|
    requires Over(Width(glyphs, ratio, start, i + 1), room)
    ensures var end := Cut(glyphs, start, i);
            Leads(lines + [Line(start, end, Width(glyphs, ratio, start, end))], glyphs, ratio, room, end, i + 1)
  {
    hide Width, Cut;
    var end := Cut(glyphs, start, i);
    var line, rest := Line(start, end, Width(glyphs, ratio, start, end)), LinesFrom(glyphs, ratio, room, end, i + 1);
    assert LinesFrom(glyphs, ratio, room, start, i) == [line] + rest;
    assert lines + ([line] + rest) == lines + [line] + rest;
  }

  lemma Completes(lines: seq<Line>, glyphs: seq<Shaped>, ratio: real, wrap: bool, room: Room, start: nat)
    requires Leads(lines, glyphs, ratio, if wrap then room else Unlimited, start, |glyphs|)
    ensures Broken(glyphs, ratio, wrap, room) ==
            if glyphs == [] then lines else lines + [Line(start, |glyphs|, Width(glyphs, ratio, start, |glyphs|))]
  {
  }

  /** What the loop carries once glyph i has been looked at for a break point. */
  ghost predicate Looked(glyphs: seq<Shaped>, ratio: real, start: nat, i: nat, point: int, width: real, widthAt: real) {
    && start <= i < |glyphs| && width == Width(glyphs, ratio, start, i)
    && (if point > start then point == LastBreak(glyphs, start, i) && widthAt == Width(glyphs, ratio, start, point)
        else LastBreak(glyphs, start, i) == -1)
  }

  lemma Looks(glyphs: seq<Shaped>, ratio: real, start: nat, i: nat, lastBreak: int, width: real, widthAtBreak: real)
    requires Pending(glyphs, ratio, start, i, lastBreak, width, widthAtBreak) && i < |glyphs|
    ensures Looked(glyphs, ratio, start, i, if glyphs[i].breakable then i else lastBreak, width,
                   if glyphs[i].breakable then width else widthAtBreak)
    ensures Width(glyphs, ratio, start, i + 1) == width + Advance(glyphs[i], ratio)
  {
  }

  lemma Continues(glyphs: seq<Shaped>, ratio: real, start: nat, i: nat, point: int, width: real, widthAt: real)
    requires Looked(glyphs, ratio, start, i, point, width, widthAt)
    ensures Pending(glyphs, ratio, start, i + 1, point, width + Advance(glyphs[i], ratio), widthAt)
  {
  }

  lemma StartsOver(glyphs: seq<Shaped>, ratio: real, start: nat, i: nat, point: int, width: real, widthAt: real)
    requires Looked(glyphs, ratio, start, i, point, width, widthAt) && start < i
    ensures var end := if point > start then point else i;
            && end == Cut(glyphs, start, i)
            && Width(glyphs, ratio, start, end) == (if point > start then widthAt else width)
            && Pending(glyphs, ratio, end, i + 1, -1,
                       (if point > start then width - widthAt else 0.0) + Advance(glyphs[i], ratio), widthAt)
  {
    var end := Cut(glyphs, start, i);
    WidthSplits(glyphs, ratio, start, end, i);
    assert Width(glyphs, ratio, end, i + 1) == Width(glyphs, ratio, end, i) + Advance(glyphs[i], ratio);
    NoBreakAfterLast(glyphs, start, i);
  }

  lemma NoBreakAfterLast(glyphs: seq<Shaped>, start: nat, at: nat)
    requires start < at < |glyphs|
    ensures LastBreak(glyphs, Cut(glyphs, start, at), at) == -1
  {
  }

  /** The loop: the lines of the glyphs, with the widths carried from glyph to glyph. */
  method Break(glyphs: seq<Shaped>, ratio: real, wrap: bool, room: Room) returns (lines: seq<Line>)
    ensures lines == Broken(glyphs, ratio, wrap, room)
  {
    lines := [];
    var start: nat, lastBreak := 0, -1;
    var width, widthAtBreak := 0.0, 0.0;
    ghost var limit := if wrap then room else Unlimited;
    hide LinesFrom, Leads, Pending, Looked, Width, Cut, Advance;
    NothingPending(glyphs, ratio, limit);
    for i := 0 to |glyphs|
      invariant Pending(glyphs, ratio, start, i, lastBreak, width, widthAtBreak)
      invariant Leads(lines, glyphs, ratio, limit, start, i)
    {
      Looks(glyphs, ratio, start, i, lastBreak, width, widthAtBreak);
      var advance := Advance(glyphs[i], ratio);
      if glyphs[i].breakable {
        lastBreak := i;
        widthAtBreak := width;
      }
      if wrap && Over(width + advance, room) && i > start {
        Ends(lines, glyphs, ratio, limit, start, i);
        StartsOver(glyphs, ratio, start, i, lastBreak, width, widthAtBreak);
        var end: nat := if lastBreak > start then lastBreak else i;
        lines := lines + [Line(start, end, if lastBreak > start then widthAtBreak else width)];
        width := if lastBreak > start then width - widthAtBreak else 0.0;
        start := end;
        lastBreak := -1;
      } else {
        Extends(lines, glyphs, ratio, limit, start, i);
        Continues(glyphs, ratio, start, i, lastBreak, width, widthAtBreak);
      }
      width := width + advance;
    }
    Carries(glyphs, ratio, start, lastBreak, width, widthAtBreak);
    Completes(lines, glyphs, ratio, wrap, room, start);
    if |glyphs| > 0 {
      lines := lines + [Line(start, |glyphs|, width)];
    }
  }

  lemma Carries(glyphs: seq<Shaped>, ratio: real, start: nat, lastBreak: int, width: real, widthAtBreak: real)
    requires Pending(glyphs, ratio, start, |glyphs|, lastBreak, width, widthAtBreak)
    ensures width == Width(glyphs, ratio, start, |glyphs|)
  {
  }

  class TextNode {
    const shaper: Shaper
    var shapedFace: Option<int>
    var shapedText: Option<string>
    var glyphs: seq<Shaped>
    var lines: seq<Line>
    var broken: bool
    var brokenRoom: Room
    var brokenRatio: real
    var brokenWrap: bool

    /** The glyphs belong to the shaped text, and the lines, once broken, to the glyphs. */
    ghost predicate Valid()
      reads this
    {
      && glyphs == (if shapedText.None? then [] else Glyphs(shapedFace, shapedText.value))
      && (broken ==> lines == Broken(glyphs, brokenRatio, brokenWrap, brokenRoom))
    }

    function Glyphs(face: Option<int>, text: string): seq<Shaped> {
      if face.None? || text == "" then [] else shaper(face.value, text)
    }

    constructor (shaper: Shaper)
      ensures Valid()
    {
      this.shaper := shaper;
      shapedFace, shapedText := None, None;
      glyphs, lines := [], [];
      broken, brokenRoom, brokenRatio, brokenWrap := false, Unlimited, 0.0, false;
    }

    /** Shapes the text unless it is already shaped in this face; new glyphs forget the lines. */
    method Shape(face: Option<int>, text: string)
      requires Valid()
      modifies this
      ensures Valid() && glyphs == Glyphs(face, text)
      ensures shapedFace == face && shapedText == Some(text)
    {
      if face == shapedFace && shapedText == Some(text) {
        return;
      }
      shapedText := Some(text);
      shapedFace := face;
      glyphs, lines, broken := [], [], false;
      if face.None? || text == "" {
        return;
      }
      glyphs := shaper(face.value, text);
    }

    /** Breaks the glyphs into lines, or keeps the lines when nothing they depend on has changed. */
    method BreakLines(room: Room, ratio: real, wrap: bool)
      requires Valid()
      modifies this`lines, this`broken, this`brokenRoom, this`brokenRatio, this`brokenWrap
      ensures Valid()
      ensures lines == Broken(glyphs, ratio, wrap, room)
    {
      if broken && brokenRoom == room && brokenRatio == ratio && brokenWrap == wrap {
        return;
      }
      broken, brokenRoom, brokenRatio, brokenWrap := true, room, ratio, wrap;
      lines := Break(glyphs, ratio, wrap, room);
    }
  }
}
