/**
 Lines out of a byte stream that arrives in pieces: a fixed buffer keeps the unfinished line,
 and gives it up when it fills the buffer.
 */
module Framing {

  type Byte = b: int | 0 <= b < 256

  const NEWLINE: Byte := 10

  /** The lines handed over so far, and the line under way. */
  datatype Lines = Lines(done: seq<seq<Byte>>, tail: seq<Byte>)

  /** One byte at a time: a newline ends the line, a line as long as the buffer is dropped. */
  function Fed(lines: Lines, byte: Byte, size: nat): Lines {
    if byte == NEWLINE then Lines(lines.done + [lines.tail], [])
    else if |lines.tail| + 1 == size then Lines(lines.done, [])
    else Lines(lines.done, lines.tail + [byte])
  }

  function FedAll(lines: Lines, bytes: seq<Byte>, size: nat): Lines {
    if bytes == [] then lines else Fed(FedAll(lines, bytes[..|bytes| - 1], size), bytes[|bytes| - 1], size)
  }

  function Joined(pieces: seq<seq<Byte>>): seq<Byte> {
    if pieces == [] then [] else Joined(pieces[..|pieces| - 1]) + pieces[|pieces| - 1]
  }

  /** The pieces read one after the other. */
  function Read(lines: Lines, pieces: seq<seq<Byte>>, size: nat): Lines {
    if pieces == [] then lines else FedAll(Read(lines, pieces[..|pieces| - 1], size), pieces[|pieces| - 1], size)
  }

  lemma {:induction false} FedInTwo(lines: Lines, first: seq<Byte>, second: seq<Byte>, size: nat)
    ensures FedAll(FedAll(lines, first, size), second, size) == FedAll(lines, first + second, size)
  {
    if second == [] {
      assert first + second == first;
    } else {
      FedInTwo(lines, first, second[..|second| - 1], size);
      assert (first + second)[..|first + second| - 1] == first + second[..|second| - 1];
    }
  }

  /** How the stream is cut into reads makes no difference, whatever it holds. */
  lemma {:induction false} PiecesDoNotMatter(lines: Lines, pieces: seq<seq<Byte>>, size: nat)
    ensures Read(lines, pieces, size) == FedAll(lines, Joined(pieces), size)
  {
    if pieces != [] {
      PiecesDoNotMatter(lines, pieces[..|pieces| - 1], size);
      FedInTwo(lines, Joined(pieces[..|pieces| - 1]), pieces[|pieces| - 1], size);
    }
  }

  /** The lines of the whole stream: what stands before each newline, and what stands after the last. */
  function Split(bytes: seq<Byte>): Lines {
    if bytes == [] then Lines([], [])
    else
      var before, byte := Split(bytes[..|bytes| - 1]), bytes[|bytes| - 1];
      if byte == NEWLINE then Lines(before.done + [before.tail], []) else Lines(before.done, before.tail + [byte])
  }

  /** The stream that lines and an unfinished one came from. */
  function Ended(done: seq<seq<Byte>>): seq<Byte> {
    if done == [] then [] else Ended(done[..|done| - 1]) + done[|done| - 1] + [NEWLINE]
  }

  /** Splitting loses nothing, and cuts at the newlines and nowhere else. */
  lemma {:induction false} SplitAtNewlines(bytes: seq<Byte>)
    ensures Ended(Split(bytes).done) + Split(bytes).tail == bytes
    ensures NoNewline(Split(bytes).tail) && forall k :: 0 <= k < |Split(bytes).done| ==> NoNewline(Split(bytes).done[k])
  {
    if bytes != [] {
      var before, byte := Split(bytes[..|bytes| - 1]), bytes[|bytes| - 1];
      SplitAtNewlines(bytes[..|bytes| - 1]);
      assert bytes == bytes[..|bytes| - 1] + [byte];
      if byte == NEWLINE {
        assert (before.done + [before.tail])[..|before.done|] == before.done;
        assert Ended(before.done + [before.tail]) + [] == Ended(before.done) + before.tail + [NEWLINE];
      } else {
        assert Ended(before.done) + (before.tail + [byte]) == Ended(before.done) + before.tail + [byte];
      }
    }
  }

  predicate AllShort(lines: Lines, size: nat) {
    |lines.tail| < size && forall k :: 0 <= k < |lines.done| ==> |lines.done[k]| < size
  }

  lemma {:induction false} FedIsShort(bytes: seq<Byte>, size: nat)
    requires size > 0
    ensures AllShort(FedAll(Lines([], []), bytes, size), size)
  {
    if bytes != [] { FedIsShort(bytes[..|bytes| - 1], size); }
  }

  lemma {:induction false} ShortIsSplit(bytes: seq<Byte>, size: nat)
    requires size > 0 && AllShort(Split(bytes), size)
    ensures FedAll(Lines([], []), bytes, size) == Split(bytes)
  {
    if bytes != [] {
      var before, now := Split(bytes[..|bytes| - 1]), Split(bytes);
      assert AllShort(before, size) by {
        if bytes[|bytes| - 1] == NEWLINE {
          assert now.done[|before.done|] == before.tail;
          assert forall k :: 0 <= k < |before.done| ==> now.done[k] == before.done[k];
        }
      }
      ShortIsSplit(bytes[..|bytes| - 1], size);
    }
  }

  /**
   The lines handed over are the lines of the stream, and the rest its unfinished line, exactly if
   none of them fills the buffer.
   */
  lemma LinesOfTheStream(pieces: seq<seq<Byte>>, size: nat)
    requires size > 0
    ensures Read(Lines([], []), pieces, size) == Split(Joined(pieces)) <==> AllShort(Split(Joined(pieces)), size)
  {
    PiecesDoNotMatter(Lines([], []), pieces, size);
    FedIsShort(Joined(pieces), size);
    if AllShort(Split(Joined(pieces)), size) { ShortIsSplit(Joined(pieces), size); }
  }

  // The buffer.

  predicate NoNewline(bytes: seq<Byte>) {
    forall k :: 0 <= k < |bytes| ==> bytes[k] != NEWLINE
  }

  lemma FedLast(lines: Lines, bytes: seq<Byte>, size: nat)
    requires bytes != []
    ensures FedAll(lines, bytes, size) == Fed(FedAll(lines, bytes[..|bytes| - 1], size), bytes[|bytes| - 1], size)
  {
  }

  lemma FedNone(lines: Lines, size: nat)
    ensures FedAll(lines, [], size) == lines
  {
  }

  /** Bytes without a newline pile up; they drop only when they fill the buffer. */
  lemma {:induction false} FedWithoutNewline(done: seq<seq<Byte>>, bytes: seq<Byte>, size: nat)
    requires NoNewline(bytes) && |bytes| <= size && size > 0
    ensures FedAll(Lines(done, []), bytes, size) == Lines(done, if |bytes| == size then [] else bytes)
  {
    hide FedAll;
    if bytes == [] {
      FedNone(Lines(done, []), size);
    } else {
      var rest, last := bytes[..|bytes| - 1], bytes[|bytes| - 1];
      FedWithoutNewline(done, rest, size);
      FedLast(Lines(done, []), bytes, size);
      assert rest + [last] == bytes;
    }
  }

  /** A line and its newline hand the line over; a line that fills the buffer leaves no room for its newline. */
  lemma FedLine(done: seq<seq<Byte>>, line: seq<Byte>, size: nat)
    requires NoNewline(line) && |line| < size
    ensures FedAll(Lines(done, []), line + [NEWLINE], size) == Lines(done + [line], [])
  {
    FedWithoutNewline(done, line, size);
    assert (line + [NEWLINE])[..|line|] == line;
  }

  class LineReader {
    const buffer: array<Byte>
    var length: nat
    var handed: seq<seq<Byte>>

    ghost predicate Valid()
      reads this, buffer
    {
      length < buffer.Length && NoNewline(buffer[..length])
    }

    ghost function Model(): Lines
      reads this, buffer
      requires length <= buffer.Length
    {
      Lines(handed, buffer[..length])
    }

    constructor (size: nat)
      requires size > 0
      ensures Valid() && Model() == Lines([], []) && buffer.Length == size && fresh(buffer)
    {
      buffer := new Byte[size](_ => 0);
      length := 0;
      handed := [];
    }

    method FindNewline(start: nat, end: nat) returns (at: nat)
      requires start <= end <= buffer.Length
      ensures start <= at <= end && NoNewline(buffer[start..at])
      ensures at < end ==> buffer[at] == NEWLINE
    {
      at := start;
      while at < end && buffer[at] != NEWLINE
        invariant start <= at <= end && NoNewline(buffer[start..at])
      {
        assert buffer[start..at + 1] == buffer[start..at] + [buffer[at]];
        at := at + 1;
      }
    }

    /** Moves the unfinished line to the front. */
    method MoveToFront(start: nat, end: nat)
      requires start <= end <= buffer.Length
      modifies buffer
      ensures buffer[..end - start] == old(buffer[start..end])
    {
      var i := 0;
      while i < end - start
        invariant 0 <= i <= end - start
        invariant buffer[..i] == old(buffer[start..start + i])
        invariant forall k :: start + i <= k < end ==> buffer[k] == old(buffer[k])
      {
        buffer[i] := buffer[start + i];
        i := i + 1;
        assert old(buffer[start..start + i]) == old(buffer[start..start + i - 1]) + [old(buffer[start + i - 1])];
      }
    }

    /** Hands over every line that the buffer holds in full, and says where the rest starts. */
    method HandOver() returns (start: nat)
      requires length <= buffer.Length && buffer.Length > 0
      modifies this`handed, buffer
      ensures start <= length && buffer[start..length] == old(buffer[start..length]) && NoNewline(buffer[start..length])
      ensures FedAll(Lines(old(handed), []), old(buffer[..length]), buffer.Length)
              == Lines(handed, if length - start == buffer.Length then [] else buffer[start..length])
    {
      hide NoNewline, FedAll;
      ghost var size, whole, done := buffer.Length, buffer[..length], handed;
      start := 0;
      assert whole[0..] == whole;
      var end := FindNewline(start, length);
      while end < length
        modifies this`handed, buffer
        invariant start <= end <= length == |whole|
        invariant forall k :: start <= k < length ==> buffer[k] == whole[k]
        invariant NoNewline(buffer[start..end]) && (end < length ==> whole[end] == NEWLINE)
        invariant FedAll(Lines(done, []), whole, size) == FedAll(Lines(handed, []), whole[start..], size)
        decreases length - end
      {
        assert buffer[start..end] == whole[start..end];
        NextLine(handed, whole, start, end, size);
        buffer[end] := 0;
        handed := handed + [buffer[start..end]];
        start := end + 1;
        end := FindNewline(start, length);
      }
      assert buffer[start..length] == whole[start..];
      FedWithoutNewline(handed, whole[start..], size);
    }

    /** Takes what one read brought, hands over every line it completes, and keeps the rest. */
    method ReadLines(piece: seq<Byte>)
      requires Valid() && |piece| <= buffer.Length - length
      modifies this, buffer
      ensures Valid() && Model() == FedAll(old(Model()), piece, buffer.Length)
    {
      hide NoNewline, FedAll;
      FedStart(handed, buffer[..length], piece, buffer.Length);
      Append(piece);
      var start := HandOver();
      MoveToFront(start, length);
      length := length - start;
      if length == buffer.Length {
        length := 0;
        EmptyHasNone();
      }
    }

    method Append(piece: seq<Byte>)
      requires length <= buffer.Length && |piece| <= buffer.Length - length
      modifies this`length, buffer
      ensures length == old(length) + |piece| && buffer[..length] == old(buffer[..length]) + piece
    {
      var i := 0;
      while i < |piece|
        modifies buffer
        invariant 0 <= i <= |piece|
        invariant buffer[..length + i] == old(buffer[..length]) + piece[..i]
      {
        buffer[length + i] := piece[i];
        i := i + 1;
      }
      length := length + |piece|;
    }
  }

  lemma EmptyHasNone()
    ensures NoNewline([])
  {
  }

  /** What was kept counts as read anew. */
  lemma FedStart(done: seq<seq<Byte>>, tail: seq<Byte>, piece: seq<Byte>, size: nat)
    requires NoNewline(tail) && |tail| < size
    ensures FedAll(Lines(done, tail), piece, size) == FedAll(Lines(done, []), tail + piece, size)
  {
    FedWithoutNewline(done, tail, size);
    FedInTwo(Lines(done, []), tail, piece, size);
  }

  lemma NextLine(done: seq<seq<Byte>>, whole: seq<Byte>, start: nat, end: nat, size: nat)
    requires start <= end < |whole| <= size && NoNewline(whole[start..end]) && whole[end] == NEWLINE
    ensures FedAll(Lines(done, []), whole[start..], size) ==
            FedAll(Lines(done + [whole[start..end]], []), whole[end + 1..], size)
  {
    hide NoNewline;
    var line := whole[start..end];
    FedLine(done, line, size);
    FedInTwo(Lines(done, []), line + [NEWLINE], whole[end + 1..], size);
    assert whole[start..] == line + [NEWLINE] + whole[end + 1..];
  }
}
