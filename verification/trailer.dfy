/**
 A saved state carries copies of the game's save files behind it: each copy followed by its
 size in eight bytes, lowest first. They are read back from the end.
 */
module Trailer {
  import opened Options

  type Byte = b: int | 0 <= b < 256
  type Bytes = seq<Byte>

  const WORD: nat := 8
  const SIGN: nat := 0x8000_0000_0000_0000
  const WRAP: nat := 0x1_0000_0000_0000_0000

  // The size word.

  function Power(k: nat): (p: nat)
    ensures p > 0
  {
    if k == 0 then 1 else 256 * Power(k - 1)
  }

  function LowestFirst(n: nat, k: nat): (bytes: Bytes)
    ensures |bytes| == k
  {
    if k == 0 then [] else [n % 256] + LowestFirst(n / 256, k - 1)
  }

  function Value(bytes: Bytes): (n: nat)
    ensures n < Power(|bytes|)
  {
    if bytes == [] then 0 else bytes[0] + 256 * Value(bytes[1..])
  }

  /** A word read as a signed number. */
  function Signed(bytes: Bytes): int {
    if Value(bytes) < SIGN then Value(bytes) else Value(bytes) - WRAP
  }

  lemma {:induction false} ValueOfWord(n: nat, k: nat)
    requires n < Power(k)
    ensures Value(LowestFirst(n, k)) == n
  {
    if k > 0 {
      ValueOfWord(n / 256, k - 1);
      assert LowestFirst(n, k)[1..] == LowestFirst(n / 256, k - 1);
    }
  }

  lemma {:induction false} WordOfValue(bytes: Bytes)
    ensures LowestFirst(Value(bytes), |bytes|) == bytes
  {
    if bytes != [] {
      WordOfValue(bytes[1..]);
      assert Value(bytes) % 256 == bytes[0] && Value(bytes) / 256 == Value(bytes[1..]);
      assert bytes == [bytes[0]] + bytes[1..];
    }
  }

  /** The lowest byte comes first: byte `i` counts 256 to the power of `i`. */
  lemma {:induction false} ByteWeight(bytes: Bytes, i: nat, byte: Byte)
    requires i < |bytes|
    ensures Value(bytes[i := byte]) == Value(bytes) + (byte - bytes[i]) * Power(i)
  {
    if i == 0 {
      assert bytes[0 := byte][1..] == bytes[1..];
    } else {
      ByteWeight(bytes[1..], i - 1, byte);
      assert bytes[i := byte][1..] == bytes[1..][i - 1 := byte];
      WeighMore(byte - bytes[i], Power(i - 1));
    }
  }

  lemma WeighMore(more: int, power: int)
    ensures 256 * (more * power) == more * (256 * power)
  {
  }

  lemma PowerOfWord()
    ensures Power(WORD) == WRAP
  {
    assert Power(2) == 0x1_0000;
    assert Power(4) == 0x1_0000_0000;
    assert Power(6) == 0x1_0000_0000_0000;
  }

  // The trailer.

  /** The state with the given saves behind it. */
  function Written(base: Bytes, saves: seq<Bytes>): Bytes {
    if saves == [] then base
    else
      var last := saves[|saves| - 1];
      Written(base, saves[..|saves| - 1]) + last + LowestFirst(|last|, WORD)
  }

  /** What is found before `end`: the contents of one save and where they start. */
  datatype Found = Found(save: Bytes, start: int)

  /** Reads one save backwards; a size below one gives an empty save, even a negative one. */
  function ReadBack(data: Bytes, end: int): Option<Found> {
    var word := end - WORD;
    if !(0 <= word && end <= |data|) then None
    else
      var size := Signed(data[word..end]);
      if size <= 0 then Some(Found([], word - size))
      else if word - size < 0 then None
      else Some(Found(data[word - size..word], word - size))
  }

  /** The last `n` saves before `end`, and where the first of them starts. */
  function Restored(data: Bytes, end: int, n: nat): Option<(seq<Bytes>, int)>
    decreases n
  {
    if n == 0 then Some(([], end))
    else
      match ReadBack(data, end)
      case None => None
      case Some(found) =>
        match Restored(data, found.start, n - 1)
        case None => None
        case Some(rest) => Some((rest.0 + [found.save], rest.1))
  }

  /** A file's size fits the word. */
  predicate Sizes(saves: seq<Bytes>) {
    forall i :: 0 <= i < |saves| ==> |saves[i]| < SIGN
  }

  lemma SignedSize(size: nat)
    requires size < SIGN
    ensures Signed(LowestFirst(size, WORD)) == size
  {
    hide LowestFirst, Value, Power;
    PowerOfWord();
    ValueOfWord(size, WORD);
  }

  lemma Middle(first: Bytes, middle: Bytes, last: Bytes)
    ensures (first + middle + last)[|first|..|first| + |middle|] == middle
  {
  }

  lemma ReadsAt(data: Bytes, start: nat, save: Bytes)
    requires |save| < SIGN && start + |save| + WORD <= |data|
    requires data[start..start + |save|] == save
    requires data[start + |save|..start + |save| + WORD] == LowestFirst(|save|, WORD)
    ensures ReadBack(data, start + |save| + WORD) == Some(Found(save, start))
  {
    hide LowestFirst, Signed;
    SignedSize(|save|);
  }

  lemma ReadsLast(front: Bytes, save: Bytes, behind: Bytes)
    requires |save| < SIGN
    ensures var data := front + save + LowestFirst(|save|, WORD) + behind;
            ReadBack(data, |front| + |save| + WORD) == Some(Found(save, |front|))
  {
    hide LowestFirst, ReadBack;
    var word := LowestFirst(|save|, WORD);
    Middle(front + save, word, behind);
    Middle(front, save, word + behind);
    assert front + save + word + behind == front + save + (word + behind);
    ReadsAt(front + save + word + behind, |front|, save);
  }

  lemma Rejoined(front: Bytes, save: Bytes, word: Bytes, behind: Bytes)
    ensures front + save + word + behind == front + (save + word + behind)
    ensures |front + save + word| == |front| + |save| + |word|
  {
  }

  lemma {:induction false} RestoresBefore(base: Bytes, saves: seq<Bytes>, behind: Bytes)
    requires Sizes(saves)
    ensures Restored(Written(base, saves) + behind, |Written(base, saves)|, |saves|) == Some((saves, |base|))
  {
    hide LowestFirst, ReadBack;
    if saves != [] {
      var rest, last := saves[..|saves| - 1], saves[|saves| - 1];
      var word := LowestFirst(|last|, WORD);
      var front := Written(base, rest);
      assert Written(base, saves) == front + last + word;
      hide Written;
      ReadsLast(front, last, behind);
      RestoresBefore(base, rest, last + word + behind);
      Rejoined(front, last, word, behind);
      assert rest + [last] == saves;
    }
  }

  /** Every save comes back as it was, and reading stops exactly at the end of the state itself. */
  lemma RoundTrip(base: Bytes, saves: seq<Bytes>)
    requires Sizes(saves)
    ensures Restored(Written(base, saves), |Written(base, saves)|, |saves|) == Some((saves, |base|))
  {
    RestoresBefore(base, saves, []);
    assert Written(base, saves) + [] == Written(base, saves);
  }

  /** No size word on the way is negative. */
  predicate NaturalSizes(data: Bytes, end: int, n: nat)
    decreases n
  {
    n == 0
    || (match ReadBack(data, end)
        case None => true
        case Some(found) => found.start <= end - WORD && NaturalSizes(data, found.start, n - 1))
  }

  lemma ThreeParts(data: Bytes, start: nat, word: nat, end: nat)
    requires start <= word <= end <= |data|
    ensures data[..end] == data[..start] + data[start..word] + data[word..end]
  {
  }

  lemma SizeOfWord(word: Bytes)
    requires |word| == WORD && Signed(word) >= 0
    ensures Signed(word) < SIGN && LowestFirst(Signed(word), WORD) == word
  {
    hide LowestFirst, Value, Power;
    WordOfValue(word);
    PowerOfWord();
  }

  lemma ReadsWhatWasWritten(data: Bytes, end: int)
    requires ReadBack(data, end).Some? && ReadBack(data, end).value.start <= end - WORD
    ensures var found := ReadBack(data, end).value;
            && 0 <= found.start <= end <= |data|
            && data[..end] == data[..found.start] + found.save + LowestFirst(|found.save|, WORD)
            && |found.save| < SIGN
  {
    hide LowestFirst, Signed;
    var word, found := end - WORD, ReadBack(data, end).value;
    SizeOfWord(data[word..end]);
    ThreeParts(data, found.start, word, end);
  }

  /** Whatever can be read back without a negative size is a state with just these saves behind it. */
  lemma {:induction false} OnlyWhatWasWritten(data: Bytes, end: int, n: nat)
    requires end <= |data| && Restored(data, end, n).Some? && NaturalSizes(data, end, n) && 0 <= end
    ensures var (saves, start) := Restored(data, end, n).value;
            && 0 <= start <= end && |saves| == n && Sizes(saves)
            && data[..end] == Written(data[..start], saves)
  {
    hide LowestFirst, ReadBack;
    if n > 0 {
      var found := ReadBack(data, end).value;
      ReadsWhatWasWritten(data, end);
      OnlyWhatWasWritten(data, found.start, n - 1);
      var (rest, start) := Restored(data, found.start, n - 1).value;
      assert (rest + [found.save])[..n - 1] == rest;
    }
  }

  /** A written trailer has no negative size. */
  lemma {:induction false} WrittenIsNatural(base: Bytes, saves: seq<Bytes>, behind: Bytes)
    requires Sizes(saves)
    ensures NaturalSizes(Written(base, saves) + behind, |Written(base, saves)|, |saves|)
  {
    hide LowestFirst, ReadBack;
    if saves != [] {
      var rest, last := saves[..|saves| - 1], saves[|saves| - 1];
      var word := LowestFirst(|last|, WORD);
      var front := Written(base, rest);
      assert Written(base, saves) == front + last + word;
      hide Written;
      ReadsLast(front, last, behind);
      WrittenIsNatural(base, rest, last + word + behind);
      Rejoined(front, last, word, behind);
    }
  }

  /** A state with this many saves written behind some base. */
  ghost predicate IsWritten(data: Bytes, n: nat) {
    exists base, saves :: |saves| == n && Sizes(saves) && data == Written(base, saves)
  }

  /** Reading back succeeds without a negative size exactly on the states that saving has written. */
  lemma ReadsExactlyTheWritten(data: Bytes, n: nat)
    ensures IsWritten(data, n) <==> Restored(data, |data|, n).Some? && NaturalSizes(data, |data|, n)
  {
    hide Written, Restored, NaturalSizes;
    if IsWritten(data, n) {
      var base, saves :| |saves| == n && Sizes(saves) && data == Written(base, saves);
      RoundTrip(base, saves);
      WrittenIsNatural(base, saves, []);
      assert Written(base, saves) + [] == data;
    }
    if Restored(data, |data|, n).Some? && NaturalSizes(data, |data|, n) {
      OnlyWhatWasWritten(data, |data|, n);
      var (saves, start) := Restored(data, |data|, n).value;
      assert data[..|data|] == data;
      assert data == Written(data[..start], saves);
    }
  }

  /** A negative size makes reading go on behind the save instead of before it. */
  lemma NegativeSizeMovesForward(data: Bytes, end: int)
    requires 0 <= end - WORD && end <= |data| && Signed(data[end - WORD..end]) < 0
    ensures ReadBack(data, end) == Some(Found([], end - WORD - Signed(data[end - WORD..end])))
    ensures ReadBack(data, end).value.start > end - WORD
  {
  }

  /** Reading one more save goes on where the saves so far start. */
  lemma {:induction false} OneMore(data: Bytes, end: int, n: nat)
    ensures Restored(data, end, n + 1) ==
            match Restored(data, end, n)
            case None => None
            case Some(rest) =>
              match ReadBack(data, rest.1)
              case None => None
              case Some(found) => Some(([found.save] + rest.0, found.start))
    decreases n
  {
    hide ReadBack;
    if n == 0 {
      assert forall save: Bytes :: [] + [save] == [save] + [];
    } else if ReadBack(data, end).Some? {
      var found := ReadBack(data, end).value;
      OneMore(data, found.start, n - 1);
      var rest := Restored(data, found.start, n - 1);
      if rest.Some? && ReadBack(data, rest.value.1).Some? {
        var first := ReadBack(data, rest.value.1).value;
        assert ([first.save] + rest.value.0) + [found.save] == [first.save] + (rest.value.0 + [found.save]);
      }
    }
  }

  lemma {:induction false} StaysLost(data: Bytes, end: int, n: nat, m: nat)
    requires n <= m && Restored(data, end, n) == None
    ensures Restored(data, end, m) == None
    decreases m
  {
    hide ReadBack, Restored;
    if n < m {
      StaysLost(data, end, n, m - 1);
      OneMore(data, end, m - 1);
    }
  }

  // The loops.

  lemma Extended(input: Bytes, start: nat, offset: nat, end: nat)
    requires start <= offset <= end <= |input|
    ensures input[start..end] == input[start..offset] + input[offset..end] && input[start..start] == []
  {
  }

  /**
   Copies a stretch of a file; it fails where the file has no such stretch. `moved(step, offset, left)`
   is how much transfer number `step` moves of the `left` bytes from `offset` on: some, if there are any.
   */
  method SendAll(input: Bytes, start: int, end: int, first: nat, moved: (nat, int, int) -> nat)
        returns (sent: Bytes, ok: bool, step: nat)
    requires forall step, offset, left :: left > 0 ==> 1 <= moved(step, offset, left) <= left
    ensures ok <==> start >= end || (0 <= start && end <= |input|)
    ensures ok ==> sent == if start < end then input[start..end] else []
  {
    var offset := start;
    sent, step := [], first;
    while offset < end
      invariant offset == start || 0 <= start < offset <= end
      invariant start <= offset && (offset > start ==> offset <= |input|)
      invariant sent == if start < offset then input[start..offset] else []
      decreases end - offset
    {
      if offset < 0 || offset >= |input| { return sent, false, step; }
      var left := if end < |input| then end - offset else |input| - offset;
      var count := moved(step, offset, left);
      step := step + 1;
      Extended(input, start, offset, offset + count);
      sent := sent + input[offset..offset + count];
      offset := offset + count;
    }
    return sent, true, step;
  }

  method SaveWithSaves(base: Bytes, copies: seq<Bytes>, moved: (nat, int, int) -> nat) returns (state: Bytes)
    requires forall step, offset, left :: left > 0 ==> 1 <= moved(step, offset, left) <= left
    ensures state == Written(base, copies)
  {
    state := base;
    var i, step := 0, 0;
    while i < |copies|
      invariant 0 <= i <= |copies| && state == Written(base, copies[..i])
    {
      var size := |copies[i]|;
      var sent, ok, next := SendAll(copies[i], 0, size, step, moved);
      step := next;
      state := state + sent + LowestFirst(size, WORD);
      i := i + 1;
      assert copies[..i][..i - 1] == copies[..i - 1];
    }
    assert copies[..i] == copies;
  }

  /** What restoring has done when it gets no further than the saves from `i` on. */
  predicate Stuck(state: Bytes, before: seq<Bytes>, after: seq<Bytes>, i: nat) {
    && i < |before| == |after|
    && after[..i] == before[..i]
    && (after[i] == before[i] || after[i] == [])
    && var later := Restored(state, |state|, |after| - 1 - i);
       later.Some? && later.value.0 == after[i + 1..] && ReadBack(state, later.value.1) == None
  }

  /**
   Each save file is emptied and filled in its turn, the last one first; a failure leaves those
   before it as they were.
   */
  method RestoreSaves(state: Bytes, saves: array<Bytes>, moved: (nat, int, int) -> nat) returns (ok: bool)
    requires forall step, offset, left :: left > 0 ==> 1 <= moved(step, offset, left) <= left
    modifies saves
    ensures ok <==> Restored(state, |state|, saves.Length).Some?
    ensures ok ==> saves[..] == Restored(state, |state|, saves.Length).value.0
    ensures !ok ==> exists i :: 0 <= i < saves.Length && Stuck(state, old(saves[..]), saves[..], i)
  {
    hide Restored, Signed;
    var end: int := |state|;
    var i, step := saves.Length, 0;
    NothingRestored(state);
    assert saves[i..] == [];
    while i > 0
      invariant 0 <= i <= saves.Length && saves[..i] == old(saves[..i])
      invariant Restored(state, |state|, saves.Length - i) == Some((saves[i..], end))
    {
      ghost var done, at := saves[i..], end;
      i := i - 1;
      OneMore(state, |state|, saves.Length - 1 - i);
      end := end - WORD;
      if end < 0 || end + WORD > |state| {
        StaysLost(state, |state|, saves.Length - i, saves.Length);
        assert Stuck(state, old(saves[..]), saves[..], i);
        return false;
      }
      var size := Signed(state[end..end + WORD]);
      end := end - size;
      saves[i] := [];
      var sent, copied, next := SendAll(state, end, end + size, step, moved);
      step := next;
      if !copied {
        StaysLost(state, |state|, saves.Length - i, saves.Length);
        assert saves[i + 1..] == done;
        assert Stuck(state, old(saves[..]), saves[..], i);
        return false;
      }
      saves[i] := sent;
      assert saves[i..] == [sent] + done;
    }
    return true;
  }

  lemma NothingRestored(state: Bytes)
    ensures Restored(state, |state|, 0) == Some(([], |state|))
  {
  }
}
