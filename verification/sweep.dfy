/**
 The poll table of the pad daemon: two arrays side by side, edited by the very handlers that
 a sweep over it runs.
 */
module Sweep {
  import opened Options

  const FIXED_SOURCES: nat := 11
  const WATCHED_MAX: nat := FIXED_SOURCES + 32 + 3 * 16 + 4

  /** The poll side of a source and the side that says what it is; `token` tells sources apart. */
  datatype Poll = Poll(token: nat, fd: int, ready: bool)
  datatype Tag = Tag(token: nat, source: int)

  /** What handlers do to the table. */
  datatype Edit = Unwatch(token: nat) | Add(fd: int, tag: int)

  // Both sides in step.

  predicate Aligned(polls: seq<Poll>, watches: seq<Tag>) {
    && |polls| == |watches|
    && (forall k :: 0 <= k < |polls| ==> polls[k].token == watches[k].token)
    && forall a, b :: 0 <= a < b < |polls| ==> polls[a].token != polls[b].token
  }

  /** The first sources are set up once and identified by their place. */
  predicate FixedInPlace(polls: seq<Poll>) {
    FIXED_SOURCES <= |polls| && forall k :: 0 <= k < FIXED_SOURCES ==> polls[k].token == k
  }

  function DropPoll(polls: seq<Poll>, index: nat): seq<Poll>
    requires index < |polls|
  {
    var last := |polls| - 1;
    polls[index := polls[last].(ready := false)][..last]
  }

  function DropWatch(watches: seq<Tag>, index: nat): seq<Tag>
    requires index < |watches|
  {
    var last := |watches| - 1;
    watches[index := watches[last]][..last]
  }

  lemma {:induction false} DropKeeps(polls: seq<Poll>, watches: seq<Tag>, index: nat)
    requires Aligned(polls, watches) && FixedInPlace(polls) && FIXED_SOURCES <= index < |polls|
    ensures Aligned(DropPoll(polls, index), DropWatch(watches, index)) && FixedInPlace(DropPoll(polls, index))
    ensures forall k :: 0 <= k < |polls| - 1 && k != index ==>
              DropPoll(polls, index)[k] == polls[k] && DropWatch(watches, index)[k] == watches[k]
    ensures index < |polls| - 1 ==> !DropPoll(polls, index)[index].ready
                                    && DropPoll(polls, index)[index].token == polls[|polls| - 1].token
                                    && DropWatch(watches, index)[index] == watches[|polls| - 1]
  {
  }

  /** The sources that are ready among the first `n`, last one first, each with its tag. */
  function ReadyDown(polls: seq<Poll>, watches: seq<Tag>, n: nat): (runs: seq<Tag>)
    requires n <= |polls| == |watches|
  {
    if n == 0 then []
    else if polls[n - 1].ready then [watches[n - 1]] + ReadyDown(polls, watches, n - 1)
    else ReadyDown(polls, watches, n - 1)
  }

  /** Every ready source is run, with its own tag, and once. */
  lemma {:induction false} RunsAreTheReady(polls: seq<Poll>, watches: seq<Tag>, n: nat)
    requires Aligned(polls, watches) && n <= |polls|
    ensures forall k :: 0 <= k < n && polls[k].ready ==> watches[k] in ReadyDown(polls, watches, n)
    ensures forall run :: run in ReadyDown(polls, watches, n) ==>
            exists k :: 0 <= k < n && polls[k].ready && watches[k] == run
    ensures forall a, b :: 0 <= a < b < |ReadyDown(polls, watches, n)| ==>
              ReadyDown(polls, watches, n)[a].token != ReadyDown(polls, watches, n)[b].token
  {
    if n > 0 {
      RunsAreTheReady(polls, watches, n - 1);
      var below := ReadyDown(polls, watches, n - 1);
      forall b | 0 <= b < |below| ensures below[b].token != watches[n - 1].token {
        assert below[b] in below;
      }
    }
  }

  /** The table after sources were added: those before keep their place, and the new ones are not ready. */
  predicate Added(polls: seq<Poll>, watches: seq<Tag>, more: seq<Poll>, tags: seq<Tag>) {
    && |polls| == |watches| <= |more| == |tags|
    && more[..|polls|] == polls && tags[..|polls|] == watches
    && forall k :: |polls| <= k < |more| ==> !more[k].ready
  }

  /** What is added between the poll and the sweep takes no turn and costs none. */
  lemma {:induction false} AddedTakesNoTurn(polls: seq<Poll>, watches: seq<Tag>, more: seq<Poll>, tags: seq<Tag>,
        n: nat)
    requires Added(polls, watches, more, tags) && n <= |more|
    ensures ReadyDown(more, tags, n) == ReadyDown(polls, watches, if n < |polls| then n else |polls|)
  {
    if n > 0 {
      AddedTakesNoTurn(polls, watches, more, tags, n - 1);
      if n <= |polls| {
        assert more[n - 1] == more[..|polls|][n - 1] && tags[n - 1] == tags[..|polls|][n - 1];
      }
    }
  }

  lemma AlignedLengths(polls: seq<Poll>, watches: seq<Tag>)
    requires Aligned(polls, watches)
    ensures |polls| == |watches|
  {
  }

  /** The turn of one source: it runs if it is ready. */
  function Turn(poll: Poll, tag: Tag): seq<Tag> {
    if poll.ready then [tag] else []
  }

  lemma ShorterPrefix<T>(prefix: seq<T>, whole: seq<T>, i: nat)
    requires i < |whole| && prefix == whole[..i + 1]
    ensures prefix[i] == whole[i] && prefix[..i] == whole[..i]
  {
  }

  lemma ReadyStep(polls: seq<Poll>, watches: seq<Tag>, i: nat)
    requires i < |polls| == |watches|
    ensures ReadyDown(polls, watches, i + 1) == Turn(polls[i], watches[i]) + ReadyDown(polls, watches, i)
  {
  }

  lemma ReadyNone(polls: seq<Poll>, watches: seq<Tag>)
    requires |polls| == |watches|
    ensures ReadyDown(polls, watches, 0) == []
  {
  }

  lemma FixedFirst(polls: seq<Poll>)
    requires FixedInPlace(polls)
    ensures FIXED_SOURCES <= |polls|
  {
  }

  /** Above the fixed sources there are other tokens, and no source shares one. */
  lemma {:induction false} OwnTokenOnly(polls: seq<Poll>, watches: seq<Tag>, i: nat)
    requires Aligned(polls, watches) && FixedInPlace(polls) && i < |polls|
    ensures i >= FIXED_SOURCES ==> watches[i].token >= FIXED_SOURCES
    ensures FIXED_SOURCES <= |polls|
    ensures forall k :: 0 <= k < i ==> polls[k].token != watches[i].token
  {
    var token := polls[i].token;
    var namesake := if token < FIXED_SOURCES then polls[token] else polls[i];
  }

  // The table as handlers leave it.

  datatype Table = Table(polls: seq<Poll>, tags: seq<Tag>, next: nat)

  /** Where the source with this token is, from `n` on. */
  function Position(polls: seq<Poll>, token: nat, n: nat): (at: Option<nat>)
    ensures at.Some? ==> n <= at.value < |polls| && polls[at.value].token == token
    ensures at == None ==> forall k :: n <= k < |polls| ==> polls[k].token != token
    decreases if n < |polls| then |polls| - n else 0
  {
    if n >= |polls| then None else if polls[n].token == token then Some(n) else Position(polls, token, n + 1)
  }

  function Unwatched(t: Table, token: nat): Table
    requires |t.polls| == |t.tags|
  {
    match Position(t.polls, token, FIXED_SOURCES)
    case None => t
    case Some(k) => Table(DropPoll(t.polls, k), DropWatch(t.tags, k), t.next)
  }

  function Watched(t: Table, fd: int, source: int): Table {
    if fd < 0 || |t.polls| == WATCHED_MAX then t
    else Table(t.polls + [Poll(t.next, fd, false)], t.tags + [Tag(t.next, source)], t.next + 1)
  }

  function EditedOnce(t: Table, edit: Edit): (edited: Table)
    requires |t.polls| == |t.tags|
    ensures |edited.polls| == |edited.tags|
  {
    match edit
    case Unwatch(token) => Unwatched(t, token)
    case Add(fd, source) => Watched(t, fd, source)
  }

  function Edited(t: Table, edits: seq<Edit>): (edited: Table)
    requires |t.polls| == |t.tags|
    ensures |edited.polls| == |edited.tags|
  {
    if edits == [] then t
    else
      EditedOnce(Edited(t, edits[..|edits| - 1]), edits[|edits| - 1])
  }

  lemma EditedNone(t: Table)
    requires |t.polls| == |t.tags|
    ensures Edited(t, []) == t
  {
  }

  lemma EditedStep(t: Table, edits: seq<Edit>, n: nat)
    requires |t.polls| == |t.tags| && n < |edits|
    ensures Edited(t, edits[..n + 1]) == EditedOnce(Edited(t, edits[..n]), edits[n])
  {
    assert edits[..n + 1][..n] == edits[..n];
  }

  function AddEdits(adds: seq<(int, int)>): seq<Edit> {
    seq(|adds|, i requires 0 <= i < |adds| => Add(adds[i].0, adds[i].1))
  }

  /** The table after the sources below `n` had their turns, the last one first. */
  function Swept(t: Table, n: nat, handlers: nat -> seq<Edit>): (swept: Table)
    requires |t.polls| == |t.tags|
    ensures |swept.polls| == |swept.tags|
    decreases n
  {
    if n == 0 then t
    else if n <= |t.polls| && t.polls[n - 1].ready then Swept(Edited(t, handlers(t.tags[n - 1].token)), n - 1, handlers)
    else Swept(t, n - 1, handlers)
  }

  lemma SweptStep(t: Table, i: nat, handlers: nat -> seq<Edit>)
    requires |t.polls| == |t.tags| && i < |t.polls|
    ensures Swept(t, i + 1, handlers) ==
            Swept(if t.polls[i].ready then Edited(t, handlers(t.tags[i].token)) else t, i, handlers)
  {
  }

  lemma SweptNone(t: Table, handlers: nat -> seq<Edit>)
    requires |t.polls| == |t.tags|
    ensures Swept(t, 0, handlers) == t
  {
  }

  /**
   A handler that drops its own source takes it from the table, and no other: the rest are as many
   as before, and all there.
   */
  lemma UnwatchDropsOne(t: Table, token: nat)
    requires Aligned(t.polls, t.tags) && FixedInPlace(t.polls)
    ensures var after := Unwatched(t, token);
            && Aligned(after.polls, after.tags) && FixedInPlace(after.polls)
            && forall tag :: tag in after.tags <==>
                 tag in t.tags && (tag.token != token || tag.token < FIXED_SOURCES)
  {
    var after := Unwatched(t, token);
    var at := Position(t.polls, token, FIXED_SOURCES);
    if at.Some? {
      DropKeeps(t.polls, t.tags, at.value);
      forall tag ensures tag in after.tags <==> tag in t.tags && (tag.token != token || tag.token < FIXED_SOURCES) {
        DroppedTag(t.polls, t.tags, at.value, tag);
      }
    } else {
      forall k | 0 <= k < |t.tags| ensures t.tags[k].token != token || t.tags[k].token < FIXED_SOURCES {
      }
    }
  }

  /** What is dropped is gone, and everything before it is where it was. */
  lemma UnwatchedMeans(t: Table, token: nat)
    requires Aligned(t.polls, t.tags) && FixedInPlace(t.polls)
    ensures var after := Unwatched(t, token);
            && |t.polls| - 1 <= |after.polls| == |after.tags| <= |t.polls|
            && (forall k :: FIXED_SOURCES <= k < |after.polls| ==> after.polls[k].token != token)
            && forall lo :: FIXED_SOURCES <= lo <= |t.polls|
                            && (forall k :: FIXED_SOURCES <= k < lo ==> t.polls[k].token != token) ==>
                 lo <= |after.polls| && after.polls[..lo] == t.polls[..lo] && after.tags[..lo] == t.tags[..lo]
  {
    var at := Position(t.polls, token, FIXED_SOURCES);
    if at.Some? {
      DropKeeps(t.polls, t.tags, at.value);
      var after := Unwatched(t, token);
      forall lo | FIXED_SOURCES <= lo <= |t.polls| && forall k :: FIXED_SOURCES <= k < lo ==> t.polls[k].token != token
        ensures lo <= |after.polls| && after.polls[..lo] == t.polls[..lo] && after.tags[..lo] == t.tags[..lo]
      {
        assert lo <= at.value;
      }
    }
  }

  lemma SeekPassesFixed(polls: seq<Poll>, token: nat)
    ensures var at := Position(polls, token, FIXED_SOURCES); at.Some? ==> FIXED_SOURCES <= at.value < |polls|
  {
  }

  lemma Prefixes<T>(prefix: seq<T>, whole: seq<T>, n: nat)
    requires n <= |whole| && prefix == whole[..n]
    ensures forall lo :: 0 <= lo <= n ==> prefix[..lo] == whole[..lo]
  {
  }

  lemma DroppedTag(polls: seq<Poll>, tags: seq<Tag>, at: nat, tag: Tag)
    requires Aligned(polls, tags) && FixedInPlace(polls) && FIXED_SOURCES <= at < |tags|
    ensures tag in DropWatch(tags, at) <==> tag in tags && (tag.token != polls[at].token || tag.token < FIXED_SOURCES)
  {
    var last, after := |tags| - 1, DropWatch(tags, at);
    OwnTokenOnly(polls, tags, at);
    if tag in tags && tag.token != polls[at].token {
      var k :| 0 <= k < |tags| && tags[k] == tag;
      assert after[if k == last then at else k] == tag;
    }
    if tag in after {
      var k :| 0 <= k < |after| && after[k] == tag;
      var from := if k == at then last else k;
      assert tags[from] == tag && polls[from].token == tag.token && polls[from].token != polls[at].token;
    }
  }

  class PollTable {
    const watched: array<Poll>
    const watches: array<Tag>
    var count: nat
    var next: nat
    ghost var log: seq<Tag>

    ghost predicate Valid()
      reads this, watched, watches
    {
      && watched.Length == watches.Length == WATCHED_MAX && count <= WATCHED_MAX
      && Aligned(watched[..count], watches[..count]) && FixedInPlace(watched[..count])
      && forall k :: 0 <= k < count ==> watched[k].token < next
    }

    ghost function Model(): Table
      reads this, watched, watches
      requires count <= watched.Length && count <= watches.Length
    {
      Table(watched[..count], watches[..count], next)
    }

    constructor (fds: seq<int>)
      requires |fds| == FIXED_SOURCES
      ensures Valid() && count == FIXED_SOURCES && fresh(watched) && fresh(watches) && log == []
    {
      watched := new Poll[WATCHED_MAX](k => Poll(if k < 0 then 0 else k, if 0 <= k < |fds| then fds[k] else -1, false));
      watches := new Tag[WATCHED_MAX](k => Tag(if k < 0 then 0 else k, k));
      count, next, log := FIXED_SOURCES, FIXED_SOURCES, [];
    }

    /** Adds a source at the end; a full table or a missing descriptor is refused. */
    method Watch(fd: int, source: int) returns (added: bool)
      requires Valid()
      modifies this`count, this`next, watched, watches
      ensures Valid() && added == (fd >= 0 && old(count) < WATCHED_MAX)
      ensures Model() == Watched(old(Model()), fd, source)
      ensures count == old(count) + (if added then 1 else 0)
      ensures watched[..old(count)] == old(watched[..count]) && watches[..old(count)] == old(watches[..count])
      ensures added ==> watched[old(count)] == Poll(old(next), fd, false)
      ensures added ==> watches[old(count)] == Tag(old(next), source)
    {
      if fd < 0 || count == WATCHED_MAX { return false; }
      watched[count] := Poll(next, fd, false);
      watches[count] := Tag(next, source);
      count := count + 1;
      next := next + 1;
      return true;
    }

    /** The last source moves into the gap and is not ready there. */
    method Drop(index: nat)
      requires Valid() && FIXED_SOURCES <= index < count
      modifies this`count, watched, watches
      ensures Valid() && count == old(count) - 1
      ensures watched[..count] == DropPoll(old(watched[..count]), index)
      ensures watches[..count] == DropWatch(old(watches[..count]), index)
    {
      DropKeeps(watched[..count], watches[..count], index);
      count := count - 1;
      watched[index] := watched[count];
      watched[index] := watched[index].(ready := false);
      watches[index] := watches[count];
      assert watched[..count] == DropPoll(old(watched[..count]), index);
      assert watches[..count] == DropWatch(old(watches[..count]), index);
    }

    /** The loop that looks for a source; the fixed ones are passed over. */
    method Seek(token: nat) returns (k: nat)
      requires Valid()
      ensures k <= count
      ensures Position(watched[..count], token, FIXED_SOURCES) == if k < count then Some(k) else None
    {
      hide Aligned, FixedInPlace;
      k := FIXED_SOURCES;
      FixedFirst(watched[..count]);
      while k < count && watched[k].token != token
        invariant FIXED_SOURCES <= k <= count
        invariant Position(watched[..count], token, FIXED_SOURCES) == Position(watched[..count], token, k)
      {
        k := k + 1;
      }
    }

    /** Drops the source with this token, if it is there and is not a fixed one. */
    method Unwatch(token: nat)
      requires Valid()
      modifies this`count, watched, watches
      ensures Valid() && next == old(next) && old(count) - 1 <= count <= old(count)
      ensures |old(Model()).polls| == |old(Model()).tags| && Model() == Unwatched(old(Model()), token)
      ensures forall k :: FIXED_SOURCES <= k < count ==> watched[k].token != token
      ensures forall lo ::
                FIXED_SOURCES <= lo <= old(count)
                && (forall k :: FIXED_SOURCES <= k < lo ==> old(watched[k].token) != token) ==>
                  lo <= count && watched[..lo] == old(watched[..lo]) && watches[..lo] == old(watches[..lo])
    {
      hide Aligned, FixedInPlace, Unwatched, Position;
      ghost var was := Model();
      AlignedLengths(was.polls, was.tags);
      UnwatchedMeans(was, token);
      Prefixes(was.polls, watched[..], count);
      Prefixes(was.tags, watches[..], count);
      TakeOut(token);
      Prefixes(Model().polls, watched[..], count);
      Prefixes(Model().tags, watches[..], count);
    }

    method TakeOut(token: nat)
      requires Valid()
      modifies this`count, watched, watches
      ensures Valid() && next == old(next)
      ensures |old(Model()).polls| == |old(Model()).tags| && Model() == Unwatched(old(Model()), token)
    {
      hide Aligned, FixedInPlace, DropPoll, DropWatch;
      AlignedLengths(watched[..count], watches[..count]);
      var k := Seek(token);
      if k < count {
        SeekPassesFixed(watched[..count], token);
        Drop(k);
      }
    }

    /** A handler edits the table; it leaves the sources below `low` alone. */
    method Handle(edits: seq<Edit>, ghost low: nat)
      requires Valid() && FIXED_SOURCES <= low <= count
      requires forall e, k :: e in edits && e.Unwatch? && FIXED_SOURCES <= k < low ==> watched[k].token != e.token
      modifies this`count, this`next, watched, watches
      ensures Valid() && low <= count
      ensures watched[..low] == old(watched[..low]) && watches[..low] == old(watches[..low])
      ensures |old(Model()).polls| == |old(Model()).tags| && Model() == Edited(old(Model()), edits)
    {
      hide Aligned, FixedInPlace, Edited, EditedOnce;
      var n := 0;
      ghost var was := Model();
      AlignedLengths(was.polls, was.tags);
      EditedNone(was);
      assert edits[..0] == [];
      while n < |edits|
        invariant 0 <= n <= |edits| && Valid() && low <= count
        invariant watched[..low] == old(watched[..low]) && watches[..low] == old(watches[..low])
        invariant |was.polls| == |was.tags|
        invariant Model() == Edited(was, edits[..n])
      {
        EditedStep(was, edits, n);
        assert edits[n] in edits;
        Apply(edits[n], low);
        n := n + 1;
      }
      assert edits[..n] == edits;
    }

    /** One edit of a handler. */
    method Apply(edit: Edit, ghost low: nat)
      requires Valid() && FIXED_SOURCES <= low <= count
      requires forall k :: edit.Unwatch? && FIXED_SOURCES <= k < low ==> watched[k].token != edit.token
      modifies this`count, this`next, watched, watches
      ensures Valid() && low <= count
      ensures watched[..low] == old(watched[..low]) && watches[..low] == old(watches[..low])
      ensures |old(Model()).polls| == |old(Model()).tags| && Model() == EditedOnce(old(Model()), edit)
    {
      hide Aligned, FixedInPlace, Unwatched, Watched;
      AlignedLengths(watched[..count], watches[..count]);
      match edit {
        case Unwatch(token) => Unwatch(token);
        case Add(fd, source) =>
          ghost var before, polls, tags := count, watched[..count], watches[..count];
          Prefixes(polls, watched[..], before);
          Prefixes(tags, watches[..], before);
          var _ := Watch(fd, source);
          Prefixes(polls, watched[..], before);
          Prefixes(tags, watches[..], before);
      }
    }

    /** Runs the source if it is ready; the ones below keep their place. */
    method RunSource(i: nat, handlers: nat -> seq<Edit>)
      requires Valid() && i < count
      requires forall token, e :: token >= FIXED_SOURCES && e in handlers(token) && e.Unwatch? ==> e.token == token
      modifies this`count, this`next, this`log, watched, watches
      ensures Valid() && i <= count && watched[..i] == old(watched[..i]) && watches[..i] == old(watches[..i])
      ensures log == old(log) + old(Turn(watched[i], watches[i]))
      ensures |old(Model()).polls| == |old(Model()).tags|
      ensures Model() == if old(watched[i].ready) then Edited(old(Model()), handlers(old(watches[i].token)))
              else old(Model())
    {
      hide Aligned, FixedInPlace;
      if watched[i].ready {
        log := log + [watches[i]];
        OwnTokenOnly(watched[..count], watches[..count], i);
        ghost var low := if i < FIXED_SOURCES then FIXED_SOURCES else i;
        ghost var polls, tags := watched[..low], watches[..low];
        Handle(handlers(watches[i].token), low);
        assert watched[..i] == watched[..low][..i] == polls[..i];
        assert watches[..i] == watches[..low][..i] == tags[..i];
      }
    }

    /** One sweep from the last source down runs exactly what was ready, whatever the handlers drop and add. */
    method Run(handlers: nat -> seq<Edit>)
      requires Valid()
      requires forall token, e :: token >= FIXED_SOURCES && e in handlers(token) && e.Unwatch? ==> e.token == token
      modifies this`count, this`next, this`log, watched, watches
      ensures Valid()
      ensures log == old(log) + old(ReadyDown(watched[..count], watches[..count], count))
      ensures |old(Model()).polls| == |old(Model()).tags| && Model() == Swept(old(Model()), old(count), handlers)
    {
      hide Aligned, FixedInPlace, ReadyDown, Turn, Swept, Edited;
      ghost var polls, tags := watched[..count], watches[..count];
      AlignedLengths(polls, tags);
      var i := count;
      while i > 0
        invariant 0 <= i <= count && i <= |polls| == |tags| && Valid()
        invariant watched[..i] == polls[..i] && watches[..i] == tags[..i]
        invariant log + ReadyDown(polls, tags, i) == old(log) + ReadyDown(polls, tags, |polls|)
        invariant |Model().polls| == |Model().tags|
        invariant Swept(Model(), i, handlers) == Swept(old(Model()), old(count), handlers)
      {
        i := i - 1;
        ShorterPrefix(watched[..i + 1], polls, i);
        ShorterPrefix(watches[..i + 1], tags, i);
        assert watched[..i + 1][..i] == watched[..i] && watches[..i + 1][..i] == watches[..i];
        ReadyStep(polls, tags, i);
        ghost var before, rest := log, ReadyDown(polls, tags, i);
        SweptStep(Model(), i, handlers);
        RunSource(i, handlers);
        assert before + Turn(polls[i], tags[i]) + rest == before + (Turn(polls[i], tags[i]) + rest);
      }
      ReadyNone(polls, tags);
      SweptNone(Model(), handlers);
    }

    /** What the bus asks for between the poll and the sweep: sources are added, and none is dropped. */
    method AddAll(adds: seq<(int, int)>)
      requires Valid()
      modifies this`count, this`next, watched, watches
      ensures Valid() && old(count) <= count
      ensures Added(old(watched[..count]), old(watches[..count]), watched[..count], watches[..count])
      ensures |old(Model()).polls| == |old(Model()).tags| && Model() == Edited(old(Model()), AddEdits(adds))
    {
      hide Aligned, FixedInPlace, Watched;
      assert AddEdits(adds)[..0] == [];
      ghost var polls, tags := watched[..count], watches[..count];
      var i := 0;
      while i < |adds|
        invariant 0 <= i <= |adds| && Valid() && |polls| == |tags| <= count
        invariant watched[..|polls|] == polls && watches[..|polls|] == tags
        invariant forall k :: |polls| <= k < count ==> !watched[k].ready
        invariant Model() == Edited(old(Model()), AddEdits(adds)[..i])
      {
        assert AddEdits(adds)[..i + 1][..i] == AddEdits(adds)[..i];
        ghost var before := count;
        ghost var was, marks := watched[..count], watches[..count];
        var added := Watch(adds[i].0, adds[i].1);
        assert watched[..|polls|] == watched[..before][..|polls|] == was[..|polls|];
        assert watches[..|polls|] == watches[..before][..|polls|] == marks[..|polls|];
        forall k | |polls| <= k < count ensures !watched[k].ready {
          if k < before { assert watched[k] == watched[..before][k] == was[k]; }
        }
        i := i + 1;
      }
      assert AddEdits(adds)[..i] == AddEdits(adds);
    }

    /** One round after a poll: the bus is heard first, and the sweep then runs exactly what the poll found ready. */
    method Round(adds: seq<(int, int)>, handlers: nat -> seq<Edit>)
      requires Valid()
      requires forall token, e :: token >= FIXED_SOURCES && e in handlers(token) && e.Unwatch? ==> e.token == token
      modifies this`count, this`next, this`log, watched, watches
      ensures Valid()
      ensures log == old(log) + old(ReadyDown(watched[..count], watches[..count], count))
      ensures |old(Model()).polls| == |old(Model()).tags|
      ensures var heard := Edited(old(Model()), AddEdits(adds)); Model() == Swept(heard, |heard.polls|, handlers)
    {
      hide Aligned, FixedInPlace, ReadyDown, Added, Edited, Swept;
      ghost var polls, tags := watched[..count], watches[..count];
      AlignedLengths(polls, tags);
      AddAll(adds);
      AddedTakesNoTurn(polls, tags, watched[..count], watches[..count], count);
      Run(handlers);
    }
  }
}
