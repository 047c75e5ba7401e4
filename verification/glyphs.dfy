/**
 The glyph table of a font face: open addressing with linear probing, doubled when half full.
 A slot is free while its page is 0; a glyph that could not be drawn has page -1.
 */
module Glyphs {
  import Atlas

  const FIRST_CAPACITY := 256

  datatype Glyph = Glyph(id: nat, page: int, x: int, y: int, width: int, height: int, left: int, top: int)

  const BLANK := Glyph(0, 0, 0, 0, 0, 0, 0, 0)

  /** What the font renderer makes of a glyph. */
  datatype Rendering = Unrenderable | Bitmap(width: nat, rows: nat, left: int, top: int)

  // Probing.

  /** The slot `step` places after `home`, going round. */
  function Probe(home: nat, step: nat, capacity: nat): (slot: nat)
    requires home < capacity && step < capacity
    ensures slot < capacity
  {
    if home + step < capacity then home + step else home + step - capacity
  }

  /** How far a slot is from home, going round. */
  function Steps(home: nat, slot: nat, capacity: nat): (steps: nat)
    requires home < capacity && slot < capacity
    ensures steps < capacity && Probe(home, steps, capacity) == slot
  {
    if slot >= home then slot - home else slot + capacity - home
  }

  lemma Around(slot: nat, capacity: nat)
    requires slot < capacity
    ensures (slot + 1) % capacity == if slot + 1 == capacity then 0 else slot + 1
  {
    if slot + 1 < capacity { SmallRemainder(slot + 1, capacity); }
  }

  lemma SmallRemainder(a: nat, b: nat)
    requires a < b
    ensures a % b == a
  {
  }

  /** The slots a probe for `id` passes before `step` are all taken. */
  predicate Passed(slots: seq<Glyph>, id: nat, step: nat)
    requires |slots| > 0 && step < |slots|
  {
    forall k: nat :: k < step ==> slots[Probe(id % |slots|, k, |slots|)].page != 0
  }

  /**
   `at` is where each glyph of the table lies. Nothing is lost or doubled, and every
   glyph can be reached from its home without crossing a free slot.
   */
  ghost predicate Indexed(slots: seq<Glyph>, at: map<nat, nat>) {
    && |slots| > 0
    && (forall id :: id in at ==> at[id] < |slots| && slots[at[id]].page != 0 && slots[at[id]].id == id)
    && (forall s: nat :: s < |slots| && slots[s].page != 0 ==> slots[s].id in at && at[slots[s].id] == s)
    && (forall id :: id in at ==> Passed(slots, id, Steps(id % |slots|, at[id], |slots|)))
  }

  /** The map the table stands for. */
  ghost function Contents(slots: seq<Glyph>, at: map<nat, nat>): map<nat, Glyph>
    requires forall id :: id in at ==> at[id] < |slots|
  {
    map id | id in at :: slots[at[id]]
  }

  /** A probe for an absent id stops here. */
  predicate Landing(slots: seq<Glyph>, id: nat, slot: nat) {
    && |slots| > 0 && slot < |slots| && slots[slot].page == 0
    && Passed(slots, id, Steps(id % |slots|, slot, |slots|))
  }

  /** The slots before `step` hold other glyphs. */
  predicate PassedOthers(slots: seq<Glyph>, id: nat, step: nat)
    requires |slots| > 0 && step < |slots|
  {
    && Passed(slots, id, step)
    && forall k: nat :: k < step ==> slots[Probe(id % |slots|, k, |slots|)].id != id
  }

  /** A probe for a glyph of the table meets no free slot before the glyph. */
  lemma PresentIsReached(slots: seq<Glyph>, at: map<nat, nat>, id: nat, step: nat)
    requires Indexed(slots, at) && id in at && step < |slots| && PassedOthers(slots, id, step)
    ensures slots[Probe(id % |slots|, step, |slots|)].page != 0
  {
    var home := id % |slots|;
    var found := Steps(home, at[id], |slots|);
    assert Probe(home, found, |slots|) == at[id];
    assert step <= found;
  }

  /** A probe past other glyphs stops at the glyph itself or at a free slot that proves it absent. */
  lemma ProbeStops(slots: seq<Glyph>, at: map<nat, nat>, id: nat, step: nat)
    requires Indexed(slots, at) && step < |slots| && PassedOthers(slots, id, step)
    ensures var slot := Probe(id % |slots|, step, |slots|);
            && (slots[slot].page == 0 ==> id !in at && Landing(slots, id, slot))
            && (slots[slot].page != 0 && slots[slot].id == id ==> id in at && at[id] == slot)
  {
    var slot := Probe(id % |slots|, step, |slots|);
    assert Steps(id % |slots|, slot, |slots|) == step;
    if id in at { PresentIsReached(slots, at, id, step); }
  }

  /** Filling the slot where its probe stopped adds exactly that glyph to the map. */
  lemma FillLanding(slots: seq<Glyph>, at: map<nat, nat>, glyph: Glyph, slot: nat)
    requires Indexed(slots, at) && glyph.id !in at && glyph.page != 0 && Landing(slots, glyph.id, slot)
    ensures Indexed(slots[slot := glyph], at[glyph.id := slot])
    ensures Contents(slots[slot := glyph], at[glyph.id := slot]) == Contents(slots, at)[glyph.id := glyph]
  {
    var filled, index := slots[slot := glyph], at[glyph.id := slot];
    forall id | id in index ensures Passed(filled, id, Steps(id % |filled|, index[id], |filled|)) {
      if id == glyph.id {
        assert Passed(slots, id, Steps(id % |slots|, slot, |slots|));
      } else {
        assert Passed(slots, id, Steps(id % |slots|, at[id], |slots|));
      }
    }
  }

  /** Redrawing a glyph in its own slot changes only that entry. */
  lemma RefillSlot(slots: seq<Glyph>, at: map<nat, nat>, glyph: Glyph)
    requires Indexed(slots, at) && glyph.id in at && glyph.page != 0
    ensures Indexed(slots[at[glyph.id] := glyph], at)
    ensures Contents(slots[at[glyph.id] := glyph], at) == Contents(slots, at)[glyph.id := glyph]
  {
    var filled := slots[at[glyph.id] := glyph];
    forall id | id in at ensures Passed(filled, id, Steps(id % |filled|, at[id], |filled|)) {
      assert Passed(slots, id, Steps(id % |slots|, at[id], |slots|));
    }
  }

  ghost function IdsOf(slots: seq<Glyph>): set<nat> {
    set s: nat | s < |slots| :: slots[s].id
  }

  /** Slots with different ids have that many ids. */
  lemma {:induction false} IdsCount(slots: seq<Glyph>)
    requires forall s, r :: 0 <= s < r < |slots| ==> slots[s].id != slots[r].id
    ensures |IdsOf(slots)| == |slots|
  {
    if slots != [] {
      var last := |slots| - 1;
      IdsCount(slots[..last]);
      assert IdsOf(slots) == IdsOf(slots[..last]) + {slots[last].id} by {
        assert forall s: nat :: s < last ==> slots[..last][s] == slots[s];
        forall id | id in IdsOf(slots) ensures id in IdsOf(slots[..last]) + {slots[last].id} {
          var s: nat :| s < |slots| && slots[s].id == id;
          if s < last { assert slots[..last][s].id == id; }
        }
      }
    } else {
      assert IdsOf(slots) == {};
    }
  }

  /** A table that is not full has a free slot, so every probe ends. */
  lemma FreeSlotExists(slots: seq<Glyph>, at: map<nat, nat>)
    requires Indexed(slots, at) && |at| < |slots|
    ensures exists s: nat :: s < |slots| && slots[s].page == 0
  {
    if forall s: nat :: s < |slots| ==> slots[s].page != 0 {
      IdsCount(slots);
      assert IdsOf(slots) <= at.Keys;
      SubsetCount(IdsOf(slots), at.Keys);
      assert false;
    }
  }

  lemma {:induction false} SubsetCount(a: set<nat>, b: set<nat>)
    requires a <= b
    ensures |a| <= |b|
  {
    if a != {} {
      var x :| x in a;
      SubsetCount(a - {x}, b - {x});
    }
  }

  lemma ContentsAt(slots: seq<Glyph>, at: map<nat, nat>, id: nat)
    requires Indexed(slots, at)
    ensures id in Contents(slots, at) <==> id in at
    ensures id in at ==> at[id] < |slots| && Contents(slots, at)[id] == slots[at[id]]
  {
  }

  // Growing.

  /** The first `i` slots of the former table have been moved over. */
  ghost predicate Moved(former: seq<Glyph>, at: map<nat, nat>, i: nat, grown: seq<Glyph>, index: map<nat, nat>) {
    && Indexed(grown, index)
    && (forall id :: id in index <==> id in at && at[id] < i)
    && (forall id :: id in index ==> at[id] < |former| && grown[index[id]] == former[at[id]])
  }

  lemma MovingFits(former: seq<Glyph>, at: map<nat, nat>, i: nat, grown: seq<Glyph>, index: map<nat, nat>)
    requires Moved(former, at, i, grown, index)
    ensures |index| <= |at| && Indexed(grown, index)
  {
    SubsetCount(index.Keys, at.Keys);
    assert |index| == |index.Keys| && |at| == |at.Keys|;
  }

  lemma MoveGlyph(former: seq<Glyph>, at: map<nat, nat>, i: nat, grown: seq<Glyph>, index: map<nat, nat>, slot: nat)
    requires Indexed(former, at) && Moved(former, at, i, grown, index)
    requires i < |former| && former[i].page != 0 && Landing(grown, former[i].id, slot)
    ensures Moved(former, at, i + 1, grown[slot := former[i]], index[former[i].id := slot])
  {
    var id := former[i].id;
    assert at[id] == i;
    FillLanding(grown, index, former[i], slot);
  }

  lemma SkipFree(former: seq<Glyph>, at: map<nat, nat>, i: nat, grown: seq<Glyph>, index: map<nat, nat>)
    requires Indexed(former, at) && Moved(former, at, i, grown, index)
    requires i < |former| && former[i].page == 0
    ensures Moved(former, at, i + 1, grown, index)
  {
  }

  /** Rehashing loses nothing and doubles nothing. */
  lemma MovedAll(former: seq<Glyph>, at: map<nat, nat>, grown: seq<Glyph>, index: map<nat, nat>)
    requires Indexed(former, at) || at == map[]
    requires Moved(former, at, |former|, grown, index)
    ensures Indexed(grown, index)
    ensures Contents(grown, index) == Contents(former, at) && |index| == |at|
  {
    assert index.Keys == at.Keys;
    assert |index| == |index.Keys| && |at| == |at.Keys|;
  }

  lemma NothingMoved(former: seq<Glyph>, at: map<nat, nat>, grown: seq<Glyph>)
    requires |grown| > 0 && forall s :: 0 <= s < |grown| ==> grown[s].page == 0
    ensures Moved(former, at, 0, grown, map[])
  {
  }

  class GlyphTable {
    var slots: array<Glyph>
    var count: nat
    /** Where each glyph lies. */
    ghost var at: map<nat, nat>

    ghost predicate Valid()
      reads this, slots
    {
      && count == |at|
      && slots.Length % 2 == 0
      && (slots.Length == 0 ==> at == map[])
      && (slots.Length > 0 ==> Indexed(slots[..], at) && count * 2 <= slots.Length)
    }

    ghost function Model(): map<nat, Glyph>
      reads this, slots
      requires Valid()
    {
      Contents(slots[..], at)
    }

    constructor ()
      ensures Valid() && Model() == map[] && fresh(slots)
    {
      slots := new Glyph[0];
      count, at := 0, map[];
    }

    /** Moves every glyph of one array into another, blank one. */
    static method Rehash(former: array<Glyph>, grown: array<Glyph>, ghost at: map<nat, nat>)
          returns (ghost index: map<nat, nat>)
      requires former != grown && grown.Length > |at|
      requires forall s :: 0 <= s < grown.Length ==> grown[s].page == 0
      requires if former.Length == 0 then at == map[] else Indexed(former[..], at)
      modifies grown
      ensures Indexed(grown[..], index) && |index| == |at|
      ensures Contents(grown[..], index) == Contents(former[..], at)
    {
      hide Indexed, Moved, Landing, Contents;
      index := map[];
      NothingMoved(former[..], at, grown[..]);
      for i := 0 to former.Length
        invariant Moved(former[..], at, i, grown[..], index)
      {
        if former[i].page != 0 {
          MovingFits(former[..], at, i, grown[..], index);
          var slot := FreeSlotFor(grown, former[i].id, index);
          MoveGlyph(former[..], at, i, grown[..], index, slot);
          ghost var filled := grown[..][slot := former[i]];
          grown[slot] := former[i];
          assert grown[..] == filled;
          index := index[former[i].id := slot];
        } else {
          SkipFree(former[..], at, i, grown[..], index);
        }
      }
      MovedAll(former[..], at, grown[..], index);
    }

    /** Replaces the table by one twice the size; the map stays the same. */
    method Grow()
      requires Valid()
      modifies this
      ensures Valid() && Model() == old(Model()) && fresh(slots)
      ensures slots.Length == if old(slots.Length) == 0 then FIRST_CAPACITY else old(slots.Length) * 2
      ensures count * 2 < slots.Length && count == old(count)
    {
      hide Indexed, Contents;
      var capacity := if slots.Length == 0 then FIRST_CAPACITY else slots.Length * 2;
      var grown := new Glyph[capacity](_ => BLANK);
      ghost var index := Rehash(slots, grown, at);
      slots, at := grown, index;
    }

    /** The loop that rehashes one glyph known to be absent: the first free slot from its home on. */
    static method FreeSlotFor(slots: array<Glyph>, id: nat, ghost at: map<nat, nat>) returns (slot: nat)
      requires Indexed(slots[..], at) && |at| < slots.Length
      ensures Landing(slots[..], id, slot)
    {
      FreeSlotExists(slots[..], at);
      slot := id % slots.Length;
      ghost var step := 0;
      ghost var free: nat :| free < slots.Length && slots[free].page == 0;
      ghost var last := Steps(id % slots.Length, free, slots.Length);
      while slots[slot].page != 0
        invariant step <= last && slot < slots.Length && slot == Probe(id % slots.Length, step, slots.Length)
        invariant Passed(slots[..], id, step)
        decreases last - step
      {
        assert step != last;
        Around(slot, slots.Length);
        slot := (slot + 1) % slots.Length;
        step := step + 1;
      }
    }

    /** The loop that looks a glyph up: its own slot, or the free one where it belongs. */
    static method Seek(slots: array<Glyph>, id: nat, ghost at: map<nat, nat>) returns (slot: nat)
      requires Indexed(slots[..], at) && |at| < slots.Length
      ensures slot < slots.Length
      ensures id in at ==> at[id] == slot && slots[slot].page != 0 && slots[slot].id == id
      ensures id !in at ==> Landing(slots[..], id, slot) && slots[slot].page == 0
    {
      hide Indexed, Landing;
      ghost var now := slots[..];
      FreeSlotExists(now, at);
      slot := id % slots.Length;
      ghost var step := 0;
      ghost var free: nat :| free < |now| && now[free].page == 0;
      ghost var last := Steps(id % |now|, free, |now|);
      while slots[slot].page != 0 && slots[slot].id != id
        invariant step <= last < |now| && slot == Probe(id % |now|, step, |now|) && slot < slots.Length
        invariant PassedOthers(now, id, step)
        decreases last - step
      {
        assert step != last;
        Around(slot, slots.Length);
        slot := (slot + 1) % slots.Length;
        step := step + 1;
      }
      ProbeStops(now, at, id, step);
    }

    /**
     The slot of a glyph: its own entry when the table has it, otherwise the free slot
     where it belongs. The table doubles first when it is half full.
     */
    method FindGlyph(id: nat) returns (slot: nat)
      requires Valid()
      modifies this
      ensures Valid() && Model() == old(Model()) && count == old(count)
      ensures if old(count * 2 < slots.Length) then slots == old(slots) else fresh(slots)
      ensures slot < slots.Length && count * 2 < slots.Length
      ensures id in Model() ==> at[id] == slot && slots[slot] == Model()[id] && slots[slot].id == id
      ensures id !in Model() ==> Landing(slots[..], id, slot)
      ensures id in Model() <==> slots[slot].page != 0
    {
      hide Indexed, Landing, Contents;
      if count * 2 >= slots.Length {
        Grow();
      }
      ContentsAt(slots[..], at, id);
      slot := Seek(slots, id, at);
    }

    /** Fills the free slot found for a new glyph. */
    method Enter(glyph: Glyph, slot: nat)
      requires Valid() && glyph.page != 0 && glyph.id !in Model()
      requires slot < slots.Length && Landing(slots[..], glyph.id, slot) && count * 2 < slots.Length
      modifies this`count, this`at, slots
      ensures Valid() && Model() == old(Model())[glyph.id := glyph]
      ensures glyph.id in at && at[glyph.id] == slot
    {
      hide Indexed, Landing, Contents;
      ContentsAt(slots[..], at, glyph.id);
      FillLanding(slots[..], at, glyph, slot);
      ghost var filled := slots[..][slot := glyph];
      slots[slot] := glyph;
      assert slots[..] == filled;
      at := at[glyph.id := slot];
      count := count + 1;
    }

    /** Overwrites the entry of a known glyph. */
    method Redraw(glyph: Glyph, slot: nat)
      requires Valid() && glyph.page != 0 && glyph.id in at && at[glyph.id] == slot
      modifies slots
      ensures Valid() && Model() == old(Model())[glyph.id := glyph]
    {
      RefillSlot(slots[..], at, glyph);
      hide Indexed, Contents;
      ghost var filled := slots[..][slot := glyph];
      slots[slot] := glyph;
      assert slots[..] == filled;
    }

    /**
     The entry of a glyph, drawn into the atlas the first time it is asked for. A known
     glyph is returned as it is; a new one gets a rectangle of its own, or page -1 when it
     has no bitmap or the atlas is full. Other glyphs are not touched.
     */
    method GetGlyph(id: nat, rendering: Rendering, atlas: Atlas.GlyphAtlas) returns (entry: Glyph)
      requires Valid() && atlas.Valid()
      modifies this, slots, atlas
      ensures Valid() && atlas.Valid() && (slots == old(slots) || fresh(slots))
      ensures id in Model() && entry == Model()[id] && entry.id == id
      ensures id in old(Model()) ==> Model() == old(Model()) && atlas.placed == old(atlas.placed)
      ensures id !in old(Model()) ==> Model() == old(Model())[id := entry]
      ensures id !in old(Model()) && entry.page == -1 ==> atlas.placed == old(atlas.placed)
      ensures id !in old(Model()) && entry.page != -1 ==>
                && rendering.Bitmap? && entry.page >= 1
                && atlas.placed == old(atlas.placed)
                     + [Atlas.Rect(entry.page - 1, entry.x, entry.y, entry.width, entry.height)]
                && entry.width == rendering.width && entry.height == rendering.rows
                && entry.left == rendering.left && entry.top == rendering.top
      ensures id !in old(Model()) && rendering.Bitmap? && rendering.width > 0 && rendering.rows > 0
              && entry.page == -1 ==>
                |old(atlas.pages)| == Atlas.ATLAS_PAGES_MAX
                && !Atlas.HasRoom(old(atlas.pages), rendering.width, rendering.rows)
    {
      hide Indexed, Landing, Contents, Atlas.Packed, Atlas.Placing;
      var slot := FindGlyph(id);
      if slots[slot].page != 0 {
        return slots[slot];
      }
      entry := BLANK.(id := id, page := -1);
      Enter(entry, slot);
      if rendering.Unrenderable? || rendering.width == 0 || rendering.rows == 0 {
        return;
      }
      Atlas.PlacingPacks(atlas.pages, atlas.placed, rendering.width, rendering.rows);
      var placement := atlas.Place(rendering.width, rendering.rows);
      if placement.Full? {
        return;
      }
      entry := Glyph(id, placement.rect.page + 1, placement.rect.x, placement.rect.y,
                     rendering.width, rendering.rows, rendering.left, rendering.top);
      Redraw(entry, slot);
    }
  }
}
