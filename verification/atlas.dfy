/**
 The glyph atlas: pages of ATLAS_SIZE by ATLAS_SIZE texels, filled shelf by shelf.
 */
module Atlas {

  const ATLAS_SIZE := 2048
  const ATLAS_PAGES_MAX := 16
  const GLYPH_PADDING := 1

  /** The cursor of a page: where the next glyph goes, and how tall the current shelf is. */
  datatype Page = Page(x: int, y: int, shelf: int)

  datatype Rect = Rect(page: nat, x: int, y: int, width: int, height: int)

  predicate InBounds(r: Rect) {
    0 <= r.x && 0 <= r.y && r.x + r.width <= ATLAS_SIZE && r.y + r.height <= ATLAS_SIZE
  }

  /** The rectangles lie at least GLYPH_PADDING apart, along one axis or the other. */
  predicate Apart(a: Rect, b: Rect) {
    || a.x + a.width + GLYPH_PADDING <= b.x
    || b.x + b.width + GLYPH_PADDING <= a.x
    || a.y + a.height + GLYPH_PADDING <= b.y
    || b.y + b.height + GLYPH_PADDING <= a.y
  }

  /** A rectangle of a closed shelf, or one left of the cursor on the current shelf. */
  predicate Behind(r: Rect, page: Page) {
    || r.y + r.height + GLYPH_PADDING <= page.y
    || (r.y == page.y && r.x + r.width + GLYPH_PADDING <= page.x && r.height + GLYPH_PADDING <= page.shelf)
  }

  /** The rectangles placed so far, against the cursors of the pages. */
  ghost predicate Packed(pages: seq<Page>, placed: seq<Rect>) {
    && (forall p :: 0 <= p < |pages| ==> pages[p].x >= 0 && pages[p].y >= 0 && pages[p].shelf >= 0)
    && (forall i :: 0 <= i < |placed| ==> placed[i].page < |pages| && placed[i].x >= 0 && placed[i].y >= 0)
    && (forall i :: 0 <= i < |placed| ==> Behind(placed[i], pages[placed[i].page]))
    && (forall i, j :: 0 <= i < j < |placed| && placed[i].page == placed[j].page ==> Apart(placed[i], placed[j]))
  }

  /** Closing a shelf leaves everything behind the cursor. */
  lemma ClosedShelf(pages: seq<Page>, placed: seq<Rect>, last: nat)
    requires Packed(pages, placed) && last < |pages|
    ensures Packed(pages[last := Page(0, pages[last].y + pages[last].shelf, 0)], placed)
  {
  }

  /** A rectangle at the cursor is apart from everything behind the cursor. */
  lemma PutAtCursor(pages: seq<Page>, placed: seq<Rect>, last: nat, width: int, height: int)
    requires Packed(pages, placed) && last < |pages| && width > 0 && height > 0
    ensures Packed(pages[last := Advanced(pages[last], width, height)],
                   placed + [Rect(last, pages[last].x, pages[last].y, width, height)])
    ensures pages[last].x >= 0 && pages[last].y >= 0
  {
    var rect := Rect(last, pages[last].x, pages[last].y, width, height);
    forall i | 0 <= i < |placed| && placed[i].page == last ensures Apart(placed[i], rect) {
      assert Behind(placed[i], pages[last]);
    }
  }

  function Advanced(page: Page, width: int, height: int): Page {
    Page(page.x + width + GLYPH_PADDING, page.y,
         if height + GLYPH_PADDING > page.shelf then height + GLYPH_PADDING else page.shelf)
  }

  /** What `Place` answers. */
  datatype Placement = Full | At(rect: Rect)

  /** The pages once a bitmap too wide for the rest of the shelf has closed it. */
  function Shelved(pages: seq<Page>, width: int): (shelved: seq<Page>)
    ensures |shelved| == |pages|
  {
    var last := |pages| - 1;
    if pages != [] && pages[last].x + width > ATLAS_SIZE
    then pages[last := Page(0, pages[last].y + pages[last].shelf, 0)]
    else pages
  }

  /** Where a bitmap goes and how the pages look afterwards. */
  function Placing(pages: seq<Page>, width: int, height: int): (seq<Page>, Placement) {
    var shelved := Shelved(pages, width);
    var crowded := shelved == [] || shelved[|shelved| - 1].y + height > ATLAS_SIZE;
    if crowded && |shelved| == ATLAS_PAGES_MAX then (shelved, Full)
    else
      var open := if crowded then shelved + [Page(0, 0, 0)] else shelved;
      var last := |open| - 1;
      (open[last := Advanced(open[last], width, height)], At(Rect(last, open[last].x, open[last].y, width, height)))
  }

  lemma ShelvedPacks(pages: seq<Page>, placed: seq<Rect>, width: int)
    requires Packed(pages, placed) && width > 0
    ensures var shelved := Shelved(pages, width);
            && Packed(shelved, placed)
            && (shelved != [] ==> (var x := shelved[|shelved| - 1].x; x == 0 || x + width <= ATLAS_SIZE))
  {
    if pages != [] { ClosedShelf(pages, placed, |pages| - 1); }
  }

  lemma OpenedPacks(pages: seq<Page>, placed: seq<Rect>)
    requires Packed(pages, placed)
    ensures Packed(pages + [Page(0, 0, 0)], placed)
  {
  }

  /** Placing keeps everything placed apart; the new rectangle is in its page iff the bitmap fits one. */
  lemma PlacingPacks(pages: seq<Page>, placed: seq<Rect>, width: int, height: int)
    requires Packed(pages, placed) && width > 0 && height > 0
    ensures var (next, placement) := Placing(pages, width, height);
            && Packed(next, if placement.At? then placed + [placement.rect] else placed)
            && (placement.Full? ==> |pages| == |next| == ATLAS_PAGES_MAX)
            && (placement.At? ==>
                  && placement.rect.width == width && placement.rect.height == height
                  && (InBounds(placement.rect) <==> width <= ATLAS_SIZE && height <= ATLAS_SIZE))
  {
    hide Packed, Apart, Behind, Shelved;
    ShelvedPacks(pages, placed, width);
    var shelved := Shelved(pages, width);
    var crowded := shelved == [] || shelved[|shelved| - 1].y + height > ATLAS_SIZE;
    if !(crowded && |shelved| == ATLAS_PAGES_MAX) {
      OpenedPacks(shelved, placed);
      var open := if crowded then shelved + [Page(0, 0, 0)] else shelved;
      PutAtCursor(open, placed, |open| - 1, width, height);
    }
  }

  /** All rectangles handed out for a list of bitmaps, some of which may find no room. */
  function Rects(sizes: seq<(int, int)>): (seq<Page>, seq<Rect>) {
    if sizes == [] then ([], [])
    else
      var (pages, placed) := Rects(sizes[..|sizes| - 1]);
      var (width, height) := sizes[|sizes| - 1];
      var (next, placement) := Placing(pages, width, height);
      (next, if placement.At? then placed + [placement.rect] else placed)
  }

  lemma NothingPlaced()
    ensures Packed([], [])
  {
  }

  lemma PackedApart(pages: seq<Page>, placed: seq<Rect>)
    requires Packed(pages, placed)
    ensures forall i, j :: 0 <= i < j < |placed| && placed[i].page == placed[j].page ==> Apart(placed[i], placed[j])
  {
    hide Behind, Apart;
  }

  /** Through any run of bitmaps no two rectangles of a page come closer than the padding. */
  lemma {:induction false} NeverTouching(sizes: seq<(int, int)>)
    requires forall i :: 0 <= i < |sizes| ==> sizes[i].0 > 0 && sizes[i].1 > 0
    ensures Packed(Rects(sizes).0, Rects(sizes).1)
    ensures forall i, j :: 0 <= i < j < |Rects(sizes).1| && Rects(sizes).1[i].page == Rects(sizes).1[j].page ==>
                             Apart(Rects(sizes).1[i], Rects(sizes).1[j])
    ensures (forall i :: 0 <= i < |sizes| ==> sizes[i].0 <= ATLAS_SIZE && sizes[i].1 <= ATLAS_SIZE) ==>
              forall i :: 0 <= i < |Rects(sizes).1| ==> InBounds(Rects(sizes).1[i])
  {
    hide InBounds, Apart, Placing, Packed;
    if sizes == [] {
      NothingPlaced();
    } else {
      var rest := sizes[..|sizes| - 1];
      NeverTouching(rest);
      PlacingPacks(Rects(rest).0, Rects(rest).1, sizes[|sizes| - 1].0, sizes[|sizes| - 1].1);
    }
    PackedApart(Rects(sizes).0, Rects(sizes).1);
  }

  // No room is given away.

  /** The last page takes the bitmap: on its shelf, or on a new one below. */
  predicate HasRoom(pages: seq<Page>, width: int, height: int) {
    pages != [] &&
      var page := pages[|pages| - 1];
      if page.x + width <= ATLAS_SIZE then page.y + height <= ATLAS_SIZE
      else page.y + page.shelf + height <= ATLAS_SIZE
  }

  /** Where the bitmap goes there: next to the last one, or at the start of a new shelf. */
  function Room(pages: seq<Page>, width: int, height: int): Rect
    requires pages != []
  {
    var last := |pages| - 1;
    var page := pages[last];
    if page.x + width <= ATLAS_SIZE then Rect(last, page.x, page.y, width, height)
    else Rect(last, 0, page.y + page.shelf, width, height)
  }

  /**
   A page is opened exactly if the last one has no room and there may be one more; without either
   nothing is drawn.
   */
  lemma UsesTheRoom(pages: seq<Page>, width: int, height: int)
    requires |pages| <= ATLAS_PAGES_MAX
    ensures var (next, placement) := Placing(pages, width, height);
            && (HasRoom(pages, width, height) ==> |next| == |pages| && placement == At(Room(pages, width, height)))
            && (!HasRoom(pages, width, height) && |pages| < ATLAS_PAGES_MAX ==>
                 |next| == |pages| + 1 && placement == At(Rect(|pages|, 0, 0, width, height)))
            && (placement == Full <==> !HasRoom(pages, width, height) && |pages| == ATLAS_PAGES_MAX)
  {
  }

  /** A cursor stands right behind a rectangle: the last of its shelf, the tallest of it, and one of the shelf above. */
  ghost predicate Close(page: Page, p: nat, placed: seq<Rect>) {
    && (page.x != 0 ==> exists i :: 0 <= i < |placed| && placed[i].page == p && EndsAt(placed[i], page))
    && (page.shelf != 0 ==> exists i :: 0 <= i < |placed| && placed[i].page == p && AsTall(placed[i], page))
    && (page.y != 0 ==> exists i :: 0 <= i < |placed| && placed[i].page == p && Above(placed[i], page))
    && (page.x != 0 <==> page.shelf != 0)
  }

  predicate EndsAt(r: Rect, page: Page) {
    r.y == page.y && r.x + r.width + GLYPH_PADDING == page.x
  }

  predicate AsTall(r: Rect, page: Page) {
    r.y == page.y && r.height + GLYPH_PADDING == page.shelf
  }

  predicate Above(r: Rect, page: Page) {
    r.y + r.height + GLYPH_PADDING == page.y
  }

  ghost predicate AllClose(pages: seq<Page>, placed: seq<Rect>) {
    forall p :: 0 <= p < |pages| ==> Close(pages[p], p, placed)
  }

  lemma ShelvedClose(pages: seq<Page>, placed: seq<Rect>, width: int)
    requires AllClose(pages, placed) && Packed(pages, placed) && 0 < width <= ATLAS_SIZE
    ensures AllClose(Shelved(pages, width), placed)
  {
    var last := |pages| - 1;
    if pages != [] && pages[last].x + width > ATLAS_SIZE {
      var i :| 0 <= i < |placed| && placed[i].page == last && AsTall(placed[i], pages[last]);
      assert Above(placed[i], Shelved(pages, width)[last]);
    }
  }

  lemma CloseWithMore(page: Page, p: nat, placed: seq<Rect>, rect: Rect)
    requires Close(page, p, placed)
    ensures Close(page, p, placed + [rect])
  {
    hide EndsAt, AsTall, Above;
    assert forall i :: 0 <= i < |placed| ==> (placed + [rect])[i] == placed[i];
  }

  lemma AdvancedClose(page: Page, p: nat, placed: seq<Rect>, rect: Rect)
    requires Close(page, p, placed) && page.x >= 0 && page.shelf >= 0
    requires rect.page == p && rect.x == page.x && rect.y == page.y && rect.width > 0 && rect.height > 0
    ensures Close(Advanced(page, rect.width, rect.height), p, placed + [rect])
  {
    var next, more := Advanced(page, rect.width, rect.height), placed + [rect];
    CloseWithMore(page, p, placed, rect);
    assert EndsAt(more[|placed|], next);
    if rect.height + GLYPH_PADDING > page.shelf {
      assert AsTall(more[|placed|], next);
    } else {
      var i :| 0 <= i < |more| && more[i].page == p && AsTall(more[i], page);
      assert AsTall(more[i], next);
    }
    if page.y != 0 {
      var i :| 0 <= i < |more| && more[i].page == p && Above(more[i], page);
      assert Above(more[i], next);
    }
  }

  /** Between shelves, and between the rectangles of a shelf, there is the padding and no more. */
  lemma PlacingClose(pages: seq<Page>, placed: seq<Rect>, width: int, height: int)
    requires AllClose(pages, placed) && Packed(pages, placed) && 0 < width <= ATLAS_SIZE && height > 0
    ensures var (next, placement) := Placing(pages, width, height);
            AllClose(next, if placement.At? then placed + [placement.rect] else placed)
  {
    hide Packed, AllClose, Shelved, Behind, Apart, Advanced;
    ShelvedPacks(pages, placed, width);
    ShelvedClose(pages, placed, width);
    var shelved := Shelved(pages, width);
    var (next, placement) := Placing(pages, width, height);
    if placement.At? {
      var rect := placement.rect;
      var open := if rect.page < |shelved| then shelved else shelved + [Page(0, 0, 0)];
      OpenedPacks(shelved, placed);
      OpenedClose(shelved, placed);
      AdvancedAllClose(open, placed, rect);
    }
  }

  lemma OpenedClose(pages: seq<Page>, placed: seq<Rect>)
    requires AllClose(pages, placed)
    ensures AllClose(pages + [Page(0, 0, 0)], placed)
  {
    hide EndsAt, AsTall, Above;
  }

  lemma AdvancedAllClose(pages: seq<Page>, placed: seq<Rect>, rect: Rect)
    requires AllClose(pages, placed) && Packed(pages, placed) && rect.page < |pages|
    requires rect.width > 0 && rect.height > 0
    requires rect.x == pages[rect.page].x && rect.y == pages[rect.page].y
    ensures AllClose(pages[rect.page := Advanced(pages[rect.page], rect.width, rect.height)], placed + [rect])
  {
    var p := rect.page;
    var next := pages[p := Advanced(pages[p], rect.width, rect.height)];
    assert pages[p].x >= 0 && pages[p].shelf >= 0;
    hide Packed, Close, Advanced;
    AdvancedClose(pages[p], p, placed, rect);
    forall q | 0 <= q < |next| ensures Close(next[q], q, placed + [rect]) {
      if q != p { CloseWithMore(next[q], q, placed, rect); }
    }
  }

  /** Through any run of bitmaps that fit a page nothing but the padding is left between them and the cursors. */
  lemma {:induction false} NothingWasted(sizes: seq<(int, int)>)
    requires forall i :: 0 <= i < |sizes| ==> 0 < sizes[i].0 <= ATLAS_SIZE && sizes[i].1 > 0
    ensures AllClose(Rects(sizes).0, Rects(sizes).1)
  {
    hide Placing, Packed, AllClose;
    if sizes == [] {
      assert AllClose([], []) by { NoPages(); }
    } else {
      var rest := sizes[..|sizes| - 1];
      NothingWasted(rest);
      NeverTouching(rest);
      PlacingClose(Rects(rest).0, Rects(rest).1, sizes[|sizes| - 1].0, sizes[|sizes| - 1].1);
    }
  }

  lemma NoPages()
    ensures AllClose([], [])
  {
  }

  /** Every bitmap of a run is placed, in order, until the pages are used up. */
  lemma {:induction false} AllPlaced(sizes: seq<(int, int)>)
    ensures |Rects(sizes).0| <= ATLAS_PAGES_MAX && |Rects(sizes).1| <= |sizes|
    ensures |Rects(sizes).1| < |sizes| ==> |Rects(sizes).0| == ATLAS_PAGES_MAX
    ensures |Rects(sizes).1| == |sizes| ==> forall i :: 0 <= i < |sizes| ==>
              Rects(sizes).1[i].width == sizes[i].0 && Rects(sizes).1[i].height == sizes[i].1
  {
    if sizes != [] {
      var rest := sizes[..|sizes| - 1];
      AllPlaced(rest);
      UsesTheRoom(Rects(rest).0, sizes[|sizes| - 1].0, sizes[|sizes| - 1].1);
      hide Placing, HasRoom;
    }
  }

  class GlyphAtlas {
    var pages: seq<Page>
    /** Every rectangle handed out so far. */
    ghost var placed: seq<Rect>

    ghost predicate Valid()
      reads this
    {
      |pages| <= ATLAS_PAGES_MAX && Packed(pages, placed)
    }

    constructor ()
      ensures Valid() && pages == [] && placed == []
    {
      pages, placed := [], [];
    }

    /** Finds room for a bitmap, opening shelves and pages as needed. */
    method Place(width: int, height: int) returns (placement: Placement)
      requires Valid() && width > 0 && height > 0
      modifies this
      ensures Valid()
      ensures (pages, placement) == Placing(old(pages), width, height)
      ensures placed == if placement.At? then old(placed) + [placement.rect] else old(placed)
      ensures placement == Full <==> |old(pages)| == ATLAS_PAGES_MAX && !HasRoom(old(pages), width, height)
      ensures HasRoom(old(pages), width, height) ==> placement == At(Room(old(pages), width, height))
    {
      hide Packed, HasRoom, Room, InBounds;
      UsesTheRoom(pages, width, height);
      PlacingPacks(pages, placed, width, height);
      var last := |pages| - 1;
      if |pages| > 0 && pages[last].x + width > ATLAS_SIZE {
        pages := pages[last := Page(0, pages[last].y + pages[last].shelf, 0)];
      }
      if |pages| == 0 || pages[last].y + height > ATLAS_SIZE {
        if |pages| == ATLAS_PAGES_MAX {
          placement := Full;
          assert pages == Placing(old(pages), width, height).0;
          return;
        }
        pages := pages + [Page(0, 0, 0)];
        last := |pages| - 1;
      }
      var rect := Rect(last, pages[last].x, pages[last].y, width, height);
      pages := pages[last := pages[last].(x := pages[last].x + width + GLYPH_PADDING)];
      if height + GLYPH_PADDING > pages[last].shelf {
        pages := pages[last := pages[last].(shelf := height + GLYPH_PADDING)];
      }
      assert pages == Placing(old(pages), width, height).0;
      placed := placed + [rect];
      placement := At(rect);
    }
  }
}
