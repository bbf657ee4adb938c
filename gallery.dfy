/**
 * The members' gallery (src/components/content-cove/exclusive-content.tsx): tab
 * partition, hint search, and the lightbox with its main and thumbnail carousels.
 *
 * The carousel library is not part of this model. Each carousel is an object with
 * a slide count and a selected index; `ScrollTo`, `ScrollNext` and `ScrollPrev`
 * are ASSUMED to clamp into range without wrapping (the library's default).
 */
module ExclusiveContent {
  import opened Types
  import Text

  // Tabs and search.

  /** `items.filter(item => item.type === kind)`. */
  function OfKind(items: seq<MediaItem>, kind: MediaKind): (r: seq<MediaItem>)
    ensures |r| <= |items|
  {
    if items == [] then []
    else OfKind(items[..|items| - 1], kind) + (if items[|items| - 1].kind == kind then [items[|items| - 1]] else [])
  }

  /** What `onTabChange(value)` puts in `activeTabItems`. */
  function TabItems(all: seq<MediaItem>, value: string): seq<MediaItem>
  {
    match value
    case "photos" => OfKind(all, Photo)
    case "videos" => OfKind(all, Video)
    case _ => all
  }

  /** `item.hint?.toLowerCase().includes(query.toLowerCase())`. */
  predicate Matches(item: MediaItem, query: string)
  {
    item.hint.Some? && Text.Contains(Text.Lower(item.hint.value), Text.Lower(query))
  }

  /** `filteredItems`. */
  function FilterItems(items: seq<MediaItem>, query: string): (r: seq<MediaItem>)
    ensures |r| <= |items|
  {
    if items == [] then []
    else FilterItems(items[..|items| - 1], query) + (if Matches(items[|items| - 1], query) then [items[|items| - 1]] else [])
  }

  /** The tab lists hold exactly the items of their kind: membership, both directions. */
  lemma {:induction false} OfKindMembers(items: seq<MediaItem>, kind: MediaKind)
    ensures forall x :: x in OfKind(items, kind) <==> x in items && x.kind == kind
  {
    if items != [] {
      var init := items[..|items| - 1];
      OfKindMembers(init, kind);
      assert items == init + [items[|items| - 1]];
    }
  }

  /** Filtering by kind distributes over concatenation, so the original order is kept. */
  lemma {:induction false} OfKindAppend(a: seq<MediaItem>, b: seq<MediaItem>, kind: MediaKind)
    ensures OfKind(a + b, kind) == OfKind(a, kind) + OfKind(b, kind)
  {
    if b == [] {
      assert a + b == a;
    } else {
      assert (a + b)[..|a + b| - 1] == a + b[..|b| - 1];
      OfKindAppend(a, b[..|b| - 1], kind);
    }
  }

  /** Photos and videos split the items: together they are the same multiset. */
  lemma {:induction false} PhotosVideosPartition(items: seq<MediaItem>)
    ensures multiset(OfKind(items, Photo)) + multiset(OfKind(items, Video)) == multiset(items)
    ensures |OfKind(items, Photo)| + |OfKind(items, Video)| == |items|
  {
    if items != [] {
      var init, x := items[..|items| - 1], items[|items| - 1];
      PhotosVideosPartition(init);
      assert items == init + [x];
      assert multiset(items) == multiset(init) + multiset{x};
      if x.kind == Photo {
        assert OfKind(items, Photo) == OfKind(init, Photo) + [x];
        assert OfKind(items, Video) == OfKind(init, Video) + [];
      } else {
        assert OfKind(items, Photo) == OfKind(init, Photo) + [];
        assert OfKind(items, Video) == OfKind(init, Video) + [x];
      }
    }
  }

  /** The search keeps an item iff it matches, in both directions. */
  lemma {:induction false} FilterMembers(items: seq<MediaItem>, query: string)
    ensures forall x :: x in FilterItems(items, query) <==> x in items && Matches(x, query)
  {
    if items != [] {
      var init := items[..|items| - 1];
      FilterMembers(init, query);
      assert items == init + [items[|items| - 1]];
    }
  }

  /** The search distributes over concatenation, so the result is an order-preserving sublist. */
  lemma {:induction false} FilterAppend(a: seq<MediaItem>, b: seq<MediaItem>, query: string)
    ensures FilterItems(a + b, query) == FilterItems(a, query) + FilterItems(b, query)
  {
    if b == [] {
      assert a + b == a;
    } else {
      assert (a + b)[..|a + b| - 1] == a + b[..|b| - 1];
      FilterAppend(a, b[..|b| - 1], query);
    }
  }

  /** An item matches a query iff it has a hint and the lower-cased query occurs in the lower-cased hint. */
  lemma MatchesAt(item: MediaItem, query: string)
    ensures Matches(item, query) <==>
      item.hint.Some? && exists k: nat :: Text.OccursAt(Text.Lower(item.hint.value), Text.Lower(query), k)
  {
    if item.hint.Some? {
      Text.ContainsIff(Text.Lower(item.hint.value), Text.Lower(query));
    }
  }

  /** With an empty query exactly the items that have a hint are shown; items without one never are. */
  lemma EmptyQueryKeepsHinted(item: MediaItem, query: string)
    ensures Matches(item, "") <==> item.hint.Some?
    ensures item.hint.None? ==> !Matches(item, query)
  {
    if item.hint.Some? {
      assert "" <= Text.Lower(item.hint.value);
    }
  }

  /** Every tab value clears the search; the known values pick their part, anything else all items. */
  lemma TabChoice(all: seq<MediaItem>, value: string)
    ensures value == "photos" ==> TabItems(all, value) == OfKind(all, Photo)
    ensures value == "videos" ==> TabItems(all, value) == OfKind(all, Video)
    ensures value != "photos" && value != "videos" ==> TabItems(all, value) == all
  {
  }

  /** `activeTabItems.findIndex(i => i.id === id)`, as `None` for -1. */
  method FindIndex(items: seq<MediaItem>, id: string) returns (r: Option<nat>)
    ensures r.Some? ==> r.value < |items| && items[r.value].id == id
    ensures r.Some? ==> forall j :: 0 <= j < r.value ==> items[j].id != id
    ensures r.None? ==> forall j :: 0 <= j < |items| ==> items[j].id != id
  {
    var i := 0;
    while i < |items|
      invariant 0 <= i <= |items|
      invariant forall j :: 0 <= j < i ==> items[j].id != id
    {
      if items[i].id == id {
        return Some(i);
      }
      i := i + 1;
    }
    return None;
  }

  // Carousels and the lightbox.

  /** Where a clamping carousel of `count` slides lands when asked for slide `i`. */
  function Clamp(count: nat, i: int): (r: nat)
    ensures count == 0 ==> r == 0
    ensures count > 0 ==> r < count
    ensures 0 <= i < count ==> r == i
  {
    if count == 0 || i < 0 then 0 else if i >= count then count - 1 else i
  }

  class Carousel {
    var slideCount: nat
    /** `selectedScrollSnap()`. */
    var index: nat

    ghost predicate Valid()
      reads this
    {
      index == Clamp(slideCount, index)
    }

    constructor (slideCount: nat)
      ensures this.slideCount == slideCount && index == 0 && Valid()
    {
      this.slideCount := slideCount;
      index := 0;
    }

    method ScrollTo(i: int)
      modifies this
      ensures slideCount == old(slideCount) && index == Clamp(slideCount, i) && Valid()
    {
      index := Clamp(slideCount, i);
    }

    method ScrollNext()
      modifies this
      ensures slideCount == old(slideCount) && index == Clamp(slideCount, old(index) + 1) && Valid()
    {
      index := Clamp(slideCount, index + 1);
    }

    method ScrollPrev()
      modifies this
      ensures slideCount == old(slideCount) && index == Clamp(slideCount, old(index) - 1) && Valid()
    {
      index := Clamp(slideCount, index - 1);
    }

    /** `reInit` on a new slide list: the selected index is kept, clamped into the new range. */
    method ReInit(count: nat)
      modifies this
      ensures slideCount == count && index == Clamp(count, old(index)) && Valid()
    {
      slideCount := count;
      index := Clamp(count, index);
    }
  }

  datatype Key = ArrowRight | ArrowLeft | Escape | OtherKey

  class Lightbox {
    /** The bundled item list (`typedMediaItems`). */
    const allItems: seq<MediaItem>
    var selected: Option<nat>
    var activeTabItems: seq<MediaItem>
    var currentSlide: int
    var isFullscreen: bool
    var searchQuery: string
    /** `mainApi` and `thumbApi`; null until the carousels mount. */
    var main: Carousel?
    var thumb: Carousel?

    /**
     * Both carousels render `activeTabItems`, one slide per item, and a selection
     * is an index into that list (it comes from `findIndex` on it).
     */
    ghost predicate Valid()
      reads this, main, thumb
    {
      (main != null ==> main.Valid() && main.slideCount == |activeTabItems|) &&
      (thumb != null ==> thumb.Valid() && thumb.slideCount == |activeTabItems|) &&
      (main != null && thumb != null ==> main != thumb) &&
      (selected.Some? ==> selected.value < |activeTabItems|)
    }

    constructor (allItems: seq<MediaItem>)
      ensures this.allItems == allItems && activeTabItems == allItems
      ensures selected == None && currentSlide == 0 && !isFullscreen && searchQuery == ""
      ensures main == null && thumb == null && Valid()
    {
      this.allItems := allItems;
      activeTabItems := allItems;
      selected := None;
      currentSlide := 0;
      isFullscreen := false;
      searchQuery := "";
      main := null;
      thumb := null;
    }

    /** `filteredItems`, the list the grid renders and the user clicks in. */
    function FilteredItems(): seq<MediaItem>
      reads this
    {
      FilterItems(activeTabItems, searchQuery)
    }

    /** `setMainApi` / `setThumbApi` when the carousels mount. */
    method AttachCarousels(m: Carousel, t: Carousel)
      requires Valid()
      requires m != t && m.Valid() && t.Valid() && m.slideCount == |activeTabItems| && t.slideCount == |activeTabItems|
      modifies this`main, this`thumb
      ensures main == m && thumb == t && Valid()
    {
      main := m;
      thumb := t;
    }

    /**
     * The tabs sit behind the modal dialog, so they change only while nothing is
     * selected. The carousels are re-initialised on the new items.
     */
    method OnTabChange(value: string)
      requires Valid() && selected.None?
      modifies this`searchQuery, this`activeTabItems, main, thumb
      ensures Valid() && main == old(main) && thumb == old(thumb)
      ensures searchQuery == "" && activeTabItems == TabItems(allItems, value)
    {
      searchQuery := "";
      match value {
        case "photos" => activeTabItems := OfKind(allItems, Photo);
        case "videos" => activeTabItems := OfKind(allItems, Video);
        case _ => activeTabItems := allItems;
      }
      if main != null {
        main.ReInit(|activeTabItems|);
      }
      if thumb != null {
        thumb.ReInit(|activeTabItems|);
      }
    }

    method SetSearchQuery(query: string)
      requires Valid()
      modifies this`searchQuery
      ensures Valid() && searchQuery == query
    {
      searchQuery := query;
    }

    /** Open the item with this id at its first position in the active tab; an unknown id changes nothing. */
    method HandleItemClick(id: string)
      requires Valid()
      modifies this`selected
      ensures Valid()
      ensures selected.Some? && selected != old(selected) ==>
        selected.value < |activeTabItems| && activeTabItems[selected.value].id == id
      ensures selected.Some? && selected != old(selected) ==>
        forall j :: 0 <= j < selected.value ==> activeTabItems[j].id != id
      ensures (forall j :: 0 <= j < |activeTabItems| ==> activeTabItems[j].id != id) ==> selected == old(selected)
      ensures (exists j :: 0 <= j < |activeTabItems| && activeTabItems[j].id == id) ==>
        selected.Some? && selected.value < |activeTabItems| && activeTabItems[selected.value].id == id &&
        forall j :: 0 <= j < selected.value ==> activeTabItems[j].id != id
    {
      var index := FindIndex(activeTabItems, id);
      if index.Some? {
        selected := index;
      }
    }

    method HandleCloseDialog()
      requires Valid()
      modifies this`selected, this`isFullscreen
      ensures Valid() && selected == None && !isFullscreen
    {
      selected := None;
      isFullscreen := false;
    }

    method ToggleFullscreen()
      requires Valid()
      modifies this`isFullscreen
      ensures Valid() && isFullscreen == !old(isFullscreen)
    {
      isFullscreen := !isFullscreen;
    }

    /** The window `keydown` listener. */
    method HandleKeyDown(key: Key)
      requires Valid()
      modifies this`selected, this`isFullscreen, main
      ensures Valid() && main == old(main) && thumb == old(thumb)
      ensures old(selected).None? ==>
        (selected == old(selected) && isFullscreen == old(isFullscreen) &&
         (main != null ==> main.index == old(main.index)))
      ensures old(selected).Some? && key == ArrowRight && main != null ==>
        main.index == Clamp(main.slideCount, old(main.index) + 1)
      ensures old(selected).Some? && key == ArrowLeft && main != null ==>
        main.index == Clamp(main.slideCount, old(main.index) - 1)
      ensures old(selected).Some? && key == Escape ==> selected == None && !isFullscreen
      ensures key != Escape ==> selected == old(selected) && isFullscreen == old(isFullscreen)
      ensures (key == Escape || key == OtherKey) && main != null ==> main.index == old(main.index)
    {
      if selected.None? {
        return;
      }
      match key {
        case ArrowRight =>
          if main != null {
            main.ScrollNext();
          }
        case ArrowLeft =>
          if main != null {
            main.ScrollPrev();
          }
        case Escape =>
          HandleCloseDialog();
        case OtherKey =>
      }
    }

    /** The main carousel's `select` handler: mirror its index on the thumbnails. */
    method OnSelect()
      requires Valid()
      modifies this`currentSlide, thumb
      ensures Valid() && (main != null ==> unchanged(main))
      ensures main == null || thumb == null ==> currentSlide == old(currentSlide) && (thumb != null ==> unchanged(thumb))
      ensures main != null && thumb != null ==> currentSlide == main.index && thumb.index == main.index
      ensures main != null && thumb != null && old(thumb.index) == main.index ==> unchanged(thumb)
    {
      if main == null || thumb == null {
        return;
      }
      var newSelectedIndex := main.index;
      currentSlide := newSelectedIndex;
      if thumb.index != newSelectedIndex {
        thumb.ScrollTo(newSelectedIndex);
      }
    }

    /** A thumbnail click moves only the main carousel. */
    method OnThumbClick(index: int)
      requires Valid()
      modifies main
      ensures Valid() && (thumb != null ==> unchanged(thumb))
      ensures main != null && thumb != null ==> main.index == Clamp(main.slideCount, index)
      ensures main == null || thumb == null ==> main != null ==> unchanged(main)
    {
      if main == null || thumb == null {
        return;
      }
      main.ScrollTo(index);
    }

    /** The open-at-index effect: jump the main carousel to the selected item. */
    method OpenAtSelected()
      requires Valid()
      modifies this`currentSlide, main
      ensures Valid() && (thumb != null ==> unchanged(thumb))
      ensures selected.Some? && main != null ==> main.index == selected.value && currentSlide == selected.value
      ensures selected.None? || main == null ==>
        currentSlide == old(currentSlide) && (main != null ==> unchanged(main))
    {
      if selected.Some? && main != null {
        main.ScrollTo(selected.value);
        currentSlide := selected.value;
      }
    }
  }

  /** Clicking thumbnail `k` and letting the main carousel settle leaves all three on slide `k`. */
  method ThumbClickThenSettle(box: Lightbox, k: nat)
    requires box.Valid() && box.main != null && box.thumb != null && k < |box.activeTabItems|
    modifies box, box.main, box.thumb
    ensures box.main == old(box.main) && box.thumb == old(box.thumb)
    ensures box.main.index == k && box.thumb.index == k && box.currentSlide == k
  {
    box.OnThumbClick(k);
    box.OnSelect();
  }

  /** With the lightbox open, ArrowRight from slide `k` below the last moves to `k + 1`, and the thumbnails follow. */
  method ArrowRightThenSettle(box: Lightbox)
    requires box.Valid() && box.selected.Some? && box.main != null && box.thumb != null
    requires box.main.index + 1 < |box.activeTabItems|
    modifies box, box.main, box.thumb
    ensures box.main == old(box.main) && box.thumb == old(box.thumb)
    ensures box.main.index == old(box.main.index) + 1 && box.thumb.index == box.main.index
    ensures box.currentSlide == box.main.index && box.selected == old(box.selected)
  {
    box.HandleKeyDown(ArrowRight);
    box.OnSelect();
  }

  /** Toggling fullscreen twice restores the flag. */
  method ToggleTwice(box: Lightbox)
    requires box.Valid()
    modifies box
    ensures box.isFullscreen == old(box.isFullscreen)
  {
    box.ToggleFullscreen();
    box.ToggleFullscreen();
  }

  /**
   * Clicking the k-th item the grid shows opens the lightbox on that item: the
   * item is always found in the active tab, and the main carousel and the slide
   * counter land on its index.
   */
  method OpenShownItem(box: Lightbox, k: nat)
    requires box.Valid() && box.main != null && k < |box.FilteredItems()|
    modifies box, box.main
    ensures box.main == old(box.main) && box.activeTabItems == old(box.activeTabItems)
    ensures box.Valid() && box.selected.Some? && box.activeTabItems[box.selected.value].id == old(box.FilteredItems()[k].id)
    ensures box.main.index == box.selected.value && box.currentSlide == box.selected.value
  {
    var item := box.FilteredItems()[k];
    FilterMembers(box.activeTabItems, box.searchQuery);
    assert item in box.activeTabItems;
    var j :| 0 <= j < |box.activeTabItems| && box.activeTabItems[j] == item;
    box.HandleItemClick(item.id);
    box.OpenAtSelected();
  }
}
