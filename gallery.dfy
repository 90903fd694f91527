/** The parts gallery: a row of category buttons that narrows a fixed list
    of pictures, and a lightbox that shows one picture enlarged. */
module Gallery {
  import Flags

  datatype Option<T> = None | Some(value: T)

  datatype GalleryItem = GalleryItem(
    id: nat,
    image: string,
    title: string,
    category: string,
    description: string)

  /** The catch-all category, whose filter shows every item. */
  const CatchAll: string := "All"

  /** The category buttons, in display order: the catch-all first, then
      five concrete categories, no name twice (each is a button's key). */
  function Categories(): (cs: seq<string>)
    ensures |cs| == 6 && cs[0] == CatchAll
    ensures Distinct(cs)
  {
    ["All", "Engine", "Brakes", "Suspension", "Lighting", "Interior"]
  }

  const Item1: GalleryItem := GalleryItem(1, "https://images.unsplash.com/photo-1461749280684-dccba630e2f6?w=600&h=400&fit=crop",
    "Performance Engine Components", "Engine", "High-performance engine parts for maximum power")
  const Item2: GalleryItem := GalleryItem(2, "https://images.unsplash.com/photo-1518770660439-4636190af475?w=600&h=400&fit=crop",
    "Premium Brake Systems", "Brakes", "Advanced braking solutions for safety and performance")
  const Item3: GalleryItem := GalleryItem(3, "https://images.unsplash.com/photo-1486312338219-ce68d2c6f44d?w=600&h=400&fit=crop",
    "Suspension Upgrades", "Suspension", "Complete suspension systems for improved handling")
  const Item4: GalleryItem := GalleryItem(4, "https://images.unsplash.com/photo-1488590528505-98d2b5aba04b?w=600&h=400&fit=crop",
    "LED Lighting Solutions", "Lighting", "Modern LED lighting for enhanced visibility")
  const Item5: GalleryItem := GalleryItem(5, "https://images.unsplash.com/photo-1649972904349-6e44c42644a7?w=600&h=400&fit=crop",
    "Interior Accessories", "Interior", "Premium interior components and accessories")
  const Item6: GalleryItem := GalleryItem(6, "https://images.unsplash.com/photo-1461749280684-dccba630e2f6?w=600&h=400&fit=crop",
    "Turbo Systems", "Engine", "Complete turbo charging solutions")
  const Item7: GalleryItem := GalleryItem(7, "https://images.unsplash.com/photo-1518770660439-4636190af475?w=600&h=400&fit=crop",
    "Racing Brakes", "Brakes", "Professional racing brake components")
  const Item8: GalleryItem := GalleryItem(8, "https://images.unsplash.com/photo-1486312338219-ce68d2c6f44d?w=600&h=400&fit=crop",
    "Coilover Kits", "Suspension", "Adjustable coilover suspension systems")

  /** The eight pictures of the gallery, in display order. */
  function GalleryItems(): (items: seq<GalleryItem>)
    ensures |items| == 8
  {
    [Item1, Item2, Item3, Item4, Item5, Item6, Item7, Item8]
  }

  function Ids(items: seq<GalleryItem>): (ids: seq<nat>)
    ensures |ids| == |items|
    ensures forall j :: 0 <= j < |items| ==> ids[j] == items[j].id
  {
    seq(|items|, j requires 0 <= j < |items| => items[j].id)
  }

  // ---------------------------------------------------------------------
  // Subsequences: what a filter that keeps the original order produces
  // ---------------------------------------------------------------------

  /** `a` is obtained from `b` by deleting some of its entries. */
  predicate IsSubsequence<T(==)>(a: seq<T>, b: seq<T>)
    decreases |b|
  {
    a == [] ||
    (b != [] && ((a[0] == b[0] && IsSubsequence(a[1..], b[1..])) || IsSubsequence(a, b[1..])))
  }

  lemma {:induction false} SubsequenceReflexive<T>(s: seq<T>)
    ensures IsSubsequence(s, s)
    decreases |s|
  {
    if s != [] {
      SubsequenceReflexive(s[1..]);
    }
  }

  /** A subsequence is at most as long as the sequence it is taken from. */
  lemma {:induction false} SubsequenceLength<T>(a: seq<T>, b: seq<T>)
    requires IsSubsequence(a, b)
    ensures |a| <= |b|
    decreases |b|
  {
    if a != [] {
      if a[0] == b[0] && IsSubsequence(a[1..], b[1..]) {
        SubsequenceLength(a[1..], b[1..]);
      } else {
        SubsequenceLength(a, b[1..]);
      }
    }
  }

  // ---------------------------------------------------------------------
  // The category filter
  // ---------------------------------------------------------------------

  /** `items.filter(item => item.category === category)`: exactly the
      items of that category, each as often as in `items`, in their
      original relative order. */
  function KeepCategory(items: seq<GalleryItem>, category: string): (kept: seq<GalleryItem>)
    ensures |kept| <= |items|
    ensures forall j :: 0 <= j < |kept| ==> kept[j].category == category
    decreases |items|
  {
    if items == [] then []
    else
      var rest := KeepCategory(items[1..], category);
      if items[0].category == category then [items[0]] + rest else rest
  }

  /** What the filter keeps: a subsequence of the items in which every item
      of the category occurs as often as in `items` and no other item
      occurs. */
  lemma {:induction false} KeepCategorySpec(items: seq<GalleryItem>, category: string)
    ensures IsSubsequence(KeepCategory(items, category), items)
    ensures forall x :: multiset(KeepCategory(items, category))[x] ==
                        if x.category == category then multiset(items)[x] else 0
    decreases |items|
  {
    if items != [] {
      KeepCategorySpec(items[1..], category);
      assert items == [items[0]] + items[1..];
      var rest := KeepCategory(items[1..], category);
      if items[0].category == category {
        assert ([items[0]] + rest)[1..] == rest;
      }
    }
  }

  /** `activeCategory === 'All' ? items : items.filter(...)`: the items on
      screen for the selected category. */
  function FilteredItems(items: seq<GalleryItem>, activeCategory: string): (visible: seq<GalleryItem>)
    ensures |visible| <= |items|
  {
    if activeCategory == CatchAll then items else KeepCategory(items, activeCategory)
  }

  /** The items on screen: all of them, in order, for the catch-all;
      otherwise exactly those of that category (as many times as they
      occur), in their original relative order. Either way a subsequence
      of the items, so never more of them. */
  lemma FilteredItemsSpec(items: seq<GalleryItem>, activeCategory: string)
    ensures activeCategory == CatchAll ==> FilteredItems(items, activeCategory) == items
    ensures activeCategory != CatchAll ==>
      forall x :: multiset(FilteredItems(items, activeCategory))[x] ==
                  if x.category == activeCategory then multiset(items)[x] else 0
    ensures IsSubsequence(FilteredItems(items, activeCategory), items)
    ensures |FilteredItems(items, activeCategory)| <= |items|
  {
    KeepCategorySpec(items, activeCategory);
    SubsequenceReflexive(items);
    SubsequenceLength(FilteredItems(items, activeCategory), items);
  }

  /** An item is on screen under a concrete category exactly when it is in
      the list and has that category. */
  lemma FilteredMembership(items: seq<GalleryItem>, category: string, x: GalleryItem)
    requires category != CatchAll
    ensures x in FilteredItems(items, category) <==> x in items && x.category == category
  {
    FilteredItemsSpec(items, category);
    assert multiset(FilteredItems(items, category))[x] == if x.category == category then multiset(items)[x] else 0;
  }

  lemma FilteredMembershipAll(items: seq<GalleryItem>, category: string)
    ensures category != CatchAll ==>
      forall x :: x in FilteredItems(items, category) <==> x in items && x.category == category
  {
    if category != CatchAll {
      forall x ensures x in FilteredItems(items, category) <==> x in items && x.category == category {
        FilteredMembership(items, category, x);
      }
    }
  }

  /** One filter step: the first item of a non-empty list is shown by a
      concrete filter exactly when it has that category. */
  lemma KeepCategoryHead(items: seq<GalleryItem>, category: string)
    requires items != []
    ensures |KeepCategory(items, category)| ==
            (if items[0].category == category then 1 else 0) + |KeepCategory(items[1..], category)|
  {
  }

  // ---------------------------------------------------------------------
  // The concrete filters partition the items
  // ---------------------------------------------------------------------

  predicate Distinct(s: seq<string>)
  {
    forall i, j :: 0 <= i < j < |s| ==> s[i] != s[j]
  }

  /** The category buttons drawn for the selected category: button j is
      highlighted when it is the selected one. */
  function Highlights(categories: seq<string>, activeCategory: string): (on: seq<bool>)
    ensures |on| == |categories|
    ensures forall j :: 0 <= j < |categories| ==> on[j] == (categories[j] == activeCategory)
  {
    seq(|categories|, j requires 0 <= j < |categories| => categories[j] == activeCategory)
  }

  /** With distinct category names, exactly one button is highlighted when
      the selected category is one of them, and none otherwise. */
  lemma HighlightCount(categories: seq<string>, activeCategory: string)
    requires Distinct(categories)
    ensures Flags.CountTrue(Highlights(categories, activeCategory)) ==
            if activeCategory in categories then 1 else 0
  {
    var on := Highlights(categories, activeCategory);
    if activeCategory in categories {
      var k :| 0 <= k < |categories| && categories[k] == activeCategory;
      Flags.CountTrueSingle(on, k);
    }
  }

  /** Exactly one of the gallery's category buttons is highlighted. */
  lemma OneCategoryHighlighted(activeCategory: string)
    requires activeCategory in Categories()
    ensures Flags.CountTrue(Highlights(Categories(), activeCategory)) == 1
  {
    HighlightCount(Categories(), activeCategory);
  }

  /** The total number of items shown over the filters of `categories`. */
  function SumOfFilterSizes(items: seq<GalleryItem>, categories: seq<string>): nat
    decreases |categories|
  {
    if categories == [] then 0
    else |FilteredItems(items, categories[0])| + SumOfFilterSizes(items, categories[1..])
  }

  lemma {:induction false} SumOfFilterSizesHead(items: seq<GalleryItem>, categories: seq<string>)
    requires items != [] && CatchAll !in categories
    ensures SumOfFilterSizes(items, categories) ==
            Flags.CountTrue(Highlights(categories, items[0].category)) + SumOfFilterSizes(items[1..], categories)
    decreases |categories|
  {
    if categories != [] {
      SumOfFilterSizesHead(items, categories[1..]);
      KeepCategoryHead(items, categories[0]);
      assert Highlights(categories, items[0].category)[1..] == Highlights(categories[1..], items[0].category);
    }
  }

  /** When every item's category is one of a list of distinct concrete
      categories, the filters of that list split the items among them:
      their sizes add up to the number of items. */
  lemma {:induction false} FiltersPartition(items: seq<GalleryItem>, categories: seq<string>)
    requires Distinct(categories) && CatchAll !in categories
    requires forall j :: 0 <= j < |items| ==> items[j].category in categories
    ensures SumOfFilterSizes(items, categories) == |items|
    decreases |items|
  {
    if items == [] {
      ZeroFilterSizes(items, categories);
    } else {
      SumOfFilterSizesHead(items, categories);
      HighlightCount(categories, items[0].category);
      FiltersPartition(items[1..], categories);
    }
  }

  lemma {:induction false} ZeroFilterSizes(items: seq<GalleryItem>, categories: seq<string>)
    requires items == []
    ensures SumOfFilterSizes(items, categories) == 0
    decreases |categories|
  {
    if categories != [] {
      ZeroFilterSizes(items, categories[1..]);
    }
  }

  /** Every gallery item carries one of the five concrete categories, so
      their five filters show 8 items between them. */
  lemma GalleryPartition()
    ensures forall j :: 0 <= j < |GalleryItems()| ==> GalleryItems()[j].category in Categories()[1..]
    ensures SumOfFilterSizes(GalleryItems(), Categories()[1..]) == |GalleryItems()| == 8
  {
    var items, concrete := GalleryItems(), Categories()[1..];
    assert concrete == ["Engine", "Brakes", "Suspension", "Lighting", "Interior"];
    forall j | 0 <= j < |items| ensures items[j].category in concrete {
      assert items[j] in [Item1, Item2, Item3, Item4, Item5, Item6, Item7, Item8];
    }
    FiltersPartition(items, concrete);
  }

  // ---------------------------------------------------------------------
  // Scenarios
  // ---------------------------------------------------------------------

  /** One step of the filter on a list written as head and tail. */
  lemma KeepCons(x: GalleryItem, rest: seq<GalleryItem>, category: string)
    ensures KeepCategory([x] + rest, category) ==
            if x.category == category then [x] + KeepCategory(rest, category) else KeepCategory(rest, category)
  {
    assert ([x] + rest)[1..] == rest;
  }

  /** The gallery's own data: Engine shows items 1 and 6. */
  lemma EngineScenario()
    ensures Ids(FilteredItems(GalleryItems(), "Engine")) == [1, 6]
  {
  }

  /** The gallery's own data: Interior shows item 5 alone. */
  lemma InteriorScenario()
    ensures Ids(FilteredItems(GalleryItems(), "Interior")) == [5]
  {
  }

  /** The gallery's own data: the catch-all shows items 1 to 8 in order. */
  lemma CatchAllScenario()
    ensures Ids(FilteredItems(GalleryItems(), CatchAll)) == [1, 2, 3, 4, 5, 6, 7, 8]
  {
  }

  /** Items A (Engine), B (Brakes), C (Engine): Engine shows [A, C], the
      catch-all shows [A, B, C]. */
  lemma ThreeItemScenario(a: GalleryItem, b: GalleryItem, c: GalleryItem)
    requires a.category == "Engine" && b.category == "Brakes" && c.category == "Engine"
    ensures FilteredItems([a, b, c], "Engine") == [a, c]
    ensures FilteredItems([a, b, c], CatchAll) == [a, b, c]
  {
    assert "Brakes" != "Engine" by { assert "Brakes"[0] != "Engine"[0]; }
    KeepCons(c, [], "Engine");
    KeepCons(b, [c], "Engine");
    KeepCons(a, [b, c], "Engine");
  }

  // ---------------------------------------------------------------------
  // The gallery state
  // ---------------------------------------------------------------------

  /** The value of the page body's overflow style as the lightbox leaves
      it: untouched, 'hidden' while a picture is open, 'auto' after. */
  datatype Overflow = Untouched | Hidden | Auto

  class GalleryView {
    var activeCategory: string
    var selectedImage: Option<string>
    var bodyOverflow: Overflow

    /** The selected category is always one of the buttons. */
    ghost predicate Valid()
      reads this
    {
      activeCategory in Categories()
    }

    /** The gallery opens on the catch-all with no picture enlarged. */
    constructor ()
      ensures Valid()
      ensures activeCategory == CatchAll && selectedImage == None && bodyOverflow == Untouched
    {
      activeCategory := CatchAll;
      selectedImage := None;
      bodyOverflow := Untouched;
    }

    /** The items on screen. */
    function Visible(): (visible: seq<GalleryItem>)
      reads this
      ensures activeCategory == CatchAll ==> visible == GalleryItems()
      ensures activeCategory != CatchAll ==>
        forall x :: x in visible <==> x in GalleryItems() && x.category == activeCategory
      ensures IsSubsequence(visible, GalleryItems())
      ensures visible == FilteredItems(GalleryItems(), activeCategory)
    {
      FilteredMembershipAll(GalleryItems(), activeCategory);
      FilteredItemsSpec(GalleryItems(), activeCategory);
      FilteredItems(GalleryItems(), activeCategory)
    }

    /** The category buttons as the current state draws them: exactly one
        is highlighted, and it is the selected category's. */
    function ActiveHighlights(): (on: seq<bool>)
      requires Valid()
      reads this
      ensures |on| == |Categories()|
      ensures Flags.CountTrue(on) == 1
      ensures forall j :: 0 <= j < |on| ==> (on[j] <==> Categories()[j] == activeCategory)
    {
      OneCategoryHighlighted(activeCategory);
      Highlights(Categories(), activeCategory)
    }

    /** The lightbox is drawn when `selectedImage` is truthy: set, and
        not the empty string. */
    predicate LightboxShown(): (shown: bool)
      reads this
      ensures shown ==> selectedImage.Some?
      ensures shown <==> selectedImage.Some? && |selectedImage.value| > 0
    {
      selectedImage.Some? && selectedImage.value != ""
    }

    /** A click on a category button. */
    method SetActiveCategory(category: string)
      requires Valid() && category in Categories()
      modifies this
      ensures Valid()
      ensures activeCategory == category
      ensures selectedImage == old(selectedImage) && bodyOverflow == old(bodyOverflow)
    {
      activeCategory := category;
    }

    /** A click on a picture: enlarge it and stop the page from scrolling. */
    method OpenLightbox(image: string)
      requires Valid()
      modifies this
      ensures Valid()
      ensures selectedImage == Some(image) && bodyOverflow == Hidden
      ensures activeCategory == old(activeCategory)
      ensures LightboxShown() <==> image != ""
    {
      selectedImage := Some(image);
      bodyOverflow := Hidden;
    }

    /** The close button of the lightbox: forget the picture and let the
        page scroll again. */
    method CloseLightbox()
      requires Valid()
      modifies this
      ensures Valid()
      ensures selectedImage == None && bodyOverflow == Auto
      ensures activeCategory == old(activeCategory)
      ensures !LightboxShown()
    {
      selectedImage := None;
      bodyOverflow := Auto;
    }
  }

  /** Every picture of the gallery has a non-empty address, so a click on
      any of them shows the lightbox. */
  lemma EveryItemOpensLightbox(j: nat)
    requires j < |GalleryItems()|
    ensures GalleryItems()[j].image != ""
  {
    assert GalleryItems()[j] in [Item1, Item2, Item3, Item4, Item5, Item6, Item7, Item8];
  }
}
