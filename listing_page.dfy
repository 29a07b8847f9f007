/**
 * The selection logic of the listing page: the local filter record seeded from
 * the navigation payload, the filtered and sorted product list, the
 * sub-category chips and the category hero card.
 */
module ListingPage {
  import opened Options
  import opened Types
  import opened Catalog
  import Seqs
  import Sorting

  /** The sentinel a filter field holds when it imposes no constraint. */
  const ALL := "all"

  /** The sort options offered by the page. */
  const RELEVANCE := "Relevance"
  const NEWEST_ARRIVALS := "Newest Arrivals"
  const LOW_TO_HIGH := "Price: Low \U{2192} High"
  const HIGH_TO_LOW := "Price: High \U{2192} Low"

  /** The sub-category chips shown when the category has no list of its own. */
  const DEFAULT_SUB_CATEGORIES := ["Patterns", "Abstract", "Minimalist", "Artisan"]

  /** The page's local filter record, `activeFilters`. */
  datatype ActiveFilters = ActiveFilters(category: string, roomType: string, mood: string, subCategory: string)

  /** The page's local state: the chosen sort option and the filter record. */
  datatype ListingState = ListingState(sortBy: string, activeFilters: ActiveFilters)

  /**
   * The filter record the page starts from: a field takes the payload's value
   * exactly when the payload names that field; every other field is `all`.
   */
  function InitialFilters(initial: Option<SelectedFilter>): (f: ActiveFilters)
    ensures f.category == ALL || initial == Some(SelectedFilter("category", f.category))
    ensures f.roomType == ALL || initial == Some(SelectedFilter("roomType", f.roomType))
    ensures f.mood == ALL || initial == Some(SelectedFilter("mood", f.mood))
    ensures f.subCategory == ALL
    ensures forall v :: initial == Some(SelectedFilter("category", v)) ==> f.category == v
    ensures forall v :: initial == Some(SelectedFilter("roomType", v)) ==> f.roomType == v
    ensures forall v :: initial == Some(SelectedFilter("mood", v)) ==> f.mood == v
  {
    ActiveFilters(
      if initial.Some? && initial.value.kind == "category" then initial.value.value else ALL,
      if initial.Some? && initial.value.kind == "roomType" then initial.value.value else ALL,
      if initial.Some? && initial.value.kind == "mood" then initial.value.value else ALL,
      ALL)
  }

  /** The state the page is mounted with: sorted by relevance, filters from the payload. */
  function InitialState(initial: Option<SelectedFilter>): (st: ListingState)
    ensures st.sortBy == RELEVANCE
    ensures st.activeFilters == InitialFilters(initial)
  {
    ListingState(RELEVANCE, InitialFilters(initial))
  }

  /** A sub-category chip (or "All Designs", which passes `all`) sets only `subCategory`. */
  function SelectSubCategory(st: ListingState, sub: string): (st': ListingState)
    ensures st'.activeFilters.subCategory == sub
    ensures st'.sortBy == st.sortBy
    ensures st'.activeFilters.(subCategory := st.activeFilters.subCategory) == st.activeFilters
  {
    st.(activeFilters := st.activeFilters.(subCategory := sub))
  }

  /** A sort option sets only `sortBy`. */
  function SelectSort(st: ListingState, option: string): (st': ListingState)
    ensures st'.sortBy == option && st'.activeFilters == st.activeFilters
  {
    st.(sortBy := option)
  }

  /** The product passes the filter callback: no field other than `all` differs from the product's. */
  predicate Matches(f: ActiveFilters, w: Wallpaper): (b: bool)
    ensures b <==> (f.category == ALL || w.category == f.category) &&
                   (f.roomType == ALL || w.roomType == f.roomType) &&
                   (f.mood == ALL || w.mood == f.mood)
  {
    if f.category != ALL && w.category != f.category then false
    else if f.roomType != ALL && w.roomType != f.roomType then false
    else if f.mood != ALL && w.mood != f.mood then false
    else true
  }

  /** The filter callback of `filteredWallpapers`, for the record `f`. */
  function FilterCallback(f: ActiveFilters): (p: Wallpaper -> bool)
    ensures forall w :: p(w) == Matches(f, w)
  {
    (w: Wallpaper) => Matches(f, w)
  }

  /**
   * The catalog narrowed by the filter record, in catalog order: a product is
   * kept exactly when it equals every field among category, roomType and mood
   * that is not `all`.
   */
  function FilterCatalog(catalog: seq<Wallpaper>, f: ActiveFilters): (r: seq<Wallpaper>)
    ensures Seqs.IsSubsequence(r, catalog)
    ensures forall i :: 0 <= i < |r| ==>
              (f.category == ALL || r[i].category == f.category) &&
              (f.roomType == ALL || r[i].roomType == f.roomType) &&
              (f.mood == ALL || r[i].mood == f.mood)
    ensures forall i | 0 <= i < |catalog| &&
                       (f.category == ALL || catalog[i].category == f.category) &&
                       (f.roomType == ALL || catalog[i].roomType == f.roomType) &&
                       (f.mood == ALL || catalog[i].mood == f.mood) :: catalog[i] in r
  {
    Seqs.Filter(catalog, FilterCallback(f))
  }

  /**
   * The sort key the page's comparator subtracts: the comparator for option
   * `sortBy` is `(a, b) => key(a) - key(b)` (see `ComparatorIsKeyDifference`).
   */
  function SortKey(sortBy: string): (key: Wallpaper -> int)
    ensures forall a, b :: Compare(sortBy, a, b) == key(a) - key(b)
    ensures sortBy != LOW_TO_HIGH && sortBy != HIGH_TO_LOW ==> forall w :: key(w) == 0
  {
    if sortBy == LOW_TO_HIGH then Price
    else if sortBy == HIGH_TO_LOW then NegatedPrice
    else NoKey
  }

  /** The keys of the three comparators: price, price negated, and none. */
  function Price(w: Wallpaper): int { w.price }
  function NegatedPrice(w: Wallpaper): int { -w.price }
  function NoKey(w: Wallpaper): int { 0 }

  /** The page's comparator, as written: price difference one way or the other, else 0. */
  function Compare(sortBy: string, a: Wallpaper, b: Wallpaper): (r: int)
    ensures sortBy == LOW_TO_HIGH ==> (r < 0 <==> a.price < b.price) && (r == 0 <==> a.price == b.price)
    ensures sortBy == HIGH_TO_LOW ==> (r < 0 <==> a.price > b.price) && (r == 0 <==> a.price == b.price)
    ensures sortBy != LOW_TO_HIGH && sortBy != HIGH_TO_LOW ==> r == 0
  {
    if sortBy == LOW_TO_HIGH then a.price - b.price
    else if sortBy == HIGH_TO_LOW then b.price - a.price
    else 0
  }

  /** The comparator is the difference of the sort keys, so the sort is a stable sort by key. */
  lemma ComparatorIsKeyDifference(sortBy: string, a: Wallpaper, b: Wallpaper)
    ensures Compare(sortBy, a, b) == SortKey(sortBy)(a) - SortKey(sortBy)(b)
  {
  }

  /**
   * `filteredWallpapers`: the filtered catalog, stably sorted by the chosen
   * option. The two price options order by price; any other option keeps the
   * catalog order.
   */
  function FilteredWallpapers(catalog: seq<Wallpaper>, f: ActiveFilters, sortBy: string): (r: seq<Wallpaper>)
    ensures multiset(r) == multiset(FilterCatalog(catalog, f))
    ensures sortBy == LOW_TO_HIGH ==> forall i, j :: 0 <= i < j < |r| ==> r[i].price <= r[j].price
    ensures sortBy == HIGH_TO_LOW ==> forall i, j :: 0 <= i < j < |r| ==> r[i].price >= r[j].price
    ensures sortBy != LOW_TO_HIGH && sortBy != HIGH_TO_LOW ==> r == FilterCatalog(catalog, f)
  {
    var kept := FilterCatalog(catalog, f);
    var key := SortKey(sortBy);
    var r := Sorting.StableSort(kept, key);
    if sortBy != LOW_TO_HIGH && sortBy != HIGH_TO_LOW then
      Sorting.ConstantKeyKeepsOrder(kept, key, 0);
      r
    else
      assert forall i, j :: 0 <= i < j < |r| ==> key(r[i]) <= key(r[j]);
      r
  }

  /**
   * `subCategories`: the category's own list when the category is not `all`
   * and the table has an entry for it; otherwise the default four names.
   */
  function SubCategories(table: map<string, seq<string>>, category: string): (r: seq<string>)
    ensures category != ALL && category in table ==> r == table[category]
    ensures category == ALL || category !in table ==> r == DEFAULT_SUB_CATEGORIES
  {
    if category != ALL && category in table then table[category] else DEFAULT_SUB_CATEGORIES
  }

  /**
   * `categoryContext`: the first card of the table for `all`; otherwise the
   * first card with that name, and none when no card has it.
   */
  function CategoryContext(categories: seq<CategoryCard>, category: string): (r: Option<CategoryCard>)
    ensures category == ALL ==> r == if |categories| > 0 then Some(categories[0]) else None
    ensures category != ALL ==> (r.None? <==> forall i :: 0 <= i < |categories| ==> categories[i].name != category)
    ensures category != ALL && r.Some? ==>
              exists i :: 0 <= i < |categories| && categories[i] == r.value && r.value.name == category &&
                          forall j :: 0 <= j < i ==> categories[j].name != category
  {
    if category != ALL then Seqs.FindFirst(categories, (c: CategoryCard) => c.name == category)
    else if |categories| > 0 then Some(categories[0])
    else None
  }

  // ---------------------------------------------------------------------------
  // Properties of the selection

  /** With category, roomType and mood all `all`, every catalog product is kept, in order. */
  lemma {:induction false} UnconstrainedKeepsCatalog(catalog: seq<Wallpaper>, f: ActiveFilters, sortBy: string)
    requires f.category == ALL && f.roomType == ALL && f.mood == ALL
    ensures FilterCatalog(catalog, f) == catalog
    ensures sortBy != LOW_TO_HIGH && sortBy != HIGH_TO_LOW ==> FilteredWallpapers(catalog, f, sortBy) == catalog
  {
    Seqs.FilterAll(catalog, FilterCallback(f));
  }

  /** The sub-category never changes the filter's result. */
  lemma SubCategoryIgnored(catalog: seq<Wallpaper>, f: ActiveFilters, sub: string, sortBy: string)
    ensures FilterCatalog(catalog, f.(subCategory := sub)) == FilterCatalog(catalog, f)
    ensures FilteredWallpapers(catalog, f.(subCategory := sub), sortBy) == FilteredWallpapers(catalog, f, sortBy)
  {
    var g := f.(subCategory := sub);
    Seqs.FilterCongruent(catalog, FilterCallback(g), FilterCallback(f));
  }

  /** The price sorts keep products of equal price in their catalog order. */
  lemma PriceSortIsStable(catalog: seq<Wallpaper>, f: ActiveFilters, sortBy: string, v: int)
    ensures Sorting.WithKey(FilteredWallpapers(catalog, f, sortBy), SortKey(sortBy), v) ==
            Sorting.WithKey(FilterCatalog(catalog, f), SortKey(sortBy), v)
  {
    Sorting.SortStable(FilterCatalog(catalog, f), SortKey(sortBy), v);
  }

  /** A price-ascending sequence read backwards is price-descending. */
  lemma ReverseOfAscendingIsDescending(asc: seq<Wallpaper>)
    requires forall i, j :: 0 <= i < j < |asc| ==> asc[i].price <= asc[j].price
    ensures Sorting.SortedBy(Seqs.Reverse(asc), NegatedPrice)
  {
    var rev := Seqs.Reverse(asc);
    forall i, j | 0 <= i < j < |rev| ensures NegatedPrice(rev[i]) <= NegatedPrice(rev[j]) {
      assert rev[i] == asc[|asc| - 1 - i] && rev[j] == asc[|asc| - 1 - j];
    }
  }

  /** Products drawn from a catalog with distinct prices have distinct prices. */
  lemma DistinctPricesCarryOver(catalog: seq<Wallpaper>, s: seq<Wallpaper>)
    requires forall i, j :: 0 <= i < j < |catalog| ==> catalog[i].price != catalog[j].price
    requires forall i :: 0 <= i < |s| ==> s[i] in catalog
    ensures Sorting.DistinctKeys(s, NegatedPrice)
  {
    forall i, j | 0 <= i < |s| && 0 <= j < |s| && NegatedPrice(s[i]) == NegatedPrice(s[j])
      ensures s[i] == s[j]
    {
      var p :| 0 <= p < |catalog| && catalog[p] == s[i];
      var q :| 0 <= q < |catalog| && catalog[q] == s[j];
      assert p == q;
    }
  }

  /**
   * When the catalog's prices are distinct, "High to Low" lists exactly the
   * products of "Low to High" in reverse order.
   */
  lemma PriceSortsAreReverses(catalog: seq<Wallpaper>, f: ActiveFilters)
    requires forall i, j :: 0 <= i < j < |catalog| ==> catalog[i].price != catalog[j].price
    ensures FilteredWallpapers(catalog, f, HIGH_TO_LOW) == Seqs.Reverse(FilteredWallpapers(catalog, f, LOW_TO_HIGH))
  {
    var kept := FilterCatalog(catalog, f);
    var asc, desc := FilteredWallpapers(catalog, f, LOW_TO_HIGH), FilteredWallpapers(catalog, f, HIGH_TO_LOW);
    Seqs.ReversePermutes(asc);
    ReverseOfAscendingIsDescending(asc);
    Seqs.SubsequenceElements(kept, catalog);
    assert forall i :: 0 <= i < |desc| ==> desc[i] in multiset(kept);
    DistinctPricesCarryOver(catalog, desc);
    assert Sorting.SortedBy(desc, NegatedPrice);
    Sorting.SortedPermutationsEqual(desc, Seqs.Reverse(asc), NegatedPrice);
  }

  /** A payload naming category, roomType or mood constrains that field alone. */
  lemma InitialFiltersNameOneField(kind: string, value: string)
    requires kind == "category" || kind == "roomType" || kind == "mood"
    ensures InitialFilters(Some(SelectedFilter(kind, value))) ==
            ActiveFilters(if kind == "category" then value else ALL,
                          if kind == "roomType" then value else ALL,
                          if kind == "mood" then value else ALL,
                          ALL)
  {
  }

  /** No payload, or a payload naming no filter field (such as `all`), leaves every field `all`. */
  lemma InitialFiltersUnconstrained(initial: Option<SelectedFilter>)
    requires initial.None? || initial.value.kind !in {"category", "roomType", "mood"}
    ensures InitialFilters(initial) == ActiveFilters(ALL, ALL, ALL, ALL)
  {
  }

  /**
   * A listing mounted from another page by "Browse all" (`navigateToListing('all', 'all')`)
   * shows the whole catalog, in order.
   */
  lemma BrowseAllShowsCatalog(catalog: seq<Wallpaper>)
    ensures FilteredWallpapers(catalog, InitialState(Some(SelectedFilter(ALL, ALL))).activeFilters,
                               InitialState(Some(SelectedFilter(ALL, ALL))).sortBy) == catalog
  {
    UnconstrainedKeepsCatalog(catalog, InitialFilters(Some(SelectedFilter(ALL, ALL))), RELEVANCE);
  }
}
