/** The wishlist page: the catalog products whose ids are in the wishlist set. */
module WishlistPage {
  import opened Types
  import Seqs

  /** No two catalog products share an id. */
  ghost predicate UniqueCatalogIds(catalog: seq<Wallpaper>)
  {
    forall i, j :: 0 <= i < j < |catalog| ==> catalog[i].id != catalog[j].id
  }

  /** The ids of the catalog's products. */
  ghost function CatalogIds(catalog: seq<Wallpaper>): set<string>
  {
    set i | 0 <= i < |catalog| :: catalog[i].id
  }

  /** The filter callback `wp => wishlistIds.has(wp.id)`. */
  function IsWished(ids: set<string>): (p: Wallpaper -> bool)
    ensures forall w :: p(w) <==> w.id in ids
  {
    (w: Wallpaper) => w.id in ids
  }

  /**
   * `wishlistItems`: the catalog products whose id is in the set, in catalog
   * order (not in the order they were added to the set).
   */
  function WishlistItems(catalog: seq<Wallpaper>, ids: set<string>): (r: seq<Wallpaper>)
    ensures Seqs.IsSubsequence(r, catalog)
    ensures forall i :: 0 <= i < |r| ==> r[i].id in ids
    ensures forall i :: 0 <= i < |catalog| ==> (catalog[i] in r <==> catalog[i].id in ids)
    ensures forall i :: 0 <= i < |r| ==> r[i].id in CatalogIds(catalog)
  {
    var r := Seqs.Filter(catalog, IsWished(ids));
    assert forall i :: 0 <= i < |r| ==> r[i] in catalog;
    r
  }

  /** What the page shows: the empty-state view or a grid of the wished products. */
  datatype WishlistView = EmptyWishlist | Grid(items: seq<Wallpaper>)

  /** The page: the empty state exactly when no catalog product is wished. */
  function Render(catalog: seq<Wallpaper>, ids: set<string>): (v: WishlistView)
    ensures v.EmptyWishlist? <==> forall i :: 0 <= i < |catalog| ==> catalog[i].id !in ids
    ensures v.Grid? ==> v.items == WishlistItems(catalog, ids) && v.items != []
  {
    var items := WishlistItems(catalog, ids);
    if |items| == 0 then EmptyWishlist else Grid(items)
  }

  /** An empty wishlist shows the empty state. */
  lemma EmptySetShowsEmptyState(catalog: seq<Wallpaper>)
    ensures WishlistItems(catalog, {}) == []
    ensures Render(catalog, {}) == EmptyWishlist
  {
  }

  lemma CatalogIdsCons(x: Wallpaper, rest: seq<Wallpaper>)
    ensures CatalogIds([x] + rest) == {x.id} + CatalogIds(rest)
  {
    var catalog := [x] + rest;
    assert catalog[0].id == x.id;
    forall y | y in CatalogIds(catalog) ensures y in {x.id} + CatalogIds(rest) {
      var i :| 0 <= i < |catalog| && catalog[i].id == y;
      if i > 0 {
        assert rest[i - 1].id == y;
      }
    }
    forall y | y in CatalogIds(rest) ensures y in CatalogIds(catalog) {
      var i :| 0 <= i < |rest| && rest[i].id == y;
      assert catalog[i + 1].id == y;
    }
  }

  lemma UniqueCatalogIdsCons(x: Wallpaper, rest: seq<Wallpaper>)
    requires UniqueCatalogIds([x] + rest)
    ensures UniqueCatalogIds(rest)
    ensures x.id !in CatalogIds(rest)
  {
    var catalog := [x] + rest;
    forall i, j | 0 <= i < j < |rest| ensures rest[i].id != rest[j].id {
      assert rest[i] == catalog[i + 1] && rest[j] == catalog[j + 1];
    }
    forall i | 0 <= i < |rest| ensures rest[i].id != x.id {
      assert rest[i] == catalog[i + 1] && catalog[0] == x;
    }
  }

  /** Putting a product in front adds its id to the wished ids the catalog has, when it is wished. */
  lemma WishedCatalogIdsCons(x: Wallpaper, rest: seq<Wallpaper>, ids: set<string>)
    requires UniqueCatalogIds([x] + rest)
    ensures |ids * CatalogIds([x] + rest)| == (if x.id in ids then 1 else 0) + |ids * CatalogIds(rest)|
  {
    UniqueCatalogIdsCons(x, rest);
    CatalogIdsCons(x, rest);
    if x.id in ids {
      assert ids * CatalogIds([x] + rest) == {x.id} + ids * CatalogIds(rest);
    } else {
      assert ids * CatalogIds([x] + rest) == ids * CatalogIds(rest);
    }
  }

  /**
   * With unique catalog ids, the page lists one product per wished id that the
   * catalog has, and never more products than the catalog holds.
   */
  lemma {:induction false} WishlistLength(catalog: seq<Wallpaper>, ids: set<string>)
    requires UniqueCatalogIds(catalog)
    ensures |WishlistItems(catalog, ids)| == |ids * CatalogIds(catalog)|
    ensures |WishlistItems(catalog, ids)| <= |catalog|
    decreases |catalog|
  {
    if catalog != [] {
      var x, rest := catalog[0], catalog[1..];
      assert catalog == [x] + rest;
      UniqueCatalogIdsCons(x, rest);
      WishlistLength(rest, ids);
      Seqs.FilterCons(x, rest, IsWished(ids));
      WishedCatalogIdsCons(x, rest, ids);
    }
  }
}
