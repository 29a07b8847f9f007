/**
 * Concrete runs of the model over the shipped catalog, as lemmas: what a
 * shopper sees after a few clicks.
 */
module Scenarios {
  import opened Options
  import opened Types
  import opened Catalog
  import CartLedger
  import WishlistSet
  import ListingPage
  import CartPage
  import WishlistPage
  import App
  import Seqs
  import Sorting

  /** The shipped catalog has no repeated id. */
  lemma CatalogIdsUnique()
    ensures WishlistPage.UniqueCatalogIds(MOCK_WALLPAPERS)
  {
  }

  /** Over a catalog of one price, no sort option changes the filtered order. */
  lemma OnePriceSortsKeepOrder(catalog: seq<Wallpaper>, price: int, f: ListingPage.ActiveFilters, sortBy: string)
    requires forall i :: 0 <= i < |catalog| ==> catalog[i].price == price
    ensures ListingPage.FilteredWallpapers(catalog, f, sortBy) == ListingPage.FilterCatalog(catalog, f)
  {
    var kept := ListingPage.FilterCatalog(catalog, f);
    var key := ListingPage.SortKey(sortBy);
    var c := if sortBy == ListingPage.LOW_TO_HIGH then price
             else if sortBy == ListingPage.HIGH_TO_LOW then -price
             else 0;
    forall i | 0 <= i < |kept| ensures key(kept[i]) == c {
      assert kept[i] in catalog;
    }
    Sorting.ConstantKeyKeepsOrder(kept, key, c);
  }

  /**
   * Every shipped product costs the same, so on the shipped catalog no sort
   * option changes the order: each shows the filtered products in catalog order.
   */
  lemma ShippedCatalogSortsKeepOrder(f: ListingPage.ActiveFilters, sortBy: string)
    ensures ListingPage.FilteredWallpapers(MOCK_WALLPAPERS, f, sortBy) == ListingPage.FilterCatalog(MOCK_WALLPAPERS, f)
  {
    ShippedPricesEqual();
    OnePriceSortsKeepOrder(MOCK_WALLPAPERS, 7565, f, sortBy);
  }

  /** Every shipped product is priced 75.65. */
  lemma ShippedPricesEqual()
    ensures forall i :: 0 <= i < |MOCK_WALLPAPERS| ==> MOCK_WALLPAPERS[i].price == 7565
  {
  }

  /** Two adds of product '1' to an empty cart: one line of quantity 2, subtotal and total 151.30. */
  lemma AddProductOneTwice()
    ensures CartLedger.AddRepeatedly([], MOCK_WALLPAPERS[0], 2) == [CartItem(MOCK_WALLPAPERS[0], 2)]
    ensures CartLedger.CartCount(CartLedger.AddRepeatedly([], MOCK_WALLPAPERS[0], 2)) == 2
    ensures CartPage.Subtotal(CartLedger.AddRepeatedly([], MOCK_WALLPAPERS[0], 2)) == 15130
    ensures CartPage.Total(CartLedger.AddRepeatedly([], MOCK_WALLPAPERS[0], 2)) == 15130
  {
    var w := MOCK_WALLPAPERS[0];
    CartLedger.AddRepeatedlyFromEmpty(w, 2);
    var cart := [CartItem(w, 2)];
    assert cart[..0] == [];
  }

  /** One step of a filter over a suffix of `c`. */
  lemma FilterStep(c: seq<Wallpaper>, k: nat, p: Wallpaper -> bool)
    requires k < |c|
    ensures Seqs.Filter(c[k..], p) == (if p(c[k]) then [c[k]] else []) + Seqs.Filter(c[k + 1..], p)
  {
    assert c[k..] == [c[k]] + c[k + 1..];
    Seqs.FilterCons(c[k], c[k + 1..], p);
  }

  /** Toggling '3', '5', '3' on an empty wishlist leaves only '5'. */
  lemma ToggleThreeFiveThree()
    ensures WishlistSet.Toggle(WishlistSet.Toggle(WishlistSet.Toggle({}, "3"), "5"), "3") == {"5"}
  {
  }

  /** The wishlist `{"5"}` is the id test alone. */
  lemma WishedFiveTestsId(w: Wallpaper)
    ensures WishlistPage.IsWished({"5"})(w) <==> w.id == "5"
  {
  }

  /** The wishlist `{"5"}` over any six products of which only the fifth has id '5'. */
  lemma WishlistOfFiveOf(c: seq<Wallpaper>)
    requires |c| == 6 && c[4].id == "5"
    requires c[0].id != "5" && c[1].id != "5" && c[2].id != "5" && c[3].id != "5" && c[5].id != "5"
    ensures WishlistPage.WishlistItems(c, {"5"}) == [c[4]]
  {
    var p := WishlistPage.IsWished({"5"});
    WishedFiveTestsId(c[5]);
    WishedFiveTestsId(c[4]);
    WishedFiveTestsId(c[3]);
    WishedFiveTestsId(c[2]);
    WishedFiveTestsId(c[1]);
    WishedFiveTestsId(c[0]);
    assert c[6..] == [];
    FilterStep(c, 5, p);
    FilterStep(c, 4, p);
    FilterStep(c, 3, p);
    assert Seqs.Filter(c[3..], p) == [c[4]];
    FilterStep(c, 2, p);
    FilterStep(c, 1, p);
    FilterStep(c, 0, p);
    assert c[0..] == c;
  }

  /** With only '5' wished, the page lists product '5' alone. */
  lemma WishlistOfFive()
    ensures WishlistPage.WishlistItems(MOCK_WALLPAPERS, {"5"}) == [MOCK_WALLPAPERS[4]]
  {
    WishlistOfFiveOf(MOCK_WALLPAPERS);
  }

  /** A payload naming the Modern category constrains the category alone. */
  lemma ModernPayload()
    ensures ListingPage.InitialState(Some(SelectedFilter("category", "Modern"))).activeFilters ==
            ListingPage.ActiveFilters("Modern", "all", "all", "all")
  {
  }

  /** The Modern filter is the category test alone. */
  lemma ModernFilterTestsCategory(w: Wallpaper)
    ensures ListingPage.FilterCallback(ListingPage.ActiveFilters("Modern", "all", "all", "all"))(w) <==> w.category == "Modern"
  {
  }

  /** The Modern filter over the last three of six products whose categories are those of the shipped catalog. */
  lemma ModernListingTail(c: seq<Wallpaper>)
    requires |c| == 6
    requires c[3].category == "Traditional" && c[4].category == "Modern" && c[5].category == "Modern"
    ensures Seqs.Filter(c[3..], ListingPage.FilterCallback(ListingPage.ActiveFilters("Modern", "all", "all", "all"))) == [c[4], c[5]]
  {
    var p := ListingPage.FilterCallback(ListingPage.ActiveFilters("Modern", "all", "all", "all"));
    ModernFilterTestsCategory(c[5]);
    ModernFilterTestsCategory(c[4]);
    ModernFilterTestsCategory(c[3]);
    assert c[6..] == [];
    FilterStep(c, 5, p);
    FilterStep(c, 4, p);
    FilterStep(c, 3, p);
  }

  /** The Modern filter over any six products whose categories are those of the shipped catalog. */
  lemma ModernListingOf(c: seq<Wallpaper>)
    requires |c| == 6
    requires c[0].category == "Abstract" && c[1].category == "Abstract" && c[2].category == "Modern"
    requires c[3].category == "Traditional" && c[4].category == "Modern" && c[5].category == "Modern"
    ensures ListingPage.FilterCatalog(c, ListingPage.ActiveFilters("Modern", "all", "all", "all")) == [c[2], c[4], c[5]]
  {
    var p := ListingPage.FilterCallback(ListingPage.ActiveFilters("Modern", "all", "all", "all"));
    ModernListingTail(c);
    ModernFilterTestsCategory(c[2]);
    ModernFilterTestsCategory(c[1]);
    ModernFilterTestsCategory(c[0]);
    FilterStep(c, 2, p);
    FilterStep(c, 1, p);
    FilterStep(c, 0, p);
    assert c[0..] == c;
  }

  /** Opening the Modern category lists products '3', '5' and '6'. */
  lemma ModernCategoryListing()
    ensures ListingPage.FilterCatalog(MOCK_WALLPAPERS, ListingPage.ActiveFilters("Modern", "all", "all", "all"))
            == [MOCK_WALLPAPERS[2], MOCK_WALLPAPERS[4], MOCK_WALLPAPERS[5]]
  {
    ModernListingOf(MOCK_WALLPAPERS);
  }

  /** The Modern category shows its own chips and its own hero card. */
  lemma ModernCategoryContext()
    ensures ListingPage.SubCategories(SUB_CATEGORIES, "Modern") == ["Geometric", "Minimalistic", "Urban", "Industrial"]
    ensures ListingPage.CategoryContext(CATEGORIES, "Modern") == Some(CATEGORIES[2])
  {
    var cats := CATEGORIES;
    assert cats[0].name != "Modern" && cats[1].name != "Modern";
  }

  /** A category without its own sub-category list gets the four default chips. */
  lemma NatureUsesDefaultChips()
    ensures ListingPage.SubCategories(SUB_CATEGORIES, "Nature") == ListingPage.DEFAULT_SUB_CATEGORIES
    ensures ListingPage.SubCategories(SUB_CATEGORIES, ListingPage.ALL) == ListingPage.DEFAULT_SUB_CATEGORIES
  {
  }

  /** Browsing through the handlers, as a client of the app's state. */
  method BrowsingSession()
  {
    var app := new App.Storefront();
    assert app.Render() == App.HomeScreen;

    app.NavigateToListing("category", "Modern");
    assert app.Render() == App.ListingScreen(Some(SelectedFilter("category", "Modern")), {});

    app.ToggleWishlist("3");
    app.ToggleWishlist("5");
    app.ToggleWishlist("3");
    ToggleThreeFiveThree();
    assert app.wishlistIds == {"5"};

    app.NavigateToWishlist();
    assert app.Render() == App.WishlistScreen({"5"});
    assert app.selectedFilter == Some(SelectedFilter("category", "Modern"));

    app.NavigateToHome();
    assert app.selectedFilter == None && app.Render() == App.HomeScreen;
  }

  /** Filling and emptying the cart through the handlers. */
  method CartSession(w: Wallpaper)
  {
    var app := new App.Storefront();
    app.AddToCart(w);
    assert app.cart == [CartItem(w, 1)];
    assert app.currentPage == Cart && app.selectedFilter == None;

    app.AddToCart(w);
    CartLedger.AddExistingBumpsOnlyThatLine([CartItem(w, 1)], w, 0);
    assert app.cart == [CartItem(w, 2)];

    app.UpdateCartQuantity(w.id, -10);
    assert app.cart[0] == CartItem(w, 1);
    assert app.cart == [CartItem(w, 1)];

    app.RemoveFromCart(w.id);
    Seqs.SubsequenceElements(app.cart, [CartItem(w, 1)]);
    assert app.cart == [];
    assert app.CartCount() == 0;
  }
}
