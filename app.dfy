/**
 * The top-level component: four state slots (current page, selected filter,
 * wishlist ids, cart) that its handlers overwrite, the page switch, and the
 * header's badge counts. Each handler is one synchronous state transition.
 */
module App {
  import opened Options
  import opened Types
  import CartLedger
  import WishlistSet

  /** The page component the switch renders, with the state it is given. */
  datatype Screen =
    | HomeScreen
    | ListingScreen(initialFilter: Option<SelectedFilter>, wishlistIds: set<string>)
    | WishlistScreen(wishlistIds: set<string>)
    | CartScreen(items: seq<CartItem>)

  /**
   * `renderPage`: one screen per page; `Custom` has no case of its own and
   * falls through to the home screen.
   */
  function RenderPage(page: Page, selectedFilter: Option<SelectedFilter>,
                      wishlistIds: set<string>, cart: seq<CartItem>): (s: Screen)
    ensures s.HomeScreen? <==> page == Home || page == Custom
    ensures s.ListingScreen? <==> page == Listing
    ensures s.WishlistScreen? <==> page == Wishlist
    ensures s.CartScreen? <==> page == Cart
    ensures s.ListingScreen? ==> s.initialFilter == selectedFilter && s.wishlistIds == wishlistIds
    ensures s.WishlistScreen? ==> s.wishlistIds == wishlistIds
    ensures s.CartScreen? ==> s.items == cart
  {
    match page
    case Home => HomeScreen
    case Listing => ListingScreen(selectedFilter, wishlistIds)
    case Wishlist => WishlistScreen(wishlistIds)
    case Cart => CartScreen(cart)
    case _ => HomeScreen
  }

  class Storefront {
    var currentPage: Page
    var selectedFilter: Option<SelectedFilter>
    var wishlistIds: set<string>
    var cart: seq<CartItem>

    /**
     * The invariant every handler keeps: cart ids are unique, every quantity
     * is at least 1, and no handler ever selects the `Custom` page.
     */
    ghost predicate Valid()
      reads this
    {
      CartLedger.Valid(cart) && currentPage != Custom
    }

    /** The initial state: home page, no filter, empty wishlist, empty cart. */
    constructor ()
      ensures Valid()
      ensures currentPage == Home && selectedFilter == None
      ensures wishlistIds == {} && cart == []
    {
      currentPage := Home;
      selectedFilter := None;
      wishlistIds := {};
      cart := [];
    }

    /** `navigateToListing`: the listing page with filter `{kind, value}`; wishlist and cart untouched. */
    method NavigateToListing(kind: string, value: string)
      requires Valid()
      modifies this
      ensures Valid()
      ensures currentPage == Listing && selectedFilter == Some(SelectedFilter(kind, value))
      ensures wishlistIds == old(wishlistIds) && cart == old(cart)
    {
      selectedFilter := Some(SelectedFilter(kind, value));
      currentPage := Listing;
    }

    /** `navigateToHome`: the home page with the filter cleared. */
    method NavigateToHome()
      requires Valid()
      modifies this
      ensures Valid()
      ensures currentPage == Home && selectedFilter == None
      ensures wishlistIds == old(wishlistIds) && cart == old(cart)
    {
      selectedFilter := None;
      currentPage := Home;
    }

    /** The header's wishlist button: the page changes, the filter is kept. */
    method NavigateToWishlist()
      requires Valid()
      modifies this
      ensures Valid()
      ensures currentPage == Wishlist
      ensures selectedFilter == old(selectedFilter) && wishlistIds == old(wishlistIds) && cart == old(cart)
    {
      currentPage := Wishlist;
    }

    /** The header's cart button: the page changes, the filter is kept. */
    method NavigateToCart()
      requires Valid()
      modifies this
      ensures Valid()
      ensures currentPage == Cart
      ensures selectedFilter == old(selectedFilter) && wishlistIds == old(wishlistIds) && cart == old(cart)
    {
      currentPage := Cart;
    }

    /** `toggleWishlist`: flips the membership of `id` and nothing else. */
    method ToggleWishlist(id: string)
      requires Valid()
      modifies this
      ensures Valid()
      ensures wishlistIds == WishlistSet.Toggle(old(wishlistIds), id)
      ensures currentPage == old(currentPage) && selectedFilter == old(selectedFilter) && cart == old(cart)
    {
      var next := wishlistIds;
      if id in next {
        next := next - {id};
      } else {
        next := next + {id};
      }
      wishlistIds := next;
    }

    /** `addToCart`: merges the product into the cart and jumps to the cart page; the filter is kept. */
    method AddToCart(w: Wallpaper)
      requires Valid()
      modifies this
      ensures Valid()
      ensures cart == CartLedger.AddToCart(old(cart), w)
      ensures CartCount() == old(CartLedger.CartCount(cart)) + 1
      ensures currentPage == Cart
      ensures selectedFilter == old(selectedFilter) && wishlistIds == old(wishlistIds)
    {
      CartLedger.AddPreservesValid(cart, w);
      CartLedger.CartCountAfterAdd(cart, w);
      cart := CartLedger.AddToCart(cart, w);
      currentPage := Cart;
    }

    /** `updateCartQuantity`: applies the clamped delta to the line for `id`. */
    method UpdateCartQuantity(id: string, delta: int)
      requires Valid()
      modifies this
      ensures Valid()
      ensures cart == CartLedger.UpdateQuantity(old(cart), id, delta)
      ensures currentPage == old(currentPage) && selectedFilter == old(selectedFilter)
      ensures wishlistIds == old(wishlistIds)
    {
      CartLedger.UpdatePreservesValid(cart, id, delta);
      cart := CartLedger.UpdateQuantity(cart, id, delta);
    }

    /** `removeFromCart`: drops the line for `id`. */
    method RemoveFromCart(id: string)
      requires Valid()
      modifies this
      ensures Valid()
      ensures cart == CartLedger.Remove(old(cart), id)
      ensures currentPage == old(currentPage) && selectedFilter == old(selectedFilter)
      ensures wishlistIds == old(wishlistIds)
    {
      CartLedger.RemovePreservesValid(cart, id);
      cart := CartLedger.Remove(cart, id);
    }

    /** The header's `wishlistCount`: the size of the wishlist set, zero exactly when it is empty. */
    function WishlistCount(): (n: nat)
      reads this
      ensures n == |wishlistIds|
      ensures n == 0 <==> wishlistIds == {}
    {
      |wishlistIds|
    }

    /**
     * The header's `cartCount`: the sum of the quantities, which is at least
     * the number of lines and zero exactly when the cart is empty.
     */
    function CartCount(): (n: int)
      reads this
      requires Valid()
      ensures n >= |cart|
      ensures n == 0 <==> cart == []
    {
      CartLedger.CartCount(cart)
    }

    /** The page component currently shown; never the `Custom` fall-through. */
    function Render(): (s: Screen)
      reads this
      requires Valid()
      ensures s == RenderPage(currentPage, selectedFilter, wishlistIds, cart)
      ensures s.HomeScreen? <==> currentPage == Home
    {
      RenderPage(currentPage, selectedFilter, wishlistIds, cart)
    }
  }
}
