# Storefront state core, in Dafny

A model of the client-side state logic of a small wallpaper storefront. The
logic sits under its markup:

- the top-level component holds four pieces of state: the current page, the
  optional `{type, value}` navigation filter, the set of wished product ids,
  and the cart;
- its handlers navigate, toggle the wishlist, and add, re-quantify and remove
  cart lines;
- the listing page seeds a filter record from the navigation payload, then
  filters and stable-sorts the catalog;
- the cart page derives line totals, subtotal, shipping and total;
- the wishlist page lists the wished catalog products in catalog order.

Layout, one module per file:

| module | file | what it holds |
|---|---|---|
| `Options` | `options.dfy` | `Option` |
| `Seqs` | `seqs.dfy` | `filter`, `map`, `find` and reversal over sequences; the subsequence relation |
| `Types` | `types.dfy` | `Wallpaper`, `CartItem` (a product plus a quantity), the `Page` enum, the navigation filter |
| `Catalog` | `catalog.dfy` | the shipped category cards, the sub-category table and the six products, prices in paise |
| `CartLedger` | `cart_ledger.dfy` | the cart reducers of `addToCart`, `updateCartQuantity` and `removeFromCart`, and the badge count |
| `WishlistSet` | `wishlist_set.dfy` | the wishlist toggle |
| `Sorting` | `sorting.dfy` | a stable sort by an integer key, which is what `Array.prototype.sort` does with a subtracting comparator |
| `ListingPage` | `listing_page.dfy` | the filter record, its seeding, the filter and sort, the sub-category chips and the hero card |
| `CartPage` | `cart_page.dfy` | the cart page's sums and its empty check |
| `WishlistPage` | `wishlist_page.dfy` | the wishlist page's list and its empty check |
| `App` | `app.dfy` | class `Storefront`: the four state slots as fields and the handlers as methods; the page switch |
| `Scenarios` | `scenarios.dfy` | concrete runs over the shipped catalog, and two client methods that drive `Storefront` |

Prices are integers in minor units (paise), so 75.65 is `7565` and every sum is
exact. The cart reducers are pure functions from the previous cart to the next
one, as the `setCart(prev => ...)` updaters are. `Storefront`'s methods assign
their results to the `cart` field. Each method states the whole new state and
keeps `Valid()`: ids in the cart are unique, every quantity is at least 1, and
the page is never `Custom`.

The app keeps no navigation history: `Listing` declares an `onBack` prop
(`pages/Listing.tsx:12`), but `App.tsx:77-82` never passes it, so its Back
button does nothing. The model has no history either.

## Model

| member | source | states |
|---|---|---|
| CartLedger.Find | App.tsx:45 | `find` by id: a line is found exactly when some line has that id; the found line is in the cart and has that id |
| CartLedger.BumpIfMatching | App.tsx:47-49 | the `map` callback of an add: the line keeps its product, and its quantity goes up by one exactly when its id is the added one |
| CartLedger.AddToCart | App.tsx:43-52 | for a present id: same length, each line with that id gets one more unit, every other line is unchanged; for an absent id: the cart plus one line of quantity 1 at the end |
| CartLedger.AddExistingBumpsOnlyThatLine | App.tsx:45-50 | with unique ids, adding a present product changes exactly its line, by one unit; length, order and all other lines are unchanged |
| CartLedger.AddAbsentAppends | App.tsx:51 | adding an absent product lengthens the cart by one, the old lines form the prefix, and the new last line is the product with quantity 1 |
| CartLedger.AddRepeatedlyFromEmpty | App.tsx:43-52 | from an empty cart, N >= 1 adds of one product give one line of quantity N |
| CartLedger.AddToEmpty | App.tsx:51 | adding to the empty cart gives one line of quantity 1 |
| CartLedger.AddToSingleLine | App.tsx:45-50 | adding the product of a one-line cart raises that line to q + 1 |
| CartLedger.AddRepeatedly | App.tsx:43-52 | N successive adds of one product, each applied to the previous cart; zero adds leave the cart as it was; what the adds do is stated by the lemmas below |
| CartLedger.AddLeavesId | App.tsx:45-51 | after one add the product has a line, and every existing line keeps its product id at its position |
| CartLedger.AddRepeatedlyShape | App.tsx:43-52 | after N >= 1 adds the product has a line; the cart grows by at most one line; the existing lines keep their product ids and positions |
| CartLedger.AddRepeatedlyKeepsValid | App.tsx:43-52 | any number of adds keeps ids unique and quantities >= 1 |
| CartLedger.AddExistingPreservesValid | App.tsx:45-50 | bumping a present product keeps ids unique and quantities >= 1, and the id stays in the cart |
| CartLedger.AddAbsentPreservesValid | App.tsx:51 | appending an absent product keeps ids unique and quantities >= 1, and the id is then in the cart |
| CartLedger.AddPreservesValid | App.tsx:43-52 | every add keeps ids unique and quantities >= 1, and leaves the product's id in the cart |
| CartLedger.Max | App.tsx:60 | `Math.max`: at least both arguments and equal to one of them |
| CartLedger.ApplyDelta | App.tsx:58-63 | the `map` callback of an update: the line keeps its product; a line with another id is unchanged; the line with that id gets a quantity >= 1 that is `q + delta` unless that is below 1, when it is 1 |
| CartLedger.UpdateQuantity | App.tsx:57-65 | same length; lines with another id unchanged; the line for `id` keeps its product and gets exactly `max(1, q + delta)`, which is >= 1 for any delta; an absent id leaves the cart unchanged |
| CartLedger.UpdatePreservesValid | App.tsx:57-65 | an update keeps ids unique and quantities >= 1, whatever the delta |
| CartLedger.Remove | App.tsx:67-69 | no line with `id` is left; the result is a subsequence of the cart, so order is kept; every line with another id is kept |
| CartLedger.RemoveAbsentIsNoOp | App.tsx:68 | removing an id with no line leaves the cart unchanged |
| CartLedger.SubsequenceKeepsUniqueIds | App.tsx:68 | a subsequence of a cart with unique ids has unique ids |
| CartLedger.RemovePreservesValid | App.tsx:67-69 | removal keeps ids unique and quantities >= 1 |
| CartLedger.CartCount | App.tsx:120 | the badge count, a `reduce` of quantities: on a cart with quantities >= 1 it is at least the number of lines, and 0 exactly when the cart is empty |
| CartLedger.CartCountAppend | App.tsx:120 | the count of a concatenation is the sum of the two counts |
| CartLedger.CartCountUpdateAt | App.tsx:120 | replacing one line changes the count by the difference of the two quantities |
| CartLedger.CartCountAfterAdd | App.tsx:43-52 | with unique ids, an add raises the badge count by exactly one |
| WishlistSet.Toggle | App.tsx:34-41 | `id` is in the result exactly when it was not in the set; every other id keeps its membership |
| WishlistSet.ToggleTwice | App.tsx:34-41 | toggling one id twice gives the original set |
| WishlistSet.ToggleChangesCount | App.tsx:34-41 | a toggle changes the set size by one, down for a present id and up for an absent one |
| WishlistSet.ToggleCommutes | App.tsx:34-41 | toggles of two ids commute |
| App.RenderPage | App.tsx:71-104 | the page switch: Home and the `Custom` fall-through give the home screen, and each of Listing, Wishlist and Cart gives its own screen, each in both directions; the listing screen gets the selected filter and the wishlist, the wishlist screen the wishlist, the cart screen the cart |
| App.Storefront.constructor | App.tsx:12-17 | initial state: Home, no filter, empty wishlist, empty cart |
| App.Storefront.NavigateToListing | App.tsx:24-27 | page is Listing and the filter is `{type, value}`; wishlist and cart unchanged |
| App.Storefront.NavigateToHome | App.tsx:29-32 | page is Home and the filter is cleared; wishlist and cart unchanged |
| App.Storefront.NavigateToWishlist | App.tsx:117 | only the page changes, to Wishlist |
| App.Storefront.NavigateToCart | App.tsx:118 | only the page changes, to Cart |
| App.Storefront.ToggleWishlist | App.tsx:34-41 | the wishlist becomes `Toggle(old, id)`; page, filter and cart unchanged |
| App.Storefront.AddToCart | App.tsx:43-55 | the cart becomes the add reducer's result, the badge count goes up by one, and the page becomes Cart; filter and wishlist unchanged |
| App.Storefront.UpdateCartQuantity | App.tsx:57-65 | the cart becomes the update reducer's result; everything else unchanged; the invariant is kept |
| App.Storefront.RemoveFromCart | App.tsx:67-69 | the cart becomes the remove reducer's result; everything else unchanged; the invariant is kept |
| App.Storefront.WishlistCount | App.tsx:119 | the wishlist badge: the set size, 0 exactly when the set is empty |
| App.Storefront.CartCount | App.tsx:120 | the cart badge: at least the number of lines, and 0 exactly when the cart is empty |
| App.Storefront.Render | App.tsx:71-104 | the screen of the current page; it is the home screen exactly when the page is Home, because the state never holds `Custom` |
| ListingPage.InitialFilters | pages/Listing.tsx:24-29 | a field is not `all` only when the payload names that field with that value; a payload naming category, roomType or mood gives that field its value; subCategory is `all` |
| ListingPage.InitialState | pages/Listing.tsx:23-29 | the page mounts sorted by `Relevance` with the seeded filter record |
| ListingPage.InitialFiltersNameOneField | pages/Listing.tsx:24-29 | a payload naming category, roomType or mood sets that field alone; every other field, subCategory included, is `all` |
| ListingPage.InitialFiltersUnconstrained | pages/Listing.tsx:24-29 | a missing payload, or one naming no filter field (such as `all`), leaves every field `all` |
| ListingPage.SelectSubCategory | pages/Listing.tsx:76-87 | a chip, "All Designs" or a named one, sets `subCategory` alone; sort and the other fields are kept |
| ListingPage.SelectSort | pages/Listing.tsx:132 | a sort option sets `sortBy` alone |
| ListingPage.Matches | pages/Listing.tsx:46-50 | a product passes the filter exactly when each of category, roomType and mood is `all` or equal to the product's |
| ListingPage.FilterCallback | pages/Listing.tsx:46-50 | the callback given to `filter` answers exactly `Matches` for every product |
| ListingPage.FilterCatalog | pages/Listing.tsx:46-50 | a subsequence of the catalog; each kept product equals every non-`all` field among category, roomType and mood; every catalog product that does so is kept |
| ListingPage.Compare | pages/Listing.tsx:51-55 | the comparator's sign: for Low → High negative exactly when `a` is cheaper and 0 exactly on equal prices; for High → Low negative exactly when `a` is dearer and 0 on equal prices; 0 for every other option |
| ListingPage.SortKey | pages/Listing.tsx:51-55 | a key whose difference is the comparator for every pair; for options other than the two price sorts every key is 0 |
| ListingPage.ComparatorIsKeyDifference | pages/Listing.tsx:51-55 | the comparator is `key(a) - key(b)` for key price, minus price, or 0 |
| ListingPage.FilteredWallpapers | pages/Listing.tsx:45-56 | a permutation of the filtered list; non-decreasing price for `Price: Low → High`; non-increasing for `Price: High → Low`; exactly the filtered list, in its order, for any other option |
| ListingPage.PriceSortIsStable | pages/Listing.tsx:51-55 | products with equal sort key keep their filtered order |
| ListingPage.UnconstrainedKeepsCatalog | pages/Listing.tsx:46-50 | with category, roomType and mood all `all`, the filter keeps the whole catalog, and the non-price sorts show it in catalog order |
| ListingPage.SubCategoryIgnored | pages/Listing.tsx:46-50 | `subCategory` never changes the filtered or the sorted list |
| ListingPage.ReverseOfAscendingIsDescending | pages/Listing.tsx:52-53 | reading a price-ascending list backwards gives a price-descending one |
| ListingPage.DistinctPricesCarryOver | pages/Listing.tsx:51-55 | products drawn from a catalog with distinct prices have distinct sort keys |
| ListingPage.PriceSortsAreReverses | pages/Listing.tsx:51-55 | when catalog prices are distinct, High → Low is exactly Low → High reversed |
| ListingPage.BrowseAllShowsCatalog | pages/Listing.tsx:24-56 | a listing mounted from another page with the `('all', 'all')` payload shows the whole catalog in catalog order |
| ListingPage.SubCategories | pages/Listing.tsx:38-43 | the table's list when the category is not `all` and has an entry; otherwise the four default names |
| ListingPage.CategoryContext | pages/Listing.tsx:31-36 | for `all`, the first card; otherwise none exactly when no card has that name, and else the first card that has it |
| Seqs.Filter | App.tsx:68 | `Array.prototype.filter`: a subsequence of the input whose elements all satisfy the predicate, containing every input element that does |
| Seqs.Map | App.tsx:47-49 | `Array.prototype.map`: same length, and each element is the callback applied to the input element at the same index |
| Seqs.FindFirst | App.tsx:45 | `Array.prototype.find`: nothing exactly when no element satisfies the predicate; otherwise an element that does, with none before it satisfying it |
| Seqs.Reverse | pages/Listing.tsx:51-55 | reference reversal used to relate the two price sorts: same length, element `i` is input element `n - 1 - i` |
| Seqs.ReversePermutes | pages/Listing.tsx:51-55 | a reversal has the same elements with the same multiplicities |
| Sorting.Insert | pages/Listing.tsx:51 | insertion adds exactly one element: the multiset grows by `x` |
| Sorting.SortedCons | pages/Listing.tsx:51 | a head no larger than a sorted tail gives a sorted list |
| Sorting.InsertSorted | pages/Listing.tsx:51 | insertion into a sorted list keeps it sorted |
| Sorting.StableSort | pages/Listing.tsx:51-55 | a permutation of its input, of the same length, sorted by key |
| Sorting.InsertStable | pages/Listing.tsx:51 | inserting `x` puts it before every element with the same key and keeps their order |
| Sorting.InsertStableStep | pages/Listing.tsx:51 | passing a head with a smaller key does not reorder the elements of key `v` |
| Sorting.SortStable | pages/Listing.tsx:51-55 | for each key value, the elements with that key keep their input order |
| Sorting.ConstantKeyKeepsOrder | pages/Listing.tsx:54 | when every key is the same (comparator 0), the sort leaves the list unchanged |
| Sorting.SortedTail | pages/Listing.tsx:51 | the tail of a sorted list is sorted |
| Sorting.DistinctKeysTail | pages/Listing.tsx:51 | distinct keys carry over to the tail |
| Sorting.SortedHeadsAgree | pages/Listing.tsx:51 | two sorted permutations with distinct keys share their head |
| Sorting.SortedPermutationsEqual | pages/Listing.tsx:51-55 | two sorted permutations of each other with distinct keys are equal |
| CartPage.Subtotal | pages/Cart.tsx:19 | the `reduce` of price × quantity from 0: 0 for an empty cart, non-negative when prices and quantities are |
| CartPage.LineTotal | pages/Cart.tsx:95 | price × quantity of one line: non-negative for non-negative price and quantity, 0 for quantity 0, the unit price for quantity 1 |
| CartPage.LineTotalOneMore | pages/Cart.tsx:95 | one more unit raises the line total by the unit price |
| CartPage.Total | pages/Cart.tsx:20-21 | shipping is 0, so the total equals the subtotal |
| CartPage.SubtotalAppend | pages/Cart.tsx:19 | the subtotal of a concatenation is the sum of the two subtotals |
| CartPage.SumAppend | pages/Cart.tsx:19 | the reference sum distributes over concatenation |
| CartPage.SubtotalIsSumOfLineTotals | pages/Cart.tsx:19-95 | the subtotal equals the sum of the per-line totals shown for each item |
| CartPage.Render | pages/Cart.tsx:19-23 | the empty-cart view exactly when there are no items; otherwise one price × quantity per line, the subtotal their sum, shipping 0, and the total equal to the subtotal |
| WishlistPage.WishlistItems | pages/Wishlist.tsx:20 | a subsequence of the catalog, so in catalog order; a catalog product is listed exactly when its id is wished; only catalog ids appear |
| WishlistPage.IsWished | pages/Wishlist.tsx:20 | the callback given to `filter` holds of a product exactly when its id is in the wished set |
| WishlistPage.Render | pages/Wishlist.tsx:20-23 | the empty state exactly when no catalog product is wished; otherwise the wished list, which is then non-empty |
| WishlistPage.EmptySetShowsEmptyState | pages/Wishlist.tsx:20-23 | an empty set gives an empty list and the empty state |
| WishlistPage.CatalogIdsCons | pages/Wishlist.tsx:20 | the id set of a catalog with a product in front is that id plus the rest's ids |
| WishlistPage.UniqueCatalogIdsCons | pages/Wishlist.tsx:20 | the rest of a catalog with unique ids has unique ids and lacks the head's id |
| WishlistPage.WishedCatalogIdsCons | pages/Wishlist.tsx:20 | with unique ids, a product in front adds one to the count of wished catalog ids exactly when it is wished |
| WishlistPage.WishlistLength | pages/Wishlist.tsx:20 | with unique catalog ids, the list's length is the number of wished ids the catalog has, and never more than the catalog's length |
| Scenarios.CatalogIdsUnique | constants.tsx:44-51 | the shipped catalog's ids are distinct |
| Scenarios.ShippedPricesEqual | constants.tsx:44-51 | every shipped product costs 75.65 (7565 paise) |
| Scenarios.OnePriceSortsKeepOrder | pages/Listing.tsx:45-56 | over a one-price catalog, every sort option shows the filtered list in catalog order |
| Scenarios.ShippedCatalogSortsKeepOrder | pages/Listing.tsx:45-56 | over the shipped catalog, every sort option shows the filtered list in catalog order |
| Scenarios.AddProductOneTwice | App.tsx:43-52 | two adds of product '1' to an empty cart give one line of quantity 2; count 2; subtotal and total 151.30 |
| Scenarios.FilterStep | pages/Listing.tsx:46 | one step of `filter` over a suffix of a list |
| Scenarios.ToggleThreeFiveThree | App.tsx:34-41 | toggling '3', '5', '3' on an empty wishlist leaves {'5'} |
| Scenarios.WishedFiveTestsId | pages/Wishlist.tsx:20 | the wishlist {'5'} tests the id alone |
| Scenarios.WishlistOfFiveOf | pages/Wishlist.tsx:20 | over six products of which only the fifth has id '5', the wishlist {'5'} lists the fifth alone |
| Scenarios.WishlistOfFive | pages/Wishlist.tsx:20 | on the shipped catalog, the wishlist {'5'} lists product '5' alone |
| Scenarios.ModernPayload | pages/Listing.tsx:24-29 | the payload `category: Modern` constrains the category alone |
| Scenarios.ModernFilterTestsCategory | pages/Listing.tsx:46-50 | the Modern filter record tests the category alone |
| Scenarios.ModernListingTail | pages/Listing.tsx:46-50 | on the last three products, with the shipped categories, the Modern filter keeps the last two |
| Scenarios.ModernListingOf | pages/Listing.tsx:46-50 | over six products with the shipped categories, the Modern filter keeps the third, fifth and sixth |
| Scenarios.ModernCategoryListing | pages/Listing.tsx:46-50 | on the shipped catalog, the Modern category lists products '3', '5' and '6' |
| Scenarios.ModernCategoryContext | pages/Listing.tsx:31-43 | Modern shows its own four chips and the third category card |
| Scenarios.NatureUsesDefaultChips | pages/Listing.tsx:38-43 | a category with no entry in the table, and `all`, get the four default chips |

## Left out

- Markup, styling, icons and animation: none of them carry state.
- `pages/Home.tsx` and `components/Header.tsx`: both are presentational. App passes the header's `navItems` callbacks as `() => navigateToListing('all', 'all')`, so their arguments are ignored.
- `window.scrollTo` on a page change, and the other DOM effects: no state is involved.
- React's `useState`/`useMemo` machinery: each handler is one synchronous state transition. Repeated renders and batched updates are not modelled.
- ListingPage.InitialFilters, ListingPage.InitialState: they describe only a listing mounted from another page. `activeFilters` and `sortBy` are `useState` slots (`pages/Listing.tsx:23-29`), seeded once at mount. A `navigateToListing` call while the listing is already shown, such as the header's link (`App.tsx:116`), changes `selectedFilter` and so `App.RenderPage`'s `initialFilter`. React keeps the mounted `Listing`, so the filters shown do not change. The page-local state of a mounted listing across App re-renders is not modelled.
- Floating-point prices and `toFixed(2)` formatting: prices are exact integers in paise.
- CartPage.Subtotal: the sum is exact over unbounded integers. IEEE-double rounding is not modelled.
- CartLedger.UpdateQuantity: `delta` is an integer. A fractional or non-finite `number` delta is not modelled.
- A navigation history and back action: the code has none, because `onBack` is never passed to the listing page.
- ListingPage.SubCategories: the lookup modelled is "the key is in the table". A JavaScript object lookup would also find inherited keys such as `toString`, and that is not modelled.
- The listing page's `filterDrawerOpen` flag (`pages/Listing.tsx:22`, `:118`): it is set, but nothing reads it, so no drawer is ever rendered.
- Product cards' wishlist and add-to-cart buttons are the `Storefront` methods themselves. The prop plumbing that routes clicks to them is not modelled.
- The sort options `Relevance` and `Newest Arrivals` share the zero comparator, so both keep catalog order. No other ordering is invented for `Newest Arrivals`.
