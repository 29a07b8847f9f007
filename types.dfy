/** The records of the storefront: products, cart lines and the pages of the app. */
module Types {

  datatype Surface = Glossy | Matte

  /**
   * A product of the catalog. `price` is in integer minor units (paise), so
   * that the cart's sums are exact.
   */
  datatype Wallpaper = Wallpaper(
    id: string,
    name: string,
    price: int,
    image: string,
    category: string,
    roomType: string,
    collection: string,
    surface: Surface,
    mood: string,
    color: string)

  /** A cart line: the product's fields together with how many of it are in the cart. */
  datatype CartItem = CartItem(wallpaper: Wallpaper, quantity: int)
  {
    function Id(): string { wallpaper.id }
    function Price(): int { wallpaper.price }
  }

  /**
   * The navigation payload `{ type, value }` that opens the listing: `kind`
   * names the field to filter on (`type` is a reserved word in Dafny).
   */
  datatype SelectedFilter = SelectedFilter(kind: string, value: string)

  /** The pages the app can show. No handler ever selects `Custom`. */
  datatype Page = Home | Listing | Custom | Wishlist | Cart
}
