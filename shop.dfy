/** Shared entities of the storefront: the catalog product and the cart line. */
module Shop {

  /** A value that may be missing (TypeScript's `T | undefined`). */
  datatype Option<+T> = None | Some(value: T)

  /**
   * A catalog product. Prices are integer cents; the optional `size` is the
   * variant tag a cart line carries.
   */
  datatype Product = Product(
    id: string,
    name: string,
    slug: string,
    description: string,
    price: int,
    category: string,
    imageUrl: string,
    imageHint: string,
    stock: int,
    size: Option<string>)

  /** A cart line: the product's fields plus a quantity, which the cart never checks for sign on add. */
  datatype CartItem = CartItem(product: Product, quantity: int)
}
