/** The records the store keeps: products and cart lines. */
module Types {
  import opened Wrappers

  /**
   * The options chosen for a cart line, as ordered name/value pairs, or None
   * when the caller gave none. Two option sets are the same only when they
   * list the same pairs in the same order: the store compares their JSON
   * renderings, which keep the insertion order of the keys.
   */
  type Options = Option<seq<(string, string)>>

  /** A catalogue product; `price` is in cents. */
  datatype Product = Product(
    id: string,
    title: string,
    price: int,
    category: string,
    stock: int,
    featured: bool)

  /** A cart line: a snapshot of the product, how many, and the chosen options. */
  datatype CartItem = CartItem(
    id: string,
    product: Product,
    quantity: int,
    selectedOptions: Options)
}
