/** The product record the catalog hands to the storefront. */
module Catalog {
  import opened Options

  type ProductId = int

  /**
   * A row of the `products` table. `category` is absent when the row has
   * none; `attributes` holds every other column (image URL, description,
   * rating, ...), which the storefront only passes through.
   */
  datatype Product = Product(
    id: ProductId,
    name: string,
    price: real,
    category: Option<string>,
    attributes: map<string, string>)
}
