/** The product record shared by the detail lookup, the search page and the product card. */
module Products {
  import opened Wrappers

  /** A product as the UI reads it. `None` is a missing (or null) field. Prices and stock are
      whole numbers. */
  datatype Product = Product(
    sku: Option<string>,
    title: Option<string>,
    brand: Option<string>,
    price: Option<int>,
    originalPrice: Option<int>,
    discount: Option<int>,
    stock: Option<int>,
    stockStatus: Option<string>,
    category: Option<string>,
    features: Option<seq<string>>)

  /** A string field in a JavaScript condition: missing and `""` are falsy. */
  predicate TruthyText(s: Option<string>) {
    s.Some? && s.value != ""
  }

  /** A numeric field in a JavaScript condition: missing and `0` are falsy. */
  predicate TruthyNumber(n: Option<int>) {
    n.Some? && n.value != 0
  }
}
