/** The product record as the frontend receives it from GET /products
    (the `Product` interface of the frontend's type definitions).  A missing
    `code` is the empty string and a missing `cost_price` is `None`. */
module Catalog {
  import opened Common

  datatype Product = Product(
    id: string,
    name: string,
    code: string,
    category: string,
    price: int,
    costPrice: Option<int>,
    stock: int,
    isActive: bool)
}
