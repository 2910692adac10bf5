/**
 * The value types of the earlier snapshot: a `Product` without decoding and a
 * `CartItem` that carries its own `UUID` and an unsigned quantity.
 */
module OldCatalog {
  import opened Identified

  datatype Product = Product(
    id: int,
    title: string,
    price: real,
    description: string,
    category: string,
    imageString: string)

  /** `quantity` is a `UInt`, so it is never negative. */
  datatype CartItem = CartItem(id: Uuid, product: Product, quantity: nat)

  /**
   * The first two entries of the snapshot's `Product.sample`, the only ones
   * `CartItem.sample` reads. That list is not part of this model, so its two
   * entries are given.
   */
  datatype SampleCatalog = SampleCatalog(first: Product, second: Product)

  /** `CartItem.sample`: the two sample products with quantities 3 and 1, each under a freshly generated `UUID`. */
  function Sample(catalog: SampleCatalog, uuid: Uuids): (r: seq<CartItem>)
    ensures |r| == 2
    ensures r[0].product == catalog.first && r[0].quantity == 3
    ensures r[1].product == catalog.second && r[1].quantity == 1
    ensures r[0].id != r[1].id
  {
    [CartItem(uuid.Peek(), catalog.first, 3), CartItem(uuid.Skip(1).Peek(), catalog.second, 1)]
  }
}
