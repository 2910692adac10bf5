/** `CartItem` of the current snapshot: a product and a quantity, and its `Encodable` key mapping. */
module CartItems {
  import opened Wrappers
  import opened Json
  import Products

  datatype CartItem = CartItem(product: Products.Product, quantity: int)

  /** `CartItem.sample`: the three demo products with quantities 3, 1 and 1. */
  function Sample(): (r: seq<CartItem>)
    ensures |r| == 3
    ensures forall i :: 0 <= i < 3 ==> r[i].product == Products.Sample()[i]
    ensures r[0].quantity == 3 && r[1].quantity == 1 && r[2].quantity == 1
  {
    var products := Products.Sample();
    [CartItem(products[0], 3), CartItem(products[1], 1), CartItem(products[2], 1)]
  }

  /** The object `encode(to:)` produces: the product's id and the quantity, nothing else. */
  function Payload(item: CartItem): Container {
    map["productId" := Number(item.product.id as real), "quantity" := Number(item.quantity as real)]
  }

  /** `encode(to:)`: fills a keyed container one entry at a time. */
  method Encode(item: CartItem) returns (container: Container)
    ensures container == Payload(item)
  {
    container := map[];
    container := container["productId" := Number(item.product.id as real)];
    container := container["quantity" := Number(item.quantity as real)];
  }

  /** Only the two keys are written; the product's other fields never reach the payload. */
  lemma PayloadKeys(item: CartItem)
    ensures Payload(item).Keys == {"productId", "quantity"}
    ensures "title" !in Payload(item) && "price" !in Payload(item) && "id" !in Payload(item)
  {
  }

  /** A receiver decoding the two keys gets back the product id and the quantity. */
  lemma PayloadRoundTrip(item: CartItem)
    requires IsInt(item.product.id) && IsInt(item.quantity)
    ensures DecodeInt(Payload(item), "productId") == Ok(item.product.id)
    ensures DecodeInt(Payload(item), "quantity") == Ok(item.quantity)
  {
    DecodeIntOfInt(Payload(item), "productId", item.product.id);
    DecodeIntOfInt(Payload(item), "quantity", item.quantity);
  }
}
