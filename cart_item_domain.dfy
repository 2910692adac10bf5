/** `CartItemDomain`: one line of the cart list, identified by its own `id`. */
module CartItemDomain {
  import opened Effects
  import opened Identified
  import Products
  import CartItems

  /** Both fields are `let`: a line never changes once created. */
  datatype State = State(id: Uuid, cartItem: CartItems.CartItem)

  /** The key an identified array of lines is keyed by. */
  function Key(s: State): Uuid {
    s.id
  }

  datatype Action = DeleteCartItem(product: Products.Product)

  /** `reduce`: deleting is the parent's job, so the line itself does nothing. */
  function Reduce(s: State, a: Action): Step<State, Action> {
    match a
    case DeleteCartItem(_) => Step(s, None)
  }

  /** Whatever product it names, `deleteCartItem` leaves the line as it is and returns no effect. */
  lemma DeleteLeavesLine(s: State, p: Products.Product)
    ensures Reduce(s, DeleteCartItem(p)).state == s
    ensures Reduce(s, DeleteCartItem(p)).effect == None
  {
  }
}
