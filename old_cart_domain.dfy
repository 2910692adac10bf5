/** `CartDomain` of the earlier snapshot: a plain array of cart items, its total and one alert. */
module OldCartDomain {
  import opened Wrappers
  import opened Effects
  import OldCatalog
  import Money

  /** The confirmation alert, quoting the total it was raised with; its text is not modelled. */
  datatype Alert = ConfirmPurchase(total: real)

  datatype State = State(cartItems: seq<OldCatalog.CartItem>, totalPrice: real, alert: Option<Alert>)

  /** `State()`: an empty cart with a zero total and no alert. */
  function Initial(): (s: State)
    ensures s.cartItems == [] && s.totalPrice == 0.0 && s.alert == Nil
  {
    State([], 0.0, Nil)
  }

  /** `State(cartItems:)`. */
  function New(cartItems: seq<OldCatalog.CartItem>): (s: State)
    ensures s.cartItems == cartItems && s.totalPrice == 0.0 && s.alert == Nil
  {
    State(cartItems, 0.0, Nil)
  }

  datatype Action =
    | FetchCartItems(items: seq<OldCatalog.CartItem>)
    | DidPressCloseButton
    | DidReceivePurchaseResponse(result: TaskResult<string>)
    | GetTotalPrice
    | DidPressPayButton
    | DidCancelConfirmation
    | DidConfirmPurchase

  /** The actions the confirmation's buttons send. */
  function Buttons(alert: Alert): seq<Action> {
    [DidConfirmPurchase, DidCancelConfirmation]
  }

  /** What one line costs: `price * Double(quantity)`. */
  function LinePrice(item: OldCatalog.CartItem): real {
    item.product.price * item.quantity as real
  }

  /** `cartItems.reduce(0.0, { $0 + $1.product.price * Double($1.quantity) })`: the line prices summed left to right. */
  function Total(items: seq<OldCatalog.CartItem>): real {
    Money.Sum(Money.Prices(items, LinePrice))
  }

  /** `.task`: submits the items captured when the purchase was confirmed. */
  function OrderEffect(items: seq<OldCatalog.CartItem>): Effect<Action> {
    Run(SendCartOrder(items, r => DidReceivePurchaseResponse(r)))
  }

  function Reduce(s: State, a: Action): Step<State, Action> {
    match a
    case FetchCartItems(items) => Step(s.(cartItems := items), None)
    case DidPressCloseButton => Step(s, None)
    case DidReceivePurchaseResponse(_) => Step(s, None)
    case GetTotalPrice => Step(s.(totalPrice := Total(s.cartItems)), None)
    case DidPressPayButton => Step(s.(alert := Some(ConfirmPurchase(s.totalPrice))), None)
    case DidCancelConfirmation => Step(s.(alert := Nil), None)
    case DidConfirmPurchase => Step(s, OrderEffect(s.cartItems))
  }

  /** The reducer closure as written, assigning the `inout` state's fields. */
  method Apply(state: State, action: Action) returns (state': State, effect: Effect<Action>)
    ensures Step(state', effect) == Reduce(state, action)
  {
    state' := state;
    effect := None;
    match action {
      case FetchCartItems(items) =>
        state' := state'.(cartItems := items);
      case DidPressCloseButton =>
      case DidReceivePurchaseResponse(_) =>
      case GetTotalPrice =>
        state' := state'.(totalPrice := Total(state'.cartItems));
      case DidPressPayButton =>
        state' := state'.(alert := Some(ConfirmPurchase(state'.totalPrice)));
      case DidCancelConfirmation =>
        state' := state'.(alert := Nil);
      case DidConfirmPurchase =>
        var items := state'.cartItems;
        effect := OrderEffect(items);
    }
  }

  /** Unsigned quantities and non-negative prices never give a negative total. */
  lemma TotalNonNegative(items: seq<OldCatalog.CartItem>)
    requires forall k :: 0 <= k < |items| ==> items[k].product.price >= 0.0
    ensures Total(items) >= 0.0
  {
    forall k | 0 <= k < |items|
      ensures Money.Prices(items, LinePrice)[k] >= 0.0
    {
      assert items[k].quantity as real >= 0.0;
    }
    Money.SumNonNegative(Money.Prices(items, LinePrice));
  }

  /** `fetchCartItems` installs exactly the given items. */
  lemma FetchInstallsItems(s: State, items: seq<OldCatalog.CartItem>)
    ensures Reduce(s, FetchCartItems(items)) == Step(s.(cartItems := items), None)
  {
  }

  /** `getTotalPrice` stores the total of the items and changes nothing else. */
  lemma GetTotalPriceSetsTotal(s: State, extra: OldCatalog.CartItem)
    ensures Reduce(s, GetTotalPrice) == Step(s.(totalPrice := Total(s.cartItems)), None)
    ensures Reduce(s.(cartItems := s.cartItems + [extra]), GetTotalPrice).state.totalPrice ==
      Total(s.cartItems) + LinePrice(extra)
  {
    Money.TotalOfAppend(s.cartItems, [extra], LinePrice);
    Money.TotalOfOne(extra, LinePrice);
  }

  /** Paying raises the confirmation; cancelling clears it, and cancelling twice is the same as once. */
  lemma PayThenCancel(s: State)
    ensures Reduce(s, DidPressPayButton) == Step(s.(alert := Some(ConfirmPurchase(s.totalPrice))), None)
    ensures Buttons(ConfirmPurchase(s.totalPrice)) == [DidConfirmPurchase, DidCancelConfirmation]
    ensures Reduce(s, DidCancelConfirmation) == Step(s.(alert := Nil), None)
    ensures Reduce(Reduce(s, DidCancelConfirmation).state, DidCancelConfirmation) == Reduce(s, DidCancelConfirmation)
  {
  }

  /** Confirming changes nothing and submits the items as they are now. */
  lemma ConfirmSubmitsItems(s: State, result: TaskResult<string>)
    ensures Reduce(s, DidConfirmPurchase).state == s
    ensures Sends(Reduce(s, DidConfirmPurchase).effect) == []
    ensures |Runs(Reduce(s, DidConfirmPurchase).effect)| == 1
    ensures Runs(Reduce(s, DidConfirmPurchase).effect)[0].SendCartOrder?
    ensures Runs(Reduce(s, DidConfirmPurchase).effect)[0].lines == s.cartItems
    ensures Runs(Reduce(s, DidConfirmPurchase).effect)[0].onSent(result) == DidReceivePurchaseResponse(result)
  {
  }

  /** The purchase responses and the close button change nothing. */
  lemma ResponsesAreInert(s: State, result: TaskResult<string>)
    ensures Reduce(s, DidReceivePurchaseResponse(result)) == Step(s, None)
    ensures Reduce(s, DidPressCloseButton) == Step(s, None)
  {
  }
}
