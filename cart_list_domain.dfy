/**
 * `CartListDomain`: the cart screen. It holds the identified array of cart
 * lines, recomputes the total, enables the pay button, walks the three
 * alerts and submits the order through the `sendOrder` port. Each line runs
 * `CartItemDomain` through `.forEach`, which reduces before this body.
 */
module CartListDomain {
  import opened Wrappers
  import opened Effects
  import opened Identified
  import opened LoadingStatus
  import Products
  import CartItems
  import CartItemDomain
  import Driver
  import Money

  /** Which alert is shown; the confirmation quotes the total it was raised with. Titles and messages are not modelled. */
  datatype Alert = ConfirmPurchase(total: real) | ThankYou | Oops

  datatype State = State(
    dataLoadingStatus: DataLoadingStatus,
    cartItems: seq<CartItemDomain.State>,
    totalPrice: real,
    isPayButtonDisable: bool,
    confirmationAlert: Option<Alert>,
    errorAlert: Option<Alert>,
    successAlert: Option<Alert>)

  /** `State(cartItems:)`: every other field takes its default. */
  function New(cartItems: seq<CartItemDomain.State>): (s: State)
    ensures s.cartItems == cartItems && s.dataLoadingStatus == NotStarted
    ensures s.totalPrice == 0.0 && !s.isPayButtonDisable
    ensures s.confirmationAlert == Nil && s.errorAlert == Nil && s.successAlert == Nil
  {
    State(NotStarted, cartItems, 0.0, false, Nil, Nil, Nil)
  }

  /** The identified-array invariant of `cartItems`. */
  ghost predicate Valid(s: State) {
    Unique(s.cartItems, CartItemDomain.Key)
  }

  predicate IsRequestInProcess(s: State) {
    s.dataLoadingStatus == Loading
  }

  datatype Action =
    | DidPressCloseButton
    | CartItem(id: Uuid, lineAction: CartItemDomain.Action)
    | GetTotalPrice
    | DidPressPayButton
    | DidReceivePurchaseResponse(result: TaskResult<string>)
    | DidConfirmPurchase
    | DidCancelConfirmation
    | DismissSuccessAlert
    | DismissErrorAlert

  /** The actions an alert's buttons send. */
  function Buttons(alert: Alert): seq<Action> {
    match alert
    case ConfirmPurchase(_) => [DidConfirmPurchase, DidCancelConfirmation]
    case ThankYou => [DismissSuccessAlert]
    case Oops => [DismissErrorAlert]
  }

  /** `cartItems.map { $0.cartItem }`. */
  function Items(lines: seq<CartItemDomain.State>): (items: seq<CartItems.CartItem>)
    ensures |items| == |lines|
    ensures forall i :: 0 <= i < |lines| ==> items[i] == lines[i].cartItem
  {
    seq(|lines|, i requires 0 <= i < |lines| => lines[i].cartItem)
  }

  /** What one line costs: `price * Double(quantity)`. */
  function LinePrice(item: CartItems.CartItem): real {
    item.product.price * item.quantity as real
  }

  /** `items.reduce(0.0, { $0 + $1.product.price * Double($1.quantity) })`: the line prices summed left to right. */
  function Total(items: seq<CartItems.CartItem>): real {
    Money.Sum(Money.Prices(items, LinePrice))
  }

  /** `.run`: submits the items captured when the purchase was confirmed. */
  function OrderEffect(items: seq<CartItems.CartItem>): Effect<Action> {
    Run(SendOrder(items, r => DidReceivePurchaseResponse(r)))
  }

  /** A line's effect, addressed to that line. */
  function LiftLine(id: Uuid, e: Effect<CartItemDomain.Action>): Effect<Action> {
    Map(e, (c: CartItemDomain.Action) => CartItem(id, c))
  }

  /** `.forEach(\.cartItems)`: a line action reaches the line with that id; an unknown id reaches none. */
  function ForEachLine(s: State, a: Action): Step<State, Action> {
    match a
    case CartItem(id, lineAction) =>
      (match IndexOf(s.cartItems, CartItemDomain.Key, id)
       case Nil => Step(s, None)
       case Some(i) =>
         var line := CartItemDomain.Reduce(s.cartItems[i], lineAction);
         Step(s.(cartItems := s.cartItems[i := line.state]), LiftLine(id, line.effect)))
    case _ => Step(s, None)
  }

  /** The `Reduce` closure of `body`. */
  function Body(s: State, a: Action): Step<State, Action> {
    match a
    case DidPressCloseButton => Step(s, None)
    case CartItem(id, DeleteCartItem(_)) =>
      Step(s.(cartItems := Remove(s.cartItems, CartItemDomain.Key, id)), Send(GetTotalPrice))
    case GetTotalPrice =>
      var total := Total(Items(s.cartItems));
      Step(s.(totalPrice := total, isPayButtonDisable := total == 0.0), None)
    case DidPressPayButton => Step(s.(confirmationAlert := Some(ConfirmPurchase(s.totalPrice))), None)
    case DidCancelConfirmation => Step(s.(confirmationAlert := Nil), None)
    case DismissSuccessAlert => Step(s.(successAlert := Nil), None)
    case DismissErrorAlert => Step(s.(errorAlert := Nil), None)
    case DidReceivePurchaseResponse(Ok(_)) => Step(s.(dataLoadingStatus := Success, successAlert := Some(ThankYou)), None)
    case DidReceivePurchaseResponse(Err(_)) => Step(s.(dataLoadingStatus := Error, errorAlert := Some(Oops)), None)
    case DidConfirmPurchase => Step(s.(dataLoadingStatus := Loading), OrderEffect(Items(s.cartItems)))
  }

  /** `body`: the lines reduce first, then the closure, and their effects are merged in that order. */
  function Reduce(s: State, a: Action): Step<State, Action> {
    var lines := ForEachLine(s, a);
    var body := Body(lines.state, a);
    Step(body.state, Merge(lines.effect, body.effect))
  }

  /** `verifyPayButtonVisibility(state:)`: the pay button is disabled exactly when the total is zero. */
  method VerifyPayButtonVisibility(state: State) returns (state': State, effect: Effect<Action>)
    ensures state' == state.(isPayButtonDisable := state.totalPrice == 0.0)
    ensures effect == None
  {
    state' := state;
    state' := state'.(isPayButtonDisable := state'.totalPrice == 0.0);
    effect := None;
  }

  /** `body` as written: the line reducer, then the closure assigning the `inout` state's fields. */
  method Apply(state: State, action: Action) returns (state': State, effect: Effect<Action>)
    ensures Step(state', effect) == Reduce(state, action)
  {
    state' := state;
    var linesEffect: Effect<Action> := None;
    if action.CartItem? {
      var found := IndexOf(state'.cartItems, CartItemDomain.Key, action.id);
      if found.Some? {
        var line := CartItemDomain.Reduce(state'.cartItems[found.value], action.lineAction);
        state' := state'.(cartItems := state'.cartItems[found.value := line.state]);
        linesEffect := LiftLine(action.id, line.effect);
      }
    }
    var bodyEffect: Effect<Action> := None;
    match action {
      case DidPressCloseButton =>
      case CartItem(id, DeleteCartItem(_)) =>
        state' := state'.(cartItems := Remove(state'.cartItems, CartItemDomain.Key, id));
        bodyEffect := Send(GetTotalPrice);
      case GetTotalPrice =>
        state' := state'.(totalPrice := Total(Items(state'.cartItems)));
        state', bodyEffect := VerifyPayButtonVisibility(state');
      case DidPressPayButton =>
        state' := state'.(confirmationAlert := Some(ConfirmPurchase(state'.totalPrice)));
      case DidCancelConfirmation =>
        state' := state'.(confirmationAlert := Nil);
      case DismissSuccessAlert =>
        state' := state'.(successAlert := Nil);
      case DismissErrorAlert =>
        state' := state'.(errorAlert := Nil);
      case DidReceivePurchaseResponse(Ok(_)) =>
        state' := state'.(dataLoadingStatus := Success);
        state' := state'.(successAlert := Some(ThankYou));
      case DidReceivePurchaseResponse(Err(_)) =>
        state' := state'.(dataLoadingStatus := Error);
        state' := state'.(errorAlert := Some(Oops));
      case DidConfirmPurchase =>
        state' := state'.(dataLoadingStatus := Loading);
        var items := Items(state'.cartItems);
        bodyEffect := OrderEffect(items);
    }
    effect := Merge(linesEffect, bodyEffect);
  }

  // ---- the total ----

  lemma TotalAppend(xs: seq<CartItems.CartItem>, ys: seq<CartItems.CartItem>)
    ensures Total(xs + ys) == Total(xs) + Total(ys)
  {
    Money.TotalOfAppend(xs, ys, LinePrice);
  }

  lemma ItemsAppend(a: seq<CartItemDomain.State>, b: seq<CartItemDomain.State>)
    ensures Items(a + b) == Items(a) + Items(b)
  {
  }

  /** Deleting line `i` takes exactly that line's price off the total. */
  lemma TotalWithoutLine(lines: seq<CartItemDomain.State>, i: nat)
    requires i < |lines|
    ensures Total(Items(lines[..i] + lines[i + 1..])) == Total(Items(lines)) - LinePrice(lines[i].cartItem)
  {
    assert lines == lines[..i] + [lines[i]] + lines[i + 1..];
    ItemsAppend(lines[..i], lines[i + 1..]);
    ItemsAppend(lines[..i] + [lines[i]], lines[i + 1..]);
    ItemsAppend(lines[..i], [lines[i]]);
    TotalAppend(Items(lines[..i]), Items(lines[i + 1..]));
    TotalAppend(Items(lines[..i]) + Items([lines[i]]), Items(lines[i + 1..]));
    TotalAppend(Items(lines[..i]), Items([lines[i]]));
    assert Items([lines[i]]) == [lines[i].cartItem];
    Money.TotalOfOne(lines[i].cartItem, LinePrice);
  }

  /** With positive prices and quantities, the total is zero exactly when the cart is empty. */
  lemma TotalZeroIffEmpty(items: seq<CartItems.CartItem>)
    requires forall k :: 0 <= k < |items| ==> items[k].product.price > 0.0 && items[k].quantity > 0
    ensures Total(items) >= 0.0
    ensures Total(items) == 0.0 <==> items == []
  {
    forall k | 0 <= k < |items|
      ensures Money.Prices(items, LinePrice)[k] > 0.0
    {
      assert items[k].quantity as real > 0.0;
    }
    Money.SumPositive(Money.Prices(items, LinePrice));
  }

  // ---- the line reducer ----

  /** Lines never change themselves: the `.forEach` pass is a no-op and `body` alone decides. */
  lemma LinesAreInert(s: State, a: Action)
    ensures ForEachLine(s, a) == Step(s, None)
    ensures Reduce(s, a) == Body(s, a)
  {
    if a.CartItem? {
      match IndexOf(s.cartItems, CartItemDomain.Key, a.id)
      case Nil =>
      case Some(i) =>
        assert s.cartItems[i := s.cartItems[i]] == s.cartItems;
    }
  }

  /** Every action keeps the line identifiers pairwise distinct. */
  lemma ReduceKeepsValid(s: State, a: Action)
    requires Valid(s)
    ensures Valid(Reduce(s, a).state)
  {
    LinesAreInert(s, a);
    if a.CartItem? {
      RemoveKeepsUnique(s.cartItems, CartItemDomain.Key, a.id);
    }
  }

  // ---- the body ----

  /** Deleting a line removes exactly that line, keeps the others in order, and sends `getTotalPrice`. */
  lemma DeleteRemovesLine(s: State, i: nat, p: Products.Product)
    requires Valid(s) && i < |s.cartItems|
    ensures Reduce(s, CartItem(s.cartItems[i].id, CartItemDomain.DeleteCartItem(p))) ==
      Step(s.(cartItems := s.cartItems[..i] + s.cartItems[i + 1..]), Send(GetTotalPrice))
  {
    LinesAreInert(s, CartItem(s.cartItems[i].id, CartItemDomain.DeleteCartItem(p)));
    RemoveAt(s.cartItems, CartItemDomain.Key, s.cartItems[i].id, i);
  }

  /** Deleting an id that is not in the cart keeps every line, and still asks for the total. */
  lemma DeleteAbsentKeepsLines(s: State, id: Uuid, p: Products.Product)
    requires forall k :: 0 <= k < |s.cartItems| ==> s.cartItems[k].id != id
    ensures Reduce(s, CartItem(id, CartItemDomain.DeleteCartItem(p))) == Step(s, Send(GetTotalPrice))
  {
    LinesAreInert(s, CartItem(id, CartItemDomain.DeleteCartItem(p)));
    RemoveAbsent(s.cartItems, CartItemDomain.Key, id);
  }

  /** `getTotalPrice` stores the total of the lines and disables the pay button exactly when it is zero. */
  lemma GetTotalPriceSetsTotal(s: State)
    ensures Reduce(s, GetTotalPrice).state.totalPrice == Total(Items(s.cartItems))
    ensures Reduce(s, GetTotalPrice).state.isPayButtonDisable <==> Total(Items(s.cartItems)) == 0.0
    ensures Reduce(s, GetTotalPrice).state ==
      s.(totalPrice := Total(Items(s.cartItems)), isPayButtonDisable := Total(Items(s.cartItems)) == 0.0)
    ensures Reduce(s, GetTotalPrice).effect == None
  {
    LinesAreInert(s, GetTotalPrice);
  }

  /** An empty cart totals zero and disables the pay button. */
  lemma EmptyCartDisablesPay(s: State)
    requires s.cartItems == []
    ensures Reduce(s, GetTotalPrice).state.totalPrice == 0.0
    ensures Reduce(s, GetTotalPrice).state.isPayButtonDisable
  {
    GetTotalPriceSetsTotal(s);
  }

  /** A non-empty cart of positive prices and quantities enables the pay button. */
  lemma FilledCartEnablesPay(s: State)
    requires s.cartItems != []
    requires forall k :: 0 <= k < |s.cartItems| ==>
      s.cartItems[k].cartItem.product.price > 0.0 && s.cartItems[k].cartItem.quantity > 0
    ensures Reduce(s, GetTotalPrice).state.totalPrice > 0.0
    ensures !Reduce(s, GetTotalPrice).state.isPayButtonDisable
  {
    GetTotalPriceSetsTotal(s);
    TotalZeroIffEmpty(Items(s.cartItems));
  }

  lemma IsRequestInProcessIff(s: State)
    ensures IsRequestInProcess(s) <==> s.dataLoadingStatus == Loading
  {
  }

  /** Confirming marks the request in process, changes nothing else, and submits the lines as they are now. */
  lemma ConfirmSubmitsCart(s: State, result: TaskResult<string>)
    ensures Reduce(s, DidConfirmPurchase).state == s.(dataLoadingStatus := Loading)
    ensures IsRequestInProcess(Reduce(s, DidConfirmPurchase).state)
    ensures Sends(Reduce(s, DidConfirmPurchase).effect) == []
    ensures |Runs(Reduce(s, DidConfirmPurchase).effect)| == 1
    ensures Runs(Reduce(s, DidConfirmPurchase).effect)[0].SendOrder?
    ensures Runs(Reduce(s, DidConfirmPurchase).effect)[0].items == Items(s.cartItems)
    ensures Runs(Reduce(s, DidConfirmPurchase).effect)[0].onOrder(result) == DidReceivePurchaseResponse(result)
  {
    LinesAreInert(s, DidConfirmPurchase);
  }

  /** A successful order shows the thank-you alert; a failed one the error alert; the lines are untouched. */
  lemma PurchaseResponseShowsAlert(s: State, message: string, error: PortError)
    ensures Reduce(s, DidReceivePurchaseResponse(Ok(message))) ==
      Step(s.(dataLoadingStatus := Success, successAlert := Some(ThankYou)), None)
    ensures Reduce(s, DidReceivePurchaseResponse(Err(error))) ==
      Step(s.(dataLoadingStatus := Error, errorAlert := Some(Oops)), None)
    ensures Buttons(ThankYou) == [DismissSuccessAlert] && Buttons(Oops) == [DismissErrorAlert]
  {
    LinesAreInert(s, DidReceivePurchaseResponse(Ok(message)));
    LinesAreInert(s, DidReceivePurchaseResponse(Err(error)));
  }

  /** Each dismissal clears its own alert and nothing else, and doing it twice is the same as once. */
  lemma DismissalsClearOwnAlert(s: State)
    ensures Reduce(s, DidCancelConfirmation) == Step(s.(confirmationAlert := Nil), None)
    ensures Reduce(s, DismissSuccessAlert) == Step(s.(successAlert := Nil), None)
    ensures Reduce(s, DismissErrorAlert) == Step(s.(errorAlert := Nil), None)
    ensures Reduce(Reduce(s, DidCancelConfirmation).state, DidCancelConfirmation) == Reduce(s, DidCancelConfirmation)
    ensures Reduce(Reduce(s, DismissSuccessAlert).state, DismissSuccessAlert) == Reduce(s, DismissSuccessAlert)
    ensures Reduce(Reduce(s, DismissErrorAlert).state, DismissErrorAlert) == Reduce(s, DismissErrorAlert)
  {
    LinesAreInert(s, DidCancelConfirmation);
    LinesAreInert(s, DismissSuccessAlert);
    LinesAreInert(s, DismissErrorAlert);
    LinesAreInert(Reduce(s, DidCancelConfirmation).state, DidCancelConfirmation);
    LinesAreInert(Reduce(s, DismissSuccessAlert).state, DismissSuccessAlert);
    LinesAreInert(Reduce(s, DismissErrorAlert).state, DismissErrorAlert);
  }

  /** Paying raises the confirmation for the current total, whose buttons confirm or cancel; closing does nothing. */
  lemma PayRaisesConfirmation(s: State)
    ensures Reduce(s, DidPressPayButton) == Step(s.(confirmationAlert := Some(ConfirmPurchase(s.totalPrice))), None)
    ensures Buttons(ConfirmPurchase(s.totalPrice)) == [DidConfirmPurchase, DidCancelConfirmation]
    ensures Reduce(s, DidPressCloseButton) == Step(s, None)
  {
    LinesAreInert(s, DidPressPayButton);
    LinesAreInert(s, DidPressCloseButton);
  }

  // ---- the store's view ----

  /** Deleting a line, the store then receives `getTotalPrice`, which totals the remaining lines. */
  lemma DeleteThenReceiveTotal(s: State, i: nat, p: Products.Product, fuel: nat)
    requires Valid(s) && i < |s.cartItems| && fuel >= 1
    ensures Driver.SendAction(Reduce, s, CartItem(s.cartItems[i].id, CartItemDomain.DeleteCartItem(p)), fuel).Some?
    ensures Driver.SendAction(Reduce, s, CartItem(s.cartItems[i].id, CartItemDomain.DeleteCartItem(p)), fuel).value.received ==
      [GetTotalPrice]
    ensures Driver.SendAction(Reduce, s, CartItem(s.cartItems[i].id, CartItemDomain.DeleteCartItem(p)), fuel).value.state ==
      var rest := s.cartItems[..i] + s.cartItems[i + 1..];
      s.(cartItems := rest, totalPrice := Total(Items(rest)), isPayButtonDisable := Total(Items(rest)) == 0.0)
    ensures Driver.SendAction(Reduce, s, CartItem(s.cartItems[i].id, CartItemDomain.DeleteCartItem(p)), fuel).value.state.totalPrice ==
      Total(Items(s.cartItems)) - LinePrice(s.cartItems[i].cartItem)
  {
    var a := CartItem(s.cartItems[i].id, CartItemDomain.DeleteCartItem(p));
    DeleteRemovesLine(s, i, p);
    var s1 := Reduce(s, a).state;
    GetTotalPriceSetsTotal(s1);
    Driver.SendThenReceive(Reduce, s, a, GetTotalPrice, fuel);
    TotalWithoutLine(s.cartItems, i);
  }

  /** Deleting the last line empties the cart, zeroes the total and disables the pay button. */
  lemma DeleteLastLineDisablesPay(s: State, p: Products.Product, fuel: nat)
    requires |s.cartItems| == 1 && fuel >= 1
    ensures Driver.SendAction(Reduce, s, CartItem(s.cartItems[0].id, CartItemDomain.DeleteCartItem(p)), fuel).Some?
    ensures Driver.SendAction(Reduce, s, CartItem(s.cartItems[0].id, CartItemDomain.DeleteCartItem(p)), fuel).value.state.cartItems == []
    ensures Driver.SendAction(Reduce, s, CartItem(s.cartItems[0].id, CartItemDomain.DeleteCartItem(p)), fuel).value.state.totalPrice == 0.0
    ensures Driver.SendAction(Reduce, s, CartItem(s.cartItems[0].id, CartItemDomain.DeleteCartItem(p)), fuel).value.state.isPayButtonDisable
  {
    DeleteThenReceiveTotal(s, 0, p, fuel);
    assert s.cartItems[..0] + s.cartItems[1..] == [];
  }
}
