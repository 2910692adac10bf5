/**
 * `ProductDomain` of the earlier snapshot: the product list with an optional
 * cart. `combine` runs the cart reducer, pulled back to `cartState` and
 * made optional, before the list's own closure.
 */
module OldProductDomain {
  import opened Wrappers
  import opened Effects
  import opened Identified
  import OldCatalog
  import OldCartDomain

  datatype State = State(products: seq<OldCatalog.Product>, shouldOpenCart: bool, cartState: Option<OldCartDomain.State>)

  /** `State()`: no products, the cart closed. */
  function Initial(): (s: State)
    ensures s.products == [] && !s.shouldOpenCart && s.cartState == Nil
  {
    State([], false, Nil)
  }

  /** The state with what `CartItem.sample` draws on: fresh `UUID`s and the two sample products. */
  datatype Session = Session(state: State, uuid: Uuids, catalog: OldCatalog.SampleCatalog)

  datatype Action =
    | FetchProducts
    | FetchProductsResponse(result: TaskResult<seq<OldCatalog.Product>>)
    | SetCartView(isPresented: bool)
    | Cart(cartAction: OldCartDomain.Action)

  /** `.task`: calls the `fetchProducts` port and sends its result back. */
  function FetchEffect(): Effect<Action> {
    Run(FetchCatalog(r => FetchProductsResponse(r)))
  }

  function LiftCart(e: Effect<OldCartDomain.Action>): Effect<Action> {
    Map(e, (c: OldCartDomain.Action) => Cart(c))
  }

  /** `CartDomain.reducer.optional().pullback(...)`: a cart action reaches the cart only while it exists. */
  function CartStep(s: State, a: Action): Step<State, Action> {
    match a
    case Cart(ca) =>
      (match s.cartState
       case Nil => Step(s, None)
       case Some(cart) =>
         var step := OldCartDomain.Reduce(cart, ca);
         Step(s.(cartState := Some(step.state)), LiftCart(step.effect)))
    case _ => Step(s, None)
  }

  /** The list's own closure. */
  function Body(se: Session, a: Action): Step<Session, Action> {
    var s := se.state;
    match a
    case FetchProducts => Step(se, FetchEffect())
    case FetchProductsResponse(Ok(products)) => Step(se.(state := s.(products := products)), None)
    case FetchProductsResponse(Err(_)) => Step(se, None)
    case Cart(_) => Step(se, None)
    case SetCartView(isPresented) =>
      if isPresented then
        Step(se.(state := s.(shouldOpenCart := true,
                             cartState := Some(OldCartDomain.New(OldCatalog.Sample(se.catalog, se.uuid)))),
                 uuid := se.uuid.Skip(2)), None)
      else
        Step(se.(state := s.(shouldOpenCart := false, cartState := Nil)), None)
  }

  /** `combine`: the cart first, then the closure. */
  function Reduce(se: Session, a: Action): Step<Session, Action> {
    var cart := CartStep(se.state, a);
    var body := Body(se.(state := cart.state), a);
    Step(body.state, Merge(cart.effect, body.effect))
  }

  /** The combined reducer as written: the cart updates `cartState` in place, then the closure assigns fields. */
  method Apply(session: Session, action: Action) returns (session': Session, effect: Effect<Action>)
    ensures Step(session', effect) == Reduce(session, action)
  {
    var state := session.state;
    var uuid := session.uuid;
    var cartEffect: Effect<Action> := None;
    if action.Cart? && state.cartState.Some? {
      var cart, e := OldCartDomain.Apply(state.cartState.value, action.cartAction);
      state := state.(cartState := Some(cart));
      cartEffect := LiftCart(e);
    }
    var bodyEffect: Effect<Action> := None;
    match action {
      case FetchProducts =>
        bodyEffect := FetchEffect();
      case FetchProductsResponse(Ok(products)) =>
        state := state.(products := products);
      case FetchProductsResponse(Err(_)) =>
      case Cart(_) =>
      case SetCartView(isPresented) =>
        state := state.(shouldOpenCart := isPresented);
        if isPresented {
          var sample := OldCatalog.Sample(session.catalog, uuid);
          uuid := uuid.Skip(2);
          state := state.(cartState := Some(OldCartDomain.New(sample)));
        } else {
          state := state.(cartState := Nil);
        }
    }
    session' := session.(state := state, uuid := uuid);
    effect := Merge(cartEffect, bodyEffect);
  }

  /** A fetch changes nothing and runs one request whose result comes back as the response. */
  lemma FetchRunsRequest(se: Session, result: TaskResult<seq<OldCatalog.Product>>)
    ensures Reduce(se, Action.FetchProducts).state == se
    ensures Sends(Reduce(se, Action.FetchProducts).effect) == []
    ensures |Runs(Reduce(se, Action.FetchProducts).effect)| == 1
    ensures Runs(Reduce(se, Action.FetchProducts).effect)[0].onCatalog(result) == FetchProductsResponse(result)
  {
  }

  /** Fetched products replace the list; a failure changes nothing. */
  lemma FetchResponseReplacesProducts(se: Session, products: seq<OldCatalog.Product>, error: PortError)
    ensures Reduce(se, FetchProductsResponse(Ok(products))) == Step(se.(state := se.state.(products := products)), None)
    ensures Reduce(se, FetchProductsResponse(Err(error))) == Step(se, None)
  {
  }

  /** Opening the cart fills it with the sample items under two fresh ids; closing drops it. */
  lemma SetCartViewOpensSample(se: Session)
    ensures Reduce(se, SetCartView(true)).effect == None
    ensures Reduce(se, SetCartView(true)).state.state.shouldOpenCart
    ensures Reduce(se, SetCartView(true)).state.state.products == se.state.products
    ensures Reduce(se, SetCartView(true)).state.state.cartState ==
      Some(OldCartDomain.State(OldCatalog.Sample(se.catalog, se.uuid), 0.0, Nil))
    ensures Reduce(se, SetCartView(true)).state.uuid.next == se.uuid.next + 2
    ensures Reduce(se, SetCartView(false)) == Step(se.(state := se.state.(shouldOpenCart := false, cartState := Nil)), None)
  {
  }

  /**
   * A cart action runs the cart reducer on an existing cart and returns the
   * cart's effects; the list's own fields never change, and with no cart
   * nothing happens.
   */
  lemma CartActionsReachOnlyTheCart(se: Session, ca: OldCartDomain.Action)
    ensures Reduce(se, Cart(ca)) ==
      match se.state.cartState
      case Nil => Step(se, None)
      case Some(cart) =>
        Step(se.(state := se.state.(cartState := Some(OldCartDomain.Reduce(cart, ca).state))),
             LiftCart(OldCartDomain.Reduce(cart, ca).effect))
    ensures Reduce(se, Cart(ca)).state.state.products == se.state.products
    ensures Reduce(se, Cart(ca)).state.state.shouldOpenCart == se.state.shouldOpenCart
  {
  }

  /** Confirming a purchase in the open cart submits its items, addressed back to the cart. */
  lemma ConfirmInCartSubmits(se: Session, result: TaskResult<string>)
    requires se.state.cartState.Some?
    ensures Reduce(se, Cart(OldCartDomain.DidConfirmPurchase)).state == se
    ensures |Runs(Reduce(se, Cart(OldCartDomain.DidConfirmPurchase)).effect)| == 1
    ensures Runs(Reduce(se, Cart(OldCartDomain.DidConfirmPurchase)).effect)[0].lines == se.state.cartState.value.cartItems
    ensures Runs(Reduce(se, Cart(OldCartDomain.DidConfirmPurchase)).effect)[0].onSent(result) ==
      Cart(OldCartDomain.DidReceivePurchaseResponse(result))
  {
    OldCartDomain.ConfirmSubmitsItems(se.state.cartState.value, result);
  }
}
