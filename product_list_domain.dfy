/**
 * `ProductListDomain`: the product catalogue screen. It fetches the products
 * through the `fetchProducts` port, keeps one `ProductDomain` row per product
 * (through `.forEach`), and opens an optional cart built from the rows with a
 * positive count (through `.ifLet`). The cart reducer runs first, then the
 * addressed row, then this body; their effects are merged in that order.
 */
module ProductListDomain {
  import opened Wrappers
  import opened Effects
  import opened Identified
  import opened LoadingStatus
  import Products
  import CartItems
  import CartItemDomain
  import CartListDomain
  import ProductDomain
  import Driver

  datatype State = State(
    dataLoadingStatus: DataLoadingStatus,
    shouldOpenCart: bool,
    cartState: Option<CartListDomain.State>,
    productList: seq<ProductDomain.State>)

  /** `State()`: nothing fetched, no rows, the cart closed. */
  function Initial(): (s: State)
    ensures s.dataLoadingStatus == NotStarted && !s.shouldOpenCart && s.cartState == Nil && s.productList == []
  {
    State(NotStarted, false, Nil, [])
  }

  /** The state together with the `uuid` dependency, which fetched rows and new cart lines draw from. */
  datatype Session = Session(state: State, uuid: Uuids)

  /** The invariants the reducer keeps: distinct row ids, non-negative counts, and a well-formed cart. */
  ghost predicate Valid(s: State) {
    && Unique(s.productList, ProductDomain.Key)
    && (forall k :: 0 <= k < |s.productList| ==> s.productList[k].Count() >= 0)
    && (s.cartState.Some? ==> CartListDomain.Valid(s.cartState.value))
  }

  predicate ShouldShowError(s: State) {
    s.dataLoadingStatus == Error
  }

  predicate IsLoading(s: State) {
    s.dataLoadingStatus == Loading
  }

  datatype Action =
    | FetchProducts
    | FetchProductsResponse(result: TaskResult<seq<Products.Product>>)
    | SetCartView(isPresented: bool)
    | Cart(cartAction: CartListDomain.Action)
    | Product(id: Uuid, productAction: ProductDomain.Action)
    | ResetProduct(product: Products.Product)
    | CloseCart

  /** `.run`: calls the `fetchProducts` port and sends its result back. */
  function FetchEffect(): Effect<Action> {
    Run(Call.FetchProducts(r => FetchProductsResponse(r)))
  }

  /** The cart's effect, addressed to the cart. */
  function LiftCart(e: Effect<CartListDomain.Action>): Effect<Action> {
    Map(e, (c: CartListDomain.Action) => Cart(c))
  }

  /** A row's effect, addressed to that row. */
  function LiftRow(id: Uuid, e: Effect<ProductDomain.Action>): Effect<Action> {
    Map(e, (c: ProductDomain.Action) => Product(id, c))
  }

  /** `products.map { ProductDomain.State(id: uuid(), product: $0) }`: one fresh row per product, in order. */
  function Rows(products: seq<Products.Product>, uuid: Uuids): seq<ProductDomain.State> {
    seq(|products|, k requires 0 <= k < |products| => ProductDomain.New(uuid.next + k, products[k]))
  }

  /**
   * The `compactMap` of `setCartView`: a line with a fresh id for each row
   * whose count is positive; `uuid()` is only called for those rows.
   */
  function CartLines(rows: seq<ProductDomain.State>, next: nat): seq<CartItemDomain.State>
    decreases |rows|
  {
    if rows == [] then []
    else if rows[0].Count() > 0 then
      [CartItemDomain.State(next, CartItems.CartItem(rows[0].product, rows[0].Count()))] + CartLines(rows[1..], next + 1)
    else CartLines(rows[1..], next)
  }

  /** The rows with a positive count, in order. */
  function PositiveRows(rows: seq<ProductDomain.State>): (r: seq<ProductDomain.State>)
    ensures |r| <= |rows|
    ensures forall x :: x in r <==> x in rows && x.Count() > 0
    decreases |rows|
  {
    if rows == [] then []
    else if rows[0].Count() > 0 then [rows[0]] + PositiveRows(rows[1..])
    else PositiveRows(rows[1..])
  }

  /** `productList.firstIndex(where: { $0.product.id == productId })`. */
  function FirstIndexOfProduct(rows: seq<ProductDomain.State>, productId: int): (r: Option<nat>)
    ensures r.Some? ==> r.value < |rows| && rows[r.value].product.id == productId
    ensures r.Some? ==> forall j :: 0 <= j < r.value ==> rows[j].product.id != productId
    ensures r.Nil? <==> forall j :: 0 <= j < |rows| ==> rows[j].product.id != productId
    decreases |rows|
  {
    if rows == [] then Nil
    else if rows[0].product.id == productId then Some(0)
    else match FirstIndexOfProduct(rows[1..], productId)
      case Nil => Nil
      case Some(k) => Some(k + 1)
  }

  /** `productList[id: id]?.count = n`: only the row with that id changes, and only its count. */
  function SetCount(rows: seq<ProductDomain.State>, id: Uuid, n: int): (r: seq<ProductDomain.State>)
    ensures |r| == |rows|
    ensures forall k :: 0 <= k < |rows| ==> r[k] == rows[k] || r[k] == rows[k].WithCount(n)
    ensures Unique(rows, ProductDomain.Key) ==>
      forall k :: 0 <= k < |rows| ==> r[k] == (if rows[k].id == id then rows[k].WithCount(n) else rows[k])
  {
    match IndexOf(rows, ProductDomain.Key, id)
    case Nil => rows
    case Some(j) => rows[j := rows[j].WithCount(n)]
  }

  /** The `for id in ids` loop of `resetProductsToZero` after the given ids. */
  function ZeroEach(rows: seq<ProductDomain.State>, ids: seq<Uuid>): seq<ProductDomain.State>
    decreases |ids|
  {
    if ids == [] then rows else SetCount(ZeroEach(rows, ids[..|ids| - 1]), ids[|ids| - 1], 0)
  }

  /** `resetProductsToZero`: the loop over `productList.map(\.id)`. */
  function ResetAll(rows: seq<ProductDomain.State>): seq<ProductDomain.State> {
    ZeroEach(rows, Ids(rows, ProductDomain.Key))
  }

  /** `.ifLet(\.cartState)`: a cart action reaches the cart only while it is open. */
  function IfLetCart(s: State, a: Action): Step<State, Action> {
    match a
    case Cart(cartAction) =>
      (match s.cartState
       case Nil => Step(s, None)
       case Some(cart) =>
         var step := CartListDomain.Reduce(cart, cartAction);
         Step(s.(cartState := Some(step.state)), LiftCart(step.effect)))
    case _ => Step(s, None)
  }

  /** `.forEach(\.productList)`: a row action reaches the row with that id; an unknown id reaches none. */
  function ForEachRow(s: State, a: Action): Step<State, Action> {
    match a
    case Product(id, productAction) =>
      (match IndexOf(s.productList, ProductDomain.Key, id)
       case Nil => Step(s, None)
       case Some(i) =>
         var step := ProductDomain.Reduce(s.productList[i], productAction);
         Step(s.(productList := s.productList[i := step.state]), LiftRow(id, step.effect)))
    case _ => Step(s, None)
  }

  /** The `Reduce` closure of `body`. */
  function Body(se: Session, a: Action): Step<Session, Action> {
    var s := se.state;
    match a
    case FetchProducts =>
      if s.dataLoadingStatus == Success || s.dataLoadingStatus == Loading then Step(se, None)
      else Step(se.(state := s.(dataLoadingStatus := Loading)), FetchEffect())
    case FetchProductsResponse(Ok(products)) =>
      Step(Session(s.(dataLoadingStatus := Success, productList := Rows(products, se.uuid)), se.uuid.Skip(|products|)), None)
    case FetchProductsResponse(Err(_)) =>
      Step(se.(state := s.(dataLoadingStatus := Error)), None)
    case Cart(DidPressCloseButton) =>
      Step(se.(state := s.(shouldOpenCart := false, cartState := Nil)), None)
    case Cart(DismissSuccessAlert) =>
      Step(se.(state := s.(productList := ResetAll(s.productList))), Send(CloseCart))
    case Cart(CartItem(_, DeleteCartItem(p))) =>
      Step(se, Send(ResetProduct(p)))
    case Cart(_) =>
      Step(se, None)
    case CloseCart =>
      Step(se.(state := s.(shouldOpenCart := false, cartState := Nil)), None)
    case ResetProduct(p) =>
      (match FirstIndexOfProduct(s.productList, p.id)
       case Nil => Step(se, None)
       case Some(i) => Step(se.(state := s.(productList := SetCount(s.productList, s.productList[i].id, 0))), None))
    case SetCartView(isPresented) =>
      if isPresented then
        var lines := CartLines(s.productList, se.uuid.next);
        Step(Session(s.(shouldOpenCart := true, cartState := Some(CartListDomain.New(lines))), se.uuid.Skip(|lines|)), None)
      else
        Step(se.(state := s.(shouldOpenCart := false, cartState := Nil)), None)
    case Product(_, _) =>
      Step(se, None)
  }

  /** `body`: the cart, then the rows, then the closure. */
  function Reduce(se: Session, a: Action): Step<Session, Action> {
    var cart := IfLetCart(se.state, a);
    var rows := ForEachRow(cart.state, a);
    var body := Body(se.(state := rows.state), a);
    Step(body.state, Merge(cart.effect, Merge(rows.effect, body.effect)))
  }

  /** `closeCart(state:)`: the cart is closed and dropped. */
  method CloseCartView(state: State) returns (state': State, effect: Effect<Action>)
    ensures state' == state.(shouldOpenCart := false, cartState := Nil)
    ensures effect == None
  {
    state' := state;
    state' := state'.(shouldOpenCart := false);
    state' := state'.(cartState := Nil);
    effect := None;
  }

  /** `resetProductsToZero(state:)`: zeroes the count of each row, one id at a time. */
  method ResetProductsToZero(state: State) returns (state': State)
    ensures state' == state.(productList := ResetAll(state.productList))
  {
    state' := state;
    var ids := Ids(state.productList, ProductDomain.Key);
    for i := 0 to |ids|
      invariant state' == state.(productList := ZeroEach(state.productList, ids[..i]))
    {
      assert ids[..i + 1][..i] == ids[..i];
      state' := state'.(productList := SetCount(state'.productList, ids[i], 0));
    }
    assert ids[..|ids|] == ids;
  }

  /** `body` as written: the cart and row reducers update the `inout` state in place, then the closure. */
  method Apply(session: Session, action: Action) returns (session': Session, effect: Effect<Action>)
    ensures Step(session', effect) == Reduce(session, action)
  {
    var state := session.state;
    var uuid := session.uuid;
    var cartEffect: Effect<Action> := None;
    if action.Cart? && state.cartState.Some? {
      var cart, e := CartListDomain.Apply(state.cartState.value, action.cartAction);
      state := state.(cartState := Some(cart));
      cartEffect := LiftCart(e);
    }
    var rowEffect: Effect<Action> := None;
    if action.Product? {
      var found := IndexOf(state.productList, ProductDomain.Key, action.id);
      if found.Some? {
        var row, e := ProductDomain.Apply(state.productList[found.value], action.productAction);
        state := state.(productList := state.productList[found.value := row]);
        rowEffect := LiftRow(action.id, e);
      }
    }
    var bodyEffect: Effect<Action> := None;
    match action {
      case FetchProducts =>
        if !(state.dataLoadingStatus == Success || state.dataLoadingStatus == Loading) {
          state := state.(dataLoadingStatus := Loading);
          bodyEffect := FetchEffect();
        }
      case FetchProductsResponse(Ok(products)) =>
        state := state.(dataLoadingStatus := Success);
        state := state.(productList := Rows(products, uuid));
        uuid := uuid.Skip(|products|);
      case FetchProductsResponse(Err(_)) =>
        state := state.(dataLoadingStatus := Error);
      case Cart(cartAction) =>
        match cartAction {
          case DidPressCloseButton =>
            state, bodyEffect := CloseCartView(state);
          case DismissSuccessAlert =>
            state := ResetProductsToZero(state);
            bodyEffect := Send(CloseCart);
          case CartItem(_, DeleteCartItem(p)) =>
            bodyEffect := Send(ResetProduct(p));
          case _ =>
        }
      case CloseCart =>
        state, bodyEffect := CloseCartView(state);
      case ResetProduct(p) =>
        var index := FirstIndexOfProduct(state.productList, p.id);
        if index.Some? {
          var productStateId := state.productList[index.value].id;
          state := state.(productList := SetCount(state.productList, productStateId, 0));
        }
      case SetCartView(isPresented) =>
        state := state.(shouldOpenCart := isPresented);
        if isPresented {
          var lines := CartLines(state.productList, uuid.next);
          uuid := uuid.Skip(|lines|);
          state := state.(cartState := Some(CartListDomain.New(lines)));
        } else {
          state := state.(cartState := Nil);
        }
      case Product(_, _) =>
    }
    session' := Session(state, uuid);
    effect := Merge(cartEffect, Merge(rowEffect, bodyEffect));
  }

  // ---- the building blocks ----

  lemma DerivedFlags(s: State)
    ensures ShouldShowError(s) <==> s.dataLoadingStatus == Error
    ensures IsLoading(s) <==> s.dataLoadingStatus == Loading
  {
  }

  /** Fetched rows follow the products in order, each with the next id drawn and a zero count. */
  lemma RowsAreFresh(products: seq<Products.Product>, uuid: Uuids)
    ensures |Rows(products, uuid)| == |products|
    ensures forall k :: 0 <= k < |products| ==>
      Rows(products, uuid)[k].id == uuid.next + k && Rows(products, uuid)[k].product == products[k] &&
      Rows(products, uuid)[k].Count() == 0
    ensures Unique(Rows(products, uuid), ProductDomain.Key)
  {
  }

  /**
   * The cart lines are the rows with a positive count, in order, each with
   * its count as quantity and the next id drawn; their ids are distinct.
   */
  lemma {:induction false} CartLinesArePositiveRows(rows: seq<ProductDomain.State>, next: nat)
    ensures |CartLines(rows, next)| == |PositiveRows(rows)|
    ensures forall k :: 0 <= k < |CartLines(rows, next)| ==>
      CartLines(rows, next)[k] ==
        CartItemDomain.State(next + k, CartItems.CartItem(PositiveRows(rows)[k].product, PositiveRows(rows)[k].Count()))
    ensures Unique(CartLines(rows, next), CartItemDomain.Key)
    decreases |rows|
  {
    if rows != [] {
      if rows[0].Count() > 0 {
        CartLinesArePositiveRows(rows[1..], next + 1);
      } else {
        CartLinesArePositiveRows(rows[1..], next);
      }
    }
  }

  /** Zeroing the first `n` ids of an identified array zeroes exactly its first `n` rows. */
  lemma {:induction false} ZeroEachPrefix(rows: seq<ProductDomain.State>, n: nat)
    requires Unique(rows, ProductDomain.Key) && n <= |rows|
    ensures |ZeroEach(rows, Ids(rows, ProductDomain.Key)[..n])| == |rows|
    ensures forall k :: 0 <= k < |rows| ==>
      ZeroEach(rows, Ids(rows, ProductDomain.Key)[..n])[k] == if k < n then rows[k].WithCount(0) else rows[k]
  {
    var ids := Ids(rows, ProductDomain.Key);
    if n == 0 {
      assert ids[..0] == [];
    } else {
      ZeroEachPrefix(rows, n - 1);
      assert ids[..n][..n - 1] == ids[..n - 1];
      var before := ZeroEach(rows, ids[..n - 1]);
      assert forall k :: 0 <= k < |rows| ==> before[k].id == rows[k].id;
      assert Unique(before, ProductDomain.Key);
      IndexOfUnique(before, ProductDomain.Key, n - 1);
    }
  }

  /** In an identified array, `resetProductsToZero` zeroes every count and keeps every id and product. */
  lemma ResetAllZeroesEveryRow(rows: seq<ProductDomain.State>)
    requires Unique(rows, ProductDomain.Key)
    ensures |ResetAll(rows)| == |rows|
    ensures forall k :: 0 <= k < |rows| ==> ResetAll(rows)[k] == rows[k].WithCount(0)
    ensures forall k :: 0 <= k < |rows| ==>
      ResetAll(rows)[k].Count() == 0 && ResetAll(rows)[k].id == rows[k].id && ResetAll(rows)[k].product == rows[k].product
  {
    ZeroEachPrefix(rows, |rows|);
    assert Ids(rows, ProductDomain.Key)[..|rows|] == Ids(rows, ProductDomain.Key);
  }

  /** Actions for neither child leave both children alone: the closure alone decides. */
  lemma ChildrenIgnore(se: Session, a: Action)
    requires !a.Cart? && !a.Product?
    ensures Reduce(se, a) == Body(se, a)
  {
  }

  // ---- fetching ----

  /** A fetch while loaded or loading does nothing. */
  lemma FetchIgnoredWhileBusyOrDone(se: Session)
    requires se.state.dataLoadingStatus == Success || se.state.dataLoadingStatus == Loading
    ensures Reduce(se, Action.FetchProducts) == Step(se, None)
  {
  }

  /** Otherwise it starts loading and runs one request whose result comes back as the response. */
  lemma FetchStarts(se: Session, result: TaskResult<seq<Products.Product>>)
    requires se.state.dataLoadingStatus == NotStarted || se.state.dataLoadingStatus == Error
    ensures Reduce(se, Action.FetchProducts).state == se.(state := se.state.(dataLoadingStatus := Loading))
    ensures Sends(Reduce(se, Action.FetchProducts).effect) == []
    ensures |Runs(Reduce(se, Action.FetchProducts).effect)| == 1
    ensures Runs(Reduce(se, Action.FetchProducts).effect)[0].FetchProducts?
    ensures Runs(Reduce(se, Action.FetchProducts).effect)[0].onProducts(result) == FetchProductsResponse(result)
  {
  }

  /** Fetched products replace the rows: one fresh row per product, in order, with a zero count. */
  lemma FetchSuccessReplacesRows(se: Session, products: seq<Products.Product>)
    ensures Reduce(se, FetchProductsResponse(Ok(products))).effect == None
    ensures Reduce(se, FetchProductsResponse(Ok(products))).state.state ==
      se.state.(dataLoadingStatus := Success, productList := Rows(products, se.uuid))
    ensures Reduce(se, FetchProductsResponse(Ok(products))).state.uuid.next == se.uuid.next + |products|
  {
  }

  /** A failed fetch shows the error and keeps the rows it had. */
  lemma FetchFailureKeepsRows(se: Session, error: PortError)
    ensures Reduce(se, FetchProductsResponse(Err(error))) ==
      Step(se.(state := se.state.(dataLoadingStatus := Error)), None)
    ensures ShouldShowError(Reduce(se, FetchProductsResponse(Err(error))).state.state)
  {
  }

  // ---- the cart sheet ----

  /** Opening the cart builds it from the rows with a positive count and draws one id per line. */
  lemma OpenCartBuildsLines(se: Session)
    ensures Reduce(se, SetCartView(true)).effect == None
    ensures Reduce(se, SetCartView(true)).state.state ==
      se.state.(shouldOpenCart := true, cartState := Some(CartListDomain.New(CartLines(se.state.productList, se.uuid.next))))
    ensures Reduce(se, SetCartView(true)).state.uuid.next == se.uuid.next + |PositiveRows(se.state.productList)|
  {
    CartLinesArePositiveRows(se.state.productList, se.uuid.next);
  }

  /** Dismissing the cart sheet drops the cart. */
  lemma HideCartDropsIt(se: Session)
    ensures Reduce(se, SetCartView(false)) == Step(se.(state := se.state.(shouldOpenCart := false, cartState := Nil)), None)
  {
  }

  /** `closeCart` and the cart's close button both close and drop the cart, with no effect. */
  lemma CloseButtonsCloseCart(se: Session)
    ensures Reduce(se, CloseCart) == Step(se.(state := se.state.(shouldOpenCart := false, cartState := Nil)), None)
    ensures Reduce(se, Cart(CartListDomain.DidPressCloseButton)) ==
      Step(se.(state := se.state.(shouldOpenCart := false, cartState := Nil)), None)
  {
    if se.state.cartState.Some? {
      CartListDomain.PayRaisesConfirmation(se.state.cartState.value);
    }
  }

  /** A paid order zeroes every count, keeps the rows' ids and products, and sends `closeCart`. */
  lemma PaidOrderResetsCounts(se: Session)
    requires Valid(se.state)
    ensures Sends(Reduce(se, Cart(CartListDomain.DismissSuccessAlert)).effect) == [CloseCart]
    ensures Runs(Reduce(se, Cart(CartListDomain.DismissSuccessAlert)).effect) == []
    ensures Reduce(se, Cart(CartListDomain.DismissSuccessAlert)).state.uuid == se.uuid
    ensures |Reduce(se, Cart(CartListDomain.DismissSuccessAlert)).state.state.productList| == |se.state.productList|
    ensures forall k :: 0 <= k < |se.state.productList| ==>
      Reduce(se, Cart(CartListDomain.DismissSuccessAlert)).state.state.productList[k] ==
        se.state.productList[k].WithCount(0)
  {
    if se.state.cartState.Some? {
      CartListDomain.DismissalsClearOwnAlert(se.state.cartState.value);
    }
    ResetAllZeroesEveryRow(se.state.productList);
  }

  /** The store then receives `closeCart`: the cart is closed and gone, and every count is zero. */
  lemma PaidOrderClosesCart(se: Session, fuel: nat)
    requires Valid(se.state) && fuel >= 1
    ensures Driver.SendAction(Reduce, se, Cart(CartListDomain.DismissSuccessAlert), fuel).Some?
    ensures Driver.SendAction(Reduce, se, Cart(CartListDomain.DismissSuccessAlert), fuel).value.received == [CloseCart]
    ensures Driver.SendAction(Reduce, se, Cart(CartListDomain.DismissSuccessAlert), fuel).value.state ==
      se.(state := se.state.(shouldOpenCart := false, cartState := Nil, productList := ResetAll(se.state.productList)))
  {
    var a := Cart(CartListDomain.DismissSuccessAlert);
    PaidOrderResetsCounts(se);
    var s1 := Reduce(se, a).state;
    assert s1.state.productList == ResetAll(se.state.productList) by {
      ResetAllZeroesEveryRow(se.state.productList);
    }
    CloseButtonsCloseCart(s1);
    Driver.SendThenReceive(Reduce, se, a, CloseCart, fuel);
  }

  /** `resetProduct` zeroes the first row showing that product, and nothing else; with none it does nothing. */
  lemma ResetProductZeroesFirstMatch(se: Session, p: Products.Product)
    requires Valid(se.state)
    ensures Reduce(se, ResetProduct(p)).effect == None
    ensures Reduce(se, ResetProduct(p)).state ==
      match FirstIndexOfProduct(se.state.productList, p.id)
      case Nil => se
      case Some(i) => se.(state := se.state.(productList := se.state.productList[i := se.state.productList[i].WithCount(0)]))
  {
    match FirstIndexOfProduct(se.state.productList, p.id)
    case Nil =>
    case Some(i) =>
      IndexOfUnique(se.state.productList, ProductDomain.Key, i);
  }

  /**
   * Deleting a cart line: the cart removes it and asks for its total, and the
   * list asks to reset that product, in this order.
   */
  lemma DeleteLineSendsTotalThenReset(se: Session, i: nat, p: Products.Product)
    requires Valid(se.state) && se.state.cartState.Some? && i < |se.state.cartState.value.cartItems|
    ensures Sends(Reduce(se, Cart(CartListDomain.CartItem(se.state.cartState.value.cartItems[i].id, CartItemDomain.DeleteCartItem(p)))).effect) ==
      [Cart(CartListDomain.GetTotalPrice), ResetProduct(p)]
    ensures Reduce(se, Cart(CartListDomain.CartItem(se.state.cartState.value.cartItems[i].id, CartItemDomain.DeleteCartItem(p)))).state ==
      var cart := se.state.cartState.value;
      se.(state := se.state.(cartState := Some(cart.(cartItems := cart.cartItems[..i] + cart.cartItems[i + 1..]))))
  {
    var cart := se.state.cartState.value;
    CartListDomain.DeleteRemovesLine(cart, i, p);
  }

  /** The store receives the cart's new total, then the reset of the deleted product's row. */
  lemma DeleteLineThenReceive(se: Session, i: nat, p: Products.Product, fuel: nat)
    requires Valid(se.state) && se.state.cartState.Some? && i < |se.state.cartState.value.cartItems| && fuel >= 2
    ensures Driver.SendAction(Reduce, se, Cart(CartListDomain.CartItem(se.state.cartState.value.cartItems[i].id, CartItemDomain.DeleteCartItem(p))), fuel).Some?
    ensures Driver.SendAction(Reduce, se, Cart(CartListDomain.CartItem(se.state.cartState.value.cartItems[i].id, CartItemDomain.DeleteCartItem(p))), fuel).value.received ==
      [Cart(CartListDomain.GetTotalPrice), ResetProduct(p)]
    ensures Driver.SendAction(Reduce, se, Cart(CartListDomain.CartItem(se.state.cartState.value.cartItems[i].id, CartItemDomain.DeleteCartItem(p))), fuel).value.state ==
      var cart := se.state.cartState.value;
      var rest := cart.cartItems[..i] + cart.cartItems[i + 1..];
      var total := CartListDomain.Total(CartListDomain.Items(rest));
      var rows := se.state.productList;
      var rows' := match FirstIndexOfProduct(rows, p.id) case Nil => rows case Some(j) => rows[j := rows[j].WithCount(0)];
      se.(state := se.state.(
        cartState := Some(cart.(cartItems := rest, totalPrice := total, isPayButtonDisable := total == 0.0)),
        productList := rows'))
  {
    var cart := se.state.cartState.value;
    var a := Cart(CartListDomain.CartItem(cart.cartItems[i].id, CartItemDomain.DeleteCartItem(p)));
    DeleteLineSendsTotalThenReset(se, i, p);
    var s1 := Reduce(se, a).state;
    var cart1 := s1.state.cartState.value;
    CartListDomain.GetTotalPriceSetsTotal(cart1);
    var s2 := Reduce(s1, Cart(CartListDomain.GetTotalPrice)).state;
    assert s2.state.productList == se.state.productList;
    RemoveAt(cart.cartItems, CartItemDomain.Key, cart.cartItems[i].id, i);
    RemoveKeepsUnique(cart.cartItems, CartItemDomain.Key, cart.cartItems[i].id);
    assert Valid(s2.state);
    ResetProductZeroesFirstMatch(s2, p);
    Driver.SendThenReceiveTwo(Reduce, se, a, Cart(CartListDomain.GetTotalPrice), ResetProduct(p), fuel);
  }

  /** Any other cart action only changes the open cart, and its effects come back addressed to the cart. */
  lemma OtherCartActionsStayInCart(se: Session, ca: CartListDomain.Action)
    requires !ca.DidPressCloseButton? && !ca.DismissSuccessAlert? && !ca.CartItem?
    ensures Reduce(se, Cart(ca)) ==
      match se.state.cartState
      case Nil => Step(se, None)
      case Some(cart) =>
        Step(se.(state := se.state.(cartState := Some(CartListDomain.Reduce(cart, ca).state))),
             LiftCart(CartListDomain.Reduce(cart, ca).effect))
  {
  }

  // ---- the rows ----

  /** A row action runs that row's reducer in place and touches nothing else. */
  lemma RowActionUpdatesRow(se: Session, i: nat, pa: ProductDomain.Action)
    requires Valid(se.state) && i < |se.state.productList|
    ensures Reduce(se, Product(se.state.productList[i].id, pa)) ==
      Step(se.(state := se.state.(productList :=
        se.state.productList[i := ProductDomain.Reduce(se.state.productList[i], pa).state])), None)
  {
    IndexOfUnique(se.state.productList, ProductDomain.Key, i);
    ProductDomain.IdentityKept(se.state.productList[i], pa);
  }

  /** `.forEach` drops a row action whose id no row has: nothing changes and nothing runs. */
  lemma UnknownRowIgnored(se: Session, id: Uuid, pa: ProductDomain.Action)
    requires forall k :: 0 <= k < |se.state.productList| ==> se.state.productList[k].id != id
    ensures Reduce(se, Product(id, pa)) == Step(se, None)
  {
  }

  lemma CartActionKeepsValid(se: Session, ca: CartListDomain.Action)
    requires Valid(se.state)
    ensures Valid(Reduce(se, Cart(ca)).state.state)
  {
    var s := se.state;
    var cart := IfLetCart(s, Cart(ca)).state;
    if s.cartState.Some? {
      CartListDomain.ReduceKeepsValid(s.cartState.value, ca);
    }
    assert Valid(cart);
    assert ForEachRow(cart, Cart(ca)).state == cart;
    if ca.DismissSuccessAlert? {
      ResetAllZeroesEveryRow(s.productList);
    }
  }

  lemma RowActionKeepsValid(se: Session, id: Uuid, pa: ProductDomain.Action)
    requires Valid(se.state)
    ensures Valid(Reduce(se, Product(id, pa)).state.state)
  {
    var s := se.state;
    match IndexOf(s.productList, ProductDomain.Key, id) {
      case Nil =>
      case Some(i) =>
        ProductDomain.IdentityKept(s.productList[i], pa);
        ProductDomain.CountNonNegativeStep(s.productList[i], pa);
        var rows := s.productList[i := ProductDomain.Reduce(s.productList[i], pa).state];
        assert forall k :: 0 <= k < |rows| ==> rows[k].id == s.productList[k].id;
        assert Reduce(se, Product(id, pa)).state.state.productList == rows;
    }
  }

  /** Every action keeps the row ids distinct, the counts non-negative and an open cart well formed. */
  lemma ReduceKeepsValid(se: Session, a: Action)
    requires Valid(se.state)
    ensures Valid(Reduce(se, a).state.state)
  {
    match a
    case Cart(ca) =>
      CartActionKeepsValid(se, ca);
    case Product(id, pa) =>
      RowActionKeepsValid(se, id, pa);
    case FetchProductsResponse(Ok(products)) =>
      RowsAreFresh(products, se.uuid);
    case SetCartView(true) =>
      CartLinesArePositiveRows(se.state.productList, se.uuid.next);
    case _ =>
  }
}
