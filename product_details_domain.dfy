/** `ProductDetailsDomain`: shows one product and refreshes it from the `fetchProduct` port. */
module ProductDetailsDomain {
  import opened Wrappers
  import opened Effects
  import opened LoadingStatus
  import Products
  import Driver

  datatype State = State(product: Products.Product, dataLoadingStatus: DataLoadingStatus)

  /** `State(product:)`: nothing fetched yet. */
  function New(product: Products.Product): (s: State)
    ensures s.product == product && s.dataLoadingStatus == NotStarted
  {
    State(product, NotStarted)
  }

  predicate IsLoading(s: State) {
    s.dataLoadingStatus == Loading
  }

  datatype Action =
    | FetchProduct
    | FetchProductResponse(result: TaskResult<Products.Product>)
    | DidPressCloseButton

  /** `.task`: calls the `fetchProduct` port and sends its result back. */
  function FetchEffect(): Effect<Action> {
    Run(Call.FetchProduct(r => FetchProductResponse(r)))
  }

  /** `reducer`: fetch unless loaded or loading; a failure allows a new attempt. */
  function Reduce(s: State, a: Action): Step<State, Action> {
    match a
    case FetchProduct =>
      if s.dataLoadingStatus == Success || s.dataLoadingStatus == Loading then Step(s, None)
      else Step(s.(dataLoadingStatus := Loading), FetchEffect())
    case FetchProductResponse(Ok(product)) =>
      Step(s.(dataLoadingStatus := Success, product := product), None)
    case FetchProductResponse(Err(_)) =>
      Step(s.(dataLoadingStatus := Error), None)
    case DidPressCloseButton =>
      Step(s, None)
  }

  /** The reducer closure as written: assigns the `inout` state's fields in place. */
  method Apply(state: State, action: Action) returns (state': State, effect: Effect<Action>)
    ensures Step(state', effect) == Reduce(state, action)
  {
    state' := state;
    effect := None;
    match action {
      case FetchProduct =>
        if state'.dataLoadingStatus == Success || state'.dataLoadingStatus == Loading {
          return;
        }
        state' := state'.(dataLoadingStatus := Loading);
        effect := FetchEffect();
      case FetchProductResponse(Ok(product)) =>
        state' := state'.(dataLoadingStatus := Success);
        state' := state'.(product := product);
      case FetchProductResponse(Err(_)) =>
        state' := state'.(dataLoadingStatus := Error);
      case DidPressCloseButton =>
    }
  }

  /** A fetch runs a request exactly when nothing is loaded or loading: at the start and after an error. */
  lemma FetchRunsIff(s: State)
    ensures Reduce(s, Action.FetchProduct).effect != None <==>
      (s.dataLoadingStatus == NotStarted || s.dataLoadingStatus == Error)
    ensures Reduce(s, Action.FetchProduct).state == s <==>
      (s.dataLoadingStatus == Success || s.dataLoadingStatus == Loading)
  {
  }

  /** A fetch while the product is loaded or loading is ignored: nothing changes and nothing runs. */
  lemma FetchIgnoredWhileBusyOrDone(s: State)
    requires s.dataLoadingStatus == Success || s.dataLoadingStatus == Loading
    ensures Reduce(s, Action.FetchProduct) == Step(s, None)
  {
  }

  /** A fetch that goes ahead marks the state loading and runs one request whose result comes back as the response. */
  lemma FetchStarts(s: State, result: TaskResult<Products.Product>)
    requires s.dataLoadingStatus == NotStarted || s.dataLoadingStatus == Error
    ensures Reduce(s, Action.FetchProduct).state == s.(dataLoadingStatus := Loading)
    ensures IsLoading(Reduce(s, Action.FetchProduct).state)
    ensures Sends(Reduce(s, Action.FetchProduct).effect) == []
    ensures |Runs(Reduce(s, Action.FetchProduct).effect)| == 1
    ensures Runs(Reduce(s, Action.FetchProduct).effect)[0].FetchProduct?
    ensures Runs(Reduce(s, Action.FetchProduct).effect)[0].onProduct(result) == FetchProductResponse(result)
  {
  }

  lemma SuccessReplacesProduct(s: State, product: Products.Product)
    ensures Reduce(s, FetchProductResponse(Ok(product))) == Step(State(product, Success), None)
  {
  }

  /** A failure keeps the product shown and stops loading. */
  lemma FailureKeepsProduct(s: State, error: PortError)
    ensures Reduce(s, FetchProductResponse(Err(error))).state.product == s.product
    ensures Reduce(s, FetchProductResponse(Err(error))).state.dataLoadingStatus == Error
    ensures !IsLoading(Reduce(s, FetchProductResponse(Err(error))).state)
    ensures Reduce(s, FetchProductResponse(Err(error))).effect == None
  {
  }

  lemma CloseIsNoOp(s: State)
    ensures Reduce(s, DidPressCloseButton) == Step(s, None)
  {
  }

  /** Fetch, fail, fetch again: the retry goes ahead with the original product still shown. */
  lemma RetryAfterFailure(product: Products.Product, error: PortError)
    ensures Driver.SendEach(Reduce, New(product), [Action.FetchProduct, FetchProductResponse(Err(error))]) ==
      State(product, Error)
    ensures Reduce(State(product, Error), Action.FetchProduct) == Step(State(product, Loading), FetchEffect())
  {
    var s1 := Reduce(New(product), Action.FetchProduct).state;
    var actions := [Action.FetchProduct, FetchProductResponse(Err(error))];
    assert actions[1..] == [FetchProductResponse(Err(error))];
    calc {
      Driver.SendEach(Reduce, New(product), actions);
      Driver.SendEach(Reduce, s1, [FetchProductResponse(Err(error))]);
      Driver.SendEach(Reduce, State(product, Error), []);
    }
  }
}
