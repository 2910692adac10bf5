/** `ProductDomain` of the current snapshot: one product row, embedding the add-to-cart stepper. */
module ProductDomain {
  import opened Effects
  import opened Identified
  import Products
  import AddToCartDomain
  import Driver

  datatype State = State(id: Uuid, product: Products.Product, addToCartState: AddToCartDomain.State) {

    /** The `count` getter: a view of the stepper's count. */
    function Count(): int {
      addToCartState.count
    }

    /** The `count` setter: writes through to the stepper's count. */
    function WithCount(n: int): State {
      this.(addToCartState := addToCartState.(count := n))
    }
  }

  /** The key an identified array of rows is keyed by. */
  function Key(s: State): Uuid {
    s.id
  }

  /** `State(id:product:)`: the stepper takes its default state. */
  function New(id: Uuid, product: Products.Product): (s: State)
    ensures s.id == id && s.product == product && s.Count() == 0
  {
    State(id, product, AddToCartDomain.Initial())
  }

  datatype Action = AddToCart(action: AddToCartDomain.Action)

  /** Swift's `max`. */
  function Max(a: int, b: int): int {
    if a >= b then a else b
  }

  /** `Scope(action: \.addToCart)`: the stepper's effects, addressed to this row. */
  function LiftEffect(e: Effect<AddToCartDomain.Action>): Effect<Action> {
    Map(e, (c: AddToCartDomain.Action) => AddToCart(c))
  }

  /** `body`: the scoped stepper runs first, then the row clamps a negative count back to zero. */
  function Reduce(s: State, a: Action): Step<State, Action> {
    var child := AddToCartDomain.Reduce(s.addToCartState, a.action);
    var scoped := s.(addToCartState := child.state);
    match a.action
    case DidTapPlusButton =>
      Step(scoped, Merge(LiftEffect(child.effect), None))
    case DidTapMinusButton =>
      Step(scoped.(addToCartState := scoped.addToCartState.(count := Max(0, scoped.addToCartState.count))),
           Merge(LiftEffect(child.effect), None))
  }

  /** The body as written: the child updates `addToCartState` in place, then the clamp overwrites it. */
  method Apply(state: State, action: Action) returns (state': State, effect: Effect<Action>)
    ensures Step(state', effect) == Reduce(state, action)
  {
    var child, childEffect := AddToCartDomain.Apply(state.addToCartState, action.action);
    state' := state.(addToCartState := child);
    match action.action {
      case DidTapPlusButton =>
      case DidTapMinusButton =>
        state' := state'.(addToCartState := state'.addToCartState.(count := Max(0, state'.addToCartState.count)));
    }
    effect := Merge(LiftEffect(childEffect), None);
  }

  /** Setting `count` changes the stepper's count and nothing else; getting it back gives the value set. */
  lemma CountIsAView(s: State, n: int)
    ensures s.WithCount(n).Count() == n
    ensures s.WithCount(n).id == s.id && s.WithCount(n).product == s.product
    ensures s.WithCount(s.Count()) == s
  {
  }

  lemma PlusIncrements(s: State)
    ensures Reduce(s, AddToCart(AddToCartDomain.DidTapPlusButton)) == Step(s.WithCount(s.Count() + 1), None)
  {
  }

  /** At zero the stepper goes to -1 and the row clamps it back: nothing changes. */
  lemma MinusAtZeroIsNoOp(s: State)
    requires s.Count() == 0
    ensures AddToCartDomain.Reduce(s.addToCartState, AddToCartDomain.DidTapMinusButton).state.count == -1
    ensures Reduce(s, AddToCart(AddToCartDomain.DidTapMinusButton)) == Step(s, None)
  {
  }

  lemma MinusDecrements(s: State)
    requires s.Count() > 0
    ensures Reduce(s, AddToCart(AddToCartDomain.DidTapMinusButton)) == Step(s.WithCount(s.Count() - 1), None)
  {
  }

  /** The row's identity and product never change. */
  lemma IdentityKept(s: State, a: Action)
    ensures Reduce(s, a).state.id == s.id && Reduce(s, a).state.product == s.product
    ensures Reduce(s, a).effect == None
  {
  }

  /** One action keeps a non-negative count non-negative. */
  lemma CountNonNegativeStep(s: State, a: Action)
    requires s.Count() >= 0
    ensures Reduce(s, a).state.Count() >= 0
  {
  }

  /** Invariant: a count that starts non-negative stays non-negative, whatever is tapped. */
  lemma {:induction false} CountStaysNonNegative(s: State, taps: seq<Action>)
    requires s.Count() >= 0
    ensures Driver.SendEach(Reduce, s, taps).Count() >= 0
    decreases |taps|
  {
    if taps != [] {
      CountStaysNonNegative(Reduce(s, taps[0]).state, taps[1..]);
    }
  }

  /** Minus, minus, plus from a fresh row gives a count of one. */
  lemma MinusMinusPlus(id: Uuid, product: Products.Product)
    ensures Driver.SendEach(Reduce, New(id, product),
      [AddToCart(AddToCartDomain.DidTapMinusButton), AddToCart(AddToCartDomain.DidTapMinusButton),
       AddToCart(AddToCartDomain.DidTapPlusButton)]).Count() == 1
  {
    var s := New(id, product);
    var minus := AddToCart(AddToCartDomain.DidTapMinusButton);
    var plus := AddToCart(AddToCartDomain.DidTapPlusButton);
    MinusAtZeroIsNoOp(s);
    PlusIncrements(s);
    assert [minus, minus, plus][1..] == [minus, plus];
    assert [minus, plus][1..] == [plus];
    assert [plus][1..] == [];
  }
}
