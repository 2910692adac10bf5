/**
 * `RootDomain`: the tab bar. Its `body` runs, in this order, the binding
 * reducer, its own closure (which does nothing), the product list scoped to
 * `productList`, and the profile scoped to `profile`; their effects are merged
 * in that order.
 */
module RootDomain {
  import opened Wrappers
  import opened Effects
  import opened Identified
  import ProductListDomain
  import ProfileDomain

  datatype Tab = Products | Profile

  datatype State = State(selectedTab: Tab, productList: ProductListDomain.State, profile: ProfileDomain.State)

  /** `State()`: the products tab, both children at their own initial states. */
  function Initial(): (s: State)
    ensures s.selectedTab == Products
    ensures s.productList == ProductListDomain.Initial() && s.profile == ProfileDomain.Initial()
  {
    State(Products, ProductListDomain.Initial(), ProfileDomain.Initial())
  }

  /** The state together with the `uuid` dependency the product list draws from. */
  datatype Session = Session(state: State, uuid: Uuids)

  /** `BindingAction<State>`: a view writing one of the state's fields. */
  datatype Binding =
    | SetSelectedTab(tab: Tab)
    | SetProductList(productList: ProductListDomain.State)
    | SetProfile(profile: ProfileDomain.State)

  datatype Action =
    | BindingAction(binding: Binding)
    | ProductList(productListAction: ProductListDomain.Action)
    | ProfileAction(profileAction: ProfileDomain.Action)

  /** `BindingReducer()`: writes the bound field; other actions pass through. */
  function BindingStep(se: Session, a: Action): Step<Session, Action> {
    match a
    case BindingAction(SetSelectedTab(tab)) => Step(se.(state := se.state.(selectedTab := tab)), None)
    case BindingAction(SetProductList(value)) => Step(se.(state := se.state.(productList := value)), None)
    case BindingAction(SetProfile(value)) => Step(se.(state := se.state.(profile := value)), None)
    case _ => Step(se, None)
  }

  /** The root's own closure: every case returns `.none`. */
  function Body(se: Session, a: Action): Step<Session, Action> {
    match a
    case BindingAction(_) => Step(se, None)
    case ProductList(_) => Step(se, None)
    case ProfileAction(_) => Step(se, None)
  }

  function LiftProductList(e: Effect<ProductListDomain.Action>): Effect<Action> {
    Map(e, (c: ProductListDomain.Action) => ProductList(c))
  }

  function LiftProfile(e: Effect<ProfileDomain.Action>): Effect<Action> {
    Map(e, (c: ProfileDomain.Action) => ProfileAction(c))
  }

  /** `Scope(state: \.productList, action: \.productList)`. */
  function ProductListScope(se: Session, a: Action): Step<Session, Action> {
    match a
    case ProductList(pa) =>
      var step := ProductListDomain.Reduce(ProductListDomain.Session(se.state.productList, se.uuid), pa);
      Step(Session(se.state.(productList := step.state.state), step.state.uuid), LiftProductList(step.effect))
    case _ => Step(se, None)
  }

  /** `Scope(state: \.profile, action: \.profile)`. */
  function ProfileScope(se: Session, a: Action): Step<Session, Action> {
    match a
    case ProfileAction(pa) =>
      var step := ProfileDomain.Reduce(se.state.profile, pa);
      Step(se.(state := se.state.(profile := step.state)), LiftProfile(step.effect))
    case _ => Step(se, None)
  }

  /** `body`: the four reducers in the order listed. */
  function Reduce(se: Session, a: Action): Step<Session, Action> {
    var s1 := BindingStep(se, a);
    var s2 := Body(s1.state, a);
    var s3 := ProductListScope(s2.state, a);
    var s4 := ProfileScope(s3.state, a);
    Step(s4.state, Merge(s1.effect, Merge(s2.effect, Merge(s3.effect, s4.effect))))
  }

  /** The root's own closure changes nothing and returns no effect. */
  lemma BodyIsInert(se: Session, a: Action)
    ensures Body(se, a) == Step(se, None)
  {
  }

  /** A product-list action reaches only `productList`; the list's effects come back addressed to it. */
  lemma ProductListActionIsScoped(se: Session, pa: ProductListDomain.Action)
    ensures Reduce(se, ProductList(pa)).state.state.selectedTab == se.state.selectedTab
    ensures Reduce(se, ProductList(pa)).state.state.profile == se.state.profile
    ensures Reduce(se, ProductList(pa)).state.state.productList ==
      ProductListDomain.Reduce(ProductListDomain.Session(se.state.productList, se.uuid), pa).state.state
    ensures Reduce(se, ProductList(pa)).state.uuid ==
      ProductListDomain.Reduce(ProductListDomain.Session(se.state.productList, se.uuid), pa).state.uuid
    ensures Reduce(se, ProductList(pa)).effect ==
      LiftProductList(ProductListDomain.Reduce(ProductListDomain.Session(se.state.productList, se.uuid), pa).effect)
  {
  }

  /** A profile action reaches only `profile`, and draws no ids. */
  lemma ProfileActionIsScoped(se: Session, pa: ProfileDomain.Action)
    ensures Reduce(se, ProfileAction(pa)) ==
      Step(se.(state := se.state.(profile := ProfileDomain.Reduce(se.state.profile, pa).state)),
           LiftProfile(ProfileDomain.Reduce(se.state.profile, pa).effect))
  {
  }

  /** A binding writes exactly its field and returns no effect. */
  lemma BindingWritesField(se: Session, b: Binding)
    ensures Reduce(se, BindingAction(b)).effect == None
    ensures Reduce(se, BindingAction(b)).state ==
      match b
      case SetSelectedTab(tab) => se.(state := se.state.(selectedTab := tab))
      case SetProductList(value) => se.(state := se.state.(productList := value))
      case SetProfile(value) => se.(state := se.state.(profile := value))
  {
  }

  /** Follow-up actions of a child come back to the root addressed to that child, in the same order. */
  lemma ChildSendsAreRouted(se: Session, pa: ProductListDomain.Action, qa: ProfileDomain.Action)
    ensures var child := ProductListDomain.Reduce(ProductListDomain.Session(se.state.productList, se.uuid), pa).effect;
      |Sends(Reduce(se, ProductList(pa)).effect)| == |Sends(child)| &&
      forall k :: 0 <= k < |Sends(child)| ==> Sends(Reduce(se, ProductList(pa)).effect)[k] == ProductList(Sends(child)[k])
    ensures var child := ProfileDomain.Reduce(se.state.profile, qa).effect;
      |Sends(Reduce(se, ProfileAction(qa)).effect)| == |Sends(child)| &&
      forall k :: 0 <= k < |Sends(child)| ==> Sends(Reduce(se, ProfileAction(qa)).effect)[k] == ProfileAction(Sends(child)[k])
  {
    ProductListActionIsScoped(se, pa);
    ProfileActionIsScoped(se, qa);
  }

  /** Any root action keeps the product list's invariants, unless a binding writes a list that breaks them. */
  lemma ReduceKeepsValid(se: Session, a: Action)
    requires ProductListDomain.Valid(se.state.productList)
    requires a.BindingAction? && a.binding.SetProductList? ==> ProductListDomain.Valid(a.binding.productList)
    ensures ProductListDomain.Valid(Reduce(se, a).state.state.productList)
  {
    if a.ProductList? {
      ProductListDomain.ReduceKeepsValid(ProductListDomain.Session(se.state.productList, se.uuid), a.productListAction);
    }
  }
}
