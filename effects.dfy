/**
 * `Effect`: what a reducer asks the store to do after it has updated the
 * state. `Send` feeds an action straight back in; `Run` calls one of the
 * injected ports with the arguments captured at that step and turns the
 * port's result into an action. The port calls themselves are not modelled.
 */
module Effects {
  import opened Wrappers
  import Products
  import CartItems
  import UserProfiles
  import OldCatalog
  import Amiibos

  /** The error a port throws; the reducers never look inside it. */
  datatype PortError = PortError(description: string)

  /** `TaskResult`: a port's value or the error it threw. */
  type TaskResult<T> = Result<T, PortError>

  /** A call to an injected port, with its captured arguments and the action its result becomes. */
  datatype Call<A> =
    | FetchProducts(onProducts: TaskResult<seq<Products.Product>> -> A)
    | SendOrder(items: seq<CartItems.CartItem>, onOrder: TaskResult<string> -> A)
    | FetchUserProfile(onProfile: TaskResult<UserProfiles.UserProfile> -> A)
    | FetchProduct(onProduct: TaskResult<Products.Product> -> A)
    | FetchCatalog(onCatalog: TaskResult<seq<OldCatalog.Product>> -> A)
    | SendCartOrder(lines: seq<OldCatalog.CartItem>, onSent: TaskResult<string> -> A)
    | RequestAmiibos(onAmiibos: Result<seq<Amiibos.Amiibo>, Amiibos.ApiError> -> A)
  {
    /** The same call, its resulting action wrapped by `f` (how a parent scope lifts a child's effect). */
    function Map<B>(f: A -> B): Call<B> {
      match this
      case FetchProducts(k) => FetchProducts(r => f(k(r)))
      case SendOrder(items, k) => SendOrder(items, r => f(k(r)))
      case FetchUserProfile(k) => FetchUserProfile(r => f(k(r)))
      case FetchProduct(k) => FetchProduct(r => f(k(r)))
      case FetchCatalog(k) => FetchCatalog(r => f(k(r)))
      case SendCartOrder(lines, k) => SendCartOrder(lines, r => f(k(r)))
      case RequestAmiibos(k) => RequestAmiibos(r => f(k(r)))
    }
  }

  datatype Effect<A> =
    | None
    | Send(action: A)
    | Run(call: Call<A>)
    | Merged(first: Effect<A>, second: Effect<A>)

  /** The actions a `Send` effect delivers, in FIFO order. */
  function Sends<A>(e: Effect<A>): seq<A> {
    match e
    case None => []
    case Send(a) => [a]
    case Run(_) => []
    case Merged(e1, e2) => Sends(e1) + Sends(e2)
  }

  /** The port calls an effect starts, in order. */
  function Runs<A>(e: Effect<A>): seq<Call<A>> {
    match e
    case None => []
    case Send(_) => []
    case Run(c) => [c]
    case Merged(e1, e2) => Runs(e1) + Runs(e2)
  }

  /** `.merge`: both effects, the first one's work first; merging with `.none` changes nothing. */
  function Merge<A>(e1: Effect<A>, e2: Effect<A>): (r: Effect<A>)
    ensures Sends(r) == Sends(e1) + Sends(e2)
    ensures Runs(r) == Runs(e1) + Runs(e2)
    ensures e1.None? ==> r == e2
    ensures e2.None? ==> r == e1
  {
    if e1.None? then e2 else if e2.None? then e1 else Merged(e1, e2)
  }

  /** The effect with every action it will produce wrapped by `f`. */
  function Map<A, B>(e: Effect<A>, f: A -> B): (r: Effect<B>)
    ensures e.None? <==> r.None?
    ensures |Sends(r)| == |Sends(e)| && |Runs(r)| == |Runs(e)|
    ensures forall i :: 0 <= i < |Sends(e)| ==> Sends(r)[i] == f(Sends(e)[i])
  {
    match e
    case None => None
    case Send(a) => Send(f(a))
    case Run(c) => Run(c.Map(f))
    case Merged(e1, e2) => Merged(Map(e1, f), Map(e2, f))
  }

  /** What one action does to a feature: its new state and the effect it returns. */
  datatype Step<S, A> = Step(state: S, effect: Effect<A>)
}
