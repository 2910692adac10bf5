/** `AmiiboDomain`: the Amiibo list, a per-Amiibo selection counter and the cart flag. */
module AmiiboDomain {
  import opened Wrappers
  import opened Effects
  import opened Amiibos
  import Driver

  datatype State = State(amiiboList: seq<Amiibo>, selectedAmibo: map<string, int>, shouldShowCartView: bool)

  /** `State()`: empty list, nothing selected, cart hidden. */
  function Initial(): (s: State)
    ensures s.amiiboList == [] && s.selectedAmibo == map[] && !s.shouldShowCartView
  {
    State([], map[], false)
  }

  datatype Action =
    | OnAppear
    | DataLoaded(result: Result<seq<Amiibo>, ApiError>)
    | AmiiboSelected(amiibo: Amiibo)
    | ShowCart

  /** `selectedAmibo[id, default: 0]`. */
  function Selected(m: map<string, int>, id: string): int {
    if id in m then m[id] else 0
  }

  /** `amiiboRequest(decoder)` caught into a `Result` and mapped to `.dataLoaded`. */
  function RequestEffect(): Effect<Action> {
    Run(RequestAmiibos(r => DataLoaded(r)))
  }

  function Reduce(s: State, a: Action): Step<State, Action> {
    match a
    case OnAppear => Step(s, RequestEffect())
    case DataLoaded(Ok(list)) => Step(s.(amiiboList := list), None)
    case DataLoaded(Err(_)) => Step(s, None)
    case AmiiboSelected(amiibo) =>
      Step(s.(selectedAmibo := s.selectedAmibo[amiibo.id := Selected(s.selectedAmibo, amiibo.id) + 1]), None)
    case ShowCart => Step(s.(shouldShowCartView := true), None)
  }

  /** The reducer closure as written, mutating the `inout` state. */
  method Apply(state: State, action: Action) returns (state': State, effect: Effect<Action>)
    ensures Step(state', effect) == Reduce(state, action)
  {
    state' := state;
    effect := None;
    match action {
      case OnAppear =>
        effect := RequestEffect();
      case DataLoaded(result) =>
        match result {
          case Ok(list) => state' := state'.(amiiboList := list);
          case Err(_) =>
        }
      case AmiiboSelected(amiibo) =>
        var current := if amiibo.id in state'.selectedAmibo then state'.selectedAmibo[amiibo.id] else 0;
        state' := state'.(selectedAmibo := state'.selectedAmibo[amiibo.id := current + 1]);
      case ShowCart =>
        state' := state'.(shouldShowCartView := true);
    }
  }

  /** Appearing changes nothing and starts one request whose result comes back as `dataLoaded`. */
  lemma OnAppearRequests(s: State, result: Result<seq<Amiibo>, ApiError>)
    ensures Reduce(s, OnAppear).state == s
    ensures Sends(Reduce(s, OnAppear).effect) == []
    ensures |Runs(Reduce(s, OnAppear).effect)| == 1
    ensures Runs(Reduce(s, OnAppear).effect)[0].onAmiibos(result) == DataLoaded(result)
  {
  }

  /** A loaded list replaces the old one; a failed load leaves the state as it was. */
  lemma DataLoadedReplacesList(s: State, list: seq<Amiibo>, error: ApiError)
    ensures Reduce(s, DataLoaded(Ok(list))).state == s.(amiiboList := list)
    ensures Reduce(s, DataLoaded(Ok(list))).effect == None
    ensures Reduce(s, DataLoaded(Err(error))) == Step(s, None)
  {
  }

  /** Selecting bumps that Amiibo's counter by one (from zero the first time) and no other counter. */
  lemma SelectIncrements(s: State, amiibo: Amiibo, other: string)
    ensures Selected(Reduce(s, AmiiboSelected(amiibo)).state.selectedAmibo, amiibo.id) ==
      Selected(s.selectedAmibo, amiibo.id) + 1
    ensures other != amiibo.id ==>
      Selected(Reduce(s, AmiiboSelected(amiibo)).state.selectedAmibo, other) == Selected(s.selectedAmibo, other)
    ensures amiibo.id in Reduce(s, AmiiboSelected(amiibo)).state.selectedAmibo
    ensures Reduce(s, AmiiboSelected(amiibo)).state.amiiboList == s.amiiboList
    ensures Reduce(s, AmiiboSelected(amiibo)).state.shouldShowCartView == s.shouldShowCartView
    ensures Reduce(s, AmiiboSelected(amiibo)).state.selectedAmibo.Keys == s.selectedAmibo.Keys + {amiibo.id}
    ensures Reduce(s, AmiiboSelected(amiibo)).effect == None
  {
  }

  /** Showing the cart twice is the same as once. */
  lemma ShowCartIdempotent(s: State)
    ensures Reduce(s, ShowCart).state.shouldShowCartView
    ensures Reduce(Reduce(s, ShowCart).state, ShowCart) == Reduce(s, ShowCart)
  {
  }

  /** How many of `actions` select an Amiibo with identifier `id`. */
  function SelectionsOf(actions: seq<Action>, id: string): nat
    decreases |actions|
  {
    if actions == [] then 0
    else (if actions[0].AmiiboSelected? && actions[0].amiibo.id == id then 1 else 0) + SelectionsOf(actions[1..], id)
  }

  /** After any run of actions, an Amiibo's counter has grown by exactly the number of times it was selected. */
  lemma {:induction false} CounterCountsSelections(s: State, actions: seq<Action>, id: string)
    ensures Selected(Driver.SendEach(Reduce, s, actions).selectedAmibo, id) == Selected(s.selectedAmibo, id) + SelectionsOf(actions, id)
    decreases |actions|
  {
    if actions != [] {
      CounterCountsSelections(Reduce(s, actions[0]).state, actions[1..], id);
    }
  }
}
