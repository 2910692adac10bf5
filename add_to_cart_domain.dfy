/** `AddToCartDomain`: the plus/minus stepper under each product row. */
module AddToCartDomain {
  import opened Effects
  import Driver

  datatype State = State(count: int)

  /** `State()`: the stepper starts at zero. */
  function Initial(): (s: State)
    ensures s.count == 0
  {
    State(0)
  }

  datatype Action = DidTapPlusButton | DidTapMinusButton

  /** The reducer: one step up or down, with no floor at this level, and never an effect. */
  function Reduce(s: State, a: Action): Step<State, Action> {
    match a
    case DidTapPlusButton => Step(s.(count := s.count + 1), None)
    case DidTapMinusButton => Step(s.(count := s.count - 1), None)
  }

  /** The reducer as written: it updates its `inout` state in place. */
  method Apply(state: State, action: Action) returns (state': State, effect: Effect<Action>)
    ensures Step(state', effect) == Reduce(state, action)
  {
    state' := state;
    match action {
      case DidTapPlusButton =>
        state' := state'.(count := state'.count + 1);
        effect := None;
      case DidTapMinusButton =>
        state' := state'.(count := state'.count - 1);
        effect := None;
    }
  }

  lemma PlusAddsOne(s: State)
    ensures Reduce(s, DidTapPlusButton) == Step(State(s.count + 1), None)
  {
  }

  /** There is no floor: from the initial state, minus gives -1. */
  lemma MinusSubtractsOne(s: State)
    ensures Reduce(s, DidTapMinusButton) == Step(State(s.count - 1), None)
    ensures Reduce(Initial(), DidTapMinusButton).state.count == -1
  {
  }

  lemma MinusThenPlusRestores(s: State)
    ensures Reduce(Reduce(s, DidTapMinusButton).state, DidTapPlusButton).state == s
  {
  }

  lemma NoEffect(s: State, a: Action)
    ensures Reduce(s, a).effect == None
  {
  }

  /** Whatever the order of the taps, the count moves by the pluses minus the minuses. */
  lemma {:induction false} TapsCount(s: State, taps: seq<Action>)
    ensures Driver.SendEach(Reduce, s, taps).count ==
      s.count + Driver.Occurrences(taps, DidTapPlusButton) - Driver.Occurrences(taps, DidTapMinusButton)
    decreases |taps|
  {
    if taps != [] {
      TapsCount(Reduce(s, taps[0]).state, taps[1..]);
    }
  }

  lemma TapsFromInitial(taps: seq<Action>)
    ensures Driver.SendEach(Reduce, Initial(), taps).count ==
      Driver.Occurrences(taps, DidTapPlusButton) - Driver.Occurrences(taps, DidTapMinusButton)
  {
    TapsCount(Initial(), taps);
  }
}
