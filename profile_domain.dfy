/** `ProfileDomain`: fetches the user profile once. */
module ProfileDomain {
  import opened Wrappers
  import opened Effects
  import opened UserProfiles
  import Driver

  datatype DataState = NotStarted | Loading | Complete

  datatype State = State(profile: UserProfile, dataState: DataState)

  /** `State()`: the placeholder profile, nothing fetched yet. */
  function Initial(): (s: State)
    ensures s.profile == Default() && s.dataState == NotStarted
  {
    State(Default(), NotStarted)
  }

  predicate IsLoading(s: State) {
    s.dataState == Loading
  }

  datatype Action = FetchUserProfile | FetchUserProfileResponse(result: TaskResult<UserProfile>)

  /** `.run`: calls the `fetchUserProfile` port and sends its result back. */
  function FetchEffect(): Effect<Action> {
    Run(Call.FetchUserProfile(r => FetchUserProfileResponse(r)))
  }

  /** `reduce`: fetch at most once; a failure also completes. */
  function Reduce(s: State, a: Action): Step<State, Action> {
    match a
    case FetchUserProfile =>
      if s.dataState == Complete || s.dataState == Loading then Step(s, None)
      else Step(s.(dataState := Loading), FetchEffect())
    case FetchUserProfileResponse(Ok(profile)) =>
      Step(s.(dataState := Complete, profile := profile), None)
    case FetchUserProfileResponse(Err(_)) =>
      Step(s.(dataState := Complete), None)
  }

  /** `reduce(into:action:)` as written: assigns the `inout` state's fields in place. */
  method Apply(state: State, action: Action) returns (state': State, effect: Effect<Action>)
    ensures Step(state', effect) == Reduce(state, action)
  {
    state' := state;
    effect := None;
    match action {
      case FetchUserProfile =>
        if state'.dataState == Complete || state'.dataState == Loading {
          return;
        }
        state' := state'.(dataState := Loading);
        effect := FetchEffect();
      case FetchUserProfileResponse(Ok(profile)) =>
        state' := state'.(dataState := Complete);
        state' := state'.(profile := profile);
      case FetchUserProfileResponse(Err(_)) =>
        state' := state'.(dataState := Complete);
    }
  }

  lemma IsLoadingIff(s: State)
    ensures IsLoading(s) <==> s.dataState == Loading
  {
  }

  /** A fetch while loading or complete is ignored. */
  lemma FetchIgnoredWhileBusyOrDone(s: State)
    requires s.dataState == Loading || s.dataState == Complete
    ensures Reduce(s, Action.FetchUserProfile) == Step(s, None)
  {
  }

  /** The first fetch starts loading and runs exactly one request, whose result comes back as the response. */
  lemma FetchStarts(s: State, result: TaskResult<UserProfile>)
    requires s.dataState == NotStarted
    ensures Reduce(s, Action.FetchUserProfile).state == s.(dataState := Loading)
    ensures Sends(Reduce(s, Action.FetchUserProfile).effect) == []
    ensures |Runs(Reduce(s, Action.FetchUserProfile).effect)| == 1
    ensures Runs(Reduce(s, Action.FetchUserProfile).effect)[0].FetchUserProfile?
    ensures Runs(Reduce(s, Action.FetchUserProfile).effect)[0].onProfile(result) == FetchUserProfileResponse(result)
  {
  }

  lemma SuccessReplacesProfile(s: State, profile: UserProfile)
    ensures Reduce(s, FetchUserProfileResponse(Ok(profile))) == Step(State(profile, Complete), None)
  {
  }

  lemma FailureKeepsProfile(s: State, error: PortError)
    ensures Reduce(s, FetchUserProfileResponse(Err(error))) == Step(s.(dataState := Complete), None)
  {
  }

  /** Once complete (after a success or a failure) the state stays complete and no fetch is ever run again. */
  lemma {:induction false} CompleteIsFinal(s: State, actions: seq<Action>)
    requires s.dataState == Complete
    ensures Driver.SendEach(Reduce, s, actions).dataState == Complete
    ensures forall i :: 0 <= i < |actions| ==> Reduce(Driver.SendEach(Reduce, s, actions[..i]), actions[i]).effect == None
    decreases |actions|
  {
    if actions != [] {
      var s1 := Reduce(s, actions[0]).state;
      CompleteIsFinal(s1, actions[1..]);
      forall i | 0 <= i < |actions|
        ensures Reduce(Driver.SendEach(Reduce, s, actions[..i]), actions[i]).effect == None
      {
        if i > 0 {
          assert actions[..i][0] == actions[0] && actions[..i][1..] == actions[1..][..i - 1];
          assert actions[i] == actions[1..][i - 1];
        }
      }
    }
  }
}
