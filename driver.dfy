/**
 * A sequential stand-in for `Store.send` as the tests drive it: the action is
 * reduced, then every action that a `Send` effect feeds back is reduced in
 * FIFO order until none is left. `Run` effects are only recorded as started:
 * their port results arrive later as ordinary actions. A reducer may keep
 * sending forever, so the number of follow-up actions is bounded by `fuel`.
 */
module Driver {
  import opened Wrappers
  import opened Effects

  /** The state after the queue drained, the follow-up actions received, and the port calls started. */
  datatype Outcome<S, A> = Outcome(state: S, received: seq<A>, started: seq<Call<A>>)

  function Drain<S, A>(
    reduce: (S, A) -> Step<S, A>, s: S, queue: seq<A>, received: seq<A>, started: seq<Call<A>>, fuel: nat
  ): Option<Outcome<S, A>>
    decreases fuel
  {
    if queue == [] then Some(Outcome(s, received, started))
    else if fuel == 0 then Nil
    else
      var step := reduce(s, queue[0]);
      Drain(reduce, step.state, queue[1..] + Sends(step.effect), received + [queue[0]],
            started + Runs(step.effect), fuel - 1)
  }

  /** `store.send(a)` followed by every `store.receive` its synchronous follow-ups call for. */
  function SendAction<S, A>(reduce: (S, A) -> Step<S, A>, s: S, a: A, fuel: nat): Option<Outcome<S, A>> {
    var step := reduce(s, a);
    Drain(reduce, step.state, Sends(step.effect), [], Runs(step.effect), fuel)
  }

  /** An action whose effect sends nothing is all there is to receive. */
  lemma SendQuiet<S, A>(reduce: (S, A) -> Step<S, A>, s: S, a: A, fuel: nat)
    requires Sends(reduce(s, a).effect) == []
    ensures SendAction(reduce, s, a, fuel) == Some(Outcome(reduce(s, a).state, [], Runs(reduce(s, a).effect)))
  {
  }

  /** An action that sends exactly `b`, which itself sends nothing: the test receives `b` and nothing else. */
  lemma SendThenReceive<S, A>(reduce: (S, A) -> Step<S, A>, s: S, a: A, b: A, fuel: nat)
    requires fuel >= 1
    requires Sends(reduce(s, a).effect) == [b]
    requires Sends(reduce(reduce(s, a).state, b).effect) == []
    ensures SendAction(reduce, s, a, fuel) ==
      Some(Outcome(reduce(reduce(s, a).state, b).state, [b],
                   Runs(reduce(s, a).effect) + Runs(reduce(reduce(s, a).state, b).effect)))
  {
    var s1 := reduce(s, a).state;
    var s2 := reduce(s1, b).state;
    assert [b][0] == b && [b][1..] + Sends(reduce(s1, b).effect) == [];
    assert [] + [b] == [b];
    assert Drain(reduce, s1, [b], [], Runs(reduce(s, a).effect), fuel)
        == Drain(reduce, s2, [], [b], Runs(reduce(s, a).effect) + Runs(reduce(s1, b).effect), fuel - 1);
  }

  /** Two queued follow-ups are received in the order they were sent, each sending nothing further. */
  lemma SendThenReceiveTwo<S, A>(reduce: (S, A) -> Step<S, A>, s: S, a: A, b: A, c: A, fuel: nat)
    requires fuel >= 2
    requires Sends(reduce(s, a).effect) == [b, c]
    requires Sends(reduce(reduce(s, a).state, b).effect) == []
    requires Sends(reduce(reduce(reduce(s, a).state, b).state, c).effect) == []
    ensures SendAction(reduce, s, a, fuel).Some?
    ensures SendAction(reduce, s, a, fuel).value.state == reduce(reduce(reduce(s, a).state, b).state, c).state
    ensures SendAction(reduce, s, a, fuel).value.received == [b, c]
  {
    var s1 := reduce(s, a).state;
    var s2 := reduce(s1, b).state;
    var s3 := reduce(s2, c).state;
    var r0 := Runs(reduce(s, a).effect);
    var r1 := r0 + Runs(reduce(s1, b).effect);
    var r2 := r1 + Runs(reduce(s2, c).effect);
    assert [b, c][0] == b && [b, c][1..] + Sends(reduce(s1, b).effect) == [c];
    assert [c][0] == c && [c][1..] + Sends(reduce(s2, c).effect) == [];
    assert [] + [b] == [b] && [b] + [c] == [b, c];
    assert Drain(reduce, s1, [b, c], [], r0, fuel) == Drain(reduce, s2, [c], [b], r1, fuel - 1);
    assert Drain(reduce, s2, [c], [b], r1, fuel - 1) == Drain(reduce, s3, [], [b] + [c], r2, fuel - 2);
  }

  /**
   * Consecutive `store.send` calls to a reducer none of whose effects feeds
   * an action back: each action is reduced in turn.
   */
  function SendEach<S, A>(reduce: (S, A) -> Step<S, A>, s: S, actions: seq<A>): S
    decreases |actions|
  {
    if actions == [] then s else SendEach(reduce, reduce(s, actions[0]).state, actions[1..])
  }

  /** How many times `a` occurs in `actions`. */
  function Occurrences<A(==)>(actions: seq<A>, a: A): nat {
    if actions == [] then 0
    else (if actions[0] == a then 1 else 0) + Occurrences(actions[1..], a)
  }
}
