/**
 * Stand-ins for two pieces of the imported runtime: `IdentifiedArray`, an
 * ordered collection whose entries carry pairwise-distinct identifiers, and
 * the `uuid` dependency that hands out those identifiers.
 */
module Identified {
  import opened Wrappers

  /** A `UUID`; only its identity matters, so naturals stand for it. */
  type Uuid = nat

  /**
   * The `uuid` dependency as an injected sequence of distinct values: the
   * n-th call yields `n`, like the incrementing generator the tests install.
   */
  datatype Uuids = Uuids(next: nat) {

    /** The identifier the next call returns. */
    function Peek(): Uuid {
      next
    }

    /** The generator after `n` more calls. */
    function Skip(n: nat): (g: Uuids)
      ensures g.next == next + n
    {
      Uuids(next + n)
    }
  }

  /** The identifiers of the entries, in order. */
  function Ids<T>(xs: seq<T>, key: T -> Uuid): (ids: seq<Uuid>)
    ensures |ids| == |xs|
    ensures forall i :: 0 <= i < |xs| ==> ids[i] == key(xs[i])
  {
    if xs == [] then [] else [key(xs[0])] + Ids(xs[1..], key)
  }

  /** The invariant of an identified array: no identifier occurs twice. */
  ghost predicate Unique<T>(xs: seq<T>, key: T -> Uuid) {
    forall i, j :: 0 <= i < j < |xs| ==> key(xs[i]) != key(xs[j])
  }

  /** The position of the entry with identifier `id`, as `subscript(id:)` finds it. */
  function IndexOf<T>(xs: seq<T>, key: T -> Uuid, id: Uuid): (r: Option<nat>)
    ensures r.Some? ==> r.value < |xs| && key(xs[r.value]) == id
    ensures r.Some? ==> forall j :: 0 <= j < r.value ==> key(xs[j]) != id
    ensures r.Nil? <==> forall j :: 0 <= j < |xs| ==> key(xs[j]) != id
  {
    if xs == [] then Nil
    else if key(xs[0]) == id then Some(0)
    else match IndexOf(xs[1..], key, id)
      case Nil => Nil
      case Some(k) => Some(k + 1)
  }

  /** In an identified array, looking up an entry's own identifier finds that entry. */
  lemma IndexOfUnique<T>(xs: seq<T>, key: T -> Uuid, i: nat)
    requires Unique(xs, key) && i < |xs|
    ensures IndexOf(xs, key, key(xs[i])) == Some(i)
  {
  }

  /** `remove(id:)`: drops the entry with identifier `id`; an absent identifier is a no-op. */
  function Remove<T>(xs: seq<T>, key: T -> Uuid, id: Uuid): (r: seq<T>)
    ensures |r| <= |xs|
    ensures forall x :: x in r ==> x in xs && key(x) != id
    ensures forall x :: x in xs && key(x) != id ==> x in r
  {
    if xs == [] then []
    else if key(xs[0]) == id then Remove(xs[1..], key, id)
    else [xs[0]] + Remove(xs[1..], key, id)
  }

  /** `xs[id: id] = x`: replaces the entry with identifier `id`; an absent identifier is a no-op. */
  function Update<T>(xs: seq<T>, key: T -> Uuid, id: Uuid, x: T): (r: seq<T>)
    ensures |r| == |xs|
  {
    match IndexOf(xs, key, id)
    case Nil => xs
    case Some(i) => xs[i := x]
  }

  lemma {:induction false} RemoveAbsent<T>(xs: seq<T>, key: T -> Uuid, id: Uuid)
    requires forall j :: 0 <= j < |xs| ==> key(xs[j]) != id
    ensures Remove(xs, key, id) == xs
  {
    if xs != [] {
      RemoveAbsent(xs[1..], key, id);
    }
  }

  /** In an identified array, removal deletes exactly the one entry and keeps the others in order. */
  lemma {:induction false} RemoveAt<T>(xs: seq<T>, key: T -> Uuid, id: Uuid, i: nat)
    requires Unique(xs, key) && i < |xs| && key(xs[i]) == id
    ensures Remove(xs, key, id) == xs[..i] + xs[i + 1..]
  {
    if i == 0 {
      RemoveAbsent(xs[1..], key, id);
      assert xs[1..] == xs[..0] + xs[1..];
    } else {
      RemoveAt(xs[1..], key, id, i - 1);
      assert xs[1..][..i - 1] + xs[1..][i..] == xs[1..i] + xs[i + 1..];
      assert [xs[0]] + xs[1..i] == xs[..i];
    }
  }

  lemma {:induction false} RemoveKeepsUnique<T>(xs: seq<T>, key: T -> Uuid, id: Uuid)
    requires Unique(xs, key)
    ensures Unique(Remove(xs, key, id), key)
  {
    if xs != [] {
      RemoveKeepsUnique(xs[1..], key, id);
      var rest := Remove(xs[1..], key, id);
      if key(xs[0]) != id {
        forall x | x in rest ensures key(x) != key(xs[0]) {
          var j :| 0 <= j < |xs[1..]| && xs[1..][j] == x;
          assert xs[j + 1] == x;
        }
        var r := [xs[0]] + rest;
        forall i, j | 0 <= i < j < |r| ensures key(r[i]) != key(r[j]) {
          if i == 0 {
            assert r[j] in rest;
          } else {
            assert r[i] == rest[i - 1] && r[j] == rest[j - 1];
          }
        }
      }
    }
  }

  /** An update that keeps the identifier of the entry keeps the array identified. */
  lemma UpdateKeepsUnique<T>(xs: seq<T>, key: T -> Uuid, id: Uuid, x: T)
    requires Unique(xs, key) && key(x) == id
    ensures Unique(Update(xs, key, id, x), key)
    ensures forall i :: 0 <= i < |xs| ==> key(Update(xs, key, id, x)[i]) == key(xs[i])
  {
  }
}
