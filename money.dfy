/** Summing prices the way the carts do: `reduce(0.0, +)`, a left fold from zero. */
module Money {
  function Sum(xs: seq<real>): real
    decreases |xs|
  {
    if xs == [] then 0.0 else Sum(xs[..|xs| - 1]) + xs[|xs| - 1]
  }

  lemma {:induction false} SumAppend(xs: seq<real>, ys: seq<real>)
    ensures Sum(xs + ys) == Sum(xs) + Sum(ys)
    decreases |ys|
  {
    if ys == [] {
      assert xs + ys == xs;
    } else {
      var zs := ys[..|ys| - 1];
      assert (xs + ys)[..|xs + ys| - 1] == xs + zs;
      assert (xs + ys)[|xs + ys| - 1] == ys[|ys| - 1];
      SumAppend(xs, zs);
    }
  }

  lemma SumSingleton(x: real)
    ensures Sum([x]) == x
  {
    assert [x][..0] == [];
  }

  /** Non-negative terms never give a negative sum. */
  lemma {:induction false} SumNonNegative(xs: seq<real>)
    requires forall k :: 0 <= k < |xs| ==> xs[k] >= 0.0
    ensures Sum(xs) >= 0.0
    decreases |xs|
  {
    if xs != [] {
      SumNonNegative(xs[..|xs| - 1]);
    }
  }

  /** With positive terms, the sum is zero exactly when there are none. */
  lemma {:induction false} SumPositive(xs: seq<real>)
    requires forall k :: 0 <= k < |xs| ==> xs[k] > 0.0
    ensures Sum(xs) >= 0.0
    ensures Sum(xs) == 0.0 <==> xs == []
    decreases |xs|
  {
    if xs != [] {
      SumPositive(xs[..|xs| - 1]);
    }
  }

  /** `xs.map(price)`: one price per line, in order. */
  function Prices<T>(xs: seq<T>, price: T -> real): (r: seq<real>)
    ensures |r| == |xs|
    ensures forall i :: 0 <= i < |xs| ==> r[i] == price(xs[i])
  {
    seq(|xs|, i requires 0 <= i < |xs| => price(xs[i]))
  }

  /** The cart total over a concatenation of lines is the sum of the two totals. */
  lemma TotalOfAppend<T>(xs: seq<T>, ys: seq<T>, price: T -> real)
    ensures Sum(Prices(xs + ys, price)) == Sum(Prices(xs, price)) + Sum(Prices(ys, price))
  {
    assert Prices(xs + ys, price) == Prices(xs, price) + Prices(ys, price);
    SumAppend(Prices(xs, price), Prices(ys, price));
  }

  /** The total of one line is its price. */
  lemma TotalOfOne<T>(x: T, price: T -> real)
    ensures Sum(Prices([x], price)) == price(x)
  {
    assert Prices([x], price) == [price(x)];
    SumSingleton(price(x));
  }
}
