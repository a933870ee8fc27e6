/**
 * Summing a per-item amount over a sequence, two ways: `Reduce` walks the
 * sequence from the front with an accumulator, as `Array.prototype.reduce`
 * does with a `(sum, item) => sum + term(item)` callback; `Sum` is the
 * reference definition the properties are stated against.
 */
module Sums {

  /** The reference sum of `term` over `xs`. */
  function Sum<T>(xs: seq<T>, term: T -> real): real
  {
    if xs == [] then 0.0 else term(xs[0]) + Sum(xs[1..], term)
  }

  /**
   * `xs.reduce((sum, x) => sum + term(x), acc)`: the left fold adds the
   * reference sum to the initial accumulator.
   */
  function Reduce<T>(xs: seq<T>, term: T -> real, acc: real): (r: real)
    ensures r == acc + Sum(xs, term)
  {
    if xs == [] then acc else Reduce(xs[1..], term, acc + term(xs[0]))
  }

  /** `term` multiplied by a factor that does not depend on the item. */
  function Scaled<T>(factor: real, term: T -> real): T -> real
  {
    x => factor * term(x)
  }

  /** Summing scaled amounts is scaling the sum. */
  lemma {:induction false} SumScaled<T>(xs: seq<T>, factor: real, term: T -> real)
    ensures Sum(xs, Scaled(factor, term)) == factor * Sum(xs, term)
  {
    if xs != [] {
      SumScaled(xs[1..], factor, term);
      var x, rest := term(xs[0]), Sum(xs[1..], term);
      assert factor * (x + rest) == factor * x + factor * rest;
    }
  }

  /**
   * `factor * xs.reduce((sum, x) => sum + term(x), 0)`: the sum of the
   * scaled amounts, which is the factor times the sum.
   */
  function ScaledReduce<T>(factor: real, xs: seq<T>, term: T -> real): (r: real)
    ensures r == Sum(xs, Scaled(factor, term))
    ensures r == factor * Sum(xs, term)
  {
    SumScaled(xs, factor, term);
    factor * Reduce(xs, term, 0.0)
  }

  /** A sum over a concatenation is the sum of the two sums. */
  lemma {:induction false} SumAppend<T>(xs: seq<T>, ys: seq<T>, term: T -> real)
    ensures Sum(xs + ys, term) == Sum(xs, term) + Sum(ys, term)
  {
    if xs == [] {
      assert xs + ys == ys;
    } else {
      assert (xs + ys)[1..] == xs[1..] + ys;
      SumAppend(xs[1..], ys, term);
    }
  }

  /** Taking one item out of the sequence takes its amount out of the sum. */
  lemma SumRemove<T>(ys: seq<T>, i: nat, term: T -> real)
    requires i < |ys|
    ensures Sum(ys, term) == term(ys[i]) + Sum(ys[..i] + ys[i + 1..], term)
  {
    assert ys == ys[..i] + [ys[i]] + ys[i + 1..];
    SumAppend(ys[..i] + [ys[i]], ys[i + 1..], term);
    SumAppend(ys[..i], [ys[i]], term);
    SumAppend(ys[..i], ys[i + 1..], term);
    assert Sum([ys[i]], term) == term(ys[i]) by {
      assert [ys[i]][1..] == [];
    }
  }

  /** The items left after taking out the one at `i`. */
  lemma MultisetRemove<T>(ys: seq<T>, i: nat)
    requires i < |ys|
    ensures multiset(ys[..i] + ys[i + 1..]) == multiset(ys) - multiset{ys[i]}
  {
    assert ys == ys[..i] + [ys[i]] + ys[i + 1..];
  }

  /** The sum depends only on the multiset of items, not on their order. */
  lemma {:induction false} SumPermutation<T>(xs: seq<T>, ys: seq<T>, term: T -> real)
    requires multiset(xs) == multiset(ys)
    ensures Sum(xs, term) == Sum(ys, term)
    decreases |xs|
  {
    if xs != [] {
      assert xs[0] in multiset(ys);
      var i :| 0 <= i < |ys| && ys[i] == xs[0];
      MultisetRemove(ys, i);
      assert xs == [xs[0]] + xs[1..];
      assert multiset(xs[1..]) == multiset(xs) - multiset{xs[0]};
      SumPermutation(xs[1..], ys[..i] + ys[i + 1..], term);
      SumRemove(ys, i, term);
    }
  }

  /** Non-negative amounts have a non-negative sum. */
  lemma {:induction false} SumNonNegative<T>(xs: seq<T>, term: T -> real)
    requires forall i :: 0 <= i < |xs| ==> term(xs[i]) >= 0.0
    ensures Sum(xs, term) >= 0.0
  {
    if xs != [] {
      SumNonNegative(xs[1..], term);
    }
  }

  /** Amounts that are zero on every item sum to zero. */
  lemma {:induction false} SumOfZeros<T>(xs: seq<T>, term: T -> real)
    requires forall i :: 0 <= i < |xs| ==> term(xs[i]) == 0.0
    ensures Sum(xs, term) == 0.0
  {
    if xs != [] {
      SumOfZeros(xs[1..], term);
    }
  }
}
