/**
 * The two aggregation idioms of the statistics handlers: `xs.reduce((sum, x)
 * => sum + f(x), 0)` and `xs.filter(p).length`, with the facts about them the
 * handlers' results rest on.
 */
module Aggregate {

  /** `xs.reduce((sum, x) => sum + f(x), 0)`, folding from the left. */
  function Sum<T>(xs: seq<T>, f: T -> real): real
    decreases |xs|
  {
    if xs == [] then 0.0 else Sum(xs[..|xs| - 1], f) + f(xs[|xs| - 1])
  }

  /** `xs.filter(p).length` */
  function Count<T>(xs: seq<T>, p: T -> bool): (n: nat)
    ensures n <= |xs|
    ensures n == |xs| <==> forall i :: 0 <= i < |xs| ==> p(xs[i])
    decreases |xs|
  {
    if xs == [] then 0
    else Count(xs[..|xs| - 1], p) + (if p(xs[|xs| - 1]) then 1 else 0)
  }

  /** The arithmetic mean of `f` over a non-empty sequence. */
  function Mean<T>(xs: seq<T>, f: T -> real): real
    requires |xs| > 0
  {
    Sum(xs, f) / |xs| as real
  }

  /** A sum of terms that all lie in [lo, hi] lies in [n * lo, n * hi]. */
  lemma {:induction false} SumBounds<T>(xs: seq<T>, f: T -> real, lo: real, hi: real)
    requires forall i :: 0 <= i < |xs| ==> lo <= f(xs[i]) <= hi
    ensures |xs| as real * lo <= Sum(xs, f) <= |xs| as real * hi
    decreases |xs|
  {
    if xs != [] {
      var init := xs[..|xs| - 1];
      assert forall i :: 0 <= i < |init| ==> init[i] == xs[i];
      SumBounds(init, f, lo, hi);
    }
  }

  /** A sum of non-negative terms is non-negative. */
  lemma {:induction false} SumNonNegative<T>(xs: seq<T>, f: T -> real)
    requires forall i :: 0 <= i < |xs| ==> 0.0 <= f(xs[i])
    ensures 0.0 <= Sum(xs, f)
    decreases |xs|
  {
    if xs != [] {
      var init := xs[..|xs| - 1];
      assert forall i :: 0 <= i < |init| ==> init[i] == xs[i];
      SumNonNegative(init, f);
    }
  }

  /** The mean of terms that all lie in [lo, hi] lies in [lo, hi]. */
  lemma MeanBounds<T>(xs: seq<T>, f: T -> real, lo: real, hi: real)
    requires |xs| > 0
    requires forall i :: 0 <= i < |xs| ==> lo <= f(xs[i]) <= hi
    ensures lo <= Mean(xs, f) <= hi
  {
    SumBounds(xs, f, lo, hi);
    var n := |xs| as real;
    assert Mean(xs, f) * n == Sum(xs, f);
  }

  /** The mean of non-negative terms is non-negative. */
  lemma MeanNonNegative<T>(xs: seq<T>, f: T -> real)
    requires |xs| > 0
    requires forall i :: 0 <= i < |xs| ==> 0.0 <= f(xs[i])
    ensures 0.0 <= Mean(xs, f)
  {
    SumNonNegative(xs, f);
  }

  /** The mean of terms that are all equal to c is c. */
  lemma MeanConstant<T>(xs: seq<T>, f: T -> real, c: real)
    requires |xs| > 0
    requires forall i :: 0 <= i < |xs| ==> f(xs[i]) == c
    ensures Mean(xs, f) == c
  {
    SumBounds(xs, f, c, c);
  }

  /**
   * Two predicates that never hold together count at most the whole sequence
   * between them, and exactly the whole sequence when one of them always holds.
   */
  lemma {:induction false} CountDisjoint<T>(xs: seq<T>, p: T -> bool, q: T -> bool)
    requires forall i :: 0 <= i < |xs| ==> !(p(xs[i]) && q(xs[i]))
    ensures Count(xs, p) + Count(xs, q) <= |xs|
    ensures (forall i :: 0 <= i < |xs| ==> p(xs[i]) || q(xs[i])) ==> Count(xs, p) + Count(xs, q) == |xs|
    decreases |xs|
  {
    if xs != [] {
      var init := xs[..|xs| - 1];
      assert forall i :: 0 <= i < |init| ==> init[i] == xs[i];
      CountDisjoint(init, p, q);
    }
  }
}
