/** Real-valued aggregates over confidence pools: sum, mean and extrema.
    Every definition peels the last element, the way the service's loops
    accumulate a pool element by element. */
module Numeric {

  /** Sum of a pool. */
  function Sum(xs: seq<real>): real
    decreases |xs|
  {
    if |xs| == 0 then 0.0 else Sum(xs[..|xs| - 1]) + xs[|xs| - 1]
  }

  /** Arithmetic mean as `np.mean` computes it. The empty pool gives 0, which is
      what every caller substitutes when it guards the call with `if pool`. */
  function Mean(xs: seq<real>): real
  {
    if |xs| == 0 then 0.0 else Sum(xs) / (|xs| as real)
  }

  /** The largest element of a non-empty pool (Python's `max`). */
  function Greatest(xs: seq<real>): (m: real)
    requires |xs| > 0
    ensures m in xs
    ensures forall i :: 0 <= i < |xs| ==> xs[i] <= m
    decreases |xs|
  {
    if |xs| == 1 then xs[0]
    else
      var rest := Greatest(xs[..|xs| - 1]);
      if xs[|xs| - 1] > rest then xs[|xs| - 1] else rest
  }

  /** The smallest element of a non-empty pool (Python's `min`). */
  function Least(xs: seq<real>): (m: real)
    requires |xs| > 0
    ensures m in xs
    ensures forall i :: 0 <= i < |xs| ==> m <= xs[i]
    decreases |xs|
  {
    if |xs| == 1 then xs[0]
    else
      var rest := Least(xs[..|xs| - 1]);
      if xs[|xs| - 1] < rest then xs[|xs| - 1] else rest
  }

  /** `max(pool) if pool else 0` */
  function MaxOrZero(xs: seq<real>): real
  {
    if |xs| == 0 then 0.0 else Greatest(xs)
  }

  /** `min(pool) if pool else 0` */
  function MinOrZero(xs: seq<real>): real
  {
    if |xs| == 0 then 0.0 else Least(xs)
  }

  /** A pool whose elements all lie in [lo, hi] sums to a value in [n*lo, n*hi]. */
  lemma {:induction false} SumBounds(xs: seq<real>, lo: real, hi: real)
    requires forall i :: 0 <= i < |xs| ==> lo <= xs[i] <= hi
    ensures (|xs| as real) * lo <= Sum(xs) <= (|xs| as real) * hi
    decreases |xs|
  {
    if |xs| > 0 {
      var init, last := xs[..|xs| - 1], xs[|xs| - 1];
      assert forall i :: 0 <= i < |init| ==> init[i] == xs[i];
      SumBounds(init, lo, hi);
      assert Sum(xs) == Sum(init) + last;
      assert lo <= last <= hi;
      var m := |init| as real;
      assert (|xs| as real) == m + 1.0;
      assert (m + 1.0) * lo == m * lo + lo;
      assert (m + 1.0) * hi == m * hi + hi;
    }
  }

  /** Dividing a total by a positive count preserves a bound on the total. */
  lemma DivideBounds(total: real, n: real, lo: real, hi: real)
    requires n > 0.0
    requires n * lo <= total <= n * hi
    ensures lo <= total / n <= hi
  {
    assert total / n * n == total;
  }

  /** The mean of a non-empty pool lies between its extrema. */
  lemma MeanBetween(xs: seq<real>, lo: real, hi: real)
    requires |xs| > 0
    requires forall i :: 0 <= i < |xs| ==> lo <= xs[i] <= hi
    ensures lo <= Mean(xs) <= hi
  {
    SumBounds(xs, lo, hi);
    DivideBounds(Sum(xs), |xs| as real, lo, hi);
  }

  lemma MeanWithinExtrema(xs: seq<real>)
    requires |xs| > 0
    ensures Least(xs) <= Mean(xs) <= Greatest(xs)
  {
    MeanBetween(xs, Least(xs), Greatest(xs));
  }

  /** The zero-defaulted aggregates: all three are 0 on an empty pool, and on a
      non-empty one they are ordered min <= mean <= max. */
  lemma OrZeroOrdered(xs: seq<real>)
    ensures |xs| == 0 ==> Mean(xs) == 0.0 && MaxOrZero(xs) == 0.0 && MinOrZero(xs) == 0.0
    ensures |xs| > 0 ==> MinOrZero(xs) <= Mean(xs) <= MaxOrZero(xs)
  {
    if |xs| > 0 {
      MeanWithinExtrema(xs);
    }
  }

  /** A pool of values in [0, 1] (detection confidences) keeps its mean in [0, 1]. */
  lemma MeanOfUnitPool(xs: seq<real>)
    requires forall i :: 0 <= i < |xs| ==> 0.0 <= xs[i] <= 1.0
    ensures 0.0 <= Mean(xs) <= 1.0
  {
    if |xs| > 0 {
      MeanWithinExtrema(xs);
    }
  }
}
