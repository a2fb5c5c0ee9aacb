/** Python's built-in `sum`, `max` and `min` over a coefficient array. */
module Coefficients {

  /** `sum(xs)`: the left fold of `+` starting from 0, so the empty array sums to 0. */
  function Sum(xs: seq<real>): (r: real)
    ensures |xs| == 0 ==> r == 0.0
  {
    if |xs| == 0 then 0.0 else Sum(xs[..|xs| - 1]) + xs[|xs| - 1]
  }

  /** `max(xs)`: defined only for a non-empty array (Python raises on an empty one). */
  function Max(xs: seq<real>): (r: real)
    requires |xs| > 0
    ensures r in xs
    ensures forall i :: 0 <= i < |xs| ==> xs[i] <= r
  {
    if |xs| == 1 then xs[0]
    else
      var m := Max(xs[1..]);
      assert forall i :: 1 <= i < |xs| ==> xs[i] == xs[1..][i - 1];
      if xs[0] >= m then xs[0] else m
  }

  /** `min(xs)`: defined only for a non-empty array (Python raises on an empty one). */
  function Min(xs: seq<real>): (r: real)
    requires |xs| > 0
    ensures r in xs
    ensures forall i :: 0 <= i < |xs| ==> r <= xs[i]
  {
    if |xs| == 1 then xs[0]
    else
      var m := Min(xs[1..]);
      assert forall i :: 1 <= i < |xs| ==> xs[i] == xs[1..][i - 1];
      if xs[0] <= m then xs[0] else m
  }

  /** Every coefficient is strictly positive. */
  predicate AllPositive(xs: seq<real>)
  {
    forall i :: 0 <= i < |xs| ==> xs[i] > 0.0
  }

  /** The sum of strictly positive coefficients of a non-empty array is positive. */
  lemma {:induction false} SumOfPositives(xs: seq<real>)
    requires |xs| > 0 && AllPositive(xs)
    ensures Sum(xs) > 0.0
  {
    if |xs| > 1 {
      SumOfPositives(xs[..|xs| - 1]);
    }
  }
}
