/**
 * Random draws made explicit.  Every call of `np.random.random()`,
 * `np.random.uniform(lo, hi)` and `np.random.choice(values, p=...)` in the
 * system is driven here by a unit draw `u` in [0, 1) that the caller supplies;
 * distributions themselves are not modelled, only the ranges they produce.
 */
module Draws {

  /** A value `np.random.random()` can return. */
  predicate IsUnit(u: real) {
    0.0 <= u < 1.0
  }

  /**
   * `np.random.uniform(lo, hi)` for the unit draw `u`.  NumPy computes
   * `lo + (hi - lo) * u`, so reversed bounds (as in `uniform(-10, -25)`)
   * give a value in (hi, lo].
   */
  function Uniform(lo: real, hi: real, u: real): (r: real)
    requires IsUnit(u)
    ensures lo <= hi ==> lo <= r <= hi && (lo < hi ==> r < hi)
    ensures hi <= lo ==> hi <= r <= lo && (hi < lo ==> hi < r)
  {
    var d := hi - lo;
    ScaleBounds(d, u);
    lo + d * u
  }

  /** The product of a width and a unit draw stays between 0 and the width. */
  lemma ScaleBounds(d: real, u: real)
    requires IsUnit(u)
    ensures d >= 0.0 ==> 0.0 <= d * u <= d && (d > 0.0 ==> d * u < d)
    ensures d <= 0.0 ==> d <= d * u <= 0.0 && (d < 0.0 ==> d < d * u)
  {
    if d >= 0.0 {
      assert d * u <= d * 1.0;
    } else {
      assert (-d) * u <= (-d) * 1.0;
    }
  }

  /**
   * `np.random.choice(values, p=weights)` for the unit draw `u`: NumPy picks
   * the first value whose cumulative weight exceeds `u`; the last value takes
   * whatever rounding leaves over.
   */
  function Choose(values: seq<int>, weights: seq<real>, u: real): (r: int)
    requires |values| == |weights| > 0
    ensures r in values
    decreases |values|
  {
    if |values| == 1 || u < weights[0] then values[0]
    else Choose(values[1..], weights[1..], u - weights[0])
  }
}
