/** Rounding of computed loads to the nearest plate increment of 2.5 (the
    component's `roundToNearest2_5`, built on JavaScript's `Math.round`). */
module Rounding {

  /** The plate increment every displayed weight is a multiple of. */
  const Increment: real := 2.5

  /** True when `x` is an integer multiple of the increment. */
  predicate OnGrid(x: real) {
    (x / Increment).Floor as real * Increment == x
  }

  /** JavaScript's `Math.round`: the nearest integer, with exact halves
      going toward +infinity (so -2.5 rounds to -2 and 2.5 to 3). */
  function JsMathRound(y: real): (n: int)
    ensures y - 0.5 < n as real <= y + 0.5
  {
    (y + 0.5).Floor
  }

  /** The interval of the ensures above determines `Math.round` uniquely. */
  lemma JsMathRoundUnique(y: real, n: int)
    requires y - 0.5 < n as real <= y + 0.5
    ensures n == JsMathRound(y)
  {
  }

  /** `roundToNearest2_5(num) = Math.round(num / 2.5) * 2.5`: a multiple of
      the increment (`RoundOnGridAndClose` adds how close it is to `x`). */
  function RoundToNearest2_5(x: real): (r: real)
    ensures OnGrid(r)
  {
    var n := JsMathRound(x / Increment);
    assert (n as real * Increment) / Increment == n as real;
    n as real * Increment
  }

  /** The rounded value is on the grid and lies in the half-open window
      (x - 1.25, x + 1.25]. */
  lemma RoundOnGridAndClose(x: real)
    ensures OnGrid(RoundToNearest2_5(x))
    ensures x - Increment / 2.0 < RoundToNearest2_5(x) <= x + Increment / 2.0
  {
  }

  /** Conversely, the only multiple of the increment in that window is the
      rounded value, so the window characterises `roundToNearest2_5`. */
  lemma RoundUnique(x: real, m: real)
    requires OnGrid(m)
    requires x - Increment / 2.0 < m <= x + Increment / 2.0
    ensures m == RoundToNearest2_5(x)
  {
    var k := (m / Increment).Floor;
    assert m == k as real * Increment;
    assert x / Increment - 0.5 < k as real <= x / Increment + 0.5;
    JsMathRoundUnique(x / Increment, k);
  }

  /** No multiple of the increment is closer to `x` than the rounded value. */
  lemma RoundIsNearest(x: real, k: int)
    ensures Abs(RoundToNearest2_5(x) - x) <= Abs(k as real * Increment - x)
  {
    var r := RoundToNearest2_5(x);
    RoundOnGridAndClose(x);
    var n := (r / Increment).Floor;
    assert r == n as real * Increment;
    if k < n {
      assert k as real * Increment <= r - Increment;
    } else if n < k {
      assert r + Increment <= k as real * Increment;
    }
  }

  /** An exact half-way point between two multiples rounds to the larger one. */
  lemma RoundTiesUp(k: int)
    ensures RoundToNearest2_5(k as real * Increment + Increment / 2.0) == (k + 1) as real * Increment
  {
    var x := k as real * Increment + Increment / 2.0;
    assert x / Increment == k as real + 0.5;
    JsMathRoundUnique(x / Increment, k + 1);
  }

  /** A value already on the grid is returned unchanged. */
  lemma RoundFixesGrid(x: real)
    requires OnGrid(x)
    ensures RoundToNearest2_5(x) == x
  {
    var k := (x / Increment).Floor;
    assert x / Increment == k as real;
    JsMathRoundUnique(x / Increment, k);
  }

  /** Rounding twice is the same as rounding once. */
  lemma RoundIdempotent(x: real)
    ensures RoundToNearest2_5(RoundToNearest2_5(x)) == RoundToNearest2_5(x)
  {
    RoundOnGridAndClose(x);
    RoundFixesGrid(RoundToNearest2_5(x));
  }

  /** Rounding preserves order (not strictly: nearby values may meet). */
  lemma RoundMonotone(x: real, y: real)
    requires x <= y
    ensures RoundToNearest2_5(x) <= RoundToNearest2_5(y)
  {
    assert x / Increment + 0.5 <= y / Increment + 0.5;
  }

  function Abs(x: real): real {
    if x < 0.0 then -x else x
  }
}
