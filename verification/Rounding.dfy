/** The rounding functions the services apply to quotients, over exact rationals. */
module Rounding {

  /** `Math.ceil(a / b)`: the one integer r with r - 1 < a / b <= r. */
  function CeilDiv(a: int, b: int): (r: int)
    requires b > 0
    ensures b * (r - 1) < a <= b * r
  {
    -((-a) / b)
  }

  /** `Math.floor(a / b)`: the one integer r with r <= a / b < r + 1. */
  function FloorDiv(a: int, b: int): (r: int)
    requires b > 0
    ensures b * r <= a < b * (r + 1)
  {
    a / b
  }

  /** `Math.round(x)`: halves go up. */
  function RoundHalfUp(x: real): (r: int)
    ensures r as real - 0.5 <= x < r as real + 0.5
  {
    (x + 0.5).Floor
  }

  /** Cancelling a positive factor. */
  lemma CancelFactor(b: int, x: int, y: int)
    requires b > 0 && b * x < b * y
    ensures x < y
  {
  }

  /** The ceiling is pinned down by its two bounds. */
  lemma CeilDivUnique(a: int, b: int, r: int)
    requires b > 0
    requires b * (r - 1) < a <= b * r
    ensures CeilDiv(a, b) == r
  {
    var q := CeilDiv(a, b);
    CancelFactor(b, q - 1, r);
    CancelFactor(b, r - 1, q);
  }

  lemma CeilDivMonotone(a: int, a': int, b: int)
    requires b > 0 && a <= a'
    ensures CeilDiv(a, b) <= CeilDiv(a', b)
  {
    CancelFactor(b, CeilDiv(a, b) - 1, CeilDiv(a', b));
  }

  lemma CeilDivNonNegative(a: int, b: int)
    requires b > 0 && a >= 0
    ensures CeilDiv(a, b) >= 0
  {
    CeilDivMonotone(0, a, b);
  }

  /** Rounding a sum up costs at most rounding the parts up separately. */
  lemma CeilDivSubadditive(a: int, a': int, b: int)
    requires b > 0
    ensures CeilDiv(a + a', b) <= CeilDiv(a, b) + CeilDiv(a', b)
  {
    var q, q', s := CeilDiv(a, b), CeilDiv(a', b), CeilDiv(a + a', b);
    assert b * q + b * q' == b * (q + q');
    CancelFactor(b, s - 1, q + q');
  }

  lemma RoundHalfUpMonotone(x: real, y: real)
    requires x <= y
    ensures RoundHalfUp(x) <= RoundHalfUp(y)
  {
  }
}
