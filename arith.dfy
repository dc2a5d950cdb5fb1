/** Integer division and rounding as the JavaScript number operations of the source perform them
  * on exact values: `Math.floor`, `Math.ceil`, `Math.round` and `toFixed`. */
module Arith {

  /** `Math.floor(a / b)` for a nonzero divisor of either sign. */
  function FloorDiv(a: int, b: int): (q: int)
    requires b != 0
    ensures b > 0 ==> b * q <= a < b * q + b
    ensures b < 0 ==> b * q >= a > b * q + b
  {
    if b > 0 then a / b else (-a) / (-b)
  }

  /** `Math.ceil(a / b)` for a nonzero divisor of either sign. */
  function CeilDiv(a: int, b: int): (q: int)
    requires b != 0
    ensures b > 0 ==> b * q - b < a <= b * q
    ensures b < 0 ==> b * q - b > a >= b * q
  {
    -FloorDiv(-a, b)
  }

  /** `Math.round(num / den)`: the nearest integer, halves rounded up
    * (`toFixed` on a value that is not a binary fraction rounds the same way). */
  function RoundHalfUp(num: int, den: int): (r: int)
    requires den != 0
    ensures den > 0 ==> 2 * den * r - den <= 2 * num < 2 * den * r + den
  {
    FloorDiv(2 * num + den, 2 * den)
  }

  /** Multiplying by a positive factor keeps the order of integers. */
  lemma MulMonotone(d: int, x: int, y: int)
    requires d > 0 && x <= y
    ensures d * x <= d * y
  {
    assert d * y - d * x == d * (y - x);
  }

  /** Rounding preserves a lower bound that is a whole number. */
  lemma RoundHalfUpAtLeast(num: int, den: int, k: int)
    requires den > 0 && num >= k * den
    ensures RoundHalfUp(num, den) >= k
  {
    var r := RoundHalfUp(num, den);
    // 2*den*k <= 2*num < 2*den*r + den <= 2*den*(r + 1), so k < r + 1
    assert 2 * den * k < 2 * den * (r + 1);
    if r + 1 <= k {
      MulMonotone(2 * den, r + 1, k);
    }
  }

  /** Rounding preserves an upper bound that is a whole number. */
  lemma RoundHalfUpAtMost(num: int, den: int, k: int)
    requires den > 0 && num <= k * den
    ensures RoundHalfUp(num, den) <= k
  {
    var r := RoundHalfUp(num, den);
    // 2*den*(r - 1) < 2*den*r - den <= 2*num <= 2*den*k, so r - 1 < k
    assert 2 * den * (r - 1) < 2 * den * k;
    if k <= r - 1 {
      MulMonotone(2 * den, k, r - 1);
    }
  }
}
