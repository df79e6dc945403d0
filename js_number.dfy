/** Integer renderings of the two JavaScript/moment numeric operations the engine uses. */
module JsNumber {

  /** moment's `diff(other, unit)` without the float flag: the quotient truncated toward zero
      (moment's `absFloor`), unlike Dafny's Euclidean `/`. */
  function TruncDiv(a: int, d: int): (q: int)
    requires d > 0
    ensures a >= 0 ==> 0 <= q && d * q <= a < d * q + d
    ensures a < 0 ==> q <= 0 && d * q - d < a <= d * q
  {
    assert a == d * (a / d) + a % d && 0 <= a % d < d;
    if a >= 0 then a / d else -((-a) / d)
  }

  /** `Math.round(a / d)`: the nearest integer, a half rounded toward positive infinity. */
  function RoundDiv(a: int, d: int): (q: int)
    requires d > 0
    ensures 2 * d * q - d <= 2 * a < 2 * d * q + d
  {
    (2 * a + d) / (2 * d)
  }

  /** The two bounds of RoundDiv pin the result down: no other integer satisfies them. */
  lemma RoundDivUnique(a: int, d: int, q: int)
    requires d > 0
    requires 2 * d * q - d <= 2 * a < 2 * d * q + d
    ensures q == RoundDiv(a, d)
  {
    var r := RoundDiv(a, d);
    assert 2 * d * (q - r) < 2 * d && 2 * d * (r - q) < 2 * d;
    BelowOneFactor(2 * d, q - r);
    BelowOneFactor(2 * d, r - q);
  }

  lemma BelowOneFactor(d: int, x: int)
    requires d > 0 && d * x < d
    ensures x < 1
  {
  }
}
