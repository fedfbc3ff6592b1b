/** Exact integer counterparts of the JavaScript `Math` functions the survey
    uses on values that are whole numbers or ratios of whole numbers. */
module JsMath {

  /** `Math.round(n / d)` for a positive `d`. `Math.round(x)` is `floor(x + 1/2)`,
      so the result is the integer nearest to `n / d`, halves going up. */
  function RoundDiv(n: int, d: int): (r: int)
    requires d > 0
    ensures 2 * d * r - d <= 2 * n < 2 * d * r + d
  {
    var q := (2 * n + d) / (2 * d);
    assert 2 * d * q <= 2 * n + d < 2 * d * q + 2 * d;
    q
  }

  /** Only one integer lies within one half of `n / d` on the round-up side,
      so the contract of `RoundDiv` determines it. */
  lemma RoundDivUnique(n: int, d: int, r: int)
    requires d > 0
    requires 2 * d * r - d <= 2 * n < 2 * d * r + d
    ensures RoundDiv(n, d) == r
  {
    var q := RoundDiv(n, d);
    if q > r {
      assert 2 * d * (q - r) == 2 * d * q - 2 * d * r;
      MulAtLeast(2 * d, q - r);
    } else if q < r {
      assert 2 * d * (r - q) == 2 * d * r - 2 * d * q;
      MulAtLeast(2 * d, r - q);
    }
  }

  /** Rounding a ratio is monotone in the numerator. */
  lemma RoundDivMonotone(n1: int, n2: int, d: int)
    requires d > 0 && n1 <= n2
    ensures RoundDiv(n1, d) <= RoundDiv(n2, d)
  {
    var r1, r2 := RoundDiv(n1, d), RoundDiv(n2, d);
    if r1 > r2 {
      assert 2 * d * (r1 - r2) == 2 * d * r1 - 2 * d * r2;
      MulAtLeast(2 * d, r1 - r2);
    }
  }

  lemma MulAtLeast(a: int, x: int)
    requires a > 0 && x >= 1
    ensures a * x >= a
  {
    assert a * x == a + a * (x - 1);
  }

  /** A whole ratio rounds to itself. */
  lemma RoundDivWhole(k: int, d: int)
    requires d > 0
    ensures RoundDiv(k * d, d) == k
  {
    assert 2 * d * k - d <= 2 * (k * d) < 2 * d * k + d;
    RoundDivUnique(k * d, d, k);
  }

  function Max(a: int, b: int): (r: int)
    ensures r >= a && r >= b && (r == a || r == b)
  {
    if a >= b then a else b
  }

  function Min(a: int, b: int): (r: int)
    ensures r <= a && r <= b && (r == a || r == b)
  {
    if a <= b then a else b
  }

  /** `Math.max(lo, Math.min(hi, x))`: `x` pulled into `[lo, hi]`. */
  function Clamp(lo: int, hi: int, x: int): (r: int)
    requires lo <= hi
    ensures lo <= r <= hi
    ensures lo <= x <= hi ==> r == x
    ensures x < lo ==> r == lo
    ensures x > hi ==> r == hi
  {
    Max(lo, Min(hi, x))
  }
}
