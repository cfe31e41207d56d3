/** Integer helpers shared by the ledger and the dashboard: JavaScript's
    `Math.round`, `Math.abs` and `Math.max`, and sums over sequences. */
module Arith {

  function Abs(x: int): (r: nat)
    ensures r == x || r == -x
  {
    if x < 0 then -x else x
  }

  function Max(a: int, b: int): (r: int)
    ensures r >= a && r >= b && (r == a || r == b)
  {
    if a < b then b else a
  }

  function Min(a: int, b: int): (r: int)
    ensures r <= a && r <= b && (r == a || r == b)
  {
    if a < b then a else b
  }

  /** `Math.round` on a real: the nearest integer, halves rounded up. */
  function RoundHalfUp(x: real): (r: int)
    ensures r as real - 0.5 <= x < r as real + 0.5
  {
    (x + 0.5).Floor
  }

  /** `Math.round(p / q)` for a positive divisor, in integers. */
  function RoundDiv(p: int, q: int): (r: int)
    requires q > 0
    ensures 2 * q * r - q <= 2 * p < 2 * q * r + q
  {
    (2 * p + q) / (2 * q)
  }

  lemma LeDivReal(a: real, b: real, q: real)
    requires q > 0.0 && a * q <= b
    ensures a <= b / q
  {
  }

  lemma LtDivReal(a: real, b: real, q: real)
    requires q > 0.0 && b < a * q
    ensures b / q < a
  {
  }

  /** The integer formula is the real rounding of the exact quotient. */
  lemma RoundDivIsRoundHalfUp(p: int, q: int)
    requires q > 0
    ensures RoundDiv(p, q) == RoundHalfUp(p as real / q as real)
  {
    var r := RoundDiv(p, q);
    var x := p as real / q as real;
    assert (2 * q * r - q) as real <= 2.0 * p as real < (2 * q * r + q) as real;
    assert (r as real - 0.5) * q as real <= p as real;
    LeDivReal(r as real - 0.5, p as real, q as real);
    assert p as real < (r as real + 0.5) * q as real;
    LtDivReal(r as real + 0.5, p as real, q as real);
    var f := RoundHalfUp(x);
    assert f as real - 0.5 <= x < f as real + 0.5;
  }

  lemma MulMonotone(d: int, x: int, y: int)
    requires d > 0 && x <= y
    ensures d * x <= d * y
  {
    assert d * y - d * x == d * (y - x);
  }

  lemma DivLower(n: int, d: int, a: int)
    requires d > 0 && a * d <= n
    ensures a <= n / d
  {
    var k, m := n / d, n % d;
    assert n == d * k + m && 0 <= m < d;
    if k + 1 <= a {
      MulMonotone(d, k + 1, a);
    }
  }

  lemma DivUpper(n: int, d: int, b: int)
    requires d > 0 && n < b * d
    ensures n / d < b
  {
    var k, m := n / d, n % d;
    assert n == d * k + m && 0 <= m < d;
    if b <= k {
      MulMonotone(d, b, k);
    }
  }

  /** Rounding a quotient that lies between two integers stays between them. */
  lemma RoundDivWithin(p: int, q: int, lo: int, hi: int)
    requires q > 0 && lo * q <= p <= hi * q
    ensures lo <= RoundDiv(p, q) <= hi
  {
    assert lo * (2 * q) <= 2 * p + q;
    DivLower(2 * p + q, 2 * q, lo);
    assert 2 * p + q < (hi + 1) * (2 * q);
    DivUpper(2 * p + q, 2 * q, hi + 1);
  }

  /** The reduce-with-plus of the source. */
  function Sum(s: seq<int>): int
  {
    if s == [] then 0 else Sum(s[..|s| - 1]) + s[|s| - 1]
  }

  lemma {:induction false} SumBounds(s: seq<int>, lo: int, hi: int)
    requires forall i :: 0 <= i < |s| ==> lo <= s[i] <= hi
    ensures lo * |s| <= Sum(s) <= hi * |s|
  {
    if s != [] {
      var t := s[..|s| - 1];
      assert forall i :: 0 <= i < |t| ==> t[i] == s[i];
      SumBounds(t, lo, hi);
      assert lo * |s| == lo * |t| + lo;
      assert hi * |s| == hi * |t| + hi;
    }
  }

  /** The rounded mean of a non-empty sequence lies between its bounds. */
  lemma MeanWithin(s: seq<int>, lo: int, hi: int)
    requires |s| > 0
    requires forall i :: 0 <= i < |s| ==> lo <= s[i] <= hi
    ensures lo <= RoundDiv(Sum(s), |s|) <= hi
  {
    SumBounds(s, lo, hi);
    RoundDivWithin(Sum(s), |s|, lo, hi);
  }
}
