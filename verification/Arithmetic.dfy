/** Python's integer division and the rounding rules the engines build on it. */
module Arithmetic {

  /** A quotient is at least `q` exactly when the numerator covers `q` whole divisors. */
  lemma DivAtLeast(n: int, d: int, q: int)
    requires d > 0
    ensures q <= n / d <==> q * d <= n
  {
    var k, r := n / d, n % d;
    assert n == k * d + r && 0 <= r < d;
    if q <= k {
      MulMonotone(q, k, d);
    } else {
      MulMonotone(k + 1, q, d);
      assert (k + 1) * d == k * d + d;
    }
  }

  lemma MulMonotone(a: int, b: int, d: int)
    requires a <= b && d >= 0
    ensures a * d <= b * d
  {
    assert b * d - a * d == (b - a) * d;
  }

  lemma DivMonotone(a: int, b: int, d: int)
    requires a <= b && d > 0
    ensures a / d <= b / d
  {
    DivAtLeast(a, d, a / d);
    DivAtLeast(b, d, a / d);
  }

  lemma DivExact(d: int, q: int, r: int)
    requires 0 <= r < d
    ensures (q * d + r) / d == q
  {
    DivAtLeast(q * d + r, d, q);
    DivAtLeast(q * d + r, d, q + 1);
    assert (q + 1) * d == q * d + d;
  }

  /** `-(-n // d)`: the engine's exact integer ceiling. */
  function CeilDiv(n: int, d: int): int
    requires d > 0
  {
    -((-n) / d)
  }

  /** The ceiling is the least integer whose multiple covers the numerator. */
  lemma CeilDivAtMost(n: int, d: int, q: int)
    requires d > 0
    ensures CeilDiv(n, d) <= q <==> n <= q * d
  {
    DivAtLeast(-n, d, -q);
    assert (-q) * d == -(q * d);
  }

  lemma CeilDivMonotone(a: int, b: int, d: int)
    requires a <= b && d > 0
    ensures CeilDiv(a, d) <= CeilDiv(b, d)
  {
    DivMonotone(-b, -a, d);
  }

  /** Two nested ceilings equal one ceiling by the product. */
  lemma CeilDivNested(n: int, d: int, e: int)
    requires d > 0 && e > 0
    ensures d * e > 0
    ensures CeilDiv(CeilDiv(n, d), e) == CeilDiv(n, d * e)
  {
    MulPositive(d, e);
    var a, b := CeilDiv(CeilDiv(n, d), e), CeilDiv(n, d * e);
    CeilDivAtMost(CeilDiv(n, d), e, a);
    CeilDivAtMost(n, d, a * e);
    MulSwap(a, e, d);
    CeilDivAtMost(n, d * e, a);
    CeilDivAtMost(n, d * e, b);
    MulSwap(b, e, d);
    CeilDivAtMost(n, d, b * e);
    CeilDivAtMost(CeilDiv(n, d), e, b);
  }

  lemma MulPositive(d: int, e: int)
    requires d > 0 && e > 0
    ensures d * e > 0
  {
    MulMonotone(1, d, e);
  }

  lemma MulSwap(a: int, e: int, d: int)
    ensures (a * e) * d == a * (d * e)
  {
  }

  /** `Decimal` division rounded ROUND_HALF_UP: ties move away from zero. */
  function RoundHalfUp(n: int, d: int): int
    requires d > 0
  {
    if n >= 0 then (2 * n + d) / (2 * d) else -((2 * (-n) + d) / (2 * d))
  }

  /** Half-up is the nearest integer, and a tie goes to the neighbour farther from zero. */
  lemma RoundHalfUpNearest(n: int, d: int)
    requires d > 0
    ensures var r := RoundHalfUp(n, d);
            if n >= 0 then 2 * n - d < 2 * (r * d) <= 2 * n + d
            else 2 * n - d <= 2 * (r * d) < 2 * n + d
  {
    var m := if n >= 0 then n else -n;
    var k := (2 * m + d) / (2 * d);
    DivAtLeast(2 * m + d, 2 * d, k);
    DivAtLeast(2 * m + d, 2 * d, k + 1);
    assert k * (2 * d) == 2 * (k * d);
    assert (k + 1) * (2 * d) == 2 * (k * d) + 2 * d;
    assert (-k) * d == -(k * d);
  }

  lemma RoundHalfUpMonotone(a: int, b: int, d: int)
    requires a <= b && d > 0
    ensures RoundHalfUp(a, d) <= RoundHalfUp(b, d)
  {
    if a >= 0 {
      DivMonotone(2 * a + d, 2 * b + d, 2 * d);
    } else if b < 0 {
      DivMonotone(2 * (-b) + d, 2 * (-a) + d, 2 * d);
    } else {
      DivMonotone(0, 2 * (-a) + d, 2 * d);
      DivMonotone(0, 2 * b + d, 2 * d);
    }
  }
}
