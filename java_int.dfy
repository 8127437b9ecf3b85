/**
 * The parts of Java's fixed-width arithmetic that the seed chain relies on:
 * `int` wrap-around, `int` division, and the `(int)` cast of a `double`.
 */
module JavaInt {

  const TwoTo31: int := 0x8000_0000
  const TwoTo32: int := 0x1_0000_0000

  predicate IsInt32(x: int) {
    -TwoTo31 <= x < TwoTo31
  }

  /** The value of a Java `int` expression whose exact value is `x` (two's complement). */
  function Wrap32(x: int): (r: int)
    ensures IsInt32(r)
    ensures (x - r) % TwoTo32 == 0
    ensures IsInt32(x) ==> r == x
  {
    var m := (x + TwoTo31) % TwoTo32;
    assert x + TwoTo31 == TwoTo32 * ((x + TwoTo31) / TwoTo32) + m;
    m - TwoTo31
  }

  /** Java's `a / b` on integers for a positive divisor: the quotient truncated toward zero. */
  function DivTrunc(a: int, b: int): (q: int)
    requires b > 0
    ensures a >= 0 ==> 0 <= q && q * b <= a < q * b + b
    ensures a < 0 ==> q <= 0 && q * b - b < a <= q * b
  {
    if a >= 0 then
      FloorDivBounds(a, b);
      a / b
    else
      FloorDivBounds(-a, b);
      assert -((-a) / b) * b == -(((-a) / b) * b);
      -((-a) / b)
  }

  lemma FloorDivBounds(n: int, b: int)
    requires n >= 0 && b > 0
    ensures 0 <= n / b && (n / b) * b <= n < (n / b) * b + b
  {
    var q, r := n / b, n % b;
    assert n == b * q + r && 0 <= r < b;
    assert q * b == b * q;
  }

  /** The exact ceiling of `d / m`: what `Math.ceil(d / (double) m)` computes without rounding. */
  function CeilDiv(d: int, m: int): (r: int)
    requires m > 0
    ensures m * (r - 1) < d <= m * r
    ensures r <= 0 <==> d <= 0
  {
    assert -d == m * ((-d) / m) + (-d) % m && 0 <= (-d) % m < m;
    -((-d) / m)
  }

  /** Java's `(int)` cast of an integral `double`: out-of-range values saturate. */
  function SaturateInt32(x: int): (r: int)
    ensures IsInt32(r)
    ensures IsInt32(x) ==> r == x
    ensures x >= TwoTo31 ==> r == TwoTo31 - 1
    ensures x < -TwoTo31 ==> r == -TwoTo31
  {
    if x >= TwoTo31 then TwoTo31 - 1 else if x < -TwoTo31 then -TwoTo31 else x
  }
}
