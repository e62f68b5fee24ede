/**
 * The JavaScript number operations the core uses, on exact integers and
 * reals: `Math.round`, `Math.floor`, and the truncating remainder `%`.
 */
module JsMath {

  /** `Math.round(a / b)` for a positive divisor: the nearest integer, halves rounded up. */
  function RoundedQuotient(a: int, b: int): (r: int)
    requires b > 0
    ensures 2 * b * r - b <= 2 * a < 2 * b * r + b
  {
    var q := (2 * a + b) / (2 * b);
    DivisionBounds(2 * a + b, 2 * b);
    q
  }

  /** Euclidean division by a positive divisor brackets the dividend. */
  lemma DivisionBounds(n: int, d: int)
    requires d > 0
    ensures d * (n / d) <= n < d * (n / d) + d
  {
    assert n == d * (n / d) + n % d;
  }

  /** `Math.round(x)` on a real: the nearest integer, halves rounded up. */
  function Round(x: real): (r: int)
    ensures r as real - 0.5 <= x < r as real + 0.5
  {
    (x + 0.5).Floor
  }

  /** `Math.floor(x)`. */
  function Floor(x: real): (r: int)
    ensures r as real <= x < r as real + 1.0
  {
    x.Floor
  }

  /** `Math.trunc(x)`: rounding toward zero. */
  function Trunc(x: real): (r: int)
    ensures x >= 0.0 ==> r == x.Floor
    ensures x < 0.0 ==> r == -((-x).Floor)
  {
    if x >= 0.0 then x.Floor else -((-x).Floor)
  }

  /** `x % m` on JavaScript numbers: the remainder of truncating division, with the sign of `x`. */
  function Rem(x: real, m: real): (r: real)
    requires m > 0.0
    ensures x >= 0.0 ==> 0.0 <= r < m
    ensures x == m * (Trunc(x / m) as real) + r
  {
    var r := x - m * (Trunc(x / m) as real);
    if x >= 0.0 then
      RemOfNonNegative(x, m);
      r
    else
      r
  }

  lemma RemOfNonNegative(x: real, m: real)
    requires m > 0.0 && x >= 0.0
    ensures 0.0 <= x - m * (Trunc(x / m) as real) < m
  {
    var y := x / m;
    var f := Trunc(y) as real;
    var d := y - f;
    assert 0.0 <= d < 1.0;
    FractionScaled(m, d);
    Distribute(m, y, f);
    assert m * y == x;
    assert x - m * f == m * d;
    assert m * d < m;
    assert x - m * f < m;
  }

  lemma FractionScaled(m: real, d: real)
    requires m > 0.0 && 0.0 <= d < 1.0
    ensures 0.0 <= m * d < m
  {
  }

  lemma Distribute(m: real, y: real, f: real)
    ensures m * y - m * f == m * (y - f)
  {
  }
}
