/** The float operations of the battery and disk blocks, on exact reals.

    Binary floating point is not modelled: every quantity is the exact
    real the Python expression denotes, and `round` rounds that real. */
module Numeric {

  /** `int(x)`: truncation toward zero. */
  function Trunc(x: real): (n: int)
    ensures x >= 0.0 ==> n == x.Floor
    ensures x >= 0.0 ==> n >= 0
    ensures x < 0.0 ==> x <= n as real < x + 1.0 && n <= 0
  {
    if x >= 0.0 then x.Floor else -((-x).Floor)
  }

  /** Python's `x % m` on floats for a positive modulus: the remainder
      takes the sign of `m`, so it always lies in [0, m). */
  function FloorMod(x: real, m: real): (r: real)
    requires m > 0.0
    ensures 0.0 <= r < m
    ensures r == x - m * (x / m).Floor as real
  {
    QuotientBounds(x, m);
    x - m * (x / m).Floor as real
  }

  /** Python 2's `round(x, places)`: the nearest multiple of 10^-places,
      halves rounded away from zero. */
  function RoundTo(x: real, places: nat): (r: real)
    ensures OnGrid(r, Scale(places))
    ensures -0.5 <= r * Scale(places) - x * Scale(places) <= 0.5
    ensures x >= 0.0 ==> r * Scale(places) - x * Scale(places) > -0.5
    ensures x < 0.0 ==> r * Scale(places) - x * Scale(places) < 0.5
    ensures x >= 0.0 ==> r >= 0.0
  {
    var scale := Scale(places);
    NonnegScaled(x, scale);
    var n := RoundHalfAway(x * scale, x >= 0.0);
    Rounded(x, scale, n);
    n as real / scale
  }

  /** The whole number `n` rounds `x * scale`; then `n / scale` rounds `x`
      to the grid of `scale`. */
  lemma Rounded(x: real, scale: real, n: int)
    requires scale >= 1.0
    requires -0.5 <= n as real - x * scale <= 0.5
    requires x >= 0.0 ==> -0.5 < n as real - x * scale && n >= 0
    requires x < 0.0 ==> n as real - x * scale < 0.5
    ensures var r := n as real / scale;
      && OnGrid(r, scale)
      && -0.5 <= r * scale - x * scale <= 0.5
      && (x >= 0.0 ==> r * scale - x * scale > -0.5)
      && (x < 0.0 ==> r * scale - x * scale < 0.5)
      && (x >= 0.0 ==> r >= 0.0)
  {
    Unscale(n, scale);
  }

  lemma NonnegScaled(x: real, scale: real)
    requires scale >= 1.0
    ensures x >= 0.0 ==> x * scale >= 0.0
  {}

  /** Dividing a whole number by the scale gives a point of the grid that
      scales back to the number. */
  lemma Unscale(n: int, scale: real)
    requires scale >= 1.0
    ensures OnGrid(n as real / scale, scale)
    ensures (n as real / scale) * scale == n as real
    ensures n >= 0 ==> n as real / scale >= 0.0
  {
    DivMul(n as real, scale);
    IntOnGrid(n, scale);
    DivNonneg(n as real, scale);
  }

  /** The integer nearest to `y`, a half going up when `up` and down otherwise. */
  function RoundHalfAway(y: real, up: bool): (n: int)
    ensures -0.5 <= n as real - y <= 0.5
    ensures up ==> -0.5 < n as real - y
    ensures !up ==> n as real - y < 0.5
    ensures up ==> n >= 0 || y < 0.0
  {
    if up then (y + 0.5).Floor else -(-y + 0.5).Floor
  }

  /** `r` has no digits beyond the precision `scale` stands for. */
  predicate OnGrid(r: real, scale: real) {
    (r * scale).Floor as real == r * scale
  }

  lemma IntOnGrid(n: int, scale: real)
    requires scale > 0.0
    ensures OnGrid(n as real / scale, scale)
  {
    DivMul(n as real, scale);
    assert (n as real).Floor == n;
  }

  lemma DivNonneg(x: real, m: real)
    requires m > 0.0
    ensures x >= 0.0 ==> x / m >= 0.0
  {}

  /** 10^places as a real. */
  function Scale(places: nat): (s: real)
    ensures s >= 1.0
  {
    if places == 0 then 1.0 else 10.0 * Scale(places - 1)
  }

  lemma MulMono(m: real, a: real, b: real)
    requires m > 0.0 && a <= b
    ensures m * a <= m * b
  {}

  lemma MulStrict(m: real, a: real, b: real)
    requires m > 0.0 && a < b
    ensures m * a < m * b
  {}

  lemma DivMul(x: real, m: real)
    requires m > 0.0
    ensures m * (x / m) == x && (x / m) * m == x
  {}

  lemma QuotientBounds(x: real, m: real)
    requires m > 0.0
    ensures var q := (x / m).Floor as real; m * q <= x < m * q + m
  {
    var q := (x / m).Floor as real;
    assert q <= x / m < q + 1.0;
    DivMul(x, m);
    MulMono(m, q, x / m);
    MulStrict(m, x / m, q + 1.0);
    assert m * (q + 1.0) == m * q + m;
    assert x < m * (q + 1.0);
  }

  /** Flooring and then dividing by a positive integer is flooring the quotient. */
  lemma FloorOfQuotient(x: real, n: int)
    requires n > 0
    ensures (x / n as real).Floor == x.Floor / n
  {
    var k := x.Floor;
    var q := k / n;
    assert n * q <= k < n * q + n;
    assert (n * q) as real <= x < (n * q + n) as real;
    DivMul(x, n as real);
    MulMono(1.0 / n as real, (n * q) as real, x);
    MulStrict(1.0 / n as real, x, (n * q + n) as real);
    assert q as real <= x / n as real < (q + 1) as real;
  }

  /** `int(x % 60)` of a float is the integer floor of `x`, reduced modulo 60. */
  lemma {:induction false} TruncFloorMod60(x: real)
    ensures Trunc(FloorMod(x, 60.0)) == x.Floor % 60
  {
    var q := (x / 60.0).Floor;
    FloorOfQuotient(x, 60);
    assert q == x.Floor / 60;
    var r := x - 60.0 * q as real;
    assert r.Floor == x.Floor - 60 * q;
    assert x.Floor % 60 == x.Floor - 60 * q;
  }
}
