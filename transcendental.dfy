/** The floating-point library calls of the CIEDE2000 formula (math.sqrt, sin, cos, exp,
    atan2 and the constant pi), and the exact powers it takes with math.pow. The library
    functions are not defined here: a caller passes them in as a `Math` value, and the
    only facts the proofs use about them are collected in `Lawful`. */
module Transcendental {

  /** The library functions the formula calls, as values. Angles are in radians. */
  datatype Math = Math(
    sqrt: real -> real,
    sin: real -> real,
    cos: real -> real,
    exp: real -> real,
    atan2: (real, real) -> real,
    pi: real)

  /** What the model assumes of the library: on the non-negative reals sqrt is the
      non-negative square root, with sqrt(0) = 0 (nothing is assumed of sqrt of a negative
      number, where math.sqrt raises); sin and cos stay in [-1, 1] and sin(0) = 0; atan2
      lands in [-pi, pi]. Real sine, cosine, square root and arc tangent satisfy all of it. */
  ghost predicate Lawful(m: Math) {
    && m.pi > 0.0
    && (forall x :: x >= 0.0 ==> m.sqrt(x) >= 0.0 && m.sqrt(x) * m.sqrt(x) == x)
    && m.sqrt(0.0) == 0.0
    && m.sin(0.0) == 0.0
    && (forall x :: -1.0 <= m.sin(x) <= 1.0)
    && (forall x :: -1.0 <= m.cos(x) <= 1.0)
    && (forall y, x :: -m.pi <= m.atan2(y, x) <= m.pi)
  }

  /** math.pow with a natural exponent, taken exactly. */
  function Pow(x: real, n: nat): (r: real)
    ensures x > 0.0 ==> r > 0.0
    ensures x >= 0.0 ==> r >= 0.0
    ensures x == 0.0 && n > 0 ==> r == 0.0
  {
    if n == 0 then 1.0 else x * Pow(x, n - 1)
  }

  /** A square, as `pow(x, 2)` computes it, is x times x and never negative. */
  lemma Square(x: real)
    ensures Pow(x, 2) == x * x
    ensures Pow(x, 2) >= 0.0
  {
    assert Pow(x, 1) == x;
  }

  /** The product of two non-negative reals is non-negative. */
  lemma MulNonNegative(x: real, y: real)
    requires x >= 0.0 && y >= 0.0
    ensures x * y >= 0.0
  {
  }

  /** math.degrees: radians to degrees. */
  function Degrees(m: Math, x: real): (d: real)
    requires m.pi > 0.0
    ensures -m.pi <= x <= m.pi ==> -180.0 <= d <= 180.0
  {
    var d := x * 180.0 / m.pi;
    assert d * m.pi == x * 180.0;
    d
  }

  /** math.radians: degrees to radians. */
  function Radians(m: Math, x: real): (r: real)
    requires m.pi > 0.0
    ensures x == 0.0 ==> r == 0.0
  {
    x * m.pi / 180.0
  }

  /** A square root of a positive number is positive. */
  lemma SqrtPositive(m: Math, x: real)
    requires Lawful(m) && x > 0.0
    ensures m.sqrt(x) > 0.0
  {
  }

  /** A square root of a number below one is below one. */
  lemma SqrtBelowOne(m: Math, x: real)
    requires Lawful(m) && 0.0 <= x < 1.0
    ensures 0.0 <= m.sqrt(x) < 1.0
  {
  }
}
