/** Real-number helpers and the transcendental functions that the game reaches through
    JavaScript's Math object. Numbers are modelled as reals; IEEE rounding, NaN and the
    infinities are not modelled. */
module Numerics {

  /** Math.sqrt, Math.sin, Math.cos, Math.atan2, Math.pow, Math.log2 and Math.PI. They are
      not computed here: every member that needs a fact about them takes the Math record as a
      parameter and states the law it relies on as a precondition. */
  datatype Math = Math(
    sqrt: real -> real,
    sin: real -> real,
    cos: real -> real,
    atan2: (real, real) -> real,
    pow: (real, real) -> real,
    log2: real -> real,
    pi: real)

  /** sqrt(x) is the non-negative square root of every non-negative x. */
  ghost predicate SqrtLaw(m: Math) {
    forall x: real :: 0.0 <= x ==> 0.0 <= m.sqrt(x) && m.sqrt(x) * m.sqrt(x) == x
  }

  /** sin^2 + cos^2 = 1 at every angle. */
  ghost predicate TrigLaw(m: Math) {
    forall a: real :: m.sin(a) * m.sin(a) + m.cos(a) * m.cos(a) == 1.0
  }

  /** A base in (0, 1] raised to a non-negative power stays in (0, 1]. */
  ghost predicate PowLaw(m: Math) {
    forall f: real, t: real :: 0.0 < f <= 1.0 && 0.0 <= t ==> 0.0 < m.pow(f, t) <= 1.0
  }

  /** log2 is monotone on the positive reals and log2(2) = 1. */
  ghost predicate Log2Law(m: Math) {
    && m.log2(2.0) == 1.0
    && forall a: real, b: real :: 0.0 < a <= b ==> m.log2(a) <= m.log2(b)
  }

  function Abs(a: real): (r: real)
    ensures 0.0 <= r && (r == a || r == -a)
  {
    if a < 0.0 then -a else a
  }

  function Min(a: real, b: real): (r: real)
    ensures r <= a && r <= b && (r == a || r == b)
  {
    if a <= b then a else b
  }

  function Max(a: real, b: real): (r: real)
    ensures a <= r && b <= r && (r == a || r == b)
  {
    if a >= b then a else b
  }

  /** Math.sign on the reals. */
  function Sign(a: real): (r: real)
    ensures r * Abs(a) == a
  {
    if a > 0.0 then 1.0 else if a < 0.0 then -1.0 else 0.0
  }

  /** JavaScript's `%` on numbers: the remainder of truncating division, which takes the
      sign of the dividend and has the magnitude |a| mod |b|. */
  function JsRemainder(a: real, b: real): (r: real)
    requires b != 0.0
    ensures Abs(r) < Abs(b)
    ensures a >= 0.0 ==> r >= 0.0
    ensures a <= 0.0 ==> r <= 0.0
  {
    var m := FloorMod(Abs(a), Abs(b));
    if a < 0.0 then -m else m
  }

  /** x mod y for non-negative x and positive y. */
  function FloorMod(x: real, y: real): (r: real)
    requires 0.0 <= x && 0.0 < y
    ensures 0.0 <= r < y
  {
    var q := x / y;
    var f := q - (q.Floor as real);
    assert 0.0 <= f < 1.0;
    assert x - y * (q.Floor as real) == y * f;
    x - y * (q.Floor as real)
  }

  /** The square root is determined by the law: any non-negative r with r * r == x is it. */
  lemma SqrtUnique(m: Math, x: real, r: real)
    requires SqrtLaw(m)
    requires 0.0 <= r && r * r == x
    ensures m.sqrt(x) == r
  {
    var s := m.sqrt(x);
    assert 0.0 <= s && s * s == x;
    ZeroProduct(s - r, s + r);
  }

  lemma SqrtOfSquare(m: Math, a: real)
    requires SqrtLaw(m)
    ensures m.sqrt(a * a) == Abs(a)
  {
    SqrtUnique(m, a * a, Abs(a));
  }

  lemma SqrtZero(m: Math, x: real)
    requires SqrtLaw(m) && 0.0 <= x
    ensures m.sqrt(x) == 0.0 <==> x == 0.0
  {
    if x == 0.0 {
      SqrtUnique(m, 0.0, 0.0);
    }
  }

  lemma SqrtMonotone(m: Math, x: real, y: real)
    requires SqrtLaw(m) && 0.0 <= x <= y
    ensures m.sqrt(x) <= m.sqrt(y)
  {
    var sx, sy := m.sqrt(x), m.sqrt(y);
    assert 0.0 <= sx && sx * sx == x;
    assert 0.0 <= sy && sy * sy == y;
    assert (sy - sx) * (sy + sx) == y - x;
    if sy + sx == 0.0 {
      assert sx == 0.0;
    } else {
      NonNegativeFactor(sy - sx, sy + sx);
    }
  }

  lemma DivMulCancel(a: real, s: real)
    requires s != 0.0
    ensures a * s / s == a && a / s * s == a
  {
  }

  lemma ZeroProduct(x: real, y: real)
    requires x * y == 0.0
    ensures x == 0.0 || y == 0.0
  {
  }

  lemma NonNegativeFactor(x: real, y: real)
    requires 0.0 < y && 0.0 <= x * y
    ensures 0.0 <= x
  {
  }

  lemma SquareLaw(a: real)
    ensures 0.0 <= a * a
    ensures a * a == 0.0 <==> a == 0.0
  {
    if a * a == 0.0 {
      ZeroProduct(a, a);
    }
  }

  lemma RatioInUnit(a: real, b: real)
    requires 0.0 < a < b
    ensures 0.0 < a / b < 1.0
  {
    var q := a / b;
    assert q * b == a;
    PositiveFactor(q, b);
    assert (1.0 - q) * b == b - a;
    PositiveFactor(1.0 - q, b);
  }

  lemma PositiveFactor(x: real, y: real)
    requires 0.0 < y && 0.0 < x * y
    ensures 0.0 < x
  {
  }

  /** A quotient of positive numbers is positive. */
  lemma PositiveQuotient(a: real, b: real)
    requires 0.0 < a && 0.0 < b
    ensures 0.0 < a / b
  {
    assert a / b * b == a;
    PositiveFactor(a / b, b);
  }

  /** Linear interpolation between a and b at t in [0, 1] stays in [a, b]. */
  lemma Lerp(a: real, b: real, t: real)
    requires a <= b && 0.0 <= t <= 1.0
    ensures a <= a + (b - a) * t <= b
  {
    assert 0.0 <= (b - a) * t by { MulNonNegative(b - a, t); }
    assert 0.0 <= (b - a) * (1.0 - t) by { MulNonNegative(b - a, 1.0 - t); }
  }

  lemma MulNonNegative(a: real, b: real)
    requires 0.0 <= a && 0.0 <= b
    ensures 0.0 <= a * b
  {
  }
}
