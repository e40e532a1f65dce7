/**
 * The transcendental functions and irrational constants that the rating code
 * takes from Python's `math` module and numpy. They are kept uninterpreted:
 * a `Transcendentals` value bundles one choice of them, and `Valid` lists the
 * few facts about them that the model relies on. Every property proved under
 * `Valid(t)` therefore holds for the real functions and for any other
 * functions sharing those facts.
 */
module RealMath {

  datatype Transcendentals = Transcendentals(
    sqrt: real -> real,     // math.sqrt and x ** 0.5
    sinDeg: real -> real,   // math.sin(math.radians(x))
    cosDeg: real -> real,   // math.cos(math.radians(x))
    asinDeg: real -> real,  // math.degrees(math.asin(x))
    pow15: real -> real,    // x ** 1.5
    pi: real,               // math.pi
    sqrt3: real,            // np.sqrt(3)
    cbrtPrandtl: real       // 0.7 ** (1/3), the Prandtl-number factor
  )

  ghost predicate Valid(t: Transcendentals) {
    && (forall x :: 0.0 <= x ==> 0.0 <= t.sqrt(x) && t.sqrt(x) * t.sqrt(x) == x)
    && (forall d :: -1.0 <= t.sinDeg(d) <= 1.0)
    && (forall d :: 0.0 < d <= 90.0 ==> 0.0 < t.sinDeg(d))
    && (forall d :: -1.0 <= t.cosDeg(d) <= 1.0)
    && (forall x :: -1.0 <= x <= 1.0 ==> -90.0 <= t.asinDeg(x) <= 90.0)
    && (forall x :: -1.0 <= x <= 0.0 ==> t.asinDeg(x) <= 0.0)
    && (forall x :: 0.0 < x ==> 0.0 < t.pow15(x))
    && 3.14 < t.pi < 3.15
    && 0.0 < t.sqrt3 && t.sqrt3 * t.sqrt3 == 3.0
    && 0.0 < t.cbrtPrandtl && t.cbrtPrandtl * t.cbrtPrandtl * t.cbrtPrandtl == 0.7
  }

  function Abs(x: real): (r: real)
    ensures r >= 0.0 && (r == x || r == -x)
  {
    if x < 0.0 then -x else x
  }

  function Max(a: real, b: real): (r: real)
    ensures r >= a && r >= b && (r == a || r == b)
  {
    if a >= b then a else b
  }

  function Min(a: real, b: real): (r: real)
    ensures r <= a && r <= b && (r == a || r == b)
  {
    if a <= b then a else b
  }

  /** Non-negative reals whose squares are ordered are ordered the same way. */
  lemma SquaresOrdered(x: real, y: real)
    requires 0.0 <= x && 0.0 <= y && x * x <= y * y
    ensures x <= y
  {
    if y < x {
      SquareStrictlyMonotone(y, x);
    }
  }

  /** Squaring is strictly monotone on the non-negative reals. */
  lemma SquareStrictlyMonotone(x: real, y: real)
    requires 0.0 <= x < y
    ensures x * x < y * y
  {
    var d := y - x;
    assert y * y == (x + d) * (x + d) == x * x + 2.0 * x * d + d * d;
    assert d * d > 0.0;
    assert x * d >= 0.0;
  }

  /** A positive cube root of 0.7 exceeds one half. */
  lemma CubeRootAboveHalf(c: real)
    requires 0.0 < c && c * c * c == 0.7
    ensures c > 0.5
  {
  }

  /** The square root of zero is zero. */
  lemma SqrtZero(t: Transcendentals)
    requires Valid(t)
    ensures t.sqrt(0.0) == 0.0
  {
    var s := t.sqrt(0.0);
    SquaresOrdered(s, 0.0);
  }

  /** The square root of one is one. */
  lemma SqrtOne(t: Transcendentals)
    requires Valid(t)
    ensures t.sqrt(1.0) == 1.0
  {
    var s := t.sqrt(1.0);
    SquaresOrdered(s, 1.0);
    SquaresOrdered(1.0, s);
  }

  /** The square root is monotone on the non-negative reals. */
  lemma SqrtMonotone(t: Transcendentals, a: real, b: real)
    requires Valid(t)
    requires 0.0 <= a <= b
    ensures t.sqrt(a) <= t.sqrt(b)
  {
    SquaresOrdered(t.sqrt(a), t.sqrt(b));
  }

  /** The Prandtl factor 0.7 ** (1/3) exceeds one half (it is about 0.888). */
  lemma CbrtPrandtlAboveHalf(t: Transcendentals)
    requires Valid(t)
    ensures t.cbrtPrandtl > 0.5
  {
    CubeRootAboveHalf(t.cbrtPrandtl);
  }

  /** The product of two positive reals is positive. */
  lemma ProductPositive(a: real, b: real)
    requires 0.0 < a && 0.0 < b
    ensures 0.0 < a * b
  {
  }

  /** The product of two non-negative reals is non-negative. */
  lemma ProductNonNegative(a: real, b: real)
    requires 0.0 <= a && 0.0 <= b
    ensures 0.0 <= a * b
  {
  }

  /** Multiplying by a non-negative factor preserves order. */
  lemma ProductNonPositive(a: real, b: real)
    requires 0.0 <= a && b <= 0.0
    ensures a * b <= 0.0
  {
    ProductNonNegative(a, -b);
    assert a * b == -(a * -b);
  }

  /** Scaling by a positive factor keeps a strict order. */
  lemma ScaleStrictlyMonotone(a: real, b: real, k: real)
    requires a < b && 0.0 < k
    ensures a * k < b * k
  {
    ProductPositive(b - a, k);
    assert b * k - a * k == (b - a) * k;
  }

  lemma ScaleMonotone(a: real, b: real, k: real)
    requires a <= b && 0.0 <= k
    ensures a * k <= b * k
  {
    ProductNonNegative(b - a, k);
    assert b * k - a * k == (b - a) * k;
  }

  /** The quotient of two positive reals is positive. */
  lemma QuotientPositive(a: real, b: real)
    requires 0.0 < a && 0.0 < b
    ensures 0.0 < a / b
  {
  }

  /** The product of two non-zero reals is non-zero. */
  lemma ProductNonZero(a: real, b: real)
    requires a != 0.0 && b != 0.0
    ensures a * b != 0.0
  {
  }

  /** Factors of at least one multiply to at least one, and to more than
      one when either factor is. */
  lemma ProductAtLeastOne(a: real, b: real)
    requires 1.0 <= a && 1.0 <= b
    ensures 1.0 <= a * b
    ensures 1.0 < a || 1.0 < b ==> 1.0 < a * b
  {
    ProductNonNegative(a - 1.0, b - 1.0);
    assert a * b == (a - 1.0) * (b - 1.0) + (a - 1.0) + (b - 1.0) + 1.0;
  }
}
