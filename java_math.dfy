/**
 * The parts of java.lang.Math and of Java's floating-point operators that the
 * globe viewer relies on, stated over exact reals.
 *
 * Floats become `real`. Rounding (`Math.round`) and the remainder operator `%`
 * are written out explicitly, because they are exactly where integer-valued
 * behaviour enters the model. The transcendental functions are not defined
 * here: they are carried by a `MathLib` value, and `Sound` lists the only facts
 * about them that the proofs use.
 */
module JavaMath {

  /** `Math.PI`: the double nearest to pi, written as the exact rational it is. */
  const PI: real := 884279719003555.0 / 281474976710656.0

  function Abs(x: real): (r: real)
    ensures r >= 0.0 && (r == x || r == -x)
  {
    if x < 0.0 then -x else x
  }

  function Min(a: real, b: real): (r: real)
    ensures r <= a && r <= b && (r == a || r == b)
  {
    if a <= b then a else b
  }

  function Max(a: real, b: real): (r: real)
    ensures r >= a && r >= b && (r == a || r == b)
  {
    if a >= b then a else b
  }

  /** `Math.round`: the nearest integer, a tie going up (that is, floor(x + 1/2)). */
  function Round(x: real): (n: int)
    ensures x - 0.5 < n as real <= x + 0.5
  {
    (x + 0.5).Floor
  }

  /** Truncation toward zero, the quotient Java's `%` is built on. */
  function Trunc(x: real): (n: int)
    ensures Abs(n as real) <= Abs(x) < Abs(n as real) + 1.0
    ensures x >= 0.0 ==> n >= 0
    ensures x < 0.0 ==> n <= 0
  {
    if x >= 0.0 then x.Floor else -((-x).Floor)
  }

  /** `x` is a whole number of `b`s. */
  predicate IsMultiple(x: real, b: real)
    requires b != 0.0
  {
    (x / b).Floor as real == x / b
  }

  /** `x` is a whole number of hundredths. */
  predicate IsHundredth(x: real)
  {
    (x * 100.0).Floor as real == x * 100.0
  }

  /** From `q <= x / b < q + 1` with `b > 0` conclude `b * q <= x < b * q + b`. */
  lemma ScaleQuotient(x: real, b: real, q: real)
    requires b > 0.0
    requires q <= x / b < q + 1.0
    ensures b * q <= x < b * q + b
  {
    var y := x / b;
    assert b * y == x;
    var gap := q + 1.0 - y;
    assert gap > 0.0;
    var above := b * gap;
    assert above > 0.0;
    assert above == b * q + b - b * y;
  }

  lemma WholeQuotient(b: real, q: int)
    requires b > 0.0
    ensures IsMultiple(b * q as real, b)
  {
    assert (b * q as real) / b == q as real;
  }

  /** With `q` the floor of `a / b`, `a - b * q` lies in [0, b). */
  lemma RemainderOfFloor(a: real, b: real, q: int)
    requires b > 0.0
    requires q as real <= a / b < q as real + 1.0
    ensures 0.0 <= a - b * q as real < b
  {
    ScaleQuotient(a, b, q as real);
  }

  /** With `q` the ceiling of `a / b`, `a - b * q` lies in (-b, 0]. */
  lemma RemainderOfCeiling(a: real, b: real, q: int)
    requires b > 0.0
    requires q as real - 1.0 < a / b <= q as real
    ensures -b < a - b * q as real <= 0.0
  {
    assert -a / b == -(a / b);
    ScaleQuotient(-a, b, -q as real);
  }

  /**
   * Java's floating-point remainder `a % b` for a positive divisor:
   * `a - b * q` where `q` is `a / b` truncated toward zero, so the result
   * carries the sign of the dividend and is smaller than `b` in magnitude.
   */
  function JavaRem(a: real, b: real): (r: real)
    requires b > 0.0
    ensures 0.0 <= a ==> 0.0 <= r < b
    ensures a < 0.0 ==> -b < r <= 0.0
    ensures IsMultiple(a - r, b)
  {
    var q := Trunc(a / b);
    WholeQuotient(b, q);
    assert a - (a - b * q as real) == b * q as real;
    if a >= 0.0 then
      RemainderOfFloor(a, b, q);
      a - b * q as real
    else
      assert a / b < 0.0;
      RemainderOfCeiling(a, b, q);
      a - b * q as real
  }

  /** Taking one `b` away from a whole number of `b`s leaves a whole number of `b`s. */
  lemma OneLess(x: real, b: real)
    requires b > 0.0
    requires IsMultiple(x, b)
    ensures IsMultiple(x - b, b)
  {
    var q := x / b;
    var z := (x - b) / b;
    assert b * q == x && b * z == x - b;
    var gap := z - (q - 1.0);
    assert b * gap == 0.0;
    assert gap == 0.0;
    assert (q - 1.0).Floor == q.Floor - 1;
  }

  /** The Java remainder is the identity on `[0, b)`. */
  lemma {:induction false} JavaRemOnRange(a: real, b: real)
    requires b > 0.0 && 0.0 <= a < b
    ensures JavaRem(a, b) == a
  {
    var y := a / b;
    assert b * y == a;
    if y >= 1.0 {
      assert false;
    }
    assert Trunc(y) == 0;
  }

  /** Multiplying by a positive number keeps order. */
  lemma ScaleLe(x: real, y: real, k: real)
    requires k > 0.0
    ensures x <= y <==> x * k <= y * k
  {
    var d := y - x;
    assert d * k == y * k - x * k;
    if d >= 0.0 {
      assert d * k >= 0.0;
    } else {
      assert d * k < 0.0;
    }
  }

  lemma ScaleLt(x: real, y: real, k: real)
    requires k > 0.0
    ensures x < y <==> x * k < y * k
  {
    ScaleLe(y, x, k);
  }

  /** Between non-negative numbers, squaring keeps order. */
  lemma SquareLe(a: real, b: real)
    requires a >= 0.0 && b >= 0.0
    ensures a * a <= b * b <==> a <= b
  {
    assert (a - b) * (a + b) == a * a - b * b;
    if a + b != 0.0 {
      ScaleLe(a - b, 0.0, a + b);
    }
  }

  /**
   * java.lang.Math as the model sees it: the functions the viewer calls. Their
   * values are not modelled; `Sound` states what the proofs assume of them.
   */
  datatype MathLib = MathLib(
    sin: real -> real,
    cos: real -> real,
    sqrt: real -> real,
    asin: real -> real)

  /** The facts about sine, cosine, square root and arc sine that the proofs use. */
  ghost predicate Sound(m: MathLib)
  {
    && (forall x :: m.sin(x) * m.sin(x) + m.cos(x) * m.cos(x) == 1.0)
    && (forall x :: x >= 0.0 ==> m.sqrt(x) >= 0.0 && m.sqrt(x) * m.sqrt(x) == x)
    && m.sqrt(0.0) == 0.0
    && (forall x :: -1.0 <= x <= 1.0 ==> -PI / 2.0 <= m.asin(x) <= PI / 2.0)
    && m.asin(1.0) == PI / 2.0
    && m.asin(-1.0) == -PI / 2.0
  }

  /** Degrees to radians, as `angle * Math.PI / 180` in the source. */
  function Radians(degrees: real): (r: real)
    ensures r * 180.0 == degrees * PI
  {
    degrees * PI / 180.0
  }
}
