/**
  Small facts of real arithmetic used by the camber, thickness and offset proofs:
  signs and order of products and quotients, and cancellation of divisions.
 */
module RealArith {

  lemma MulNonNegative(a: real, b: real)
    requires 0.0 <= a && 0.0 <= b
    ensures 0.0 <= a * b
  {
  }

  lemma MulMonotone(c: real, a: real, b: real)
    requires 0.0 <= c && a <= b
    ensures c * a <= c * b
  {
    MulNonNegative(c, b - a);
  }

  lemma Square(a: real)
    ensures 0.0 <= a * a
  {
    if a < 0.0 {
      MulNonNegative(-a, -a);
      assert (-a) * (-a) == a * a;
    } else {
      MulNonNegative(a, a);
    }
  }

  lemma ScaleDiv(k: real, a: real, q: real)
    requires q != 0.0
    ensures k * a / q == k * (a / q)
  {
    assert (k * (a / q)) * q == k * a;
  }

  lemma DivLess(a: real, b: real, d: real)
    requires a < b && 0.0 < d
    ensures a / d < b / d
  {
    assert b / d - a / d == (b - a) / d;
  }

  lemma DivCancel(m: real, q: real)
    requires q != 0.0
    ensures (m / q / q) * (q * q) == m
  {
    var a := m / q;
    assert a * q == m;
    var c := a / q;
    assert c * q == a;
  }

  lemma DoubleDiv(m: real, q: real)
    requires q != 0.0
    ensures 2.0 * m / q / q == 2.0 * (m / q / q)
  {
    var a := m / q;
    ScaleDiv(2.0, m, q);
    assert 2.0 * m / q == 2.0 * a;
    ScaleDiv(2.0, a, q);
    assert (2.0 * a) / q == 2.0 * (a / q);
  }

  lemma MulPositive(a: real, b: real)
    requires 0.0 < a && 0.0 < b
    ensures 0.0 < a * b
  {
  }

  /** The square x = s * r of a positive number s (r being s again) is positive. */
  lemma PositiveSquare(x: real, s: real, r: real)
    requires 0.0 < s && s == r && s * r == x
    ensures 0.0 < x
  {
    MulPositive(s, r);
    PositiveEqual(s * r, x);
  }

  /** A value equal to a positive value is positive. */
  lemma PositiveEqual(y: real, x: real)
    requires 0.0 < y && y == x
    ensures 0.0 < x
  {
  }

  /** The only non-negative square root of 0 is 0. */
  lemma SquareZero(s: real)
    requires 0.0 <= s && s * s == 0.0
    ensures s == 0.0
  {
    if s != 0.0 {
      PositiveSquare(0.0, s, s);
    }
  }

  lemma MulAbove(a: real, b: real)
    requires 1.0 < a && 1.0 < b
    ensures 1.0 < a * b
  {
    MulPositive(a, b - 1.0);
    assert a * (b - 1.0) == a * b - a;
    assert a < a * b;
  }

  lemma MulBelow(a: real, b: real)
    requires 0.0 <= a < 1.0 && 0.0 <= b < 1.0
    ensures a * b < 1.0
  {
    MulNonNegative(1.0 - a, b);
    assert (1.0 - a) * b == b - a * b;
    assert a * b <= b;
  }

  /** A product of two equal non-negative factors is 1 only when both are 1. */
  lemma UnitProduct(x: real, s: real, r: real)
    requires 0.0 <= s && s == r && s * r == x
    ensures s < 1.0 ==> x < 1.0
    ensures 1.0 < s ==> 1.0 < x
  {
    if s < 1.0 {
      MulBelow(s, r);
    } else if 1.0 < s {
      MulAbove(s, r);
    }
  }

  /** The only non-negative square root of 1 is 1. */
  lemma SquareOne(s: real)
    requires 0.0 <= s && s * s == 1.0
    ensures s == 1.0
  {
    UnitProduct(1.0, s, s);
  }
}
