/**
  Half-thickness distribution of the 4- and 5-digit families. The square root of
  the chord position is an input: a root s of x with s >= 0 and s * s == x.
 */
module Thickness {
  import opened RealArith

  /** s is the non-negative square root of x. */
  predicate IsSqrt(x: real, s: real) {
    0.0 <= s && s * s == x
  }

  /** The five coefficients of the thickness polynomial. */
  datatype Coefficients = Coefficients(a0: real, a1: real, a2: real, a3: real, a4: real)

  /** The 4-digit coefficients; the last one leaves the trailing edge open. */
  const FourDigitCoefficients := Coefficients(0.2969, -0.1260, -0.3516, 0.2843, -0.1015)

  /** The 5-digit coefficients; the last one closes the trailing edge. */
  const FiveDigitCoefficients := Coefficients(0.2969, -0.1260, -0.3516, 0.2843, -0.1036)

  /** a0 sqrt(x) + a1 x + a2 x^2 + a3 x^3 + a4 x^4, with sqrt(x) given as s. */
  function Polynomial(a: Coefficients, x: real, s: real): real {
    a.a0 * s + a.a1 * x + a.a2 * (x * x) + a.a3 * (x * x * x) + a.a4 * (x * x * x * x)
  }

  /**
    The 4-digit half-thickness 5 t c (...) at x / c; the chord reference c is
    fixed at 1.0 for this family, so it drops out.
   */
  function HalfThickness4(t: real, x: real, s: real): real {
    5.0 * t * Polynomial(FourDigitCoefficients, x, s)
  }

  /** The 5-digit half-thickness 5 t (...) at x. */
  function HalfThickness5(t: real, x: real, s: real): real {
    5.0 * t * Polynomial(FiveDigitCoefficients, x, s)
  }

  /** The sum of the coefficients: the polynomial's value at x = 1. */
  function Closure(a: Coefficients): real {
    a.a0 + a.a1 + a.a2 + a.a3 + a.a4
  }

  // ---------------------------------------------------------------------
  // Edge values
  // ---------------------------------------------------------------------

  /** Both families have zero thickness at the leading edge. */
  lemma {:induction false} LeadingEdgeThickness(t: real, s: real)
    requires IsSqrt(0.0, s)
    ensures HalfThickness4(t, 0.0, s) == 0.0 && HalfThickness5(t, 0.0, s) == 0.0
  {
    SquareZero(s);
  }

  /**
    At the trailing edge the 5-digit section closes, while the 4-digit section
    keeps a half-thickness of 5 t times 0.0021.
   */
  lemma {:induction false} TrailingEdgeThickness(t: real, s: real)
    requires IsSqrt(1.0, s)
    ensures HalfThickness5(t, 1.0, s) == 0.0
    ensures HalfThickness4(t, 1.0, s) == 0.0105 * t
  {
    SquareOne(s);
    assert Polynomial(FourDigitCoefficients, 1.0, 1.0) == Closure(FourDigitCoefficients) == 0.0021;
    assert Polynomial(FiveDigitCoefficients, 1.0, 1.0) == Closure(FiveDigitCoefficients) == 0.0;
  }
}
