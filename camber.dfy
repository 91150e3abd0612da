/**
  Mean camber line height and slope at one chordwise position, for the 4-digit
  family (two parabolas meeting at p) and the 5-digit family (a cubic followed
  by a straight line). The formulas take the decoded parameters as plain reals.
 */
module Camber {
  import opened RealArith

  // ---------------------------------------------------------------------
  // 4-digit family
  //
  // The source divides x by its chord reference cl and compares x with cl * p;
  // cl is fixed at 1.0 for this family, so x stands for x / c throughout. The
  // source's division by p^2 is written as two divisions by p.
  // ---------------------------------------------------------------------

  /** The forward segment of the 4-digit mean line: `0 <= x <= cl * p`. */
  predicate InFront4(p: real, x: real) {
    0.0 <= x && x <= p
  }

  function FrontHeight4(m: real, p: real, x: real): real
    requires p != 0.0
  {
    m * (x / p / p) * (2.0 * p - x)
  }

  function RearHeight4(m: real, p: real, x: real): real
    requires p != 1.0
  {
    m * ((1.0 - x) / (1.0 - p) / (1.0 - p)) * (1.0 + x - 2.0 * p)
  }

  function FrontSlope4(m: real, p: real, x: real): real
    requires p != 0.0
  {
    2.0 * m / p / p * (p - x)
  }

  function RearSlope4(m: real, p: real, x: real): real
    requires p != 1.0
  {
    2.0 * m / (1.0 - p) / (1.0 - p) * (p - x)
  }

  /** Mean line height; a symmetric section (p = 0) has none. */
  function Height4(m: real, p: real, x: real): real
    requires p != 1.0
  {
    if p != 0.0 then
      if InFront4(p, x) then FrontHeight4(m, p, x) else RearHeight4(m, p, x)
    else
      0.0
  }

  /** Mean line slope dyc/dx; a symmetric section (p = 0) has none. */
  function Slope4(m: real, p: real, x: real): real
    requires p != 1.0
  {
    if p != 0.0 then
      if InFront4(p, x) then FrontSlope4(m, p, x) else RearSlope4(m, p, x)
    else
      0.0
  }

  /** The coefficient of the parabola in use at x (the negated h^2 term of a step). */
  function Curvature4(m: real, p: real, x: real): real
    requires p != 1.0
  {
    if p == 0.0 then 0.0
    else if InFront4(p, x) then m / p / p
    else m / (1.0 - p) / (1.0 - p)
  }

  /** Both 4-digit segments as c * (quadratic) with slope 2c(p - x). */
  lemma FrontForm4(m: real, p: real, x: real)
    requires p != 0.0
    ensures FrontHeight4(m, p, x) == (m / p / p) * (x * (2.0 * p - x))
    ensures FrontSlope4(m, p, x) == 2.0 * (m / p / p) * (p - x)
  {
  }

  lemma RearForm4(m: real, p: real, x: real)
    requires p != 1.0
    ensures RearHeight4(m, p, x) == (m / (1.0 - p) / (1.0 - p)) * ((1.0 - x) * (1.0 + x - 2.0 * p))
    ensures RearSlope4(m, p, x) == 2.0 * (m / (1.0 - p) / (1.0 - p)) * (p - x)
  {
    DoubleDiv(m, 1.0 - p);
  }

  /** A parabola c(a - x)(b + x) changes over a step h by h times its slope less c h^2. */
  lemma QuadraticStep(c: real, a: real, b: real, x: real, h: real)
    ensures c * ((a - (x + h)) * (b + (x + h))) - c * ((a - x) * (b + x))
      == h * (c * (a - b - 2.0 * x)) - c * h * h
  {
  }

  /** The change of a parabola with slope s and leading coefficient -c over a step h. */
  function ParabolaStep(h: real, s: real, c: real): real {
    h * s - c * h * h
  }

  /**
    Slope4 is the derivative of Height4: on either segment the height changes
    over a step h by exactly the slope times h less the parabola's h^2 term.
   */
  lemma FourDigitSlopeIsDerivative(m: real, p: real, x: real, h: real)
    requires p != 1.0
    requires InFront4(p, x) == InFront4(p, x + h)
    ensures Height4(m, p, x + h) - Height4(m, p, x) == ParabolaStep(h, Slope4(m, p, x), Curvature4(m, p, x))
  {
    if p != 0.0 {
      if InFront4(p, x) {
        FrontStep4(m, p, x, h);
      } else {
        RearStep4(m, p, x, h);
      }
    } else {
      assert ParabolaStep(h, 0.0, 0.0) == 0.0;
    }
  }

  lemma FrontStep4(m: real, p: real, x: real, h: real)
    requires p != 0.0
    ensures FrontHeight4(m, p, x + h) - FrontHeight4(m, p, x) == ParabolaStep(h, FrontSlope4(m, p, x), m / p / p)
  {
    var c := m / p / p;
    FrontForm4(m, p, x);
    FrontForm4(m, p, x + h);
    QuadraticStep(c, 2.0 * p, 0.0, x, h);
    assert x * (2.0 * p - x) == (2.0 * p - x) * (0.0 + x);
    assert (x + h) * (2.0 * p - (x + h)) == (2.0 * p - (x + h)) * (0.0 + (x + h));
    assert 2.0 * c * (p - x) == c * (2.0 * p - 0.0 - 2.0 * x);
  }

  lemma RearStep4(m: real, p: real, x: real, h: real)
    requires p != 1.0
    ensures RearHeight4(m, p, x + h) - RearHeight4(m, p, x) == ParabolaStep(h, RearSlope4(m, p, x), m / (1.0 - p) / (1.0 - p))
  {
    var c := m / (1.0 - p) / (1.0 - p);
    RearForm4(m, p, x);
    RearForm4(m, p, x + h);
    QuadraticStep(c, 1.0, 1.0 - 2.0 * p, x, h);
    assert (1.0 - x) * (1.0 + x - 2.0 * p) == (1.0 - x) * ((1.0 - 2.0 * p) + x);
    assert (1.0 - (x + h)) * (1.0 + (x + h) - 2.0 * p) == (1.0 - (x + h)) * ((1.0 - 2.0 * p) + (x + h));
    assert 2.0 * c * (p - x) == c * (1.0 - (1.0 - 2.0 * p) - 2.0 * x);
  }

  /** Both parabolas reach height m with zero slope at x = p, so the line is smooth there. */
  lemma FourDigitSegmentsMeet(m: real, p: real)
    requires 0.0 < p < 1.0
    ensures FrontHeight4(m, p, p) == RearHeight4(m, p, p) == m
    ensures FrontSlope4(m, p, p) == RearSlope4(m, p, p) == 0.0
  {
    FrontForm4(m, p, p);
    RearForm4(m, p, p);
    var q := 1.0 - p;
    assert (m / p / p) * (p * p) == m;
    assert (m / q / q) * (q * q) == m;
  }

  /**
    The mean line starts and ends on the chord and climbs to its maximum m at p:
    for non-negative m it stays between 0 and m over the whole chord.
   */
  lemma FourDigitCamberBounds(m: real, p: real, x: real)
    requires 0.0 < p < 1.0 && 0.0 <= m && 0.0 <= x <= 1.0
    ensures 0.0 <= Height4(m, p, x) <= m
    ensures Height4(m, p, p) == m && Height4(m, p, 0.0) == 0.0 && Height4(m, p, 1.0) == 0.0
  {
    FourDigitSegmentsMeet(m, p);
    FrontForm4(m, p, 0.0);
    RearForm4(m, p, 1.0);
    if InFront4(p, x) {
      FrontBounds4(m, p, x);
    } else {
      RearBounds4(m, p, x);
    }
  }

  lemma FrontBounds4(m: real, p: real, x: real)
    requires 0.0 < p && 0.0 <= m && InFront4(p, x)
    ensures 0.0 <= FrontHeight4(m, p, x) <= m
  {
    FrontForm4(m, p, x);
    SegmentBounds(m, p, x, 2.0 * p - x);
  }

  lemma RearBounds4(m: real, p: real, x: real)
    requires p < x <= 1.0 && p < 1.0 && 0.0 <= m
    ensures 0.0 <= RearHeight4(m, p, x) <= m
  {
    RearForm4(m, p, x);
    SegmentBounds(m, 1.0 - p, 1.0 - x, 1.0 + x - 2.0 * p);
  }

  /**
    On a segment of length q the quadratic u * v with u, v >= 0 and u + v == 2q
    lies between 0 and q^2, so c = m / q^2 scales it into [0, m].
   */
  lemma SegmentBounds(m: real, q: real, u: real, v: real)
    requires 0.0 < q && 0.0 <= m && 0.0 <= u && 0.0 <= v && u + v == 2.0 * q
    ensures 0.0 <= (m / q / q) * (u * v) <= m
  {
    DivCancel(m, q);
    var c := m / q / q;
    assert 0.0 <= c;
    MulNonNegative(u, v);
    Square(q - u);
    assert u * v == q * q - (q - u) * (q - u);
    MulNonNegative(c, u * v);
    MulMonotone(c, u * v, q * q);
  }

  // ---------------------------------------------------------------------
  // 5-digit family
  // ---------------------------------------------------------------------

  /** The design-lift scaling `cl / 0.3` applied to the tabulated mean line. */
  function LiftScale(cl: real): real {
    cl / 0.3
  }

  function FrontMeanLine5(m: real, k1: real, x: real): real {
    k1 / 6.0 * (x * x * x - 3.0 * m * (x * x) + (m * m) * (3.0 - m) * x)
  }

  function RearMeanLine5(m: real, k1: real, x: real): real {
    k1 / 6.0 * (m * m * m) * (1.0 - x)
  }

  function FrontSlope5(cl: real, m: real, k1: real, x: real): real {
    LiftScale(cl) * (1.0 / 6.0) * k1 * (3.0 * (x * x) - 6.0 * m * x + (m * m) * (3.0 - m))
  }

  /** The rear-segment slope as the source writes it: without the minus sign. */
  function RearSlopeAsWritten5(cl: real, m: real, k1: real): real {
    LiftScale(cl) * (1.0 / 6.0) * k1 * (m * m * m)
  }

  /** The rear-segment slope: the derivative of the straight rear segment. */
  function RearSlope5(cl: real, m: real, k1: real): real {
    -(LiftScale(cl) * (1.0 / 6.0) * k1 * (m * m * m))
  }

  /** Mean line height as the source computes it: segments switched at x <= p. */
  function HeightAsWritten5(cl: real, p: real, m: real, k1: real, x: real): real {
    LiftScale(cl) * (if x <= p then FrontMeanLine5(m, k1, x) else RearMeanLine5(m, k1, x))
  }

  /** Mean line slope as the source computes it: switched at x <= p, rear sign lost. */
  function SlopeAsWritten5(cl: real, p: real, m: real, k1: real, x: real): real {
    if x <= p then FrontSlope5(cl, m, k1, x) else RearSlopeAsWritten5(cl, m, k1)
  }

  /** Mean line height with the segments switched where they meet, at x = m. */
  function Height5(cl: real, m: real, k1: real, x: real): real {
    LiftScale(cl) * (if x <= m then FrontMeanLine5(m, k1, x) else RearMeanLine5(m, k1, x))
  }

  /** Mean line slope, switched at x = m, with the rear segment's negative slope. */
  function Slope5(cl: real, m: real, k1: real, x: real): real {
    if x <= m then FrontSlope5(cl, m, k1, x) else RearSlope5(cl, m, k1)
  }

  /**
    Slope5 is the derivative of Height5 along the cubic: the height changes over
    a step h by the slope times h plus the cubic's h^2 and h^3 terms.
   */
  lemma FiveDigitFrontSlopeIsDerivative(cl: real, m: real, k1: real, x: real, h: real)
    requires x <= m && x + h <= m
    ensures Height5(cl, m, k1, x + h) - Height5(cl, m, k1, x)
      == h * Slope5(cl, m, k1, x) + LiftScale(cl) * (k1 / 6.0) * (3.0 * (x - m) * (h * h) + h * h * h)
  {
    FrontStep5(cl, m, k1, x, h);
    EqualEndpointsStep(Height5(cl, m, k1, x + h), Height5(cl, m, k1, x), Slope5(cl, m, k1, x),
      LiftScale(cl) * FrontMeanLine5(m, k1, x + h), LiftScale(cl) * FrontMeanLine5(m, k1, x),
      FrontSlope5(cl, m, k1, x), h, LiftScale(cl) * (k1 / 6.0) * (3.0 * (x - m) * (h * h) + h * h * h));
  }

  /**
    A step identity b1 - b0 == h * sb + e carries over to heights a1, a0 and a
    slope sa equal to b1, b0 and sb.
   */
  lemma EqualEndpointsStep(a1: real, a0: real, sa: real, b1: real, b0: real, sb: real, h: real, e: real)
    requires a1 == b1 && a0 == b0 && sa == sb && b1 - b0 == h * sb + e
    ensures a1 - a0 == h * sa + e
  {
  }

  /** Along the straight rear segment the height changes by exactly the slope times h. */
  lemma FiveDigitRearSlopeIsDerivative(cl: real, m: real, k1: real, x: real, h: real)
    requires m < x && m < x + h
    ensures Height5(cl, m, k1, x + h) - Height5(cl, m, k1, x) == h * Slope5(cl, m, k1, x)
  {
    RearStep5(cl, m, k1, x, h);
  }

  lemma FrontStep5(cl: real, m: real, k1: real, x: real, h: real)
    ensures LiftScale(cl) * FrontMeanLine5(m, k1, x + h) - LiftScale(cl) * FrontMeanLine5(m, k1, x)
      == h * FrontSlope5(cl, m, k1, x) + LiftScale(cl) * (k1 / 6.0) * (3.0 * (x - m) * (h * h) + h * h * h)
  {
    var s := LiftScale(cl);
    var c := k1 / 6.0;
    CubicStep(s, c, m, x, h);
    assert FrontSlope5(cl, m, k1, x) == s * c * (3.0 * (x * x) - 6.0 * m * x + (m * m) * (3.0 - m));
  }

  lemma RearStep5(cl: real, m: real, k1: real, x: real, h: real)
    ensures LiftScale(cl) * RearMeanLine5(m, k1, x + h) - LiftScale(cl) * RearMeanLine5(m, k1, x)
      == h * RearSlope5(cl, m, k1)
  {
  }

  /** The cubic x^3 - 3m x^2 + m^2(3 - m) x over a step h, scaled by s * c. */
  lemma CubicStep(s: real, c: real, m: real, x: real, h: real)
    ensures s * (c * ((x + h) * (x + h) * (x + h) - 3.0 * m * ((x + h) * (x + h)) + (m * m) * (3.0 - m) * (x + h)))
      - s * (c * (x * x * x - 3.0 * m * (x * x) + (m * m) * (3.0 - m) * x))
      == h * (s * c * (3.0 * (x * x) - 6.0 * m * x + (m * m) * (3.0 - m)))
        + s * c * (3.0 * (x - m) * (h * h) + h * h * h)
  {
  }

  /** The cubic and the straight segment meet at x = m with equal height and slope. */
  lemma FiveDigitSegmentsMeet(cl: real, m: real, k1: real)
    ensures FrontMeanLine5(m, k1, m) == RearMeanLine5(m, k1, m)
    ensures FrontSlope5(cl, m, k1, m) == RearSlope5(cl, m, k1)
  {
  }

  /**
    Along the straight rear segment the as-written slope has the opposite sign to
    the change in height: the height falls by the slope times h, it does not rise.
   */
  lemma AsWrittenRearSlopeSign(cl: real, p: real, m: real, k1: real, x: real, h: real)
    requires p < x && p < x + h
    ensures HeightAsWritten5(cl, p, m, k1, x + h) - HeightAsWritten5(cl, p, m, k1, x)
      == -(h * SlopeAsWritten5(cl, p, m, k1, x))
    ensures h != 0.0 && SlopeAsWritten5(cl, p, m, k1, x) != 0.0 ==>
      HeightAsWritten5(cl, p, m, k1, x + h) - HeightAsWritten5(cl, p, m, k1, x)
        != h * SlopeAsWritten5(cl, p, m, k1, x)
  {
  }
}
