/**
  The airfoil objects: construction of a 4-digit or 5-digit section from its
  designation (range check, sample positions, parameter decoding, table lookup)
  and the points pipeline that turns a section into its closed outline.

  The per-sample square roots and the sine and cosine of the mean-line angle
  are inputs of the points pipeline (see Thickness.IsSqrt and Outline.IsAtanTrig).
 */
module Naca {
  import opened Wrappers
  import opened Designation
  import opened Spacing
  import opened Camber
  import opened Thickness
  import opened Outline

  /** Why construction fails, in the order the constructors check. */
  datatype Error =
    | OutOfRange          // the designation is not in 0..99999
    | NegativePointCount  // the sample count is negative
    | NoMeanLineData      // no tabulated 5-digit mean line for the identifier

  /** The decoded parameters of either family. */
  datatype Section = Four(four: FourDigit) | Five(five: FiveDigit)

  /** A constructed airfoil: its designation, decoded section and chordwise samples. */
  datatype Airfoil = Airfoil(number: int, section: Section, xs: seq<real>)

  /** The closed outline: x and y coordinates. */
  datatype Contour = Contour(xs: seq<real>, ys: seq<real>)

  /** The section is the one the designation decodes to. */
  predicate Valid(a: Airfoil) {
    InRange(a.number) &&
    match a.section
    case Four(d) => d == DecodeFourDigit(a.number)
    case Five(d) =>
      Identifier(a.number) in SupportedIdentifiers &&
      d == DecodeFiveDigit(a.number, MeanLineTable[Identifier(a.number)])
  }

  // ---------------------------------------------------------------------
  // Construction
  // ---------------------------------------------------------------------

  /** The checks of the base constructor, in order: range first, then the sample count. */
  function BaseCheck(number: int, numPoints: int): (e: Option<Error>)
    ensures e == None <==> InRange(number) && 0 <= numPoints
    ensures !InRange(number) ==> e == Some(OutOfRange)
    ensures InRange(number) && numPoints < 0 ==> e == Some(NegativePointCount)
  {
    if !InRange(number) then Some(OutOfRange)
    else if numPoints < 0 then Some(NegativePointCount)
    else None
  }

  /**
    The chordwise samples: uniform, or half-cosine from the supplied cosines
    cos(pi/2 * u_i) of the uniform positions.
   */
  function Samples(numPoints: nat, halfCosine: bool, quarterCos: seq<real>): (xs: seq<real>)
    requires halfCosine ==> |quarterCos| == numPoints
    ensures |xs| == numPoints
    ensures !halfCosine ==> StrictlyIncreasing(xs) && (numPoints >= 1 ==> xs[0] == 0.0)
    ensures !halfCosine && numPoints >= 2 ==> xs[numPoints - 1] == 1.0
    ensures halfCosine ==> forall i :: 0 <= i < numPoints ==> xs[i] == 1.0 - quarterCos[i]
  {
    if halfCosine then
      HalfCosine(quarterCos)
    else
      UniformIncreasing(numPoints);
      Uniform(numPoints)
  }

  /** A 4-digit airfoil; the designation is decoded by digit arithmetic. */
  function NewNaca4(number: int, numPoints: int, halfCosine: bool, quarterCos: seq<real>): (r: Result<Airfoil, Error>)
    requires halfCosine && 0 <= numPoints ==> |quarterCos| == numPoints
    ensures r.Ok? <==> InRange(number) && 0 <= numPoints
    ensures !InRange(number) ==> r == Err(OutOfRange)
    ensures InRange(number) && numPoints < 0 ==> r == Err(NegativePointCount)
    ensures r.Ok? ==> Valid(r.value) && r.value.number == number && r.value.section.Four?
    ensures r.Ok? ==> r.value.xs == Samples(numPoints, halfCosine, quarterCos)
  {
    match BaseCheck(number, numPoints)
    case Some(e) => Err(e)
    case None => Ok(Airfoil(number, Four(DecodeFourDigit(number)), Samples(numPoints, halfCosine, quarterCos)))
  }

  /**
    A 5-digit airfoil. After the base checks, the identifier (the first three
    digits) must have a tabulated mean line; the fields come from the decimal
    string of the designation.
   */
  function NewNaca5(number: int, numPoints: int, halfCosine: bool, quarterCos: seq<real>): (r: Result<Airfoil, Error>)
    requires halfCosine && 0 <= numPoints ==> |quarterCos| == numPoints
    ensures r.Ok? <==> InRange(number) && 0 <= numPoints && number / 100 in SupportedIdentifiers
    ensures !InRange(number) ==> r == Err(OutOfRange)
    ensures InRange(number) && numPoints < 0 ==> r == Err(NegativePointCount)
    ensures InRange(number) && 0 <= numPoints && number / 100 !in SupportedIdentifiers ==> r == Err(NoMeanLineData)
    ensures r.Ok? ==> Valid(r.value) && r.value.number == number && r.value.section.Five?
    ensures r.Ok? ==> r.value.xs == Samples(numPoints, halfCosine, quarterCos)
  {
    match BaseCheck(number, numPoints)
    case Some(e) => Err(e)
    case None =>
      match LookupMeanLine(Identifier(number))
      case None => Err(NoMeanLineData)
      case Some(line) =>
        Ok(Airfoil(number, Five(DecodeFiveDigit(number, line)), Samples(numPoints, halfCosine, quarterCos)))
  }

  /**
    A 5-digit airfoil built from an integer designation is always cambered, so
    it never takes the p == 0 path.
   */
  lemma {:induction false} FiveDigitNeverSymmetric(a: Airfoil)
    requires Valid(a) && a.section.Five?
    ensures 0.05 <= a.section.five.p <= 0.255 && a.section.five.cl == 0.3
    ensures 0.0 < a.section.five.m < 0.5 && 0.0 < a.section.five.k1
    ensures a.section.five.p < a.section.five.m
  {
    var line := MeanLineTable[Identifier(a.number)];
    SupportedFiveDigit(a.number, line);
    PositionBeforeJoin(a.number);
    assert LookupMeanLine(Identifier(a.number)) == Some(line);
  }

  // ---------------------------------------------------------------------
  // Per-sample camber, slope and thickness
  // ---------------------------------------------------------------------

  /** Every decoded section can be evaluated (the 4-digit rear parabola needs p != 1). */
  predicate Computable(s: Section) {
    s.Four? ==> s.four.p != 1.0
  }

  lemma ValidComputable(a: Airfoil)
    requires Valid(a)
    ensures Computable(a.section)
  {
  }

  /**
    Mean-line height at x as the source computes it; for the 5-digit family this
    is the as-written curve, switched at x <= p.
   */
  function CamberAt(s: Section, x: real): real
    requires Computable(s)
  {
    match s
    case Four(d) => Height4(d.m, d.p, x)
    case Five(d) => HeightAsWritten5(d.cl, d.p, d.m, d.k1, x)
  }

  /**
    Mean-line slope at x as the source computes it; for the 5-digit family this
    is the as-written slope, switched at x <= p and positive behind p.
   */
  function SlopeAt(s: Section, x: real): real
    requires Computable(s)
  {
    match s
    case Four(d) => Slope4(d.m, d.p, x)
    case Five(d) => SlopeAsWritten5(d.cl, d.p, d.m, d.k1, x)
  }

  /**
    The as-written 5-digit mean line used by the outline agrees with the corrected
    one in front of p (both use the cubic there) and in height behind m (both use
    the line there), where the as-written slope has the opposite sign.
   */
  lemma {:induction false} FiveDigitAsWrittenAgrees(a: Airfoil, x: real)
    requires Valid(a) && a.section.Five?
    ensures var d := a.section.five;
      x <= d.p ==> CamberAt(a.section, x) == Height5(d.cl, d.m, d.k1, x) && SlopeAt(a.section, x) == Slope5(d.cl, d.m, d.k1, x)
    ensures var d := a.section.five;
      d.m < x ==> CamberAt(a.section, x) == Height5(d.cl, d.m, d.k1, x) && SlopeAt(a.section, x) == -Slope5(d.cl, d.m, d.k1, x)
  {
    FiveDigitNeverSymmetric(a);
  }

  function ThicknessAt(s: Section, x: real, root: real): real {
    match s
    case Four(d) => HalfThickness4(d.t, x, root)
    case Five(d) => HalfThickness5(d.t, x, root)
  }

  /** The 5-digit branch that skips the mean line; after construction it is never taken. */
  predicate FlatFiveDigit(s: Section) {
    s.Five? && s.five.p == 0.0
  }

  function Thicknesses(a: Airfoil, roots: seq<real>): (yt: seq<real>)
    requires |roots| == |a.xs|
    ensures |yt| == |a.xs|
    ensures forall i :: 0 <= i < |a.xs| ==> yt[i] == ThicknessAt(a.section, a.xs[i], roots[i])
  {
    seq(|a.xs|, i requires 0 <= i < |a.xs| => ThicknessAt(a.section, a.xs[i], roots[i]))
  }

  function Cambers(a: Airfoil): (yc: seq<real>)
    requires Computable(a.section)
    ensures |yc| == |a.xs|
    ensures forall i :: 0 <= i < |a.xs| ==> yc[i] == CamberAt(a.section, a.xs[i])
  {
    seq(|a.xs|, i requires 0 <= i < |a.xs| => CamberAt(a.section, a.xs[i]))
  }

  function Negate(s: seq<real>): (r: seq<real>)
    ensures Negated(s, r)
  {
    seq(|s|, i requires 0 <= i < |s| => -s[i])
  }

  /** The two surfaces before assembly. */
  function SurfacesOf(a: Airfoil, roots: seq<real>, sinT: seq<real>, cosT: seq<real>): (s: Surfaces)
    requires Computable(a.section) && |roots| == |a.xs| && |sinT| == |a.xs| && |cosT| == |a.xs|
    ensures |s.xUpper| == |s.yUpper| == |s.xLower| == |s.yLower| == |a.xs|
  {
    var yt := Thicknesses(a, roots);
    if FlatFiveDigit(a.section) then
      Surfaces(a.xs, yt, a.xs, Negate(yt))
    else
      Offset(a.xs, Cambers(a), yt, sinT, cosT)
  }

  /**
    The outline of the airfoil: the upper surface from trailing edge to leading
    edge followed by the lower surface without its leading-edge point; 2n - 1
    points for n samples. Point i < n is upper sample n - 1 - i, and point
    i >= n is lower sample i - (n - 1).
   */
  function Points(a: Airfoil, roots: seq<real>, sinT: seq<real>, cosT: seq<real>): (c: Contour)
    requires Computable(a.section) && |roots| == |a.xs| && |sinT| == |a.xs| && |cosT| == |a.xs|
    ensures |c.xs| == |c.ys| == if |a.xs| == 0 then 0 else 2 * |a.xs| - 1
    ensures var n := |a.xs|; var s := SurfacesOf(a, roots, sinT, cosT);
      (forall i :: 0 <= i < n ==> c.xs[i] == s.xUpper[n - 1 - i] && c.ys[i] == s.yUpper[n - 1 - i]) &&
      (forall i :: n <= i < 2 * n - 1 ==> c.xs[i] == s.xLower[i - (n - 1)] && c.ys[i] == s.yLower[i - (n - 1)])
  {
    var s := SurfacesOf(a, roots, sinT, cosT);
    var c := Contour(Assemble(s.xUpper, s.xLower), Assemble(s.yUpper, s.yLower));
    AssembleLayout(s, c.xs, c.ys);
    c
  }

  /** The transcendental inputs are the true values: square roots and atan trig for every sample. */
  predicate TrueInputs(a: Airfoil, roots: seq<real>, sinT: seq<real>, cosT: seq<real>)
    requires Computable(a.section)
  {
    |roots| == |a.xs| && |sinT| == |a.xs| && |cosT| == |a.xs| &&
    forall i :: 0 <= i < |a.xs| ==>
      IsSqrt(a.xs[i], roots[i]) && IsAtanTrig(SlopeAt(a.section, a.xs[i]), sinT[i], cosT[i])
  }

  // ---------------------------------------------------------------------
  // Properties of the outline
  // ---------------------------------------------------------------------

  /**
    For n >= 1 samples the outline has 2n - 1 points (399 for the default 200),
    and the leading-edge point at index n - 1 is the first upper-surface point.
   */
  lemma {:induction false} PointCount(a: Airfoil, roots: seq<real>, sinT: seq<real>, cosT: seq<real>)
    requires Computable(a.section) && |roots| == |a.xs| && |sinT| == |a.xs| && |cosT| == |a.xs| && 1 <= |a.xs|
    ensures |Points(a, roots, sinT, cosT).xs| == 2 * |a.xs| - 1
    ensures Points(a, roots, sinT, cosT).xs[|a.xs| - 1] == SurfacesOf(a, roots, sinT, cosT).xUpper[0]
    ensures Points(a, roots, sinT, cosT).ys[|a.xs| - 1] == SurfacesOf(a, roots, sinT, cosT).yUpper[0]
  {
    assert |a.xs| - 1 - 0 == |a.xs| - 1;
  }

  /**
    The outline wraps the mean line: the upper and lower points of the same
    sample, mirrored about the leading-edge index, average to the mean-line point.
   */
  lemma {:induction false} PointsAroundMeanLine(a: Airfoil, roots: seq<real>, sinT: seq<real>, cosT: seq<real>, j: int)
    requires Computable(a.section) && |roots| == |a.xs| && |sinT| == |a.xs| && |cosT| == |a.xs|
    requires !FlatFiveDigit(a.section) && 1 <= j < |a.xs|
    ensures var n := |a.xs|; var c := Points(a, roots, sinT, cosT);
      (c.xs[n - 1 - j] + c.xs[n - 1 + j]) / 2.0 == a.xs[j] &&
      (c.ys[n - 1 - j] + c.ys[n - 1 + j]) / 2.0 == CamberAt(a.section, a.xs[j])
  {
    OffsetMidpoint(a.xs, Cambers(a), Thicknesses(a, roots), sinT, cosT, j);
  }

  /** Mirror symmetry of the outline about the chord (the leading-edge point excepted). */
  predicate MirrorSymmetric(c: Contour, n: int)
    requires |c.xs| == |c.ys| == 2 * n - 1
  {
    forall i :: 0 <= i < 2 * n - 1 && i != n - 1 ==> c.xs[i] == c.xs[2 * n - 2 - i] && c.ys[i] == -c.ys[2 * n - 2 - i]
  }

  /**
    With p = 0 the 4-digit mean line is flat with zero slope, so with the true
    angle inputs the surfaces sit straight above and below the chord.
   */
  lemma {:induction false} FlatFourDigitSurfaces(a: Airfoil, roots: seq<real>, sinT: seq<real>, cosT: seq<real>)
    requires a.section.Four? && a.section.four.p == 0.0
    requires TrueInputs(a, roots, sinT, cosT)
    ensures var s := SurfacesOf(a, roots, sinT, cosT); var yt := Thicknesses(a, roots);
      s.xUpper == a.xs && s.xLower == a.xs && s.yUpper == yt && Negated(s.yUpper, s.yLower)
  {
    var yc := Cambers(a);
    var yt := Thicknesses(a, roots);
    forall i | 0 <= i < |a.xs|
      ensures IsAtanTrig(0.0, sinT[i], cosT[i]) && yc[i] == 0.0
    {
      assert SlopeAt(a.section, a.xs[i]) == 0.0;
    }
    OffsetFlat(a.xs, yc, yt, sinT, cosT);
    var s := SurfacesOf(a, roots, sinT, cosT);
    assert s.yUpper == yt;
  }

  /** A symmetric 4-digit section (p = 0) gives an outline that mirrors itself about the chord. */
  lemma {:induction false} SymmetricFourDigit(a: Airfoil, roots: seq<real>, sinT: seq<real>, cosT: seq<real>)
    requires a.section.Four? && a.section.four.p == 0.0 && 1 <= |a.xs|
    requires TrueInputs(a, roots, sinT, cosT)
    ensures MirrorSymmetric(Points(a, roots, sinT, cosT), |a.xs|)
  {
    FlatFourDigitSurfaces(a, roots, sinT, cosT);
    var s := SurfacesOf(a, roots, sinT, cosT);
    AssembleMirror(s.xUpper, s.yUpper, s.xLower, s.yLower);
  }

  /** The 5-digit p = 0 branch builds mirrored surfaces directly. */
  lemma {:induction false} SymmetricFiveDigitPath(a: Airfoil, roots: seq<real>, sinT: seq<real>, cosT: seq<real>)
    requires FlatFiveDigit(a.section) && 1 <= |a.xs|
    requires |roots| == |a.xs| && |sinT| == |a.xs| && |cosT| == |a.xs|
    ensures MirrorSymmetric(Points(a, roots, sinT, cosT), |a.xs|)
  {
    var s := SurfacesOf(a, roots, sinT, cosT);
    AssembleMirror(s.xUpper, s.yUpper, s.xLower, s.yLower);
  }

  /**
    With the first sample at x = 0 (both spacings start there) the leading-edge
    point of the outline is the origin: zero thickness and zero camber at x = 0.
   */
  lemma {:induction false} LeadingEdgeAtOrigin(a: Airfoil, roots: seq<real>, sinT: seq<real>, cosT: seq<real>)
    requires Valid(a) && 1 <= |a.xs| && a.xs[0] == 0.0
    requires |roots| == |a.xs| && |sinT| == |a.xs| && |cosT| == |a.xs| && IsSqrt(0.0, roots[0])
    ensures Points(a, roots, sinT, cosT).xs[|a.xs| - 1] == 0.0
    ensures Points(a, roots, sinT, cosT).ys[|a.xs| - 1] == 0.0
  {
    ValidComputable(a);
    PointCount(a, roots, sinT, cosT);
    match a.section
    case Four(d) => LeadingEdgeThickness(d.t, roots[0]);
    case Five(d) => LeadingEdgeThickness(d.t, roots[0]);
  }

  /**
    A 5-digit section closes at the trailing edge: with the last sample at
    x = 1 the first and last outline points are both (1, 0).
   */
  lemma {:induction false} FiveDigitTrailingEdgeClosed(a: Airfoil, roots: seq<real>, sinT: seq<real>, cosT: seq<real>)
    requires Valid(a) && a.section.Five? && 1 <= |a.xs| && a.xs[|a.xs| - 1] == 1.0
    requires |roots| == |a.xs| && |sinT| == |a.xs| && |cosT| == |a.xs| && IsSqrt(1.0, roots[|a.xs| - 1])
    ensures Points(a, roots, sinT, cosT).xs[0] == 1.0 && Points(a, roots, sinT, cosT).ys[0] == 0.0
    ensures 2 <= |a.xs| ==>
      Points(a, roots, sinT, cosT).xs[2 * |a.xs| - 2] == 1.0 && Points(a, roots, sinT, cosT).ys[2 * |a.xs| - 2] == 0.0
  {
    var n := |a.xs|;
    var d := a.section.five;
    FiveDigitNeverSymmetric(a);
    ValidComputable(a);
    var yt := Thicknesses(a, roots);
    var yc := Cambers(a);
    assert yt[n - 1] == 0.0 by {
      TrailingEdgeThickness(d.t, roots[n - 1]);
    }
    assert yc[n - 1] == 0.0 by {
      assert !(1.0 <= d.p);
      assert CamberAt(a.section, 1.0) == LiftScale(d.cl) * RearMeanLine5(d.m, d.k1, 1.0);
    }
    ZeroOffset(a.xs, yc, yt, sinT, cosT, n - 1);
    assert SurfacesOf(a, roots, sinT, cosT) == Offset(a.xs, yc, yt, sinT, cosT);
    assert n - 1 - (n - 1) == 0 && n - 1 + (n - 1) == 2 * n - 2;
  }

  /**
    A symmetric 4-digit section keeps its open trailing edge: with the last
    sample at x = 1 the outline starts at (1, 0.0105 t) and ends at (1, -0.0105 t).
   */
  lemma {:induction false} FourDigitTrailingEdgeOpen(a: Airfoil, roots: seq<real>, sinT: seq<real>, cosT: seq<real>)
    requires a.section.Four? && a.section.four.p == 0.0 && 1 <= |a.xs| && a.xs[|a.xs| - 1] == 1.0
    requires TrueInputs(a, roots, sinT, cosT)
    ensures Points(a, roots, sinT, cosT).xs[0] == 1.0
    ensures Points(a, roots, sinT, cosT).ys[0] == 0.0105 * a.section.four.t
    ensures 2 <= |a.xs| ==> Points(a, roots, sinT, cosT).ys[2 * |a.xs| - 2] == -(0.0105 * a.section.four.t)
  {
    var n := |a.xs|;
    FlatFourDigitSurfaces(a, roots, sinT, cosT);
    TrailingEdgeThickness(a.section.four.t, roots[n - 1]);
    assert Thicknesses(a, roots)[n - 1] == 0.0105 * a.section.four.t;
    assert n - 1 - (n - 1) == 0 && n - 1 + (n - 1) == 2 * n - 2;
  }

  // ---------------------------------------------------------------------
  // Worked designations
  // ---------------------------------------------------------------------

  /** The samples start at 0 and end at 1 for either spacing, given the end cosines 1 and 0. */
  lemma SampleEnds(numPoints: nat, halfCosine: bool, quarterCos: seq<real>)
    requires 2 <= numPoints
    requires halfCosine ==> |quarterCos| == numPoints && quarterCos[0] == 1.0 && quarterCos[numPoints - 1] == 0.0
    ensures Samples(numPoints, halfCosine, quarterCos)[0] == 0.0
    ensures Samples(numPoints, halfCosine, quarterCos)[numPoints - 1] == 1.0
  {
  }

  /**
    NACA 0018: symmetric and 18% thick, 2n - 1 points, leading edge at the
    origin, trailing edge open at (1, 0.00189) on top.
   */
  lemma {:induction false} Naca0018(numPoints: nat, halfCosine: bool, quarterCos: seq<real>,
                                    roots: seq<real>, sinT: seq<real>, cosT: seq<real>)
    requires 2 <= numPoints
    requires halfCosine ==> |quarterCos| == numPoints && quarterCos[0] == 1.0 && quarterCos[numPoints - 1] == 0.0
    requires NewNaca4(18, numPoints, halfCosine, quarterCos).Ok?
    requires TrueInputs(NewNaca4(18, numPoints, halfCosine, quarterCos).value, roots, sinT, cosT)
    ensures var c := Points(NewNaca4(18, numPoints, halfCosine, quarterCos).value, roots, sinT, cosT);
      |c.xs| == 2 * numPoints - 1 &&
      c.xs[0] == 1.0 && c.ys[0] == 0.00189 &&
      c.xs[numPoints - 1] == 0.0 && c.ys[numPoints - 1] == 0.0 &&
      MirrorSymmetric(c, numPoints)
  {
    var a := NewNaca4(18, numPoints, halfCosine, quarterCos).value;
    assert a.section.four == FourDigit(0.0, 0.0, 0.18);
    SampleEnds(numPoints, halfCosine, quarterCos);
    PointCount(a, roots, sinT, cosT);
    FourDigitTrailingEdgeOpen(a, roots, sinT, cosT);
    LeadingEdgeAtOrigin(a, roots, sinT, cosT);
    SymmetricFourDigit(a, roots, sinT, cosT);
  }

  /** NACA 2412 decodes to 2% camber at 40% chord, 12% thick. */
  lemma Naca2412Parameters()
    ensures DecodeFourDigit(2412) == FourDigit(0.02, 0.4, 0.12)
  {
  }

  /** The fields of 23112 and its mean line 231. */
  lemma Naca23112Parameters()
    ensures Identifier(23112) == 231 && MeanLineTable[231] == MeanLine(0.2170, 15.793)
    ensures DecodeFiveDigit(23112, MeanLine(0.2170, 15.793)) == FiveDigit(0.3, 0.155, 0.12, 0.2170, 15.793)
  {
  }

  /**
    NACA 23112: design lift 0.3, camber position 0.155, 12% thick, reflexed
    mean line 231 with m = 0.2170 and k1 = 15.793; the trailing edge closes.
   */
  lemma {:induction false} Naca23112(numPoints: nat, halfCosine: bool, quarterCos: seq<real>,
                                     roots: seq<real>, sinT: seq<real>, cosT: seq<real>)
    requires 2 <= numPoints
    requires halfCosine ==> |quarterCos| == numPoints && quarterCos[0] == 1.0 && quarterCos[numPoints - 1] == 0.0
    requires NewNaca5(23112, numPoints, halfCosine, quarterCos).Ok?
    requires TrueInputs(NewNaca5(23112, numPoints, halfCosine, quarterCos).value, roots, sinT, cosT)
    ensures NewNaca5(23112, numPoints, halfCosine, quarterCos).value.section.five == FiveDigit(0.3, 0.155, 0.12, 0.2170, 15.793)
    ensures var c := Points(NewNaca5(23112, numPoints, halfCosine, quarterCos).value, roots, sinT, cosT);
      |c.xs| == 2 * numPoints - 1 && c.xs[0] == 1.0 && c.ys[0] == 0.0 &&
      c.xs[numPoints - 1] == 0.0 && c.ys[numPoints - 1] == 0.0
  {
    var a := NewNaca5(23112, numPoints, halfCosine, quarterCos).value;
    Naca23112Parameters();
    assert a.section.five == DecodeFiveDigit(23112, MeanLine(0.2170, 15.793));
    SampleEnds(numPoints, halfCosine, quarterCos);
    PointCount(a, roots, sinT, cosT);
    FiveDigitTrailingEdgeClosed(a, roots, sinT, cosT);
    LeadingEdgeAtOrigin(a, roots, sinT, cosT);
  }

  /** Designations outside the code's range, negative counts and untabulated mean lines are refused. */
  lemma RejectedDesignations()
    ensures NewNaca4(100000, 200, false, []) == Err(OutOfRange)
    ensures NewNaca4(-1, 200, false, []) == Err(OutOfRange)
    ensures NewNaca4(2412, -1, false, []) == Err(NegativePointCount)
    ensures NewNaca5(29912, 200, false, []) == Err(NoMeanLineData)
    ensures NewNaca5(2412, 200, false, []) == Err(NoMeanLineData)
  {
  }

  // ---------------------------------------------------------------------
  // Discrepancies in the 5-digit mean line as written
  // ---------------------------------------------------------------------

  /**
    For 23012 the height as written switches from the cubic to the straight
    rear segment at p = 0.15, but the two only meet at m = 0.2025: the rear
    segment starts above the cubic's value at p, so the mean line jumps there.
    The corrected Height5 switches at m, where FiveDigitSegmentsMeet shows the
    pieces meet.
   */
  lemma AsWrittenCamberJumps()
    ensures HeightAsWritten5(0.3, 0.15, 0.2025, 15.957, 0.15) == FrontMeanLine5(0.2025, 15.957, 0.15)
    ensures forall x :: 0.15 < x ==> HeightAsWritten5(0.3, 0.15, 0.2025, 15.957, x) == RearMeanLine5(0.2025, 15.957, x)
    ensures RearMeanLine5(0.2025, 15.957, 0.15) - FrontMeanLine5(0.2025, 15.957, 0.15) > 0.0003
  {
  }

  /**
    For 23012 at x = 1 the slope as written is positive while the height has
    been falling along the whole rear segment; the corrected slope is negative.
   */
  lemma AsWrittenRearSlopeExample()
    ensures SlopeAsWritten5(0.3, 0.15, 0.2025, 15.957, 1.0) > 0.0
    ensures HeightAsWritten5(0.3, 0.15, 0.2025, 15.957, 1.0) < HeightAsWritten5(0.3, 0.15, 0.2025, 15.957, 0.5)
    ensures Slope5(0.3, 0.2025, 15.957, 1.0) < 0.0
  {
  }
}
