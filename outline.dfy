/**
  Offsetting the half-thickness perpendicular to the mean line, and joining the
  two surfaces into one closed contour: upper surface from trailing edge to
  leading edge, then lower surface from just behind the leading edge back to the
  trailing edge.

  The angle of the mean line is atan(slope); its sine and cosine are inputs,
  constrained by IsAtanTrig, which holds for exactly one pair per slope.
 */
module Outline {
  import opened RealArith

  /**
    sinT and cosT are the sine and cosine of atan(slope): the cosine is
    positive, the tangent is the slope, and the pair lies on the unit circle.
   */
  predicate IsAtanTrig(slope: real, sinT: real, cosT: real) {
    0.0 < cosT && sinT == slope * cosT && sinT * sinT + cosT * cosT == 1.0
  }

  /** A flat mean line has angle 0: sine 0 and cosine 1. */
  lemma AtanOfZero(sinT: real, cosT: real)
    requires IsAtanTrig(0.0, sinT, cosT)
    ensures sinT == 0.0 && cosT == 1.0
  {
    assert sinT * sinT == 0.0;
    SquareOne(cosT);
  }

  // ---------------------------------------------------------------------
  // Surface offsetting
  // ---------------------------------------------------------------------

  /** The four coordinate sequences of the two surfaces, sample by sample. */
  datatype Surfaces = Surfaces(xUpper: seq<real>, yUpper: seq<real>, xLower: seq<real>, yLower: seq<real>)

  /**
    Upper point (x - yt sin, yc + yt cos) and lower point (x + yt sin, yc - yt cos)
    at every sample.
   */
  function Offset(x: seq<real>, yc: seq<real>, yt: seq<real>, sinT: seq<real>, cosT: seq<real>): (s: Surfaces)
    requires |yc| == |x| && |yt| == |x| && |sinT| == |x| && |cosT| == |x|
    ensures |s.xUpper| == |s.yUpper| == |s.xLower| == |s.yLower| == |x|
  {
    Surfaces(
      seq(|x|, i requires 0 <= i < |x| => x[i] - yt[i] * sinT[i]),
      seq(|x|, i requires 0 <= i < |x| => yc[i] + yt[i] * cosT[i]),
      seq(|x|, i requires 0 <= i < |x| => x[i] + yt[i] * sinT[i]),
      seq(|x|, i requires 0 <= i < |x| => yc[i] - yt[i] * cosT[i]))
  }

  /** The mean line runs exactly halfway between the two surfaces. */
  lemma {:induction false} OffsetMidpoint(x: seq<real>, yc: seq<real>, yt: seq<real>, sinT: seq<real>, cosT: seq<real>, i: int)
    requires |yc| == |x| && |yt| == |x| && |sinT| == |x| && |cosT| == |x| && 0 <= i < |x|
    ensures (Offset(x, yc, yt, sinT, cosT).xUpper[i] + Offset(x, yc, yt, sinT, cosT).xLower[i]) / 2.0 == x[i]
    ensures (Offset(x, yc, yt, sinT, cosT).yUpper[i] + Offset(x, yc, yt, sinT, cosT).yLower[i]) / 2.0 == yc[i]
  {
  }

  /**
    The offset is perpendicular to the mean line: the step from the mean line to
    the upper point, (-yt sin, yt cos), is orthogonal to the tangent (1, slope).
   */
  lemma {:induction false} OffsetIsNormal(x: seq<real>, yc: seq<real>, yt: seq<real>, sinT: seq<real>, cosT: seq<real>,
                                          slope: real, i: int)
    requires |yc| == |x| && |yt| == |x| && |sinT| == |x| && |cosT| == |x| && 0 <= i < |x|
    requires IsAtanTrig(slope, sinT[i], cosT[i])
    ensures (Offset(x, yc, yt, sinT, cosT).xUpper[i] - x[i]) + (Offset(x, yc, yt, sinT, cosT).yUpper[i] - yc[i]) * slope == 0.0
  {
    NormalStep(yt[i], sinT[i], cosT[i], slope);
  }

  lemma NormalStep(h: real, sinT: real, cosT: real, slope: real)
    requires sinT == slope * cosT
    ensures -(h * sinT) + (h * cosT) * slope == 0.0
  {
    assert h * sinT == h * (slope * cosT);
    assert h * (slope * cosT) == (h * cosT) * slope;
  }

  /**
    The offset has length yt: the squared distance from the mean-line point to
    the upper point is yt^2, because sin^2 + cos^2 = 1.
   */
  lemma {:induction false} OffsetLength(x: seq<real>, yc: seq<real>, yt: seq<real>, sinT: seq<real>, cosT: seq<real>,
                                        slope: real, i: int)
    requires |yc| == |x| && |yt| == |x| && |sinT| == |x| && |cosT| == |x| && 0 <= i < |x|
    requires IsAtanTrig(slope, sinT[i], cosT[i])
    ensures var s := Offset(x, yc, yt, sinT, cosT);
      (s.xUpper[i] - x[i]) * (s.xUpper[i] - x[i]) + (s.yUpper[i] - yc[i]) * (s.yUpper[i] - yc[i]) == yt[i] * yt[i]
  {
    var s := Offset(x, yc, yt, sinT, cosT);
    assert s.xUpper[i] - x[i] == -(yt[i] * sinT[i]);
    assert s.yUpper[i] - yc[i] == yt[i] * cosT[i];
    ScaledUnitLength(yt[i], sinT[i], cosT[i]);
  }

  /** The unit vector (-a, b) scaled by h has squared length h * h. */
  lemma ScaledUnitLength(h: real, a: real, b: real)
    requires a * a + b * b == 1.0
    ensures -(h * a) * -(h * a) + (h * b) * (h * b) == h * h
  {
    assert -(h * a) * -(h * a) == (h * h) * (a * a);
    assert (h * b) * (h * b) == (h * h) * (b * b);
    assert (h * h) * (a * a) + (h * h) * (b * b) == (h * h) * (a * a + b * b);
  }

  /** Where the half-thickness is zero both surfaces pass through the mean-line point. */
  lemma {:induction false} ZeroOffset(x: seq<real>, yc: seq<real>, yt: seq<real>, sinT: seq<real>, cosT: seq<real>, i: int)
    requires |yc| == |x| && |yt| == |x| && |sinT| == |x| && |cosT| == |x| && 0 <= i < |x| && yt[i] == 0.0
    ensures Offset(x, yc, yt, sinT, cosT).xUpper[i] == x[i] && Offset(x, yc, yt, sinT, cosT).yUpper[i] == yc[i]
    ensures Offset(x, yc, yt, sinT, cosT).xLower[i] == x[i] && Offset(x, yc, yt, sinT, cosT).yLower[i] == yc[i]
  {
  }

  /** With a flat mean line the surfaces sit straight above and below it. */
  lemma {:induction false} OffsetFlat(x: seq<real>, yc: seq<real>, yt: seq<real>, sinT: seq<real>, cosT: seq<real>)
    requires |yc| == |x| && |yt| == |x| && |sinT| == |x| && |cosT| == |x|
    requires forall i :: 0 <= i < |x| ==> IsAtanTrig(0.0, sinT[i], cosT[i])
    ensures var s := Offset(x, yc, yt, sinT, cosT);
      s.xUpper == x && s.xLower == x &&
      (forall i :: 0 <= i < |x| ==> s.yUpper[i] == yc[i] + yt[i] && s.yLower[i] == yc[i] - yt[i])
  {
    var s := Offset(x, yc, yt, sinT, cosT);
    forall i | 0 <= i < |x|
      ensures s.xUpper[i] == x[i] && s.xLower[i] == x[i]
      ensures s.yUpper[i] == yc[i] + yt[i] && s.yLower[i] == yc[i] - yt[i]
    {
      AtanOfZero(sinT[i], cosT[i]);
    }
  }

  // ---------------------------------------------------------------------
  // Outline assembly
  // ---------------------------------------------------------------------

  /** The sequence read backwards, `s[::-1]`. */
  function Reverse(s: seq<real>): (r: seq<real>)
    ensures |r| == |s|
    ensures forall i :: 0 <= i < |s| ==> r[i] == s[|s| - 1 - i]
  {
    if s == [] then [] else Reverse(s[1..]) + [s[0]]
  }

  /** `s[1:]`: everything after the first element, empty when s is. */
  function Tail(s: seq<real>): (t: seq<real>)
    ensures |t| == if s == [] then 0 else |s| - 1
    ensures forall j :: 0 <= j < |t| ==> t[j] == s[j + 1]
  {
    if s == [] then [] else s[1..]
  }

  /** `concatenate([upper[::-1], lower[1:]])`. */
  function Assemble(upper: seq<real>, lower: seq<real>): seq<real> {
    Reverse(upper) + Tail(lower)
  }

  /**
    For n samples per surface the contour has 2n - 1 points: the upper surface
    backwards in the first n, its first (leading-edge) sample at index n - 1,
    and the lower surface from its second sample on after that.
   */
  lemma {:induction false} AssembleShape(upper: seq<real>, lower: seq<real>)
    requires |upper| == |lower| && 1 <= |upper|
    ensures |Assemble(upper, lower)| == 2 * |upper| - 1
    ensures forall i :: 0 <= i < |upper| ==> Assemble(upper, lower)[i] == upper[|upper| - 1 - i]
    ensures forall j :: 0 <= j < |upper| ==> Assemble(upper, lower)[|upper| - 1 - j] == upper[j]
    ensures forall j :: 1 <= j < |lower| ==> Assemble(upper, lower)[|upper| - 1 + j] == lower[j]
    ensures Assemble(upper, lower)[|upper| - 1] == upper[0]
  {
    var n := |upper|;
    var out := Assemble(upper, lower);
    assert out == Reverse(upper) + Tail(lower);
    forall j | 1 <= j < n
      ensures out[n - 1 + j] == lower[j]
    {
      assert out[n - 1 + j] == Tail(lower)[j - 1];
    }
    forall j | 0 <= j < n
      ensures out[n - 1 - j] == upper[j]
    {
      assert out[n - 1 - j] == Reverse(upper)[n - 1 - j];
      assert n - 1 - (n - 1 - j) == j;
    }
  }

  /**
    What each point of the two assembled coordinate sequences is: point i < n is
    upper sample n - 1 - i, and point i >= n is lower sample i - (n - 1).
   */
  lemma {:induction false} AssembleLayout(s: Surfaces, xs: seq<real>, ys: seq<real>)
    requires |s.xLower| == |s.xUpper| && |s.yUpper| == |s.xUpper| && |s.yLower| == |s.xUpper|
    requires xs == Assemble(s.xUpper, s.xLower) && ys == Assemble(s.yUpper, s.yLower)
    ensures var n := |s.xUpper|;
      (forall i :: 0 <= i < n ==> xs[i] == s.xUpper[n - 1 - i] && ys[i] == s.yUpper[n - 1 - i]) &&
      (forall i :: n <= i < 2 * n - 1 ==> xs[i] == s.xLower[i - (n - 1)] && ys[i] == s.yLower[i - (n - 1)])
  {
    var n := |s.xUpper|;
    forall i | 0 <= i < n
      ensures xs[i] == s.xUpper[n - 1 - i] && ys[i] == s.yUpper[n - 1 - i]
    {
      AssembleAt(s.xUpper, s.xLower, n - 1 - i);
      AssembleAt(s.yUpper, s.yLower, n - 1 - i);
      assert n - 1 - (n - 1 - i) == i;
    }
    forall i | n <= i < 2 * n - 1
      ensures xs[i] == s.xLower[i - (n - 1)] && ys[i] == s.yLower[i - (n - 1)]
    {
      AssembleAt(s.xUpper, s.xLower, i - (n - 1));
      AssembleAt(s.yUpper, s.yLower, i - (n - 1));
      assert n - 1 + (i - (n - 1)) == i;
    }
  }

  /** No samples give an empty contour. */
  lemma AssembleEmpty()
    ensures Assemble([], []) == []
  {
  }

  /** Elementwise negation: b[i] == -a[i]. */
  predicate Negated(a: seq<real>, b: seq<real>) {
    |a| == |b| && forall i :: 0 <= i < |a| ==> b[i] == -a[i]
  }

  /**
    When the lower x equal the upper x and the lower y are the negated upper y,
    the contour is its own mirror image about the chord: point i and point
    2n - 2 - i have the same x and opposite y. The leading-edge point n - 1 is
    its own mirror image, so it needs y == 0 there.
   */
  lemma {:induction false} AssembleMirror(xUpper: seq<real>, yUpper: seq<real>, xLower: seq<real>, yLower: seq<real>)
    requires |xUpper| == |yUpper| && 1 <= |xUpper|
    requires xLower == xUpper && Negated(yUpper, yLower)
    ensures var n := |xUpper|; var xs := Assemble(xUpper, xLower); var ys := Assemble(yUpper, yLower);
      forall i :: 0 <= i < 2 * n - 1 && i != n - 1 ==> xs[i] == xs[2 * n - 2 - i] && ys[i] == -ys[2 * n - 2 - i]
  {
    var n := |xUpper|;
    var xs := Assemble(xUpper, xLower);
    var ys := Assemble(yUpper, yLower);
    forall i | 0 <= i < 2 * n - 1 && i != n - 1
      ensures xs[i] == xs[2 * n - 2 - i] && ys[i] == -ys[2 * n - 2 - i]
    {
      var j := if i < n - 1 then n - 1 - i else i - (n - 1);
      AssembleAt(xUpper, xLower, j);
      AssembleAt(yUpper, yLower, j);
      assert {i, 2 * n - 2 - i} == {n - 1 - j, n - 1 + j};
    }
  }

  /** Sample j of both surfaces, as it appears in the assembled contour (the lower one from j = 1 on). */
  lemma AssembleAt(upper: seq<real>, lower: seq<real>, j: int)
    requires |upper| == |lower| && 0 <= j < |upper|
    ensures Assemble(upper, lower)[|upper| - 1 - j] == upper[j]
    ensures 1 <= j ==> Assemble(upper, lower)[|upper| - 1 + j] == lower[j]
  {
    var n := |upper|;
    assert Assemble(upper, lower)[n - 1 - j] == Reverse(upper)[n - 1 - j];
    assert n - 1 - (n - 1 - j) == j;
    if 1 <= j {
      assert Assemble(upper, lower)[n - 1 + j] == Tail(lower)[j - 1];
    }
  }
}
