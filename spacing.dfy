/** Chordwise sample positions: uniform spacing and half-cosine spacing. */
module Spacing {
  import opened RealArith


  /** `numpy.linspace(0, 1, num)`: num evenly spaced positions from 0 to 1 inclusive. */
  function Uniform(num: nat): (u: seq<real>)
    ensures |u| == num
    ensures num >= 1 ==> u[0] == 0.0
    ensures num >= 2 ==> u[num - 1] == 1.0
    ensures num >= 2 ==> forall i :: 0 <= i < num ==> u[i] == i as real / (num - 1) as real
    ensures forall i :: 0 <= i < num ==> 0.0 <= u[i] <= 1.0
    ensures forall i :: 0 < i < num ==> u[i] - u[i - 1] == 1.0 / (num - 1) as real
  {
    if num == 1 then [0.0] else seq(num, i requires 0 <= i < num => i as real / (num - 1) as real)
  }

  predicate StrictlyIncreasing(s: seq<real>) {
    forall i, j :: 0 <= i < j < |s| ==> s[i] < s[j]
  }

  predicate StrictlyDecreasing(s: seq<real>) {
    forall i, j :: 0 <= i < j < |s| ==> s[j] < s[i]
  }

  /** Uniform positions are strictly increasing. */
  lemma {:induction false} UniformIncreasing(num: nat)
    ensures StrictlyIncreasing(Uniform(num))
  {
    var u := Uniform(num);
    if num >= 2 {
      forall i, j | 0 <= i < j < num ensures u[i] < u[j] {
        DivLess(i as real, j as real, (num - 1) as real);
      }
    }
  }

  /**
    Half-cosine spacing `1 - cos(pi/2 * u_i)` over the uniform positions u. The
    cosines are not computed here: `quarterCos[i]` stands for cos(pi/2 * u_i).
   */
  function HalfCosine(quarterCos: seq<real>): (xs: seq<real>)
    ensures |xs| == |quarterCos|
    ensures forall i :: 0 <= i < |xs| ==> xs[i] + quarterCos[i] == 1.0
  {
    seq(|quarterCos|, i requires 0 <= i < |quarterCos| => 1.0 - quarterCos[i])
  }

  /**
    Since cos falls strictly from 1 to 0 on [0, pi/2], half-cosine positions rise
    strictly from the leading edge 0 to the trailing edge 1.
   */
  lemma HalfCosineIncreasing(quarterCos: seq<real>)
    requires |quarterCos| >= 2 && StrictlyDecreasing(quarterCos)
    requires quarterCos[0] == 1.0 && quarterCos[|quarterCos| - 1] == 0.0
    ensures StrictlyIncreasing(HalfCosine(quarterCos))
    ensures HalfCosine(quarterCos)[0] == 0.0 && HalfCosine(quarterCos)[|quarterCos| - 1] == 1.0
  {
  }
}
