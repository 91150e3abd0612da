/**
  Decoding of a NACA designation number into the geometric parameters of the
  4-digit and 5-digit families, and the fixed 5-digit mean-line table.
 */
module Designation {
  import opened Wrappers

  /** Largest designation the base constructor accepts (for both families). */
  const MaxDesignation := 99999

  predicate InRange(n: int) {
    0 <= n <= MaxDesignation
  }

  // ---------------------------------------------------------------------
  // 4-digit family
  // ---------------------------------------------------------------------

  /** Maximum camber m, its chordwise position p and the thickness t (chord fractions). */
  datatype FourDigit = FourDigit(m: real, p: real, t: real)

  /**
    The source's digit arithmetic on the designation (Python's `%` with a positive
    divisor is the Euclidean remainder, as Dafny's is).
   */
  function DecodeFourDigit(n: int): (d: FourDigit)
    ensures d.p == ((n / 100) % 10) as real / 10.0
    ensures d.t == (n % 100) as real / 100.0
    ensures d.m == (n / 1000) as real / 100.0
    ensures 0.0 <= d.p <= 0.9 && 0.0 <= d.t <= 0.99
    ensures 0 <= n ==> 0.0 <= d.m
  {
    var p := ((n % 1000) - (n % 100)) as real / 1000.0;
    var t := (n % 100) as real / 100.0;
    var m := (n - n % 1000) as real / 100000.0;
    DigitGroups(n);
    FourDigit(m, p, t)
  }

  /** The remainders used by the 4-digit decoding, as whole digit groups. */
  lemma DigitGroups(n: int)
    ensures (n % 1000) - (n % 100) == 100 * ((n / 100) % 10)
    ensures n - n % 1000 == 1000 * (n / 1000)
  {
    var q, r := n / 1000, n % 1000;
    assert n == 1000 * q + r && 0 <= r < 1000;
    var a, b := r / 100, r % 100;
    assert r == 100 * a + b && 0 <= a < 10 && 0 <= b < 100;
    assert n == 100 * (10 * q + a) + b;
    assert n % 100 == b && n / 100 == 10 * q + a;
    assert (10 * q + a) % 10 == a;
  }

  // ---------------------------------------------------------------------
  // Decimal strings: the 5-digit family slices `str(naca_number)`
  // ---------------------------------------------------------------------

  predicate IsDigit(c: char) {
    '0' <= c <= '9'
  }

  function DigitChar(d: int): (c: char)
    requires 0 <= d < 10
    ensures IsDigit(c) && c as int - '0' as int == d
  {
    ('0' as int + d) as char
  }

  /** The decimal representation of n without leading zeros, as `str` writes it. */
  function Decimal(n: nat): (s: string)
    ensures |s| >= 1 && forall i :: 0 <= i < |s| ==> IsDigit(s[i])
    ensures n < 10 <==> |s| == 1
  {
    if n < 10 then [DigitChar(n)] else Decimal(n / 10) + [DigitChar(n % 10)]
  }

  /** The value `int(s)` gives a non-empty string of decimal digits. */
  function ParseDigits(s: string): (v: nat)
    requires |s| >= 1 && forall i :: 0 <= i < |s| ==> IsDigit(s[i])
  {
    var last: nat := assert IsDigit(s[|s| - 1]); s[|s| - 1] as int - '0' as int;
    if |s| == 1 then last else ParseDigits(s[..|s| - 1]) * 10 + last
  }

  /** Reading back the decimal string of n gives n. */
  lemma {:induction false} ParseDecimal(n: nat)
    ensures ParseDigits(Decimal(n)) == n
  {
    if n >= 10 {
      var s := Decimal(n);
      assert s[..|s| - 1] == Decimal(n / 10);
      ParseDecimal(n / 10);
    }
  }

  /** A designation of five digits spells out its digit groups in that order. */
  lemma FiveDigitString(n: nat)
    requires 10000 <= n <= 99999
    ensures |Decimal(n)| == 5
    ensures ParseDigits(Decimal(n)[0..1]) == n / 10000
    ensures ParseDigits(Decimal(n)[1..3]) == (n / 100) % 100
    ensures ParseDigits(Decimal(n)[3..5]) == n % 100
  {
    var d4, d3, d2, d1, d0 := n / 10000, (n / 1000) % 10, (n / 100) % 10, (n / 10) % 10, n % 10;
    FiveDigitChars(n);
    var s := Decimal(n);
    assert s[1..3] == [DigitChar(d3), DigitChar(d2)];
    assert s[3..5] == [DigitChar(d1), DigitChar(d0)];
    ParseTwo(d3, d2);
    ParseTwo(d1, d0);
    LowerDigitPairs(n);
  }

  /** The five characters of a five-digit decimal string. */
  lemma FiveDigitChars(n: nat)
    requires 10000 <= n <= 99999
    ensures Decimal(n) == [DigitChar(n / 10000), DigitChar((n / 1000) % 10), DigitChar((n / 100) % 10),
                           DigitChar((n / 10) % 10), DigitChar(n % 10)]
  {
    var n1, n2, n3, n4 := n / 10, n / 100, n / 1000, n / 10000;
    assert n1 / 10 == n2 && n2 / 10 == n3 && n3 / 10 == n4;
    assert 1 <= n4 < 10 && 10 <= n3 && 100 <= n2 && 1000 <= n1;
    assert Decimal(n4) == [DigitChar(n4)];
    assert Decimal(n3) == Decimal(n4) + [DigitChar(n3 % 10)];
    assert Decimal(n2) == Decimal(n3) + [DigitChar(n2 % 10)];
    assert Decimal(n1) == Decimal(n2) + [DigitChar(n1 % 10)];
    assert Decimal(n) == Decimal(n1) + [DigitChar(n % 10)];
  }

  /** A two-character digit string a b reads as 10 a + b. */
  lemma ParseTwo(a: int, b: int)
    requires 0 <= a < 10 && 0 <= b < 10
    ensures ParseDigits([DigitChar(a), DigitChar(b)]) == 10 * a + b
  {
    assert [DigitChar(a), DigitChar(b)][..1] == [DigitChar(a)];
  }

  /** The hundreds and tens digits, and the tens and units digits, form the lower digit pairs. */
  lemma LowerDigitPairs(n: nat)
    ensures (n / 100) % 100 == 10 * ((n / 1000) % 10) + (n / 100) % 10
    ensures n % 100 == 10 * ((n / 10) % 10) + n % 10
  {
    var n1, n2 := n / 10, n / 100;
    assert n / 1000 == n2 / 10;
    assert n2 % 100 == 10 * ((n2 / 10) % 10) + n2 % 10;
    assert n2 == n1 / 10;
    assert n == 10 * n1 + n % 10 && n1 == 10 * (n1 / 10) + n1 % 10;
    assert n == 100 * n2 + 10 * (n1 % 10) + n % 10;
  }

  // ---------------------------------------------------------------------
  // 5-digit family
  // ---------------------------------------------------------------------

  /** Mean-line shape coefficients (m, k1) of one tabulated 5-digit camber line. */
  datatype MeanLine = MeanLine(m: real, k1: real)

  /** The supported three-digit identifiers (design lift, camber position, reflex flag). */
  const SupportedIdentifiers: set<int> := {210, 220, 221, 230, 231, 240, 241, 250, 251}

  const MeanLineTable: map<int, MeanLine> := map[
    210 := MeanLine(0.0580, 361.400),
    220 := MeanLine(0.1260, 51.640),
    221 := MeanLine(0.1300, 51.990),
    230 := MeanLine(0.2025, 15.957),
    231 := MeanLine(0.2170, 15.793),
    240 := MeanLine(0.2900, 6.643),
    241 := MeanLine(0.3180, 6.520),
    250 := MeanLine(0.3910, 3.230),
    251 := MeanLine(0.4410, 3.191)]

  /** The table key of a designation: its first three of five digits, `int(n / 100)`. */
  function Identifier(n: nat): (id: nat)
    ensures 100 * id <= n < 100 * id + 100
  {
    n / 100
  }

  /** Dictionary `get` on the table: a miss yields nothing, there is no interpolation. */
  function LookupMeanLine(id: int): (r: Option<MeanLine>)
    ensures r.Some? <==> id in SupportedIdentifiers
    ensures r.Some? ==> 0.0 < r.value.m < 0.5 && 0.0 < r.value.k1
  {
    if id in MeanLineTable then Some(MeanLineTable[id]) else None
  }

  /** The fixed entries of the table, as published for the supported mean lines. */
  lemma MeanLineEntries()
    ensures LookupMeanLine(210) == Some(MeanLine(0.0580, 361.400))
    ensures LookupMeanLine(230) == Some(MeanLine(0.2025, 15.957))
    ensures LookupMeanLine(251) == Some(MeanLine(0.4410, 3.191))
    ensures LookupMeanLine(299) == None && LookupMeanLine(200) == None
  {
  }

  /** Design lift cl, camber position p and thickness t, with the looked-up (m, k1). */
  datatype FiveDigit = FiveDigit(cl: real, p: real, t: real, m: real, k1: real)

  /**
    The 5-digit fields as the source reads them from the decimal string of the
    designation; it only runs after the table lookup succeeded.
   */
  function DecodeFiveDigit(n: nat, line: MeanLine): (d: FiveDigit)
    requires Identifier(n) in SupportedIdentifiers
    ensures d.cl == (n / 10000) as real * 0.15
    ensures d.p == ((n / 100) % 100) as real / 200.0
    ensures d.t == (n % 100) as real / 100.0
    ensures d.m == line.m && d.k1 == line.k1
  {
    FiveDigitString(n);
    var s := Decimal(n);
    var cl := ParseDigits(s[0..1]) as real * 3.0 / 2.0 / 10.0;
    var p := ParseDigits(s[1..3]) as real / 2.0 / 100.0;
    var t := ParseDigits(s[3..5]) as real / 100.0;
    FiveDigit(cl, p, t, line.m, line.k1)
  }

  /**
    Every supported identifier has design-lift digit 2 and a non-zero camber
    position, so a decoded 5-digit airfoil has cl = 0.3 and p > 0; p has at most
    three decimals, so the source's three-decimal formatting leaves it unchanged.
   */
  lemma {:induction false} SupportedFiveDigit(n: nat, line: MeanLine)
    requires Identifier(n) in SupportedIdentifiers
    ensures 21000 <= n <= 25199
    ensures DecodeFiveDigit(n, line).cl == 0.3
    ensures 0.05 <= DecodeFiveDigit(n, line).p <= 0.255
    ensures DecodeFiveDigit(n, line).p * 1000.0 == (5 * ((n / 100) % 100)) as real
  {
    var id := Identifier(n);
    assert 210 <= id <= 251;
    assert n / 10000 == id / 100 by {
      assert 100 * id <= n < 100 * id + 100;
    }
    assert (n / 100) % 100 == id % 100;
    assert 10 <= id % 100 <= 51;
  }

  /**
    For every tabulated mean line the decoded camber position p lies in front of
    the table's m, the point where the cubic meets the straight segment.
   */
  lemma {:induction false} PositionBeforeJoin(n: nat)
    requires Identifier(n) in SupportedIdentifiers
    ensures DecodeFiveDigit(n, MeanLineTable[Identifier(n)]).p < MeanLineTable[Identifier(n)].m
  {
    var id := Identifier(n);
    var line := MeanLineTable[id];
    SupportedFiveDigit(n, line);
    assert (n / 100) % 100 == id % 100;
    var p := DecodeFiveDigit(n, line).p;
    assert p == (id % 100) as real / 200.0;
    assert p < line.m;
  }
}
