# NACA airfoil coordinates in Dafny

This project models the coordinate generator in `naca.py`, covering the NACA 4-digit and 5-digit airfoil families. A designation number and a sample count go in. Out come:

- the decoded section parameters;
- the chordwise sample positions;
- the mean camber line, its slope and the half-thickness at each sample;
- the two surfaces, each offset along the local normal of the mean line;
- the closed outline. It runs from the upper trailing edge to the leading edge, then along the lower surface back to the trailing edge, with `2N - 1` points for `N` samples.

Everything is pure: datatypes, functions over `seq<real>`, and lemmas. The modules follow the pipeline:

| module | file | what it holds |
|---|---|---|
| `Wrappers` | `wrappers.dfy` | `Option` and `Result` |
| `Designation` | `designation.dfy` | the range check, 4-digit digit arithmetic, decimal strings and their slices, the 9-entry 5-digit mean-line table and its lookup, 5-digit decoding |
| `Spacing` | `spacing.dfy` | uniform (`linspace`) and half-cosine sample positions |
| `RealArith` | `arith.dfy` | small facts about real products and quotients used by the proofs |
| `Camber` | `camber.dfy` | 4-digit parabolas and 5-digit cubic/line: heights, slopes and the relations between them |
| `Thickness` | `thickness.dfy` | the two thickness polynomials, with their leading- and trailing-edge values |
| `Outline` | `outline.dfy` | normal offsetting, `reverse(upper) ++ lower[1:]`, and the mirror property |
| `Naca` | `naca.dfy` | the two constructors with their error paths, the points pipeline, and whole-airfoil properties |

Transcendental values are inputs, constrained by predicates that pin them down:

- `sqrt(x)` for the thickness is a root `s` with `IsSqrt(x, s)`, meaning `0 <= s` and `s * s == x`.
- `sin(atan(slope))` and `cos(atan(slope))` are a pair with `IsAtanTrig(slope, sinT, cosT)`, meaning the cosine is positive, `sinT == slope * cosT`, and the pair lies on the unit circle. Exactly one pair satisfies this for each slope.
- Half-cosine spacing takes `quarterCos[i]`, which stands for `cos(pi/2 * u_i)`.

`Naca.TrueInputs` says that the roots and the angle pairs are the true values for every sample. It says nothing about `quarterCos`; the only lemma that needs a property of it, `Spacing.HalfCosineIncreasing`, states that property as its own precondition.

Python assertion failures become `Err` values of `Naca.Error`:

- `OutOfRange`: the assertion at `naca.py:33`.
- `NegativePointCount`: the `ValueError` that `numpy.linspace` raises for a negative count.
- `NoMeanLineData`: the assertion at `naca.py:217`.

## Model

| member | source | states |
|---|---|---|
| Designation.DecodeFourDigit | naca.py:96-101 | p is the hundreds digit over 10, t is the last two digits over 100, m is the digits above the hundreds over 100. This is the source's remainder arithmetic proved equal to digit groups. Also 0 <= p <= 0.9, 0 <= t <= 0.99, and m >= 0 for non-negative designations |
| Designation.Decimal | naca.py:222-226 | `str(n)`: a non-empty string of decimal digits, one character exactly when n < 10. Read back by `ParseDecimal` and sliced by `FiveDigitString` |
| Designation.ParseDigits | naca.py:222-226 | `int(s)` on a string of decimal digits. `ParseDecimal` proves it inverts `Decimal`, and `FiveDigitString` gives its value on the three slices |
| Designation.ParseDecimal | naca.py:222-226 | parsing the decimal string of n gives n back (int of str) |
| Designation.FiveDigitString | naca.py:222-226 | a five-digit number's string has 5 characters; slices [0:1], [1:3] and [3:5] parse to the first digit, the middle two digits and the last two digits |
| Designation.Identifier | naca.py:204 | the key is int(n / 100): 100 * id <= n < 100 * id + 100 |
| Designation.LookupMeanLine | naca.py:206-217 | the lookup succeeds exactly for the nine supported identifiers. Every entry has 0 < m < 0.5 and k1 > 0 |
| Designation.MeanLineEntries | naca.py:206-215 | 210, 230 and 251 give their published (m, k1). 299 and 200 are misses |
| Designation.DecodeFiveDigit | naca.py:220-228 | cl = 0.15 times the first digit, p = (digits 2-3) / 200, t = (digits 4-5) / 100, and (m, k1) is the looked-up entry |
| Designation.SupportedFiveDigit | naca.py:204-226 | a designation whose identifier is in the table lies in 21000..25199 and decodes to cl = 0.3 and 0.05 <= p <= 0.255. 1000 p is an integer, so formatting p to three decimals leaves it unchanged |
| Designation.PositionBeforeJoin | naca.py:206-226 | for every tabulated mean line the decoded p lies before the table's m |
| Spacing.Uniform | naca.py:34 | N samples with x_i (N - 1) = i, x_0 = 0 and x_(N-1) = 1 for N >= 2, all samples in [0, 1], and a constant step 1/(N - 1) |
| Spacing.UniformIncreasing | naca.py:34 | uniform samples are strictly increasing |
| Spacing.HalfCosine | naca.py:67-68 | one sample per cosine, with x_i = 1 - cos(pi/2 u_i) |
| Spacing.HalfCosineIncreasing | naca.py:67-68 | with cosines falling strictly from 1 to 0, half-cosine samples rise strictly from 0 to 1 |
| Camber.Height4 | naca.py:114-118 | the 4-digit `_mean_camber_line`: front parabola for x <= p, rear parabola behind it, 0 for p = 0. Its properties are stated by `FourDigitSlopeIsDerivative`, `FourDigitSegmentsMeet` and `FourDigitCamberBounds` |
| Camber.Slope4 | naca.py:154-158 | the 4-digit `_dyc_over_dx`, switched at x <= p, 0 for p = 0. `FourDigitSlopeIsDerivative` proves it is the derivative of `Height4` |
| Camber.FourDigitSlopeIsDerivative | naca.py:154-158 | on either segment, and in the p = 0 case, the 4-digit height changes over a step h by h times the slope less c h^2. So the slope is the derivative of the height |
| Camber.FourDigitSegmentsMeet | naca.py:114-117 | for 0 < p < 1 both parabolas reach height m with slope 0 at x = p |
| Camber.FourDigitCamberBounds | naca.py:114-118 | for 0 < p < 1 and m >= 0 the mean line stays in [0, m] on [0, 1]. It is 0 at both ends and m at p |
| Camber.HeightAsWritten5 | naca.py:251-266 | the 5-digit mean line as the code computes it: cl/0.3 times the cubic for x <= p and the line behind it. `AsWrittenRearSlopeSign`, `Naca.FiveDigitAsWrittenAgrees` and `Naca.AsWrittenCamberJumps` state its properties |
| Camber.SlopeAsWritten5 | naca.py:289-296 | the 5-digit `_dyc_over_dx` as written: the cubic's derivative for x <= p, and the positive constant of line 294 behind it. Its properties are stated by `AsWrittenRearSlopeSign` and `Naca.FiveDigitAsWrittenAgrees` |
| Camber.Height5 | naca.py:261-265 | the corrected 5-digit mean line, switched at x <= m where cubic and line meet. Its properties are stated by `FiveDigitSegmentsMeet` and the two `FiveDigit...SlopeIsDerivative` lemmas |
| Camber.Slope5 | naca.py:289-296 | the corrected slope, switched at m, with the rear sign negated. The two `FiveDigit...SlopeIsDerivative` lemmas prove it is the derivative of `Height5` |
| Camber.FiveDigitFrontSlopeIsDerivative | naca.py:289-293 | along the cubic (x <= m) the 5-digit height changes over a step h by h times the slope plus the cubic's h^2 and h^3 terms |
| Camber.FiveDigitRearSlopeIsDerivative | naca.py:294-296 | along the straight rear segment the corrected height changes by exactly h times the corrected slope |
| Camber.FiveDigitSegmentsMeet | naca.py:261-265 | the cubic and the straight segment have equal height and equal (corrected) slope at x = m |
| Camber.AsWrittenRearSlopeSign | naca.py:294-296 | behind p, the as-written height changes by minus h times the as-written slope. So a non-zero as-written slope never describes the change in height |
| Thickness.HalfThickness4 | naca.py:170-175 | the 4-digit `_thickness`: 5 t times the polynomial with coefficients 0.2969, -0.1260, -0.3516, 0.2843, -0.1015. Its edge values are stated by `LeadingEdgeThickness` and `TrailingEdgeThickness` |
| Thickness.HalfThickness5 | naca.py:307-312 | the 5-digit `_thickness` with the closed-trailing-edge coefficients. Its edge values are stated by `LeadingEdgeThickness` and `TrailingEdgeThickness` |
| Thickness.LeadingEdgeThickness | naca.py:170-175 | both families have zero half-thickness at x = 0 |
| Thickness.TrailingEdgeThickness | naca.py:307-312 | at x = 1 the 5-digit half-thickness is 0 and the 4-digit one is 0.0105 t |
| Outline.AtanOfZero | naca.py:132 | the angle of a zero slope has sine 0 and cosine 1 |
| Outline.Offset | naca.py:135-138 | both surfaces have one point per sample |
| Outline.OffsetMidpoint | naca.py:135-138 | the mean-line point is the midpoint of the upper and lower points |
| Outline.OffsetIsNormal | naca.py:135-138 | the step from the mean line to the upper point is orthogonal to the tangent (1, slope) |
| Outline.OffsetLength | naca.py:135-138 | that step has length yt (its square is yt^2) |
| Outline.ZeroOffset | naca.py:135-138 | where yt is 0 both the upper and the lower point are the mean-line point (x, yc) |
| Outline.OffsetFlat | naca.py:135-138 | with zero slope everywhere, x is unchanged on both surfaces and y is yc + yt above and yc - yt below |
| Outline.Reverse | naca.py:140 | s[::-1]: same length, r[i] == s[n - 1 - i] |
| Outline.Tail | naca.py:140 | s[1:]: one shorter (empty stays empty), t[j] == s[j + 1] |
| Outline.Assemble | naca.py:140-141 | `concatenate([upper[::-1], lower[1:]])`. `AssembleShape`, `AssembleEmpty` and `AssembleMirror` state its length, layout and mirror property |
| Outline.AssembleShape | naca.py:139-141 | reverse(upper) ++ lower[1:] has 2n - 1 points. The first n are the upper surface backwards, sample j sits at n - 1 - j, lower sample j (j >= 1) sits at n - 1 + j, and index n - 1 holds the first upper sample |
| Outline.AssembleLayout | naca.py:139-141 | in both assembled coordinate sequences, point i < n is upper sample n - 1 - i and point i >= n is lower sample i - (n - 1) |
| Outline.AssembleEmpty | naca.py:140-141 | no samples give an empty outline |
| Outline.AssembleMirror | naca.py:139-141 | if the lower x equal the upper x and the lower y are the negated upper y, points i and 2n - 2 - i have equal x and opposite y |
| Naca.BaseCheck | naca.py:31-34 | the range check comes first, then the sample count. The construction succeeds exactly when both pass |
| Naca.Samples | naca.py:34 | N samples. Uniform samples are strictly increasing from 0 to 1, half-cosine samples are 1 - cos |
| Naca.NewNaca4 | naca.py:93-102 | succeeds exactly for 0 <= n <= 99999 and N >= 0, with OutOfRange and NegativePointCount otherwise. The result keeps n, holds DecodeFourDigit(n), and uses the chosen spacing |
| Naca.NewNaca5 | naca.py:202-228 | succeeds exactly when additionally n / 100 is a supported identifier, with NoMeanLineData otherwise. The result holds the decoded fields with the table's (m, k1) |
| Naca.FiveDigitNeverSymmetric | naca.py:253-258 | every 5-digit section built from an integer designation has 0.05 <= p <= 0.255, cl = 0.3, 0 < m < 0.5, k1 > 0 and p < m. So for integer designations the p == 0 path is never taken |
| Naca.ValidComputable | naca.py:98 | a decoded 4-digit p is never 1, so the rear parabola is defined |
| Naca.CamberAt | naca.py:114-118 | the family dispatch for the mean-line height: `Height4` for 4-digit sections, `HeightAsWritten5` for 5-digit ones (naca.py:261-266). `FiveDigitAsWrittenAgrees` relates the 5-digit case to the corrected curve |
| Naca.SlopeAt | naca.py:154-158 | the family dispatch for the slope: `Slope4`, or `SlopeAsWritten5` (naca.py:289-296). `FiveDigitAsWrittenAgrees` relates the 5-digit case to the corrected slope |
| Naca.ThicknessAt | naca.py:170-175 | the family dispatch for the half-thickness: `HalfThickness4`, or `HalfThickness5` (naca.py:307-312). `LeadingEdgeAtOrigin` and the trailing-edge lemmas state its edge values |
| Naca.FiveDigitAsWrittenAgrees | naca.py:251-296 | for a constructed 5-digit section, the as-written height and slope equal the corrected ones for x <= p. Behind m the heights are equal and the as-written slope is the negated corrected slope. This holds because p < m for every table entry |
| Naca.Thicknesses | naca.py:160-175 | one half-thickness per sample, from the family's polynomial |
| Naca.Cambers | naca.py:114-118 | one mean-line height per sample, computed as the code does (for 5-digit sections the cubic up to p, the line behind it) |
| Naca.Negate | naca.py:257 | -yt elementwise |
| Naca.SurfacesOf | naca.py:253-273 | four surface sequences, one entry per sample, on either path, with the as-written 5-digit height and slope |
| Naca.Points | naca.py:250-278 | the outline has 2N - 1 points in x and y (0 for no samples). Outline point i < N is upper sample N - 1 - i, and point i >= N is lower sample i - (N - 1), for both coordinates |
| Naca.PointCount | naca.py:139-141 | for N >= 1 the outline has 2N - 1 points and point N - 1 is the first upper sample |
| Naca.PointsAroundMeanLine | naca.py:261-273 | outline points N - 1 - j and N - 1 + j average to the mean-line point (x_j, yc(x_j)) |
| Naca.FlatFourDigitSurfaces | naca.py:131-138 | for a 4-digit p = 0 with the true angles, both surfaces keep the sample x, the upper y is yt, and the lower y is -yt |
| Naca.SymmetricFourDigit | naca.py:131-142 | a 4-digit p = 0 outline is its own mirror image about the chord |
| Naca.SymmetricFiveDigitPath | naca.py:253-257 | the 5-digit p == 0 path gives a mirror-symmetric outline |
| Naca.LeadingEdgeAtOrigin | naca.py:131-142 | with the first sample at 0, outline point N - 1 is (0, 0) |
| Naca.FiveDigitTrailingEdgeClosed | naca.py:250-278 | with the last sample at 1, a 5-digit outline starts and ends at (1, 0) |
| Naca.FourDigitTrailingEdgeOpen | naca.py:131-142 | a symmetric 4-digit outline starts at (1, 0.0105 t) and ends at (1, -0.0105 t) |
| Naca.SampleEnds | naca.py:34 | both spacings start at 0 and end at 1 |
| Naca.Naca0018 | test_naca.py:33-80 | NACA 0018 has 2N - 1 points, the first point is (1, 0.00189), the leading-edge point N - 1 is the origin, and the outline is mirror-symmetric |
| Naca.Naca2412Parameters | naca.py:98-101 | 2412 decodes to m = 0.02, p = 0.4, t = 0.12 |
| Naca.Naca23112Parameters | naca.py:202-228 | 23112 has identifier 231 and decodes to cl 0.3, p 0.155, t 0.12, m 0.2170, k1 15.793 |
| Naca.Naca23112 | test_naca.py:112-133 | NACA 23112 has 2N - 1 points, a closed trailing edge at (1, 0) and its leading edge at the origin |
| Naca.RejectedDesignations | naca.py:33 | 100000 and -1 are out of range, a negative count is refused, and 29912 and 2412 have no 5-digit mean line |
| Naca.AsWrittenCamberJumps | naca.py:251-265 | for 23012 the as-written height uses the cubic up to p = 0.15 and the line behind it. The two differ at p by more than 0.0003 |
| Naca.AsWrittenRearSlopeExample | naca.py:289-296 | for 23012 the as-written slope at x = 1 is positive while the height falls from x = 0.5 to x = 1. The corrected slope is negative |

## Left out

- Square roots, `arctan`, `sin` and `cos` (naca.py:132-138, 170, 269-273, 307) are inputs constrained by `IsSqrt` and `IsAtanTrig`. Their floating-point values are not modelled.
- The half-cosine spacing's `numpy.cos` (naca.py:67-68) is an input sequence. `HalfCosineIncreasing` assumes it falls strictly from 1 to 0, which holds for the cosine on [0, pi/2].
- Floating-point rounding: all arithmetic is exact over `real`. The test files' expected coordinates (for example the 5-digit trailing-edge y of about -3.9e-17) are float results of this pipeline. The model proves the exact values they approximate, such as 0 and 0.00189.
- The `'%.3f'` round trip of the 5-digit `p` (naca.py:224) is taken as the exact rational `digits / 200`. `SupportedFiveDigit` shows that every accepted `p` has at most three decimals.
- `NACA_5._mean_camber_line` (naca.py:231-238) is a placeholder that always returns zeros, and no code calls it.
- Designations given as strings: the model takes the integer that `int()` produces, so `'0018'` is 18. Non-numeric strings (a `ValueError` in `int()`) are not modelled.
- 5-digit string arguments: `NACA_5` reads cl, p and t from the characters of the argument itself (naca.py:222-226), not from the decimal string of `int()` of it. For an integer designation the two agree, which is what the model covers. A string with leading zeros shifts the digit groups: `'00021012'` passes the table lookup (identifier 210) but decodes to cl = 0, p = 0 and t = 0.21, and so takes the p == 0 path. The model does not capture this.
- The constructors' default arguments `num_points = 200` and `half_cosine_spacing = True` (naca.py:31, 93, 202): `NewNaca4` and `NewNaca5` take both as required arguments.
- Python `assert` can be disabled with `-O`. The model always performs the checks.
- The 4-digit chord reference `cl = 1.0` (naca.py:96, 102, 175): `x / cl` is written as `x`, and `cl * p` as `p`.
- The code checks the range 0..99999 for both families; a 4-digit object built from a five-digit number decodes its upper digits into m. The code does not reject fewer than two samples: 0 samples give an empty outline and 1 sample gives a single point. The model follows the code on both.
- Thickness non-negativity on [0, 1] and the maximum thickness of about t/2 (test_naca.py:82-89) are not proved. Only the edge values are.
- The `points` property recomputing on every access (naca.py:42-44) is the function `Naca.Points`.
- example_plot.py (matplotlib plotting and file output) and the test files are not part of this model. The tests serve only as evidence for the example lemmas.

## Findings

| source | as written | input that shows it | evidently intended | confidence | as-written member | corrected member |
|---|---|---|---|---|---|---|
| naca.py:294 | the slope of the rear segment is `cl/0.3 * k1/6 * m^3`, with no minus sign | NACA 23012 at x = 1: the slope is positive while the height falls from x = 0.5 to x = 1 | `-(cl/0.3 * k1/6 * m^3)`, the derivative of `k1/6 * m^3 * (1 - x)` | medium, not executed | Naca.AsWrittenRearSlopeExample | Camber.FiveDigitRearSlopeIsDerivative |
| naca.py:251 | the cubic is used for `x <= p` and the line behind p, both for height (line 265) and for slope (line 289) | NACA 23012: p = 0.15 but m = 0.2025. Just behind p the line lies more than 0.0003 above the cubic's value at p, so the mean line jumps | switch at `x <= m`, the table's m being the point where cubic and line meet with equal height and slope | medium, not executed | Naca.AsWrittenCamberJumps | Camber.FiveDigitSegmentsMeet |

`Camber.HeightAsWritten5` and `Camber.SlopeAsWritten5` model the code as written. `Camber.Height5` and `Camber.Slope5` are the corrected definitions. The points pipeline (`Naca.CamberAt`, `Naca.SlopeAt`, and through them `Naca.Cambers`, `Naca.SurfacesOf` and `Naca.Points`) follows the code as written. The corrected definitions carry the intended properties: the slope is the derivative of the height on each segment (`Camber.FiveDigitFrontSlopeIsDerivative`, `Camber.FiveDigitRearSlopeIsDerivative`) and the segments meet with equal height and slope at m (`Camber.FiveDigitSegmentsMeet`).
