# CIEDE2000 colour difference, modelled in Dafny

This project models `pyciede2000`'s single function `ciede2000(lab1, lab2, k_L, k_C, k_H)`.
The function computes the CIEDE2000 perceptual colour difference ΔE₀₀ between two CIELAB
colours, following Sharma, Wu & Dalal (2005) and Luo, Cui & Rigg (2001). It returns the
distance together with thirteen named intermediates.

The model has four modules:

- `Colors` (colors.dfy): the `Lab` colour, the errors, and input validation. Validation is
  specified by the functions `ColorViolation` and `FirstViolation`. The method `Validate` runs
  the source's nested loops: over the two colours, then over a* and b* of each colour. It is
  proved to raise exactly the error the specification picks.
- `Hue` (hue.dfy): the discrete hue rules, each a case split over exact real comparisons.
  These are h' normalisation, the shortest-path difference Δh', the circular mean h̄', and their
  zero-chroma fallbacks.
- `Transcendental` (transcendental.dfy): the library calls (`sqrt`, `sin`, `cos`, `exp`,
  `atan2`, `pi`) are passed in as one `Math` value. The predicate `Lawful` lists the only facts
  the proofs use about them:
  - on the non-negative reals `sqrt` is the non-negative square root, and `sqrt(0) = 0`.
    Nothing is assumed about `sqrt` of a negative number, where `math.sqrt` raises;
  - `sin(0) = 0`;
  - `sin` and `cos` stay in [-1, 1];
  - `atan2` lies in [-π, π], with π > 0.

  `pow` with a natural exponent is computed exactly (`Pow`).
- `ColorDifference` (ciede2000.dfy): the `Components` record of the fourteen results, one
  function per weighting term, `Compute` (the whole formula for two valid colours), and the
  method `Ciede2000` that validates and then computes. Its weighting factors default to 1, as
  in the source.

The source raises Python exceptions. The model returns them as values of
`Result<Components> = Ok(value) | Err(error)`, where the error is one of:

- `InvalidColorValues(tuple)`: bad length; it carries the whole tuple.
- `InvalidLabValues(lab)`: a component out of range; it carries only that component.
- `ZeroDivision`: a weighting factor is zero. Python raises `ZeroDivisionError` for this in
  the final division.

Every floating-point value is modelled as an exact `real`.

## Model

| member | source | states |
|---|---|---|
| Colors.AsLab | src/pyciede2000/ciede2000.py:99-100 | unpacking a 3-tuple into (L*, a*, b*) keeps the components in order |
| Colors.ColorViolation | src/pyciede2000/ciede2000.py:89-97 | one colour raises nothing iff it has 3 components with L* in [0,100] and a*, b* in [-128,127]; a wrong length reports the whole tuple; otherwise the first failing component in the order L*, a*, b* is reported as that scalar |
| Colors.FirstViolation | src/pyciede2000/ciede2000.py:87-97 | validation of a pair succeeds iff both colours are valid; if colour 1 is invalid its error is reported, otherwise colour 2's |
| Colors.Validate | src/pyciede2000/ciede2000.py:87-97 | the nested loop over (lab1, lab2) and `color[1:]`, stopping at the first failed check, returns exactly the error FirstViolation specifies |
| Colors.BoundariesAccepted | src/pyciede2000/ciede2000.py:92-97 | the boundary values 0 and 100 for L* and -128 and 127 for a* and b* are accepted |
| Colors.RejectionExamples | src/pyciede2000/ciede2000.py:50-69 | L* = 100.0001 and a* = -128.1 raise a range error carrying that scalar; 2- and 4-component tuples raise a shape error carrying the tuple; colour 1's fault is reported before colour 2's |
| Transcendental.Pow | src/pyciede2000/ciede2000.py:101-105 | a power of a positive base is positive, of a non-negative base non-negative, and a positive power of zero is zero |
| Transcendental.Square | src/pyciede2000/ciede2000.py:101-102 | `pow(x, 2)` is x·x and never negative |
| Transcendental.SqrtPositive | src/pyciede2000/ciede2000.py:150 | the square root of a positive number is positive, so the S_L denominator sqrt(20 + (L̄' - 50)²) is never zero |
| Transcendental.SqrtBelowOne | src/pyciede2000/ciede2000.py:105 | the square root of a number in [0, 1) lies in [0, 1); this bounds G and R_C |
| Transcendental.Degrees | src/pyciede2000/ciede2000.py:111 | an angle in [-π, π] converts to degrees in [-180, 180] |
| Transcendental.Radians | src/pyciede2000/ciede2000.py:128 | zero degrees is zero radians |
| Hue.Abs | src/pyciede2000/ciede2000.py:121 | fabs is non-negative and equals x or -x |
| Hue.Wrapped | src/pyciede2000/ciede2000.py:135-141 | moving by at most one turn brings any angle in [-360, 720) into [0, 360) |
| Hue.NormalisedHue | src/pyciede2000/ciede2000.py:111-114 | h' differs from the raw angle by 0 or 360, lies in [0, 360) for any raw angle in [-360, 360), and an angle already in range is unchanged |
| Hue.DeltaHue | src/pyciede2000/ciede2000.py:118-126 | Δh' is 0 when C1'·C2' = 0; otherwise it is exactly h2' - h1' whenever \|h2' - h1'\| ≤ 180 (so +180 and -180 keep their sign), and for hues in [0, 360) it lies in [-180, 180] and differs from h2' - h1' by -360, 0 or 360 |
| Hue.MeanHue | src/pyciede2000/ciede2000.py:132-141 | h̄' is h1' + h2' when C1'·C2' = 0, with no wraparound; otherwise, for hues in [0, 360), h̄' is in [0, 360) |
| Hue.DeltaHueAntisymmetric | src/pyciede2000/ciede2000.py:118-126 | swapping the two colours negates Δh' |
| Hue.MeanHueSymmetric | src/pyciede2000/ciede2000.py:132-141 | swapping the two colours leaves h̄' unchanged |
| Hue.MeanHueIsShorterArcMidpoint | src/pyciede2000/ciede2000.py:135-141 | for chromatic hues in [0, 360), h̄' is the midpoint of the shorter arc: h1' + Δh'/2 and h2' - Δh'/2, each reduced into [0, 360); the ±360 of the far-apart branches is exactly this reduction |
| Hue.SameHue | src/pyciede2000/ciede2000.py:118-141 | a hue compared with itself gives Δh' = 0, and for a chromatic colour h̄' = h' |
| ColorDifference.Ratio7 | src/pyciede2000/ciede2000.py:105 | C⁷/(C⁷+25⁷) lies in [0, 1) for C ≥ 0 and is 0 at C = 0, so its denominator is never zero |
| ColorDifference.Chroma | src/pyciede2000/ciede2000.py:109-110 | the chroma sqrt(a² + b²) is non-negative, and zero for a = b = 0 |
| ColorDifference.ChromaCompensation | src/pyciede2000/ciede2000.py:105 | G lies in [0, 0.5], and equals 0.5 for a mean raw chroma of 0 |
| ColorDifference.HueAngle | src/pyciede2000/ciede2000.py:111-114 | h' = degrees(atan2(b*, a')), normalised, lies in [0, 360) |
| ColorDifference.HueDifference | src/pyciede2000/ciede2000.py:128 | ΔH' is zero when Δh' is zero |
| ColorDifference.HueWeighting | src/pyciede2000/ciede2000.py:143-144 | T lies in [0.07, 1.93] |
| ColorDifference.LightnessWeight | src/pyciede2000/ciede2000.py:150 | S_L ≥ 1 (its square-root denominator is positive), with S_L = 1 at L̄' = 50 |
| ColorDifference.ChromaWeight | src/pyciede2000/ciede2000.py:151 | S_C ≥ 1 exactly when C̄' ≥ 0 |
| ColorDifference.HueWeight | src/pyciede2000/ciede2000.py:152 | S_H ≥ 1 whenever C̄' ≥ 0 and T ≥ 0 |
| ColorDifference.RotationTerm | src/pyciede2000/ciede2000.py:146-153 | R_T lies in [-2, 2] |
| ColorDifference.Radicand | src/pyciede2000/ciede2000.py:155-159 | the radicand is zero when ΔL', ΔC' and ΔH' are all zero, and never negative when R_T lies in [-2, 2], so the final `sqrt` never meets a negative argument |
| ColorDifference.CrossTermNonNegative | src/pyciede2000/ciede2000.py:156-158 | y² + z² + R_T·y·z ≥ 0 for \|R_T\| ≤ 2, being (y + R_T·z/2)² + (1 - R_T²/4)·z² |
| ColorDifference.WeightedSquareDecreasing | src/pyciede2000/ciede2000.py:155-157 | for a non-zero difference d, (d/q)² strictly decreases as the positive divisor q = k·S grows; this holds for each of the three squared terms |
| ColorDifference.LightnessTermDecreasesInKL | src/pyciede2000/ciede2000.py:155 | with ΔL' ≠ 0 and S_L ≥ 1, raising k_L strictly decreases the radicand, all else fixed |
| ColorDifference.Compute | src/pyciede2000/ciede2000.py:99-159 | for valid colours and non-zero weights every division is defined; C1', C2' ≥ 0; h1', h2' are in [0, 360); h̄' is in [0, 360) when both chromas are non-zero and is h1' + h2' otherwise; G in [0, 0.5]; T in [0.07, 1.93]; S_L, S_C, S_H ≥ 1; R_T in [-2, 2]; ΔE₀₀ ≥ 0, as the square root of a radicand proved non-negative |
| ColorDifference.Ciede2000 | src/pyciede2000/ciede2000.py:74-176 | the weighting factors default to 1; the result is Ok iff both colours are valid and no weight is zero; a validation error is exactly FirstViolation's, and it takes precedence over a zero weight; on success the record is Compute of the two colours |
| ColorDifference.IdenticalColorsHaveZeroDifference | src/pyciede2000/ciede2000.py:116-159 | for lab1 = lab2: ΔL' = ΔC' = Δh' = 0, hence ΔH' = 0 and ΔE₀₀ = 0 |
| ColorDifference.AchromaticFallback | src/pyciede2000/ciede2000.py:107-134 | a colour with a* = b* = 0 has a' = 0 and C' = 0, so the pair takes the zero-chroma fallback h̄' = h1' + h2' without any division by zero |

The lemmas `Transcendental.MulNonNegative`, `ColorDifference.SquareOfQuotientIgnoresSign`,
`ColorDifference.QuotientDecreasing`, `ColorDifference.SquareIncreasing` and
`ColorDifference.SquaresOrdered` are arithmetic steps of the proofs above. They have no
counterpart in the source.

## Left out

- IEEE-754 semantics: rounding, underflow, NaN and infinities. Values are exact reals.
  - `if(C_1_dash*C_2_dash)` (line 120) is modelled as an exact `!= 0`. An underflowed
    product is not modelled.
  - A NaN component would pass the validation comparisons. This is not modelled.
  - The unreachable fall-through of lines 121-126 (no branch taken, Δh' left at 0.0) needs a
    NaN. The model writes the last `elif` as a plain `else`.
- The actual values of sqrt, sin, cos, exp, atan2 and π. They are parameters, constrained
  only by `Lawful`.
  - Agreement with the Sharma et al. reference vectors (for example ΔE₀₀ ≈ 2.0425) cannot be
    stated.
  - ΔE₀₀ being symmetric under swapping the colours is left out. Its proof also needs sine to
    be odd, and unfolding the whole formula for both orders is beyond the solver budget here.
    `Hue.DeltaHueAntisymmetric` and `Hue.MeanHueSymmetric` state the hue parts of it.
  - The monotonicity of the whole radicand in k_C and k_H is left out. Those weights also
    divide the cross term R_T·(ΔC'/(k_C·S_C))·(ΔH'/(k_H·S_H)), whose sign depends on sine, so
    the radicand need not shrink. Each squared term alone does shrink
    (`ColorDifference.WeightedSquareDecreasing`).
- Non-numeric tuple components (Python's `TypeError`) are not modelled. Tuples are sequences
  of reals.
- Exception message strings and `__str__` formatting (lines 55-56, 71-72).
- The `Dict` return type. It is the `Components` record.
- ColorDifference.HueDifference: states only that ΔH' vanishes with Δh'. Its value and sign
  depend on the real sine, which the model does not interpret.
