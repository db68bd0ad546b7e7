/** The CIEDE2000 colour difference of two CIELAB colours (Sharma, Wu and Dalal 2005;
    Luo, Cui and Rigg 2001): validation, the primed chroma and hue of each colour, the
    weighting functions, and the final distance together with its named intermediates. */
module ColorDifference {
  import opened Colors
  import opened Hue
  import opened Transcendental

  /** The fourteen named quantities the calculator returns. */
  datatype Components = Components(
    a1Dash: real, a2Dash: real,
    C1Dash: real, C2Dash: real,
    h1Dash: real, h2Dash: real, hBarDash: real,
    G: real, T: real,
    SL: real, SH: real, SC: real,
    RT: real,
    deltaE00: real)

  /** C^7 / (C^7 + 25^7), the saturation ratio inside G and R_C. */
  function Ratio7(c: real): (q: real)
    requires c >= 0.0
    ensures 0.0 <= q < 1.0
    ensures c == 0.0 ==> q == 0.0
  {
    var p := Pow(c, 7);
    var k := Pow(25.0, 7);
    var q := p / (p + k);
    assert q * (p + k) == p;
    q
  }

  /** Chroma magnitude sqrt(x^2 + y^2). */
  function Chroma(m: Math, x: real, y: real): (c: real)
    requires Lawful(m)
    ensures c >= 0.0
    ensures x == 0.0 && y == 0.0 ==> c == 0.0
  {
    Square(x); Square(y);
    m.sqrt(Pow(x, 2) + Pow(y, 2))
  }

  /** G: half of one minus the square root of the saturation ratio of the mean raw
      chroma; it stretches a* for near-neutral colours. */
  function ChromaCompensation(m: Math, cBar: real): (g: real)
    requires Lawful(m) && cBar >= 0.0
    ensures 0.0 <= g <= 0.5
    ensures cBar == 0.0 ==> g == 0.5
  {
    SqrtBelowOne(m, Ratio7(cBar));
    0.5 * (1.0 - m.sqrt(Ratio7(cBar)))
  }

  /** h' of a colour from b* and a'. */
  function HueAngle(m: Math, b: real, aDash: real): (h: real)
    requires Lawful(m)
    ensures InHueRange(h)
  {
    NormalisedHue(Degrees(m, m.atan2(b, aDash)))
  }

  /** ΔH' = 2 sqrt(C1' C2') sin(Δh' / 2), the hue difference weighted by chroma. */
  function HueDifference(m: Math, c1: real, c2: real, dh: real): (r: real)
    requires Lawful(m)
    ensures dh == 0.0 ==> r == 0.0
  {
    2.0 * m.sqrt(c1 * c2) * m.sin(Radians(m, dh) / 2.0)
  }

  /** T, the hue-dependent term of S_H. */
  function HueWeighting(m: Math, hBar: real): (t: real)
    requires Lawful(m)
    ensures 0.07 <= t <= 1.93
  {
    1.0 - 0.17 * m.cos(Radians(m, hBar - 30.0))
        + 0.24 * m.cos(Radians(m, 2.0 * hBar))
        + 0.32 * m.cos(Radians(m, 3.0 * hBar + 6.0))
        - 0.20 * m.cos(Radians(m, 4.0 * hBar - 63.0))
  }

  /** S_L, the lightness weighting; it is smallest, 1, at L̄' = 50. */
  function LightnessWeight(m: Math, lBar: real): (s: real)
    requires Lawful(m)
    ensures s >= 1.0
    ensures lBar == 50.0 ==> s == 1.0
  {
    var d2 := Pow(lBar - 50.0, 2);
    Square(lBar - 50.0);
    SqrtPositive(m, 20.0 + d2);
    var s := 1.0 + (0.015 * d2) / m.sqrt(20.0 + d2);
    assert (0.015 * d2) / m.sqrt(20.0 + d2) >= 0.0;
    s
  }

  /** S_C, the chroma weighting. */
  function ChromaWeight(cBar: real): (s: real)
    ensures s >= 1.0 <==> cBar >= 0.0
  {
    1.0 + 0.045 * cBar
  }

  /** S_H, the hue weighting. */
  function HueWeight(cBar: real, t: real): (s: real)
    ensures cBar >= 0.0 && t >= 0.0 ==> s >= 1.0
  {
    1.0 + 0.015 * cBar * t
  }

  /** R_T, the rotation term for the blue region: -R_C sin(2 Δθ) with
      Δθ = 30 exp(-((h̄' - 275) / 25)^2) and R_C = 2 sqrt(C̄'^7 / (C̄'^7 + 25^7)). */
  function RotationTerm(m: Math, cBar: real, hBar: real): (rt: real)
    requires Lawful(m) && cBar >= 0.0
    ensures -2.0 <= rt <= 2.0
  {
    var deltaTheta := 30.0 * m.exp(-Pow((hBar - 275.0) / 25.0, 2));
    SqrtBelowOne(m, Ratio7(cBar));
    var rC := 2.0 * m.sqrt(Ratio7(cBar));
    var s := m.sin(2.0 * Radians(m, deltaTheta));
    assert 0.0 <= rC <= 2.0 && -1.0 <= s <= 1.0;
    assert -2.0 <= rC * s <= 2.0 by {
      if s >= 0.0 { assert rC * s <= 2.0 * s; } else { assert rC * s >= 2.0 * s; }
    }
    -rC * s
  }

  /** y^2 + z^2 + rt y z is never negative when |rt| <= 2: it equals
      (y + rt z / 2)^2 + (1 - rt^2 / 4) z^2. */
  lemma CrossTermNonNegative(y: real, z: real, rt: real)
    ensures -2.0 <= rt <= 2.0 ==> y * y + z * z + rt * y * z >= 0.0
  {
    if rt < -2.0 || rt > 2.0 { return; }
    var w := y + rt * z / 2.0;
    assert w * w == y * y + rt * y * z + rt * rt * (z * z) / 4.0;
    MulNonNegative(2.0 - rt, 2.0 + rt);
    assert (2.0 - rt) * (2.0 + rt) == 4.0 - rt * rt;
    MulNonNegative(4.0 - rt * rt, z * z);
    Square(w);
    assert y * y + z * z + rt * y * z == w * w + (4.0 - rt * rt) * (z * z) / 4.0;
  }

  /** The radicand of ΔE00: the three weighted differences squared plus the rotation
      cross term of the chroma and hue differences. With R_T in [-2, 2], as the rotation
      term always is, it is never negative, so the final square root is always defined. */
  function Radicand(dL: real, dC: real, dH: real, qL: real, qC: real, qH: real, rt: real): (r: real)
    requires qL != 0.0 && qC != 0.0 && qH != 0.0
    ensures dL == 0.0 && dC == 0.0 && dH == 0.0 ==> r == 0.0
    ensures -2.0 <= rt <= 2.0 ==> r >= 0.0
  {
    Square(dL / qL); Square(dC / qC); Square(dH / qH);
    CrossTermNonNegative(dC / qC, dH / qH, rt);
    Pow(dL / qL, 2) + Pow(dC / qC, 2) + Pow(dH / qH, 2) + rt * (dC / qC) * (dH / qH)
  }

  /** The square of d / q shrinks strictly as a positive q grows, for d != 0. */
  lemma {:induction false} WeightedSquareDecreasing(d: real, q1: real, q2: real)
    requires d != 0.0 && 0.0 < q1 < q2
    ensures Pow(d / q2, 2) < Pow(d / q1, 2)
  {
    var x := Abs(d);
    SquareOfQuotientIgnoresSign(d, q1);
    SquareOfQuotientIgnoresSign(d, q2);
    QuotientDecreasing(x, q1, q2);
    SquareIncreasing(x / q2, x / q1);
  }

  /** (d / q)^2 == (|d| / q)^2 */
  lemma SquareOfQuotientIgnoresSign(d: real, q: real)
    requires q > 0.0
    ensures Pow(d / q, 2) == Pow(Abs(d) / q, 2)
  {
    Square(d / q); Square(Abs(d) / q);
    if d < 0.0 {
      assert (-d) / q == -(d / q);
    }
  }

  /** x / q shrinks, staying positive, as a positive q grows. */
  lemma QuotientDecreasing(x: real, q1: real, q2: real)
    requires x > 0.0 && 0.0 < q1 < q2
    ensures 0.0 < x / q2 < x / q1
  {
    var u, v := x / q2, x / q1;
    assert u * q2 == x && v * q1 == x;
  }

  /** Squaring is strictly increasing on the positive reals. */
  lemma SquareIncreasing(u: real, v: real)
    requires 0.0 < u < v
    ensures Pow(u, 2) < Pow(v, 2)
  {
    Square(u); Square(v);
    SquaresOrdered(u, v, Pow(u, 2), Pow(v, 2));
  }

  lemma SquaresOrdered(u: real, v: real, p: real, q: real)
    requires 0.0 < u < v && p == u * u && q == v * v
    ensures p < q
  {
    assert u * u < u * v;
    assert u * v < v * v;
  }

  /** Raising k_L strictly shrinks the lightness term of the radicand when ΔL' != 0,
      and leaves the other terms as they are. */
  lemma LightnessTermDecreasesInKL(dL: real, dC: real, dH: real, sL: real, qC: real, qH: real,
                                   rt: real, kL1: real, kL2: real)
    requires dL != 0.0 && sL >= 1.0 && 0.0 < kL1 < kL2 && qC != 0.0 && qH != 0.0
    ensures Radicand(dL, dC, dH, kL2 * sL, qC, qH, rt) < Radicand(dL, dC, dH, kL1 * sL, qC, qH, rt)
  {
    MulNonNegative(kL1, sL);
    assert kL1 * sL < kL2 * sL;
    WeightedSquareDecreasing(dL, kL1 * sL, kL2 * sL);
  }

  /** The formula for two valid colours and non-zero weighting factors. */
  function Compute(m: Math, lab1: Lab, lab2: Lab, kL: real, kC: real, kH: real): (r: Components)
    requires Lawful(m) && kL != 0.0 && kC != 0.0 && kH != 0.0
    ensures r.C1Dash >= 0.0 && r.C2Dash >= 0.0
    ensures InHueRange(r.h1Dash) && InHueRange(r.h2Dash)
    ensures Chromatic(r.C1Dash, r.C2Dash) ==> InHueRange(r.hBarDash)
    ensures !Chromatic(r.C1Dash, r.C2Dash) ==> r.hBarDash == r.h1Dash + r.h2Dash
    ensures 0.0 <= r.G <= 0.5
    ensures 0.07 <= r.T <= 1.93
    ensures r.SL >= 1.0 && r.SC >= 1.0 && r.SH >= 1.0
    ensures -2.0 <= r.RT <= 2.0
    ensures r.deltaE00 >= 0.0
  {
    var c1Star := Chroma(m, lab1.a, lab1.b);
    var c2Star := Chroma(m, lab2.a, lab2.b);
    var g := ChromaCompensation(m, (c1Star + c2Star) / 2.0);
    var a1Dash := (1.0 + g) * lab1.a;
    var a2Dash := (1.0 + g) * lab2.a;
    var c1Dash := Chroma(m, a1Dash, lab1.b);
    var c2Dash := Chroma(m, a2Dash, lab2.b);
    var h1Dash := HueAngle(m, lab1.b, a1Dash);
    var h2Dash := HueAngle(m, lab2.b, a2Dash);
    var dL := lab2.L - lab1.L;
    var dC := c2Dash - c1Dash;
    var dH := HueDifference(m, c1Dash, c2Dash, DeltaHue(c1Dash, c2Dash, h1Dash, h2Dash));
    var lBar := (lab1.L + lab2.L) / 2.0;
    var cBar := (c1Dash + c2Dash) / 2.0;
    var hBar := MeanHue(c1Dash, c2Dash, h1Dash, h2Dash);
    var t := HueWeighting(m, hBar);
    var sL := LightnessWeight(m, lBar);
    var sC := ChromaWeight(cBar);
    var sH := HueWeight(cBar, t);
    var rT := RotationTerm(m, cBar, hBar);
    var radicand := Radicand(dL, dC, dH, kL * sL, kC * sC, kH * sH, rT);
    var deltaE := m.sqrt(radicand);
    Components(a1Dash, a2Dash, c1Dash, c2Dash, h1Dash, h2Dash, hBar, g, t, sL, sH, sC, rT, deltaE)
  }

  /** The calculator: validate both colours (the first failed check wins), then compute.
      The weighting factors default to 1. A zero weighting factor fails in the final
      division, after validation. */
  method Ciede2000(m: Math, lab1: seq<real>, lab2: seq<real>,
                   kL: real := 1.0, kC: real := 1.0, kH: real := 1.0)
    returns (r: Result<Components>)
    requires Lawful(m)
    ensures r.Ok? <==> IsLab(lab1) && IsLab(lab2) && kL != 0.0 && kC != 0.0 && kH != 0.0
    ensures r.Err? && r.error != ZeroDivision ==> FirstViolation(lab1, lab2) == Some(r.error)
    ensures r == Err(ZeroDivision) ==> IsLab(lab1) && IsLab(lab2)
    ensures r.Ok? ==> r.value == Compute(m, AsLab(lab1), AsLab(lab2), kL, kC, kH)
  {
    var err := Validate(lab1, lab2);
    if err.Some? {
      return Err(err.value);
    }
    if kL == 0.0 || kC == 0.0 || kH == 0.0 {
      return Err(ZeroDivision);
    }
    return Ok(Compute(m, AsLab(lab1), AsLab(lab2), kL, kC, kH));
  }

  /** A colour has no difference from itself: ΔL', ΔC' and Δh' are zero, hence ΔH' and
      the radicand are zero, and ΔE00 = sqrt(0) = 0. */
  lemma IdenticalColorsHaveZeroDifference(m: Math, lab: Lab, kL: real, kC: real, kH: real)
    requires Lawful(m) && kL != 0.0 && kC != 0.0 && kH != 0.0
    ensures Compute(m, lab, lab, kL, kC, kH).deltaE00 == 0.0
  {
  }

  /** An achromatic colour (a* = b* = 0) has zero adjusted chroma, so the pair takes the
      zero-chroma fallbacks for hue and the formula stays defined. */
  lemma AchromaticFallback(m: Math, lab1: Lab, lab2: Lab, kL: real, kC: real, kH: real)
    requires Lawful(m) && kL != 0.0 && kC != 0.0 && kH != 0.0
    requires lab1.a == 0.0 && lab1.b == 0.0
    ensures Compute(m, lab1, lab2, kL, kC, kH).a1Dash == 0.0
    ensures Compute(m, lab1, lab2, kL, kC, kH).C1Dash == 0.0
    ensures Compute(m, lab1, lab2, kL, kC, kH).hBarDash ==
            Compute(m, lab1, lab2, kL, kC, kH).h1Dash + Compute(m, lab1, lab2, kL, kC, kH).h2Dash
  {
  }
}
