/** The hue-angle rules of CIEDE2000: bringing an arc tangent in degrees into [0, 360),
    the shortest-path hue difference and the circular mean hue, with the fallback used
    when either colour has zero chroma (its hue is then undefined). All angles are in
    degrees. */
module Hue {

  /** math.fabs */
  function Abs(x: real): (r: real)
    ensures r >= 0.0 && (r == x || r == -x)
  {
    if x < 0.0 then -x else x
  }

  /** A hue in the half-open circle [0, 360). */
  predicate InHueRange(h: real) {
    0.0 <= h < 360.0
  }

  /** Both colours have a hue: the product of the adjusted chromas is not zero. */
  predicate Chromatic(c1: real, c2: real) {
    c1 * c2 != 0.0
  }

  /** x brought into [0, 360) by one turn, for x in [-360, 720). */
  function Wrapped(x: real): (r: real)
    ensures r - x in {-360.0, 0.0, 360.0}
    ensures -360.0 <= x < 720.0 ==> InHueRange(r)
  {
    if x < 0.0 then x + 360.0 else if x >= 360.0 then x - 360.0 else x
  }

  /** h' from atan2 in degrees: a negative angle gets one turn added. */
  function NormalisedHue(h: real): (r: real)
    ensures r - h in {0.0, 360.0}
    ensures -360.0 <= h < 360.0 ==> InHueRange(r)
    ensures InHueRange(h) ==> r == h
  {
    if h < 0.0 then h + 360.0 else h
  }

  /** Δh': zero when either chroma is zero, otherwise h2' - h1' moved by a turn onto the
      shorter way round the circle. */
  function DeltaHue(c1: real, c2: real, h1: real, h2: real): (r: real)
    ensures !Chromatic(c1, c2) ==> r == 0.0
    ensures Chromatic(c1, c2) && Abs(h2 - h1) <= 180.0 ==> r == h2 - h1
    ensures Chromatic(c1, c2) && InHueRange(h1) && InHueRange(h2) ==>
      -180.0 <= r <= 180.0 && r - (h2 - h1) in {-360.0, 0.0, 360.0}
  {
    var d := h2 - h1;
    if !Chromatic(c1, c2) then 0.0
    else if Abs(d) <= 180.0 then d
    else if d > 180.0 then d - 360.0
    // the remaining case is d < -180
    else d + 360.0
  }

  /** h̄': h1' + h2' when either chroma is zero, otherwise the mean of the two hues taken
      across the 0/360 seam when they are more than half a turn apart. */
  function MeanHue(c1: real, c2: real, h1: real, h2: real): (r: real)
    ensures !Chromatic(c1, c2) ==> r == h1 + h2
    ensures Chromatic(c1, c2) && InHueRange(h1) && InHueRange(h2) ==> InHueRange(r)
  {
    if !Chromatic(c1, c2) then h1 + h2
    else if Abs(h1 - h2) <= 180.0 then (h1 + h2) / 2.0
    else if h1 + h2 < 360.0 then (h1 + h2 + 360.0) / 2.0
    else (h1 + h2 - 360.0) / 2.0
  }

  /** Swapping the colours negates Δh'. */
  lemma DeltaHueAntisymmetric(c1: real, c2: real, h1: real, h2: real)
    ensures DeltaHue(c2, c1, h2, h1) == -DeltaHue(c1, c2, h1, h2)
  {
  }

  /** Swapping the colours leaves h̄' unchanged. */
  lemma MeanHueSymmetric(c1: real, c2: real, h1: real, h2: real)
    ensures MeanHue(c2, c1, h2, h1) == MeanHue(c1, c2, h1, h2)
  {
  }

  /** h̄' is the midpoint of the shorter arc from h1' to h2': half of Δh' away from each
      end, reduced into [0, 360). In the far-apart branches the added or subtracted 360
      is exactly what moves the plain average onto that arc. */
  lemma MeanHueIsShorterArcMidpoint(c1: real, c2: real, h1: real, h2: real)
    requires Chromatic(c1, c2) && InHueRange(h1) && InHueRange(h2)
    ensures MeanHue(c1, c2, h1, h2) == Wrapped(h1 + DeltaHue(c1, c2, h1, h2) / 2.0)
    ensures MeanHue(c1, c2, h1, h2) == Wrapped(h2 - DeltaHue(c1, c2, h1, h2) / 2.0)
  {
  }

  /** One hue compared with itself: no difference, and a chromatic mean equal to it. */
  lemma SameHue(c: real, h: real)
    ensures DeltaHue(c, c, h, h) == 0.0
    ensures Chromatic(c, c) ==> MeanHue(c, c, h, h) == h
  {
  }
}
