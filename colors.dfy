/** The input side of the CIEDE2000 calculator: colours in CIELAB, the two validation
    errors the calculator raises, and the order in which it checks its inputs. */
module Colors {

  /** A colour in CIELAB: lightness L*, red-green a*, yellow-blue b*. */
  datatype Lab = Lab(L: real, a: real, b: real)

  /** The calculator's failures. InvalidColorValues carries the whole offending tuple,
      InvalidLabValues only the offending component. ZeroDivision is the division by a
      zero weighting factor k_L, k_C or k_H in the final distance. */
  datatype Error =
    | InvalidColorValues(tuple: seq<real>)
    | InvalidLabValues(lab: real)
    | ZeroDivision

  datatype Option<T> = None | Some(value: T)

  datatype Result<T> = Ok(value: T) | Err(error: Error)

  /** Component i of a colour is in its range: L* in [0, 100], a* and b* in [-128, 127]. */
  predicate ComponentInRange(i: nat, x: real) {
    if i == 0 then 0.0 <= x <= 100.0 else -128.0 <= x <= 127.0
  }

  /** A tuple the calculator accepts as a colour. */
  predicate IsLab(color: seq<real>) {
    |color| == 3 && forall i :: 0 <= i < 3 ==> ComponentInRange(i, color[i])
  }

  /** The unpacking `L, a, b = color` of a 3-tuple. */
  function AsLab(color: seq<real>): (r: Lab)
    requires |color| == 3
    ensures [r.L, r.a, r.b] == color
  {
    Lab(color[0], color[1], color[2])
  }

  /** The range check of component i is the first one of a 3-tuple to fail. */
  predicate FirstOutOfRange(color: seq<real>, i: nat) {
    && |color| == 3
    && i < 3
    && !ComponentInRange(i, color[i])
    && forall j :: 0 <= j < i ==> ComponentInRange(j, color[j])
  }

  /** The error the checks of one colour raise, in their order: length, then L*, then
      a*, then b*. */
  function ColorViolation(color: seq<real>): (r: Option<Error>)
    ensures r.None? <==> IsLab(color)
    ensures |color| != 3 ==> r == Some(InvalidColorValues(color))
    ensures forall i: nat :: FirstOutOfRange(color, i) ==> r == Some(InvalidLabValues(color[i]))
  {
    if |color| != 3 then Some(InvalidColorValues(color))
    else if color[0] < 0.0 || color[0] > 100.0 then Some(InvalidLabValues(color[0]))
    else if color[1] < -128.0 || color[1] > 127.0 then Some(InvalidLabValues(color[1]))
    else if color[2] < -128.0 || color[2] > 127.0 then Some(InvalidLabValues(color[2]))
    else None
  }

  /** The error the validation of a pair of colours raises: the first colour is checked
      completely before the second. */
  function FirstViolation(lab1: seq<real>, lab2: seq<real>): (r: Option<Error>)
    ensures r.None? <==> IsLab(lab1) && IsLab(lab2)
    ensures !IsLab(lab1) ==> r == ColorViolation(lab1)
    ensures IsLab(lab1) ==> r == ColorViolation(lab2)
  {
    if ColorViolation(lab1).Some? then ColorViolation(lab1) else ColorViolation(lab2)
  }

  /** The validation loops: over the two colours, and within a colour over a* and b*,
      stopping at the first failed check. */
  method Validate(lab1: seq<real>, lab2: seq<real>) returns (err: Option<Error>)
    ensures err == FirstViolation(lab1, lab2)
  {
    var colors := [lab1, lab2];
    var k := 0;
    while k < |colors|
      invariant 0 <= k <= |colors|
      invariant forall j :: 0 <= j < k ==> IsLab(colors[j])
      invariant k == 1 ==> IsLab(lab1)
    {
      var color := colors[k];
      if |color| != 3 {
        return Some(InvalidColorValues(color));
      }
      if color[0] < 0.0 || color[0] > 100.0 {
        return Some(InvalidLabValues(color[0]));
      }
      var ab := color[1..];
      var i := 0;
      while i < |ab|
        invariant 0 <= i <= |ab|
        invariant forall j :: 0 <= j < i ==> -128.0 <= ab[j] <= 127.0
      {
        if ab[i] < -128.0 || ab[i] > 127.0 {
          return Some(InvalidLabValues(ab[i]));
        }
        i := i + 1;
      }
      assert IsLab(color);
      k := k + 1;
    }
    assert IsLab(colors[0]) && IsLab(colors[1]);
    return None;
  }

  /** The boundary values of every range are accepted. */
  lemma BoundariesAccepted()
    ensures FirstViolation([0.0, -128.0, -128.0], [100.0, 127.0, 127.0]).None?
  {
  }

  /** Just outside a range, or a tuple of the wrong length, is rejected with the right
      payload, and the first colour's fault is reported before the second's. */
  lemma RejectionExamples()
    ensures FirstViolation([100.0001, 0.0, 0.0], [50.0, 0.0, 0.0]) == Some(InvalidLabValues(100.0001))
    ensures FirstViolation([50.0, -128.1, 0.0], [50.0, 0.0, 0.0]) == Some(InvalidLabValues(-128.1))
    ensures FirstViolation([50.0, 0.0], [50.0, 0.0, 0.0]) == Some(InvalidColorValues([50.0, 0.0]))
    ensures FirstViolation([50.0, 0.0, 0.0], [50.0, 0.0, 0.0, 0.0]) == Some(InvalidColorValues([50.0, 0.0, 0.0, 0.0]))
    ensures FirstViolation([50.0, 200.0, 0.0], [50.0, 0.0]) == Some(InvalidLabValues(200.0))
  {
  }
}
