// The JavaScript helper library mathUtils.js shipped with the 1.3 components:
// clamping, linear interpolation and linear projection between ranges.
module MathUtils {
  import opened Common

  /**
   * clamp(x, min, max): with ordered bounds the value is pulled into
   * [min, max]; with reversed bounds the call is repeated with the bounds
   * swapped.
   */
  function Clamp(x: real, min: real, max: real): (r: real)
    ensures min <= max ==> min <= r <= max
    ensures max < min ==> max <= r <= min
    ensures (min <= x <= max || max <= x <= min) ==> r == x
    decreases if min <= max then 0 else 1
  {
    if min <= max then MaxR(min, MinR(x, max)) else Clamp(x, max, min)
  }

  /** With reversed bounds clamp is clamp with the bounds swapped, and that call does not recurse again. */
  lemma ClampSwap(x: real, min: real, max: real)
    requires max < min
    ensures Clamp(x, min, max) == Clamp(x, max, min) == MaxR(max, MinR(x, min))
  {
  }

  /** clamp only cuts off: below the range it yields the lower bound, above it the upper bound. */
  lemma ClampOutside(x: real, min: real, max: real)
    requires min <= max
    ensures x < min ==> Clamp(x, min, max) == min
    ensures x > max ==> Clamp(x, min, max) == max
  {
  }

  /** lerp(delta, from, to) = (1 - delta) * from + delta * to. */
  function Lerp(delta: real, from: real, to: real): (r: real)
    ensures r == from + delta * (to - from)
  {
    (1.0 - delta) * from + delta * to
  }

  lemma LerpEnds(from: real, to: real)
    ensures Lerp(0.0, from, to) == from
    ensures Lerp(1.0, from, to) == to
  {
  }

  /**
   * projectValue(x, xmin, xmax, ymin, ymax). JavaScript divides by
   * xmax - xmin without a guard; an empty source range gives NaN or an
   * infinity, which is None here.
   */
  function ProjectValue(x: real, xmin: real, xmax: real, ymin: real, ymax: real): (r: Option<real>)
    ensures r.None? <==> xmin == xmax
    ensures r.Some? ==> r.value == ymin + (x - xmin) * (ymax - ymin) / (xmax - xmin)
  {
    if xmax == xmin then None
    else
      var v := ((x - xmin) * ymax - (x - xmax) * ymin) / (xmax - xmin);
      ProjectionForm(x, xmin, xmax, ymin, ymax);
      Some(v)
  }

  lemma ProjectionForm(x: real, xmin: real, xmax: real, ymin: real, ymax: real)
    requires xmin != xmax
    ensures ((x - xmin) * ymax - (x - xmax) * ymin) / (xmax - xmin)
         == ymin + (x - xmin) * (ymax - ymin) / (xmax - xmin)
  {
    var d := xmax - xmin;
    calc {
      (x - xmin) * ymax - (x - xmax) * ymin;
      (x - xmin) * ymax - (x - xmin) * ymin + (xmax - xmin) * ymin;
      (x - xmin) * (ymax - ymin) + d * ymin;
    }
    assert ((x - xmin) * (ymax - ymin) + d * ymin) / d == (x - xmin) * (ymax - ymin) / d + ymin;
  }

  /** The end points of the source range map to the end points of the target range. */
  lemma ProjectEnds(xmin: real, xmax: real, ymin: real, ymax: real)
    requires xmin != xmax
    ensures ProjectValue(xmin, xmin, xmax, ymin, ymax) == Some(ymin)
    ensures ProjectValue(xmax, xmin, xmax, ymin, ymax) == Some(ymax)
  {
    DivCancel(xmax - xmin, ymax - ymin);
    var r := ProjectValue(xmax, xmin, xmax, ymin, ymax);
    assert r.value == ymin + (xmax - xmin) * (ymax - ymin) / (xmax - xmin);
    assert r.value == ymax;
    assert r == Some(ymax);
  }

  lemma DivCancel(d: real, w: real)
    requires d != 0.0
    ensures d * w / d == w
  {
  }

  /** clampAndProject: projectValue of x clamped to [xmin, xmax]. */
  function ClampAndProject(x: real, xmin: real, xmax: real, ymin: real, ymax: real): (r: Option<real>)
    ensures r.None? <==> xmin == xmax
  {
    ProjectValue(Clamp(x, xmin, xmax), xmin, xmax, ymin, ymax)
  }

  /** With increasing ranges, the clamped projection never leaves [ymin, ymax]. */
  lemma ClampAndProjectBounded(x: real, xmin: real, xmax: real, ymin: real, ymax: real)
    requires xmin < xmax && ymin <= ymax
    ensures ClampAndProject(x, xmin, xmax, ymin, ymax).Some?
    ensures ymin <= ClampAndProject(x, xmin, xmax, ymin, ymax).value <= ymax
  {
    var c := Clamp(x, xmin, xmax);
    assert xmin <= c <= xmax;
    var r := ClampAndProject(x, xmin, xmax, ymin, ymax);
    assert r == ProjectValue(c, xmin, xmax, ymin, ymax);
    var q := (c - xmin) * (ymax - ymin) / (xmax - xmin);
    ScaledFraction(c - xmin, xmax - xmin, ymax - ymin);
    assert 0.0 <= q <= ymax - ymin;
    assert r.value == ymin + q;
  }

  lemma ScaledFraction(a: real, d: real, w: real)
    requires d > 0.0 && 0.0 <= a <= d && w >= 0.0
    ensures 0.0 <= a * w / d <= w
  {
    var q := a * w / d;
    assert q * d == a * w;
    assert a * w <= d * w;
  }

  /** Inside the source range clamping has no effect. */
  lemma ClampAndProjectInside(x: real, xmin: real, xmax: real, ymin: real, ymax: real)
    requires xmin <= x <= xmax
    ensures ClampAndProject(x, xmin, xmax, ymin, ymax) == ProjectValue(x, xmin, xmax, ymin, ymax)
  {
  }
}
