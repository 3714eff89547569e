/**
 * Curve construction and sampling (geometric_analysis.js `analyzeFlowAngle`
 * control points and `sampleCurve`).
 */
module Bezier {
  import opened Geometry

  /** A sampled point of a curve together with its curve parameter. */
  datatype Sample = Sample(pt: Point, t: real)

  /** One petal curve: its side index, end points, control points and samples. */
  datatype Curve = Curve(index: nat, start: Point, end: Point, cp1: Point, cp2: Point, samples: seq<Sample>)

  /** The sample count the analyzer uses for every curve. */
  const SampleCount: nat := 100

  /** The cubic Bernstein blend of four coordinates at parameter t. */
  function Blend(p0: real, c1: real, c2: real, p1: real, t: real): real
  {
    var mt := 1.0 - t;
    var mt2 := mt * mt;
    var mt3 := mt2 * mt;
    var t2 := t * t;
    var t3 := t2 * t;
    mt3 * p0 + 3.0 * mt2 * t * c1 + 3.0 * mt * t2 * c2 + t3 * p1
  }

  /** The point of the cubic Bezier curve p0, cp1, cp2, p1 at parameter t. */
  function CubicPoint(p0: Point, cp1: Point, cp2: Point, p1: Point, t: real): Point
  {
    Point(Blend(p0.x, cp1.x, cp2.x, p1.x, t), Blend(p0.y, cp1.y, cp2.y, p1.y, t))
  }

  /** The samples `sampleCurve` produces: the curve at t = i / n for i = 0 .. n. */
  function CurveSamples(p0: Point, cp1: Point, cp2: Point, p1: Point, n: nat): (s: seq<Sample>)
    requires n > 0
    ensures |s| == n + 1
  {
    seq(n + 1, i requires 0 <= i <= n =>
      Sample(CubicPoint(p0, cp1, cp2, p1, Param(i, n)), Param(i, n)))
  }

  /** `sampleCurve`: evaluates the curve at n + 1 evenly spaced parameters. */
  method SampleCurve(p0: Point, cp1: Point, cp2: Point, p1: Point, samples: nat) returns (points: seq<Sample>)
    requires samples > 0
    ensures points == CurveSamples(p0, cp1, cp2, p1, samples)
    ensures |points| == samples + 1
    ensures points[0] == Sample(p0, 0.0) && points[samples] == Sample(p1, 1.0)
    ensures forall i, j :: 0 <= i < j <= samples ==> 0.0 <= points[i].t < points[j].t <= 1.0
  {
    points := [];
    var i := 0;
    while i <= samples
      invariant 0 <= i <= samples + 1
      invariant points == CurveSamples(p0, cp1, cp2, p1, samples)[..i]
    {
      var t := Param(i, samples);
      var x := Blend(p0.x, cp1.x, cp2.x, p1.x, t);
      var y := Blend(p0.y, cp1.y, cp2.y, p1.y, t);
      points := points + [Sample(Point(x, y), t)];
      i := i + 1;
    }
    assert points == CurveSamples(p0, cp1, cp2, p1, samples);
    assert Param(0, samples) == 0.0 && Param(samples, samples) == 1.0;
    CurveEnds(p0, cp1, cp2, p1);
    forall i, j | 0 <= i < j <= samples
      ensures 0.0 <= points[i].t < points[j].t <= 1.0
    {
      ParameterPair(i, j, samples);
    }
  }

  /** The curve starts at p0 and ends at p1. */
  lemma CurveEnds(p0: Point, cp1: Point, cp2: Point, p1: Point)
    ensures CubicPoint(p0, cp1, cp2, p1, 0.0) == p0
    ensures CubicPoint(p0, cp1, cp2, p1, 1.0) == p1
  {
  }

  /** The curve parameter of sample i out of n. */
  function Param(i: nat, n: nat): real
    requires n > 0
  {
    i as real / n as real
  }

  /** Sample parameters increase strictly from 0 to 1. */
  lemma ParameterPair(i: nat, j: nat, n: nat)
    requires i < j <= n
    ensures 0.0 <= Param(i, n) < Param(j, n) <= 1.0
  {
    var r := n as real;
    var a, b := Param(i, n), Param(j, n);
    assert a * r == i as real && b * r == j as real;
    assert (b - a) * r == (j - i) as real;
    if a < 0.0 { MulPositive(-a, r); }
    if b <= a { MulNonNegative(a - b, r); }
    if b > 1.0 { MulPositive(b - 1.0, r); }
  }

  /** The four Bernstein weights at t sum to one and are non-negative on [0, 1]. */
  lemma BernsteinWeights(t: real)
    ensures var mt := 1.0 - t;
            mt * mt * mt + 3.0 * mt * mt * t + 3.0 * mt * t * t + t * t * t == 1.0
    ensures 0.0 <= t <= 1.0 ==>
              var mt := 1.0 - t;
              mt * mt * mt >= 0.0 && 3.0 * mt * mt * t >= 0.0 && 3.0 * mt * t * t >= 0.0 && t * t * t >= 0.0
  {
    var mt := 1.0 - t;
    assert mt * mt * mt + 3.0 * mt * mt * t + 3.0 * mt * t * t + t * t * t == (mt + t) * (mt + t) * (mt + t);
    if 0.0 <= t <= 1.0 {
      MulNonNegative(mt, mt);
      MulNonNegative(mt * mt, mt);
      MulNonNegative(mt * mt, t);
      MulNonNegative(mt, t);
      MulNonNegative(mt * t, t);
      MulNonNegative(t, t);
      MulNonNegative(t * t, t);
    }
  }

  /**
   * A control point: `cp = v + (apex - v) * flowFactor`. Every value of the
   * flow factor keeps it on the line through v and the apex.
   */
  function ControlPoint(v: Point, apex: Point, flowFactor: real): (cp: Point)
    ensures Cross(v, apex, cp) == 0.0
    ensures flowFactor == 0.0 ==> cp == v
    ensures flowFactor == 1.0 ==> cp == apex
  {
    var cp := Point(v.x + (apex.x - v.x) * flowFactor, v.y + (apex.y - v.y) * flowFactor);
    assert Cross(v, apex, cp) == (apex.x - v.x) * ((apex.y - v.y) * flowFactor) - (apex.y - v.y) * ((apex.x - v.x) * flowFactor);
    cp
  }

  /**
   * With flow factor 0 the control points are the end points and the curve is
   * the straight chord: every point of it lies on the line through both ends.
   */
  lemma FlatCurveOnChord(v1: Point, v2: Point, apex: Point, t: real)
    ensures var p := CubicPoint(v1, ControlPoint(v1, apex, 0.0), ControlPoint(v2, apex, 0.0), v2, t);
            Cross(v1, v2, p) == 0.0
  {
    var mt := 1.0 - t;
    var w := 3.0 * mt * t * t + t * t * t;
    BernsteinWeights(t);
    var p := CubicPoint(v1, v1, v2, v2, t);
    assert p.x == v1.x + w * (v2.x - v1.x);
    assert p.y == v1.y + w * (v2.y - v1.y);
    assert Cross(v1, v2, p) == (v2.x - v1.x) * (w * (v2.y - v1.y)) - (v2.y - v1.y) * (w * (v2.x - v1.x));
  }
}
