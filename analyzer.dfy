/**
 * The `GeometricAnalyzer` class of geometric_analysis.js: it builds one
 * Bezier curve per side of the flowangle, finds where the curves cross and
 * identifies the regions they enclose, keeping all three in its fields.
 *
 * The vertex positions (from cos and sin of the rotation) and the apex of
 * each side's triangle (from the tangent of half the handle angle) are
 * inputs; the square root, `Math.atan2`, the trigonometry of the ellipse
 * search and the float-stepped grid of the center search are parameters.
 */
module Analyzer {
  import opened Wrappers
  import opened Seqs
  import opened Geometry
  import opened Bezier
  import opened Hull
  import opened Intersections
  import opened Inscribed
  import opened Regions

  /** What `analyzeFlowAngle` returns. */
  datatype Analysis = Analysis(curves: seq<Curve>, intersections: seq<Intersection>, regions: seq<Region>)

  /**
   * Curve i of a flowangle: from vertex i to the next vertex (cyclically),
   * both control points pulled towards side i's apex by the flow factor,
   * sampled at 101 evenly spaced parameters.
   */
  function CurveAt(vertices: seq<Point>, apexes: seq<Point>, flowFactor: real, i: nat): Curve
    requires i < |vertices| == |apexes|
  {
    var v1 := vertices[i];
    var v2 := vertices[(i + 1) % |vertices|];
    var cp1 := ControlPoint(v1, apexes[i], flowFactor);
    var cp2 := ControlPoint(v2, apexes[i], flowFactor);
    Curve(i, v1, v2, cp1, cp2, CurveSamples(v1, cp1, cp2, v2, SampleCount))
  }

  /** The curves `analyzeFlowAngle` builds, one per side. */
  function BuildCurves(vertices: seq<Point>, apexes: seq<Point>, flowFactor: real): (cs: seq<Curve>)
    requires |vertices| == |apexes|
    ensures |cs| == |vertices|
  {
    seq(|vertices|, i requires 0 <= i < |vertices| => CurveAt(vertices, apexes, flowFactor, i))
  }

  /**
   * The curves form a closed chain through the vertices: curve i carries
   * index i, has 101 samples, starts at vertex i and ends where curve i + 1
   * (cyclically) starts.
   */
  lemma CurvesChain(vertices: seq<Point>, apexes: seq<Point>, flowFactor: real)
    requires |vertices| == |apexes|
    ensures var cs := BuildCurves(vertices, apexes, flowFactor);
            WellIndexed(cs) &&
            forall i :: 0 <= i < |cs| ==>
              |cs[i].samples| == SampleCount + 1 &&
              cs[i].samples[0].pt == vertices[i] &&
              cs[i].samples[SampleCount].pt == cs[(i + 1) % |cs|].samples[0].pt
  {
    var cs := BuildCurves(vertices, apexes, flowFactor);
    forall i | 0 <= i < |cs|
      ensures cs[i].index == i && |cs[i].samples| == SampleCount + 1
      ensures cs[i].samples[0].pt == vertices[i]
      ensures cs[i].samples[SampleCount].pt == vertices[(i + 1) % |cs|]
    {
      CurveAtEnds(vertices, apexes, flowFactor, i);
    }
  }

  /** Curve i runs from vertex i to vertex i + 1 (cyclically) through 101 samples. */
  lemma CurveAtEnds(vertices: seq<Point>, apexes: seq<Point>, flowFactor: real, i: nat)
    requires i < |vertices| == |apexes|
    ensures var c := CurveAt(vertices, apexes, flowFactor, i);
            c.index == i && |c.samples| == SampleCount + 1 &&
            c.samples[0].pt == vertices[i] && c.samples[SampleCount].pt == vertices[(i + 1) % |vertices|]
  {
    var c := CurveAt(vertices, apexes, flowFactor, i);
    assert Param(0, SampleCount) == 0.0 && Param(SampleCount, SampleCount) == 1.0;
    CurveEnds(c.start, c.cp1, c.cp2, c.end);
  }

  /** Every intersection of a flowangle names two distinct sides, the lower index first. */
  lemma FlowAngleIntersectionsOrdered(vertices: seq<Point>, apexes: seq<Point>, flowFactor: real)
    requires |vertices| == |apexes|
    ensures var cs := BuildCurves(vertices, apexes, flowFactor);
            forall x :: x in AllIntersections(cs) ==> x.curve1Index < x.curve2Index < |vertices|
  {
    CurvesChain(vertices, apexes, flowFactor);
    AllIntersectionsTagged(BuildCurves(vertices, apexes, flowFactor));
  }

  /** Each side contributes its first 100 samples to the outline polygon. */
  lemma FlowAngleOutlineSize(vertices: seq<Point>, apexes: seq<Point>, flowFactor: real)
    requires |vertices| == |apexes|
    ensures var cs := BuildCurves(vertices, apexes, flowFactor);
            |AllPoints(cs, |cs|)| == SampleCount * |vertices|
  {
    var cs := BuildCurves(vertices, apexes, flowFactor);
    CurvesChain(vertices, apexes, flowFactor);
    AllPointsLength(cs, |cs|, SampleCount);
  }

  /** Pushing an optional value onto `start + before` extends `before` by it. */
  lemma PushPresent<T>(start: seq<T>, before: seq<T>, o: Option<T>, prev: seq<T>)
    requires prev == start + before
    ensures (if o.Some? then prev + [o.value] else prev) == start + (before + Present(o))
  {
  }

  lemma ConcatAssoc<T>(a: seq<T>, b: seq<T>, c: seq<T>)
    ensures (a + b) + c == a + (b + c)
  {
  }

  class GeometricAnalyzer {
    var regions: seq<Region>
    var intersections: seq<Intersection>
    var curves: seq<Curve>

    constructor()
      ensures regions == [] && intersections == [] && curves == []
    {
      regions := [];
      intersections := [];
      curves := [];
    }

    /**
     * `analyzeFlowAngle`: builds the curves, finds their intersections and
     * identifies the regions, and returns all three.
     */
    method AnalyzeFlowAngle(vertices: seq<Point>, apexes: seq<Point>, flowFactor: real, grid: Box -> seq<Point>,
                            sqrt: Sqrt, atan2: (real, real) -> real, trig: Trig)
      returns (result: Analysis)
      requires |vertices| == |apexes|
      modifies this
      ensures curves == BuildCurves(vertices, apexes, flowFactor)
      ensures intersections == AllIntersections(curves)
      ensures regions == IdentifiedRegions(curves, |intersections|, |vertices|, grid, sqrt, atan2, trig)
      ensures result == Analysis(curves, intersections, regions)
    {
      regions := [];
      intersections := [];
      curves := [];
      var n := |vertices|;
      for i := 0 to n
        invariant |curves| == i
        invariant forall j :: 0 <= j < i ==> curves[j] == CurveAt(vertices, apexes, flowFactor, j)
      {
        var v1 := vertices[i];
        var v2 := vertices[(i + 1) % n];
        var cp1 := ControlPoint(v1, apexes[i], flowFactor);
        var cp2 := ControlPoint(v2, apexes[i], flowFactor);
        var samples := SampleCurve(v1, cp1, cp2, v2, SampleCount);
        curves := curves + [Curve(i, v1, v2, cp1, cp2, samples)];
      }
      assert curves == BuildCurves(vertices, apexes, flowFactor);
      intersections := FindCurveIntersections(curves);
      if |curves| < 2 {
        FewCurvesNoIntersections(curves);
      }
      IdentifyRegions(n, grid, sqrt, atan2, trig);
      result := Analysis(curves, intersections, regions);
    }

    /**
     * `identifyRegions`: one outer region when no intersections were found,
     * otherwise the regions by topology; then every region gets its largest
     * inscribed ellipse and rectangle.
     */
    method IdentifyRegions(sides: nat, grid: Box -> seq<Point>, sqrt: Sqrt,
                           atan2: (real, real) -> real, trig: Trig)
      requires |intersections| > 0 ==> 0 < |curves| && sides <= |curves|
      modifies this`regions
      ensures regions == IdentifiedRegions(curves, |intersections|, sides, grid, sqrt, atan2, trig)
    {
      regions := [];
      var allPoints := [];
      for k := 0 to |curves|
        invariant allPoints == AllPoints(curves, k)
      {
        allPoints := allPoints + OpenPoints(curves[k].samples);
      }
      if |intersections| == 0 {
        var area := CalculatePolygonArea(allPoints);
        regions := [Region(0, Outer, allPoints, area, Centroid(allPoints), None, None)];
      } else {
        IdentifyRegionsByTopology(sides, allPoints, grid, sqrt, atan2);
      }
      assert regions == BaseRegions(curves, |intersections|, sides, grid, sqrt, atan2);
      AddInscribedShapes(trig);
    }

    /** The closing `forEach` of `identifyRegions`. */
    method AddInscribedShapes(trig: Trig)
      modifies this`regions
      ensures regions == AddShapes(old(regions), trig)
    {
      ghost var base := regions;
      for i := 0 to |regions|
        invariant |regions| == |base|
        invariant forall j :: 0 <= j < i ==> regions[j] == WithShapes(base[j], trig)
        invariant forall j :: i <= j < |base| ==> regions[j] == base[j]
      {
        var ellipse := FindLargestInscribedEllipse(regions[i].boundary, trig);
        var rectangle := FindLargestInscribedRectangle(regions[i].boundary);
        regions := regions[i := regions[i].(inscribedEllipse := ellipse, inscribedRectangle := rectangle)];
      }
    }

    /**
     * `identifyRegionsByTopology`: appends the center region, if there is
     * one, then the petal of each of the first `sides` curves that has one.
     */
    method IdentifyRegionsByTopology(sides: nat, allPoints: seq<Point>, grid: Box -> seq<Point>,
                                     sqrt: Sqrt, atan2: (real, real) -> real)
      requires 0 < |curves| && sides <= |curves|
      modifies this`regions
      ensures regions == old(regions) + TopologyRegions(curves, sides, allPoints, grid, sqrt, atan2)
    {
      var center := Centroid(allPoints);
      var centerRegion := ExtractCenterRegion(center, grid, atan2);
      if centerRegion.Some? {
        regions := regions + [centerRegion.value];
      }
      PushPresent(old(regions), [], centerRegion, old(regions));
      assert [] + Present(centerRegion) == Present(centerRegion);
      AppendPetals(sides, center, sqrt, atan2);
      ConcatAssoc(old(regions), Present(centerRegion), Petals(curves, sides, PetalOf(center, sqrt, atan2)));
    }

    /** The petal loop of `identifyRegionsByTopology`: appends each reported petal in index order. */
    method AppendPetals(sides: nat, center: Point, sqrt: Sqrt, atan2: (real, real) -> real)
      requires sides <= |curves|
      modifies this`regions
      ensures regions == old(regions) + Petals(curves, sides, PetalOf(center, sqrt, atan2))
    {
      ghost var petal := PetalOf(center, sqrt, atan2);
      for i := 0 to sides
        invariant regions == old(regions) + Petals(curves, i, petal)
      {
        var petalRegion := ExtractPetalRegion(i, center, sqrt, atan2);
        PetalOfIs(center, sqrt, atan2, curves[i], i);
        ghost var prev := regions;
        if petalRegion.Some? {
          regions := regions + [petalRegion.value];
        }
        PushPresent(old(regions), Petals(curves, i, petal), petalRegion, prev);
      }
    }

    /**
     * `extractCenterRegion`: the grid points over the first curve's bounding
     * box that lie inside all curves; their hull, when there are more than
     * three.
     */
    method ExtractCenterRegion(center: Point, grid: Box -> seq<Point>, atan2: (real, real) -> real)
      returns (r: Option<Region>)
      requires |curves| > 0
      ensures r == CenterRegion(curves, grid, center, atan2)
    {
      var bounds := BoundingBox(Points(curves[0].samples));
      var candidates := grid(bounds);
      var centerPoints := [];
      for k := 0 to |candidates|
        invariant centerPoints == Filter(candidates[..k], InsideAll(curves))
      {
        var point := candidates[k];
        var inside := IsPointInAllCurves(point);
        if inside {
          centerPoints := centerPoints + [point];
        }
        assert candidates[..k + 1][..k] == candidates[..k];
      }
      assert candidates[..|candidates|] == candidates;
      if |centerPoints| > 3 {
        var hull := ConvexHull(centerPoints, atan2);
        var area := CalculatePolygonArea(hull);
        r := Some(Region(0, Center, hull, area, center, None, None));
      } else {
        r := None;
      }
    }

    /**
     * `extractPetalRegion`: every fifth sample of the curve, pushed 20 units
     * along its normal towards the global center; their hull, when there
     * are more than three.
     */
    method ExtractPetalRegion(index: nat, globalCenter: Point, sqrt: Sqrt, atan2: (real, real) -> real)
      returns (r: Option<Region>)
      requires index < |curves|
      ensures r == PetalRegion(curves[index], index, globalCenter, sqrt, atan2)
    {
      var samples := curves[index].samples;
      var petalPoints := [];
      for i := 0 to |samples|
        invariant petalPoints == PetalPoints(samples, globalCenter, sqrt, i)
      {
        petalPoints := VisitSample(samples, i, globalCenter, sqrt, petalPoints);
      }
      if |petalPoints| > 3 {
        var hull := ConvexHull(petalPoints, atan2);
        var centroid := Centroid(hull);
        var area := CalculatePolygonArea(hull);
        r := Some(Region(index + 1, Petal(index), hull, area, centroid, None, None));
      } else {
        r := None;
      }
    }

    /**
     * One pass of `extractPetalRegion`'s sampling loop: sample i adds the
     * offset of its step to sample min(i + 1, length - 1) when i is a
     * multiple of 5, so the petal points of the first i samples become those
     * of the first i + 1.
     */
    static method VisitSample(samples: seq<Sample>, i: nat, globalCenter: Point, sqrt: Sqrt, petalPoints: seq<Point>)
      returns (next: seq<Point>)
      requires i < |samples| && petalPoints == PetalPoints(samples, globalCenter, sqrt, i)
      ensures next == PetalPoints(samples, globalCenter, sqrt, i + 1)
    {
      next := petalPoints;
      if i % 5 == 0 {
        var point := samples[i].pt;
        var nextIdx := if i + 1 < |samples| - 1 then i + 1 else |samples| - 1;
        assert nextIdx == if i + 1 < |samples| then i + 1 else |samples| - 1;
        var offset := OffsetStep(point, samples[nextIdx].pt, globalCenter, sqrt);
        if offset.Some? {
          next := next + [offset.value];
        }
        assert next == petalPoints + Present(offset);
      }
    }

    /**
     * The body of the sampling loop of `extractPetalRegion` for one sample:
     * the unit normal of the step to the next sample, turned towards the
     * global center and scaled to 20; nothing for a zero-length step.
     */
    static method OffsetStep(point: Point, next: Point, globalCenter: Point, sqrt: Sqrt)
      returns (offset: Option<Point>)
      ensures offset == PetalOffset(point, next, globalCenter, sqrt)
    {
      var dx := next.x - point.x;
      var dy := next.y - point.y;
      var len := sqrt(SquaredLength(dx, dy));
      if len > 0.0 {
        var normalX := -dy / len;
        var normalY := dx / len;
        assert StepNormal(point, next, sqrt) == Some(Point(normalX, normalY));
        var p := OffsetTowards(point, normalX, normalY, globalCenter);
        offset := Some(p);
      } else {
        offset := None;
      }
    }

    /**
     * The rest of that loop body: the point 20 units from `point` along the
     * normal (normalX, normalY), flipped when the normal faces away from the
     * global center.
     */
    static method OffsetTowards(point: Point, normalX: real, normalY: real, globalCenter: Point)
      returns (p: Point)
      ensures p == OffsetAlong(point, Point(normalX, normalY), globalCenter)
    {
      var toCenter := Point(globalCenter.x - point.x, globalCenter.y - point.y);
      var dot := normalX * toCenter.x + normalY * toCenter.y;
      var sign := if dot > 0.0 then 1.0 else -1.0;
      p := Point(point.x + sign * normalX * 20.0, point.y + sign * normalY * 20.0);
    }

    /** `isPointInAllCurves`: ray casting against the polygon of every curve's samples. */
    method IsPointInAllCurves(point: Point) returns (inside: bool)
      ensures inside == InAllCurves(curves, point)
    {
      var allSamples := [];
      for k := 0 to |curves|
        invariant allSamples == AllSamplePoints(curves, k)
      {
        allSamples := allSamples + Points(curves[k].samples);
      }
      inside := IsPointInPolygon(point, allSamples);
    }
  }
}
