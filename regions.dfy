/**
 * Region assembly of geometric_analysis.js (`identifyRegions`,
 * `identifyRegionsByTopology`, `extractCenterRegion`, `extractPetalRegion`,
 * `isPointInAllCurves`): one outer region when no two curves cross,
 * otherwise an optional center region followed by one petal per side, each
 * region then given its inscribed ellipse and rectangle.
 *
 * The grid that `extractCenterRegion` walks with a float step, the square
 * root and `Math.atan2` are parameters.
 */
module Regions {
  import opened Wrappers
  import opened Seqs
  import opened Geometry
  import opened Bezier
  import opened Hull
  import opened Inscribed

  datatype RegionKind = Outer | Center | Petal(petalIndex: nat)

  /** A region as the analyzer reports it. */
  datatype Region = Region(id: nat, kind: RegionKind, boundary: seq<Point>, area: real, centroid: Point,
                           inscribedEllipse: Option<Ellipse>, inscribedRectangle: Option<Rect>)

  /** The empty sequence for None, the one value otherwise. */
  function Present<T>(o: Option<T>): seq<T>
  {
    match o
    case None => []
    case Some(v) => [v]
  }

  /** The points of a run of samples, their curve parameters dropped. */
  function Points(s: seq<Sample>): (pts: seq<Point>)
    ensures |pts| == |s|
  {
    seq(|s|, i requires 0 <= i < |s| => s[i].pt)
  }

  /** `samples.slice(0, -1)`: every sample but the last (none for no samples). */
  function OpenPoints(s: seq<Sample>): (pts: seq<Point>)
    ensures |s| > 0 ==> |pts| == |s| - 1
  {
    if |s| == 0 then [] else Points(s[..|s| - 1])
  }

  /** The open sample runs of the first k curves, concatenated (`allPoints`). */
  function AllPoints(curves: seq<Curve>, k: nat): seq<Point>
    requires k <= |curves|
  {
    if k == 0 then [] else AllPoints(curves, k - 1) + OpenPoints(curves[k - 1].samples)
  }

  /** Every sample of the first k curves, concatenated (the polygon of `isPointInAllCurves`). */
  function AllSamplePoints(curves: seq<Curve>, k: nat): seq<Point>
    requires k <= |curves|
  {
    if k == 0 then [] else AllSamplePoints(curves, k - 1) + Points(curves[k - 1].samples)
  }

  /** `isPointInAllCurves`: ray casting against the polygon of all samples. */
  predicate InAllCurves(curves: seq<Curve>, p: Point)
  {
    PointInPolygon(p, AllSamplePoints(curves, |curves|))
  }

  /** `isPointInAllCurves` as a test on points, for filtering the grid. */
  function InsideAll(curves: seq<Curve>): Point -> bool
  {
    p => InAllCurves(curves, p)
  }

  // ---------------------------------------------------------------------
  // The three kinds of region
  // ---------------------------------------------------------------------

  /** The single region reported when no curves cross. */
  function OuterRegion(allPoints: seq<Point>): Region
  {
    Region(0, Outer, allPoints, PolygonArea(allPoints), Centroid(allPoints), None, None)
  }

  /** The grid points (from the first curve's bounding box) that lie inside all curves. */
  function CenterPoints(curves: seq<Curve>, grid: Box -> seq<Point>): seq<Point>
    requires |curves| > 0
  {
    Filter(grid(BoundingBox(Points(curves[0].samples))), InsideAll(curves))
  }

  /** `extractCenterRegion`: the hull of the inside grid points, when there are more than three. */
  function CenterRegion(curves: seq<Curve>, grid: Box -> seq<Point>, center: Point,
                        atan2: (real, real) -> real): Option<Region>
    requires |curves| > 0
  {
    var pts := CenterPoints(curves, grid);
    if |pts| > 3 then
      var hull := HullOf(pts, atan2);
      Some(Region(0, Center, hull, PolygonArea(hull), center, None, None))
    else None
  }

  /**
   * The point 20 units from `point` along the unit normal of the step to
   * `next`, turned towards `globalCenter`; none when the step has length 0.
   */
  function PetalOffset(point: Point, next: Point, globalCenter: Point, sqrt: Sqrt): Option<Point>
  {
    match StepNormal(point, next, sqrt)
    case None => None
    case Some(normal) => Some(OffsetAlong(point, normal, globalCenter))
  }

  /** The step to `next` turned a quarter left and divided by its length; none when that length is 0. */
  function StepNormal(point: Point, next: Point, sqrt: Sqrt): Option<Point>
  {
    var dx := next.x - point.x;
    var dy := next.y - point.y;
    var len := sqrt(SquaredLength(dx, dy));
    if len > 0.0 then Some(Point(-dy / len, dx / len)) else None
  }

  /** dx² + dy², the argument of the square root in `extractPetalRegion`. */
  function SquaredLength(dx: real, dy: real): real
  {
    dx * dx + dy * dy
  }

  /** The point 20 units from `point` along `normal`, flipped to face the global center. */
  function OffsetAlong(point: Point, normal: Point, globalCenter: Point): Point
  {
    var dot := normal.x * (globalCenter.x - point.x) + normal.y * (globalCenter.y - point.y);
    var sign := if dot > 0.0 then 1.0 else -1.0;
    Point(point.x + sign * normal.x * 20.0, point.y + sign * normal.y * 20.0)
  }

  /** The offset points of samples 0, 5, 10, ... among the first k samples. */
  function PetalPoints(s: seq<Sample>, globalCenter: Point, sqrt: Sqrt, k: nat): seq<Point>
    requires k <= |s|
  {
    if k == 0 then []
    else
      var next := if k < |s| then k else |s| - 1;  // Math.min(i + 1, samples.length - 1) for i = k - 1
      PetalPoints(s, globalCenter, sqrt, k - 1) +
      (if (k - 1) % 5 == 0 then Present(PetalOffset(s[k - 1].pt, s[next].pt, globalCenter, sqrt)) else [])
  }

  /** `extractPetalRegion`: the hull of the offset points, when there are more than three. */
  function PetalRegion(curve: Curve, index: nat, globalCenter: Point, sqrt: Sqrt,
                       atan2: (real, real) -> real): Option<Region>
  {
    var pts := PetalPoints(curve.samples, globalCenter, sqrt, |curve.samples|);
    if |pts| > 3 then
      var hull := HullOf(pts, atan2);
      Some(Region(index + 1, Petal(index), hull, PolygonArea(hull), Centroid(hull), None, None))
    else None
  }

  /** `extractPetalRegion` as a function of the curve and its index. */
  function PetalOf(globalCenter: Point, sqrt: Sqrt, atan2: (real, real) -> real): (Curve, nat) -> Option<Region>
  {
    (curve: Curve, index: nat) => PetalRegion(curve, index, globalCenter, sqrt, atan2)
  }

  lemma PetalOfIs(globalCenter: Point, sqrt: Sqrt, atan2: (real, real) -> real, curve: Curve, index: nat)
    ensures PetalOf(globalCenter, sqrt, atan2)(curve, index) == PetalRegion(curve, index, globalCenter, sqrt, atan2)
  {
  }

  /** The petals of curves 0 .. k-1 that `petal` reports, in index order. */
  function Petals(curves: seq<Curve>, k: nat, petal: (Curve, nat) -> Option<Region>): seq<Region>
    requires k <= |curves|
  {
    if k == 0 then [] else Petals(curves, k - 1, petal) + Present(petal(curves[k - 1], k - 1))
  }

  /** `identifyRegionsByTopology`: the center region, if any, then the petals of the first `sides` curves. */
  function TopologyRegions(curves: seq<Curve>, sides: nat, allPoints: seq<Point>, grid: Box -> seq<Point>,
                           sqrt: Sqrt, atan2: (real, real) -> real): seq<Region>
    requires 0 < |curves| && sides <= |curves|
  {
    var center := Centroid(allPoints);
    Present(CenterRegion(curves, grid, center, atan2)) + Petals(curves, sides, PetalOf(center, sqrt, atan2))
  }

  /** The regions before their inscribed shapes are filled in. */
  function BaseRegions(curves: seq<Curve>, crossings: nat, sides: nat, grid: Box -> seq<Point>,
                       sqrt: Sqrt, atan2: (real, real) -> real): seq<Region>
    requires crossings > 0 ==> 0 < |curves| && sides <= |curves|
  {
    var allPoints := AllPoints(curves, |curves|);
    if crossings == 0 then [OuterRegion(allPoints)]
    else TopologyRegions(curves, sides, allPoints, grid, sqrt, atan2)
  }

  /** A region with its largest inscribed ellipse and rectangle. */
  function WithShapes(r: Region, trig: Trig): Region
  {
    r.(inscribedEllipse := LargestEllipse(r.boundary, trig), inscribedRectangle := LargestRectangle(r.boundary))
  }

  /** The closing `forEach` of `identifyRegions`: every region gets its inscribed shapes. */
  function AddShapes(base: seq<Region>, trig: Trig): (rs: seq<Region>)
    ensures |rs| == |base|
  {
    seq(|base|, i requires 0 <= i < |base| => WithShapes(base[i], trig))
  }

  /**
   * What `identifyRegions` leaves in `this.regions`, given the number of
   * intersections found and the number of sides.
   */
  function IdentifiedRegions(curves: seq<Curve>, crossings: nat, sides: nat, grid: Box -> seq<Point>,
                             sqrt: Sqrt, atan2: (real, real) -> real, trig: Trig): (rs: seq<Region>)
    requires crossings > 0 ==> 0 < |curves| && sides <= |curves|
  {
    AddShapes(BaseRegions(curves, crossings, sides, grid, sqrt, atan2), trig)
  }

  // ---------------------------------------------------------------------
  // Properties
  // ---------------------------------------------------------------------

  /** Petal regions only, each with id = petalIndex + 1 and petalIndex below k, in increasing index order. */
  predicate PetalsInOrder(rs: seq<Region>, k: nat)
  {
    (forall i :: 0 <= i < |rs| ==> rs[i].kind.Petal? && rs[i].id == rs[i].kind.petalIndex + 1 && rs[i].kind.petalIndex < k) &&
    (forall i, j :: 0 <= i < j < |rs| ==> rs[i].kind.Petal? && rs[j].kind.Petal? && rs[i].kind.petalIndex < rs[j].kind.petalIndex)
  }

  /** A petal function that reports curve i's petal with kind Petal(i) and id i + 1. */
  ghost predicate TagsPetals(petal: (Curve, nat) -> Option<Region>)
  {
    forall curve, i: nat :: petal(curve, i).Some? ==> petal(curve, i).value.kind == Petal(i) && petal(curve, i).value.id == i + 1
  }

  lemma PetalOfTags(globalCenter: Point, sqrt: Sqrt, atan2: (real, real) -> real)
    ensures TagsPetals(PetalOf(globalCenter, sqrt, atan2))
  {
    var petal := PetalOf(globalCenter, sqrt, atan2);
    forall curve, i: nat | petal(curve, i).Some?
      ensures petal(curve, i).value.kind == Petal(i) && petal(curve, i).value.id == i + 1
    {
      assert petal(curve, i) == PetalRegion(curve, i, globalCenter, sqrt, atan2);
    }
  }

  /** At most one petal per curve, in index order, each with id = petalIndex + 1. */
  lemma {:induction false} PetalsLayout(curves: seq<Curve>, k: nat, petal: (Curve, nat) -> Option<Region>)
    requires k <= |curves| && TagsPetals(petal)
    ensures var ps := Petals(curves, k, petal);
            |ps| <= k && PetalsInOrder(ps, k)
  {
    if k > 0 {
      PetalsLayout(curves, k - 1, petal);
    }
  }

  /** Some region of rs is petal p. */
  predicate HasPetal(rs: seq<Region>, p: nat)
  {
    exists i :: 0 <= i < |rs| && rs[i].kind == Petal(p)
  }

  lemma HasPetalAppend(a: seq<Region>, b: seq<Region>, p: nat)
    ensures HasPetal(a + b, p) <==> HasPetal(a, p) || HasPetal(b, p)
  {
    var rs := a + b;
    if HasPetal(rs, p) {
      var i :| 0 <= i < |rs| && rs[i].kind == Petal(p);
      if i < |a| { assert a[i] == rs[i]; } else { assert b[i - |a|] == rs[i]; }
    }
    if HasPetal(a, p) {
      var i :| 0 <= i < |a| && a[i].kind == Petal(p);
      assert rs[i] == a[i];
    }
    if HasPetal(b, p) {
      var i :| 0 <= i < |b| && b[i].kind == Petal(p);
      assert rs[i + |a|] == b[i];
    }
  }

  /** Curve p's petal is listed exactly when the petal function reports one. */
  lemma {:induction false} PetalPresent(curves: seq<Curve>, k: nat, petal: (Curve, nat) -> Option<Region>, p: nat)
    requires p < k <= |curves| && TagsPetals(petal)
    ensures HasPetal(Petals(curves, k, petal), p) <==> petal(curves[p], p).Some?
  {
    var prev := Petals(curves, k - 1, petal);
    var last := Present(petal(curves[k - 1], k - 1));
    HasPetalAppend(prev, last, p);
    if p < k - 1 {
      PetalPresent(curves, k - 1, petal, p);
    } else {
      PetalsLayout(curves, k - 1, petal);
      assert !HasPetal(prev, p);
    }
    if petal(curves[k - 1], k - 1).Some? {
      assert last[0].kind == Petal(k - 1);
    }
  }

  /**
   * The layout when curves cross: at most sides + 1 regions; a center region,
   * if any, comes first with id 0; every other region is a petal with
   * id = petalIndex + 1 and petalIndex below `sides`, in increasing index
   * order.
   */
  predicate CrossingLayout(rs: seq<Region>, sides: nat)
  {
    |rs| <= sides + 1 &&
    (forall i :: 0 <= i < |rs| ==> rs[i].kind.Center? || rs[i].kind.Petal?) &&
    (forall i :: 0 <= i < |rs| && rs[i].kind.Center? ==> i == 0 && rs[i].id == 0) &&
    (forall i :: 0 <= i < |rs| && rs[i].kind.Petal? ==>
       rs[i].id == rs[i].kind.petalIndex + 1 && rs[i].kind.petalIndex < sides) &&
    (forall i, j :: 0 <= i < j < |rs| ==>
       rs[j].kind.Petal? && (rs[i].kind.Petal? ==> rs[i].kind.petalIndex < rs[j].kind.petalIndex))
  }

  /** An optional center region followed by petals in order has the crossing layout. */
  lemma CenterThenPetals(c: seq<Region>, ps: seq<Region>, sides: nat)
    requires |c| <= 1 && forall i :: 0 <= i < |c| ==> c[i].kind.Center? && c[i].id == 0
    requires |ps| <= sides && PetalsInOrder(ps, sides)
    ensures CrossingLayout(c + ps, sides)
  {
    var rs := c + ps;
    forall i | |c| <= i < |rs|
      ensures rs[i] == ps[i - |c|]
    {
    }
  }

  /** Filling in the inscribed shapes keeps every region's id, kind, boundary, area and centroid. */
  lemma AddShapesKeeps(base: seq<Region>, trig: Trig)
    ensures var rs := AddShapes(base, trig);
            forall i :: 0 <= i < |rs| ==>
              rs[i].id == base[i].id && rs[i].kind == base[i].kind && rs[i].boundary == base[i].boundary &&
              rs[i].area == base[i].area && rs[i].centroid == base[i].centroid &&
              rs[i].inscribedEllipse == LargestEllipse(rs[i].boundary, trig) &&
              rs[i].inscribedRectangle == LargestRectangle(rs[i].boundary)
  {
  }

  /** Filling in the inscribed shapes keeps the crossing layout. */
  lemma LayoutWithShapes(base: seq<Region>, trig: Trig, sides: nat)
    requires CrossingLayout(base, sides)
    ensures CrossingLayout(AddShapes(base, trig), sides)
  {
    AddShapesKeeps(base, trig);
  }

  lemma CenterRegionTagged(curves: seq<Curve>, grid: Box -> seq<Point>, center: Point, atan2: (real, real) -> real)
    requires |curves| > 0
    ensures var c := CenterRegion(curves, grid, center, atan2);
            c.Some? ==> c.value.kind == Center && c.value.id == 0 && c.value.centroid == center
  {
  }

  /** When curves cross, the regions have the crossing layout. */
  lemma RegionsWithCrossings(curves: seq<Curve>, crossings: nat, sides: nat, grid: Box -> seq<Point>,
                             sqrt: Sqrt, atan2: (real, real) -> real, trig: Trig)
    requires crossings > 0 && 0 < |curves| && sides <= |curves|
    ensures CrossingLayout(IdentifiedRegions(curves, crossings, sides, grid, sqrt, atan2, trig), sides)
  {
    var center := Centroid(AllPoints(curves, |curves|));
    var c := Present(CenterRegion(curves, grid, center, atan2));
    var petal := PetalOf(center, sqrt, atan2);
    var ps := Petals(curves, sides, petal);
    var base := BaseRegions(curves, crossings, sides, grid, sqrt, atan2);
    assert base == c + ps;
    CenterRegionTagged(curves, grid, center, atan2);
    PetalOfTags(center, sqrt, atan2);
    PetalsLayout(curves, sides, petal);
    CenterThenPetals(c, ps, sides);
    LayoutWithShapes(base, trig, sides);
  }

  /** A leading center region hides no petal. */
  lemma PetalAfterCenter(c: seq<Region>, ps: seq<Region>, p: nat)
    requires forall i :: 0 <= i < |c| ==> c[i].kind.Center?
    ensures HasPetal(c + ps, p) <==> HasPetal(ps, p)
  {
    HasPetalAppend(c, ps, p);
    assert !HasPetal(c, p);
  }

  /** Filling in the shapes neither adds nor removes a petal. */
  lemma PetalWithShapes(base: seq<Region>, trig: Trig, p: nat)
    ensures HasPetal(AddShapes(base, trig), p) <==> HasPetal(base, p)
  {
    var rs := AddShapes(base, trig);
    if HasPetal(base, p) {
      var i :| 0 <= i < |base| && base[i].kind == Petal(p);
      assert rs[i].kind == Petal(p);
    }
  }

  /** The center region is reported exactly when more than three grid points lie inside all curves. */
  lemma CenterPresent(curves: seq<Curve>, crossings: nat, sides: nat, grid: Box -> seq<Point>,
                      sqrt: Sqrt, atan2: (real, real) -> real, trig: Trig)
    requires crossings > 0 && 0 < |curves| && sides <= |curves|
    ensures var rs := IdentifiedRegions(curves, crossings, sides, grid, sqrt, atan2, trig);
            (|rs| > 0 && rs[0].kind.Center?) <==> |CenterPoints(curves, grid)| > 3
  {
    var center := Centroid(AllPoints(curves, |curves|));
    var c := Present(CenterRegion(curves, grid, center, atan2));
    var petal := PetalOf(center, sqrt, atan2);
    var ps := Petals(curves, sides, petal);
    var base := BaseRegions(curves, crossings, sides, grid, sqrt, atan2);
    assert base == c + ps;
    PetalOfTags(center, sqrt, atan2);
    PetalsLayout(curves, sides, petal);
    if c == [] && |ps| > 0 {
      assert base[0] == ps[0];
    }
    AddShapesKeeps(base, trig);
  }

  /** Petal p of the side count is reported exactly when its offset points number more than three. */
  lemma PetalReported(curves: seq<Curve>, crossings: nat, sides: nat, grid: Box -> seq<Point>,
                      sqrt: Sqrt, atan2: (real, real) -> real, trig: Trig, p: nat)
    requires crossings > 0 && 0 < |curves| && p < sides <= |curves|
    ensures var rs := IdentifiedRegions(curves, crossings, sides, grid, sqrt, atan2, trig);
            var globalCenter := Centroid(AllPoints(curves, |curves|));
            HasPetal(rs, p) <==> |PetalPoints(curves[p].samples, globalCenter, sqrt, |curves[p].samples|)| > 3
  {
    var center := Centroid(AllPoints(curves, |curves|));
    var c := Present(CenterRegion(curves, grid, center, atan2));
    var petal := PetalOf(center, sqrt, atan2);
    var ps := Petals(curves, sides, petal);
    var base := BaseRegions(curves, crossings, sides, grid, sqrt, atan2);
    assert base == c + ps;
    CenterRegionTagged(curves, grid, center, atan2);
    PetalOfTags(center, sqrt, atan2);
    PetalPresent(curves, sides, petal, p);
    PetalAfterCenter(c, ps, p);
    PetalWithShapes(base, trig, p);
    PetalOfIs(center, sqrt, atan2, curves[p], p);
  }

  /**
   * When no curves cross: exactly one region, the outer one with id 0, whose
   * boundary is every curve's samples but the last, concatenated in curve
   * order, with that polygon's area and centroid.
   */
  lemma RegionsWithoutCrossings(curves: seq<Curve>, sides: nat, grid: Box -> seq<Point>,
                                sqrt: Sqrt, atan2: (real, real) -> real, trig: Trig)
    ensures var rs := IdentifiedRegions(curves, 0, sides, grid, sqrt, atan2, trig);
            |rs| == 1 && rs[0].id == 0 && rs[0].kind == Outer &&
            rs[0].boundary == AllPoints(curves, |curves|) &&
            rs[0].area == PolygonArea(rs[0].boundary) && rs[0].centroid == Centroid(rs[0].boundary) &&
            rs[0].inscribedRectangle == LargestRectangle(rs[0].boundary)
  {
  }

  /** Curves of n + 1 samples each contribute n points apiece to `allPoints`. */
  lemma {:induction false} AllPointsLength(curves: seq<Curve>, k: nat, n: nat)
    requires k <= |curves|
    requires forall i :: 0 <= i < k ==> |curves[i].samples| == n + 1
    ensures |AllPoints(curves, k)| == k * n
  {
    if k > 0 {
      AllPointsLength(curves, k - 1, n);
      assert (k - 1) * n + n == k * n;
    }
  }

  /** With n + 1 samples per curve, point j of curve c sits at index c * n + j of `allPoints`. */
  lemma {:induction false} AllPointsAt(curves: seq<Curve>, k: nat, n: nat, c: nat, j: nat)
    requires k <= |curves| && c < k && j < n
    requires forall i :: 0 <= i < k ==> |curves[i].samples| == n + 1
    ensures c * n + j < |AllPoints(curves, k)| && AllPoints(curves, k)[c * n + j] == curves[c].samples[j].pt
  {
    AllPointsLength(curves, k - 1, n);
    var prev := AllPoints(curves, k - 1);
    assert |prev| == (k - 1) * n;
    if c < k - 1 {
      AllPointsAt(curves, k - 1, n, c, j);
    } else {
      assert c * n == |prev|;
    }
  }

  /** Every boundary point of a center region lies inside all curves and on the grid. */
  lemma CenterBoundaryInside(curves: seq<Curve>, grid: Box -> seq<Point>, center: Point, atan2: (real, real) -> real)
    requires |curves| > 0
    requires CenterRegion(curves, grid, center, atan2).Some?
    ensures var r := CenterRegion(curves, grid, center, atan2).value;
            forall q :: q in r.boundary ==>
              InAllCurves(curves, q) && q in grid(BoundingBox(Points(curves[0].samples)))
  {
    var pts := CenterPoints(curves, grid);
    HullProps(pts, atan2);
    FilterProps(grid(BoundingBox(Points(curves[0].samples))), InsideAll(curves));
  }

  /** Only every fifth sample contributes, so at most one offset point per five samples. */
  lemma {:induction false} PetalPointsBound(s: seq<Sample>, globalCenter: Point, sqrt: Sqrt, k: nat)
    requires k <= |s|
    ensures |PetalPoints(s, globalCenter, sqrt, k)| <= (k + 4) / 5
  {
    if k > 0 {
      PetalPointsBound(s, globalCenter, sqrt, k - 1);
    }
  }

  /** Moving from `point` to q does not take it away from the global center: a non-negative dot product. */
  predicate Inward(q: Point, point: Point, globalCenter: Point)
  {
    (q.x - point.x) * (globalCenter.x - point.x) + (q.y - point.y) * (globalCenter.y - point.y) >= 0.0
  }

  lemma OffsetAlongInward(point: Point, normal: Point, globalCenter: Point)
    ensures Inward(OffsetAlong(point, normal, globalCenter), point, globalCenter)
  {
    var tx, ty := globalCenter.x - point.x, globalCenter.y - point.y;
    var dot := normal.x * tx + normal.y * ty;
    var sign := if dot > 0.0 then 1.0 else -1.0;
    var q := OffsetAlong(point, normal, globalCenter);
    assert q.x - point.x == sign * normal.x * 20.0 && q.y - point.y == sign * normal.y * 20.0;
    assert (sign * normal.x * 20.0) * tx + (sign * normal.y * 20.0) * ty == 20.0 * (sign * dot);
  }

  /**
   * The offset never points away from the global center: its displacement
   * has a non-negative dot product with the direction to the center.
   */
  lemma PetalOffsetInward(point: Point, next: Point, globalCenter: Point, sqrt: Sqrt)
    requires PetalOffset(point, next, globalCenter, sqrt).Some?
    ensures Inward(PetalOffset(point, next, globalCenter, sqrt).value, point, globalCenter)
  {
    OffsetAlongInward(point, StepNormal(point, next, sqrt).value, globalCenter);
  }

  /** A step has a positive squared length exactly when it moves. */
  lemma SquaredLengthPositive(dx: real, dy: real)
    ensures SquaredLength(dx, dy) > 0.0 <==> (dx != 0.0 || dy != 0.0)
  {
    if dx != 0.0 || dy != 0.0 {
      calc {
        SquaredLength(dx, dy);
      ==
        dx * dx + dy * dy;
      >
        0.0;
      }
    }
  }

  /**
   * An offset point exists exactly when the step moves: a sample paired with
   * an equal point, as the last sample is with itself, contributes nothing.
   */
  lemma PetalOffsetPresent(point: Point, next: Point, globalCenter: Point, sqrt: Sqrt)
    ensures PetalOffset(point, next, globalCenter, sqrt).Some? <==> point != next
  {
    SquaredLengthPositive(next.x - point.x, next.y - point.y);
  }

  /** The last sample is offset against itself, so it adds no point to a petal. */
  lemma LastSampleAddsNothing(s: seq<Sample>, globalCenter: Point, sqrt: Sqrt)
    requires |s| > 0
    ensures PetalPoints(s, globalCenter, sqrt, |s|) == PetalPoints(s, globalCenter, sqrt, |s| - 1)
  {
    PetalOffsetPresent(s[|s| - 1].pt, s[|s| - 1].pt, globalCenter, sqrt);
  }
}
