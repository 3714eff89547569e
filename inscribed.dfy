/**
 * The inscribed-shape searches of geometric_analysis.js: a grid of
 * axis-aligned rectangles and of rotated ellipses centred on the boundary's
 * centroid, each tested for containment by ray casting, keeping the first
 * candidate of largest area.
 */
module Inscribed {
  import opened Wrappers
  import opened Geometry

  // ---------------------------------------------------------------------
  // Keeping the best fitting candidate
  // ---------------------------------------------------------------------

  /** The area to beat: that of the best candidate so far, 0 before any. */
  function ScoreOf<C>(best: Option<C>, area: C -> real): real
  {
    match best
    case None => 0.0
    case Some(c) => area(c)
  }

  /** One iteration of a search loop: the candidate replaces the best so far when it fits and is strictly larger. */
  function Consider<C>(best: Option<C>, cand: C, fits: C -> bool, area: C -> real): Option<C>
  {
    if fits(cand) && area(cand) > ScoreOf(best, area) then Some(cand) else best
  }

  /** The running maximum over the first k candidates, starting from nothing. */
  function BestFit<C>(cands: seq<C>, fits: C -> bool, area: C -> real, k: nat): Option<C>
    requires k <= |cands|
  {
    if k == 0 then None else Consider(BestFit(cands, fits, area, k - 1), cands[k - 1], fits, area)
  }

  /**
   * The best candidate fits, has positive area, is at least as large as every
   * fitting candidate, and strictly larger than every fitting candidate
   * before it (the first maximum wins).
   */
  lemma {:induction false} BestFitIsFirstMaximum<C>(cands: seq<C>, fits: C -> bool, area: C -> real, k: nat)
    requires k <= |cands|
    ensures forall i :: 0 <= i < k && fits(cands[i]) ==> area(cands[i]) <= ScoreOf(BestFit(cands, fits, area, k), area)
    ensures BestFit(cands, fits, area, k).Some? ==>
              exists i :: 0 <= i < k && cands[i] == BestFit(cands, fits, area, k).value &&
                fits(cands[i]) && 0.0 < area(cands[i]) &&
                forall j :: 0 <= j < i && fits(cands[j]) ==> area(cands[j]) < area(cands[i])
  {
    if k > 0 {
      BestFitIsFirstMaximum(cands, fits, area, k - 1);
      var prev := BestFit(cands, fits, area, k - 1);
      if prev.Some? {
        var i :| 0 <= i < k - 1 && cands[i] == prev.value && fits(cands[i]) && 0.0 < area(cands[i]) &&
                 forall j :: 0 <= j < i && fits(cands[j]) ==> area(cands[j]) < area(cands[i]);
      }
    }
  }

  /** Nothing is found exactly when no candidate fits with positive area. */
  lemma BestFitNone<C>(cands: seq<C>, fits: C -> bool, area: C -> real, k: nat)
    requires k <= |cands|
    ensures BestFit(cands, fits, area, k) == None <==>
              forall i :: 0 <= i < k && fits(cands[i]) ==> area(cands[i]) <= 0.0
  {
    BestFitIsFirstMaximum(cands, fits, area, k);
  }

  // ---------------------------------------------------------------------
  // Rectangles
  // ---------------------------------------------------------------------

  /** An axis-aligned rectangle with its top-left corner (screen coordinates) and area. */
  datatype Rect = Rect(x: real, y: real, width: real, height: real, area: real)

  /** The recorded area is the product of the rectangle's sides. */
  predicate ProductArea(r: Rect)
  {
    r.area == r.width * r.height
  }

  /** Corners in the order the containment test visits them. */
  function Corners(r: Rect): seq<Point>
  {
    [Point(r.x, r.y), Point(r.x + r.width, r.y), Point(r.x + r.width, r.y + r.height), Point(r.x, r.y + r.height)]
  }

  /** All four corners lie inside the polygon. */
  predicate RectFits(r: Rect, polygon: seq<Point>)
  {
    forall i :: 0 <= i < 4 ==> PointInPolygon(Corners(r)[i], polygon)
  }

  /** `isRectangleInPolygon`: every corner passes the ray-casting test. */
  method IsRectangleInPolygon(rect: Rect, polygon: seq<Point>) returns (inside: bool)
    ensures inside == RectFits(rect, polygon)
  {
    var corners := Corners(rect);
    for i := 0 to 4
      invariant forall j :: 0 <= j < i ==> PointInPolygon(corners[j], polygon)
    {
      var ok := IsPointInPolygon(corners[i], polygon);
      if !ok {
        return false;
      }
    }
    return true;
  }

  /** The candidate with width ratio a/20 and height ratio b/20, centred on c. */
  function RectCandidate(c: Point, bounds: Box, a: nat, b: nat): Rect
  {
    var width := BoxWidth(bounds) * (a as real / 20.0);
    var height := BoxHeight(bounds) * (b as real / 20.0);
    Rect(c.x - width / 2.0, c.y - height / 2.0, width, height, width * height)
  }

  /**
   * The candidates in search order, width ratio outer and height ratio inner:
   * 18 ratios per axis (0.10, 0.15, ..., 0.95), so 324 in all.
   */
  function RectCandidates(c: Point, bounds: Box): (s: seq<Rect>)
    ensures |s| == 324
  {
    seq(324, k requires 0 <= k < 324 =>
      RectCandidate(c, bounds, 2 + k / 18, 2 + k % 18))
  }

  /** The candidate for ratios a/20 and b/20 sits at index (a - 2) * 18 + (b - 2). */
  lemma CandidateAt(c: Point, bounds: Box, a: nat, b: nat)
    requires 2 <= a < 20 && 2 <= b < 20
    ensures RectCandidates(c, bounds)[(a - 2) * 18 + (b - 2)]
            == RectCandidate(c, bounds, a, b)
  {
    var k := (a - 2) * 18 + (b - 2);
    assert k / 18 == a - 2 && k % 18 == b - 2;
  }

  function RectArea(r: Rect): real { r.area }

  /** The containment test as a function value. */
  function FitsIn(boundary: seq<Point>): Rect -> bool
  {
    (r: Rect) => RectFits(r, boundary)
  }

  /**
   * The search that remains from width ratio a/20 and height ratio b/20 on,
   * starting from the best rectangle found so far: the two loops of
   * `findLargestInscribedRectangle`, written as a recursion.
   */
  function RectSearchFrom(fits: Rect -> bool, c: Point, bounds: Box,
                          a: nat, b: nat, best: Option<Rect>): Option<Rect>
    requires 2 <= a <= 20 && 2 <= b <= 20
    decreases 20 - a, 20 - b
  {
    if a == 20 then best
    else if b == 20 then RectSearchFrom(fits, c, bounds, a + 1, 2, best)
    else RectSearchFrom(fits, c, bounds, a, b + 1,
                        Consider(best, RectCandidate(c, bounds, a, b), fits, RectArea))
  }

  /** The grid search over the ranges of a bounding box, centred on c. */
  function RectSearch(fits: Rect -> bool, c: Point, bounds: Box): Option<Rect>
  {
    RectSearchFrom(fits, c, bounds, 2, 2, None)
  }

  /** What `findLargestInscribedRectangle` returns. */
  function LargestRectangle(boundary: seq<Point>): Option<Rect>
  {
    if |boundary| < 3 then None
    else RectSearch(FitsIn(boundary), Centroid(boundary), BoundingBox(boundary))
  }

  /**
   * `fits` is the containment test for `boundary`. It is triggered only by
   * `RectFits` terms, so that the loops below reason about `fits` as an
   * opaque test and never unfold the ray casting of the candidates.
   */
  ghost predicate Decides(fits: Rect -> bool, boundary: seq<Point>)
  {
    forall r {:trigger RectFits(r, boundary)} :: fits(r) == RectFits(r, boundary)
  }

  /** `findLargestInscribedRectangle`: centroid and bounding box, then the grid search. */
  method FindLargestInscribedRectangle(boundary: seq<Point>) returns (maxRectangle: Option<Rect>)
    ensures maxRectangle == LargestRectangle(boundary)
    ensures |boundary| < 3 ==> maxRectangle == None
  {
    if |boundary| < 3 {
      return None;
    }
    var bounds := BoundingBox(boundary);
    var centroid := Centroid(boundary);
    maxRectangle := SearchRectangleGrid(boundary, FitsIn(boundary), centroid, bounds);
  }

  /** The two nested ratio loops of `findLargestInscribedRectangle`, with their running maximum. */
  method SearchRectangleGrid(boundary: seq<Point>, ghost fits: Rect -> bool, centroid: Point, bounds: Box)
    returns (maxRectangle: Option<Rect>)
    requires Decides(fits, boundary)
    ensures maxRectangle == RectSearch(fits, centroid, bounds)
  {
    maxRectangle := None;
    var maxArea := 0.0;
    ghost var goal := RectSearch(fits, centroid, bounds);
    for a := 2 to 20
      invariant RectSearchFrom(fits, centroid, bounds, a, 2, maxRectangle) == goal
      invariant maxArea == ScoreOf(maxRectangle, RectArea)
    {
      maxRectangle, maxArea := SearchHeights(boundary, fits, centroid, bounds, a, maxRectangle, maxArea);
    }
  }

  /** The inner loop of `findLargestInscribedRectangle`: every height ratio for one width ratio. */
  method SearchHeights(boundary: seq<Point>, ghost fits: Rect -> bool, centroid: Point,
                       bounds: Box, a: nat, best: Option<Rect>, bestArea: real)
    returns (maxRectangle: Option<Rect>, maxArea: real)
    requires 2 <= a < 20
    requires Decides(fits, boundary)
    requires bestArea == ScoreOf(best, RectArea)
    ensures RectSearchFrom(fits, centroid, bounds, a, 20, maxRectangle)
            == RectSearchFrom(fits, centroid, bounds, a, 2, best)
    ensures maxArea == ScoreOf(maxRectangle, RectArea)
  {
    maxRectangle, maxArea := best, bestArea;
    for b := 2 to 20
      invariant RectSearchFrom(fits, centroid, bounds, a, b, maxRectangle)
                == RectSearchFrom(fits, centroid, bounds, a, 2, best)
      invariant maxArea == ScoreOf(maxRectangle, RectArea)
    {
      var rect := RectCandidate(centroid, bounds, a, b);
      maxRectangle, maxArea := ConsiderRectangle(boundary, fits, rect, maxRectangle, maxArea);
    }
  }

  /** The body of the inner loop: test the candidate, keep it when it fits and beats the best area. */
  method ConsiderRectangle(boundary: seq<Point>, ghost fits: Rect -> bool, rect: Rect, best: Option<Rect>, bestArea: real)
    returns (next: Option<Rect>, nextArea: real)
    requires Decides(fits, boundary)
    requires bestArea == ScoreOf(best, RectArea)
    ensures next == Consider(best, rect, fits, RectArea)
    ensures nextArea == ScoreOf(next, RectArea)
  {
    next, nextArea := best, bestArea;
    var inside := IsRectangleInPolygon(rect, boundary);
    if inside {
      var area := rect.area;
      if area > bestArea {
        next, nextArea := Some(rect), area;
      }
    }
  }


  /** The recursive search computes the running maximum over the flat candidate sequence. */
  lemma {:induction false} RectSearchIsBestFit(fits: Rect -> bool, c: Point, bounds: Box, a: nat, b: nat, n: nat)
    requires 2 <= a <= 20 && 2 <= b <= 20 && (a < 20 || b == 2)
    requires n == (a - 2) * 18 + (b - 2)
    ensures var cands := RectCandidates(c, bounds);
            RectSearchFrom(fits, c, bounds, a, b, BestFit(cands, fits, RectArea, n))
            == BestFit(cands, fits, RectArea, 324)
    decreases 20 - a, 20 - b
  {
    var cands := RectCandidates(c, bounds);
    if a == 20 {
      assert n == 324;
    } else if b == 20 {
      RectSearchIsBestFit(fits, c, bounds, a + 1, 2, n);
    } else {
      var r := RectCandidate(c, bounds, a, b);
      CandidateAt(c, bounds, a, b);
      assert BestFit(cands, fits, RectArea, n + 1) == Consider(BestFit(cands, fits, RectArea, n), r, fits, RectArea);
      RectSearchIsBestFit(fits, c, bounds, a, b + 1, n + 1);
    }
  }

  /**
   * For any containment test: a found rectangle is a fitting candidate of
   * positive area, and no fitting candidate is larger (nor larger than 0
   * when none is found).
   */
  lemma RectSearchProps(fits: Rect -> bool, c: Point, bounds: Box)
    ensures var best := RectSearch(fits, c, bounds);
            (best.Some? ==> exists a, b :: 2 <= a < 20 && 2 <= b < 20 &&
                              best.value == RectCandidate(c, bounds, a, b) &&
                              fits(best.value) && 0.0 < best.value.area)
    ensures var best := RectSearch(fits, c, bounds);
            forall a, b :: 2 <= a < 20 && 2 <= b < 20 && fits(RectCandidate(c, bounds, a, b)) ==>
              RectCandidate(c, bounds, a, b).area <= ScoreOf(best, RectArea)
  {
    var cands := RectCandidates(c, bounds);
    RectSearchIsBestFit(fits, c, bounds, 2, 2, 0);
    BestFitIsFirstMaximum(cands, fits, RectArea, 324);
    var best := BestFit(cands, fits, RectArea, 324);
    if best.Some? {
      var i :| 0 <= i < 324 && cands[i] == best.value && fits(cands[i]) && 0.0 < RectArea(cands[i]);
      var a, b := 2 + i / 18, 2 + i % 18;
      assert i == (a - 2) * 18 + (b - 2);
      CandidateAt(c, bounds, a, b);
    }
    forall a, b | 2 <= a < 20 && 2 <= b < 20 && fits(RectCandidate(c, bounds, a, b))
      ensures RectCandidate(c, bounds, a, b).area <= ScoreOf(best, RectArea)
    {
      CandidateAt(c, bounds, a, b);
    }
  }

  /**
   * A candidate of positive area over non-negative ranges is centred on c,
   * has positive width and height, and at most 0.95 of each range.
   */
  lemma CandidateShape(c: Point, bounds: Box, a: nat, b: nat)
    requires bounds.minX <= bounds.maxX && bounds.minY <= bounds.maxY && 2 <= a < 20 && 2 <= b < 20
    requires 0.0 < RectCandidate(c, bounds, a, b).area
    ensures var r := RectCandidate(c, bounds, a, b);
            r.x + r.width / 2.0 == c.x && r.y + r.height / 2.0 == c.y &&
            ProductArea(r) && 0.0 < r.width && 0.0 < r.height &&
            r.width <= 0.95 * BoxWidth(bounds) && r.height <= 0.95 * BoxHeight(bounds)
  {
    var r := RectCandidate(c, bounds, a, b);
    var width, height := BoxWidth(bounds) * (a as real / 20.0), BoxHeight(bounds) * (b as real / 20.0);
    assert r == Rect(c.x - width / 2.0, c.y - height / 2.0, width, height, width * height);
    MulNonNegative(BoxWidth(bounds), a as real / 20.0);
    MulNonNegative(BoxHeight(bounds), b as real / 20.0);
    MulNonNegative(BoxWidth(bounds), (19 - a) as real / 20.0);
    MulNonNegative(BoxHeight(bounds), (19 - b) as real / 20.0);
    PositiveFactors(1.0, width, height);
  }

  /** A rectangle whose corners pass the containment test lies inside the polygon's bounding box. */
  lemma RectInBox(r: Rect, polygon: seq<Point>)
    requires RectFits(r, polygon)
    ensures var bb := BoundingBox(polygon);
            bb.minX <= r.x && r.x + r.width < bb.maxX && bb.minY <= r.y && r.y + r.height < bb.maxY
  {
    assert PointInPolygon(Corners(r)[0], polygon);
    assert PointInPolygon(Corners(r)[2], polygon);
    InsideWithinBox(Corners(r)[0], polygon);
    InsideWithinBox(Corners(r)[2], polygon);
  }

  /**
   * Over an ordered box, a rectangle found by the grid search passes the
   * test, is centred on c, has positive width and height, and spans at most
   * 0.95 of the box in each direction.
   */
  lemma RectSearchFound(fits: Rect -> bool, c: Point, bounds: Box)
    requires bounds.minX <= bounds.maxX && bounds.minY <= bounds.maxY
    requires RectSearch(fits, c, bounds).Some?
    ensures var r := RectSearch(fits, c, bounds).value;
            fits(r) && r.x + r.width / 2.0 == c.x && r.y + r.height / 2.0 == c.y &&
            ProductArea(r) && 0.0 < r.width && 0.0 < r.height &&
            r.width <= 0.95 * BoxWidth(bounds) && r.height <= 0.95 * BoxHeight(bounds)
  {
    RectSearchProps(fits, c, bounds);
    var r := RectSearch(fits, c, bounds).value;
    var a, b :| 2 <= a < 20 && 2 <= b < 20 && fits(r) && 0.0 < r.area &&
                r == RectCandidate(c, bounds, a, b);
    CandidateShape(c, bounds, a, b);
  }

  /**
   * Ties go to the earlier candidate: the rectangle found is the first, in
   * search order, of the fitting candidates of largest area.
   */
  lemma RectSearchFirst(fits: Rect -> bool, c: Point, bounds: Box)
    requires RectSearch(fits, c, bounds).Some?
    ensures var cands, r := RectCandidates(c, bounds), RectSearch(fits, c, bounds).value;
            exists i :: 0 <= i < 324 && cands[i] == r &&
              forall j :: 0 <= j < i && fits(cands[j]) ==> cands[j].area < r.area
  {
    var cands := RectCandidates(c, bounds);
    RectSearchIsBestFit(fits, c, bounds, 2, 2, 0);
    assert RectSearch(fits, c, bounds) == BestFit(cands, fits, RectArea, 324);
    BestFitIsFirstMaximum(cands, fits, RectArea, 324);
  }

  /** Equal areas do occur on the grid: ratios (0.10, 0.30) and (0.15, 0.20) give the same rectangle area. */
  lemma RatioTie(c: Point, bounds: Box)
    ensures RectCandidate(c, bounds, 2, 6).area == RectCandidate(c, bounds, 3, 4).area
  {
    var w, h := BoxWidth(bounds), BoxHeight(bounds);
    assert (w * (2 as real / 20.0)) * (h * (6 as real / 20.0)) == (w * h) * 0.03;
    assert (w * (3 as real / 20.0)) * (h * (4 as real / 20.0)) == (w * h) * 0.03;
  }

  /** No candidate of the grid that passes the test has a larger area than the one found (or than 0). */
  lemma RectSearchLargest(fits: Rect -> bool, c: Point, bounds: Box, a: nat, b: nat)
    requires 2 <= a < 20 && 2 <= b < 20
    ensures var r := RectCandidate(c, bounds, a, b);
            fits(r) ==> r.area <= ScoreOf(RectSearch(fits, c, bounds), RectArea)
  {
    RectSearchProps(fits, c, bounds);
  }

  /**
   * A found rectangle has all four corners inside the boundary, is centred on
   * the boundary's centroid, has area width * height, spans at most 0.95 of
   * the bounding box in each direction and lies inside the bounding box; it
   * is the first grid candidate of largest area among those that fit.
   */
  lemma LargestRectangleProps(boundary: seq<Point>)
    requires LargestRectangle(boundary).Some?
    ensures var r, c, bb := LargestRectangle(boundary).value, Centroid(boundary), BoundingBox(boundary);
            RectFits(r, boundary) &&
            r.x + r.width / 2.0 == c.x && r.y + r.height / 2.0 == c.y &&
            ProductArea(r) && 0.0 < r.width && 0.0 < r.height &&
            r.width <= 0.95 * BoxWidth(bb) && r.height <= 0.95 * BoxHeight(bb) &&
            bb.minX <= r.x && r.x + r.width < bb.maxX && bb.minY <= r.y && r.y + r.height < bb.maxY
    ensures var r, cands := LargestRectangle(boundary).value, RectCandidates(Centroid(boundary), BoundingBox(boundary));
            exists i :: 0 <= i < 324 && cands[i] == r &&
              forall j :: 0 <= j < i && RectFits(cands[j], boundary) ==> cands[j].area < r.area
  {
    BoxOrdered(boundary);
    RectSearchFound(FitsIn(boundary), Centroid(boundary), BoundingBox(boundary));
    RectInBox(LargestRectangle(boundary).value, boundary);
    RectSearchFirst(FitsIn(boundary), Centroid(boundary), BoundingBox(boundary));
  }

  /** No candidate of the search that fits inside the boundary is larger than the rectangle found. */
  lemma LargestRectangleIsLargest(boundary: seq<Point>, a: nat, b: nat)
    requires |boundary| >= 3 && 2 <= a < 20 && 2 <= b < 20
    ensures var bb := BoundingBox(boundary);
            var r := RectCandidate(Centroid(boundary), bb, a, b);
            RectFits(r, boundary) ==> r.area <= ScoreOf(LargestRectangle(boundary), RectArea)
  {
    RectSearchLargest(FitsIn(boundary), Centroid(boundary), BoundingBox(boundary), a, b);
  }

  // ---------------------------------------------------------------------
  // Ellipses
  // ---------------------------------------------------------------------

  /** The trigonometry the ellipse search relies on: the value of pi, cosine and sine. */
  datatype Trig = Trig(pi: real, cos: real -> real, sin: real -> real)

  /** A rotated ellipse with its centre, semi-axes, rotation (radians) and area. */
  datatype Ellipse = Ellipse(center: Point, semiMajorAxis: real, semiMinorAxis: real, rotation: real, area: real)

  /** Sample i of the 16 points the containment test checks on the ellipse outline. */
  function EllipsePoint(e: Ellipse, trig: Trig, i: nat): Point
  {
    var theta := (i as real / 16.0) * 2.0 * trig.pi;
    Point(e.center.x + e.semiMajorAxis * trig.cos(theta) * trig.cos(e.rotation)
            - e.semiMinorAxis * trig.sin(theta) * trig.sin(e.rotation),
          e.center.y + e.semiMajorAxis * trig.cos(theta) * trig.sin(e.rotation)
            + e.semiMinorAxis * trig.sin(theta) * trig.cos(e.rotation))
  }

  /** All 16 sampled outline points lie inside the polygon. */
  predicate EllipseFits(e: Ellipse, polygon: seq<Point>, trig: Trig)
  {
    forall i :: 0 <= i < 16 ==> PointInPolygon(EllipsePoint(e, trig, i), polygon)
  }

  /** `isEllipseInPolygon`: every sampled outline point passes the ray-casting test. */
  method IsEllipseInPolygon(e: Ellipse, polygon: seq<Point>, trig: Trig) returns (inside: bool)
    ensures inside == EllipseFits(e, polygon, trig)
  {
    for i := 0 to 16
      invariant forall j :: 0 <= j < i ==> PointInPolygon(EllipsePoint(e, trig, j), polygon)
    {
      var ok := IsPointInPolygon(EllipsePoint(e, trig, i), polygon);
      if !ok {
        return false;
      }
    }
    return true;
  }

  /**
   * The candidate with width ratio k/10, height ratio l/10 and rotation
   * m * pi / 8, centred on c.
   */
  function EllipseCandidate(c: Point, bounds: Box, pi: real, k: nat, l: nat, m: nat): Ellipse
  {
    var semiMajor := (BoxWidth(bounds) / 2.0) * (k as real / 10.0);
    var semiMinor := (BoxHeight(bounds) / 2.0) * (l as real / 10.0);
    Ellipse(c, semiMajor, semiMinor, m as real * (pi / 8.0), pi * semiMajor * semiMinor)
  }

  /**
   * The candidates in search order, width ratio outermost and rotation
   * innermost: 9 ratios per axis (0.2, 0.3, ..., 1.0) and 8 rotations, so 648
   * in all.
   */
  function EllipseCandidates(c: Point, bounds: Box, pi: real): (s: seq<Ellipse>)
    ensures |s| == 648
  {
    seq(648, n requires 0 <= n < 648 =>
      EllipseCandidate(c, bounds, pi, 2 + n / 72, 2 + n % 72 / 8, n % 8))
  }

  /** The candidate for ratios k/10, l/10 and rotation m sits at index (k - 2) * 72 + (l - 2) * 8 + m. */
  lemma EllipseCandidateAt(c: Point, bounds: Box, pi: real, k: nat, l: nat, m: nat)
    requires 2 <= k <= 10 && 2 <= l <= 10 && m < 8
    ensures EllipseCandidates(c, bounds, pi)[(k - 2) * 72 + (l - 2) * 8 + m]
            == EllipseCandidate(c, bounds, pi, k, l, m)
  {
    var n := (k - 2) * 72 + (l - 2) * 8 + m;
    assert n / 72 == k - 2 && n % 72 == (l - 2) * 8 + m;
    assert n % 72 / 8 == l - 2 && n % 8 == m;
  }

  function EllipseArea(e: Ellipse): real { e.area }

  /** The containment test as a function value. */
  function EllipseFitsIn(boundary: seq<Point>, trig: Trig): Ellipse -> bool
  {
    (e: Ellipse) => EllipseFits(e, boundary, trig)
  }

  /**
   * The search that remains from width ratio k/10, height ratio l/10 and
   * rotation m on, starting from the best ellipse so far: the three loops of
   * `findLargestInscribedEllipse`, written as a recursion.
   */
  function EllipseSearchFrom(fits: Ellipse -> bool, c: Point, bounds: Box, pi: real,
                             k: nat, l: nat, m: nat, best: Option<Ellipse>): Option<Ellipse>
    requires 2 <= k <= 11 && 2 <= l <= 11 && m <= 8
    decreases 11 - k, 11 - l, 8 - m
  {
    if k == 11 then best
    else if l == 11 then EllipseSearchFrom(fits, c, bounds, pi, k + 1, 2, 0, best)
    else if m == 8 then EllipseSearchFrom(fits, c, bounds, pi, k, l + 1, 0, best)
    else EllipseSearchFrom(fits, c, bounds, pi, k, l, m + 1,
                           Consider(best, EllipseCandidate(c, bounds, pi, k, l, m), fits, EllipseArea))
  }

  /** The ellipse grid search over the ranges of a bounding box, centred on c. */
  function EllipseSearch(fits: Ellipse -> bool, c: Point, bounds: Box, pi: real): Option<Ellipse>
  {
    EllipseSearchFrom(fits, c, bounds, pi, 2, 2, 0, None)
  }

  /** What `findLargestInscribedEllipse` returns. */
  function LargestEllipse(boundary: seq<Point>, trig: Trig): Option<Ellipse>
  {
    if |boundary| < 3 then None
    else EllipseSearch(EllipseFitsIn(boundary, trig), Centroid(boundary), BoundingBox(boundary), trig.pi)
  }

  /** `fits` is the ellipse containment test for `boundary`, triggered only by `EllipseFits` terms. */
  ghost predicate DecidesEllipse(fits: Ellipse -> bool, boundary: seq<Point>, trig: Trig)
  {
    forall e {:trigger EllipseFits(e, boundary, trig)} :: fits(e) == EllipseFits(e, boundary, trig)
  }

  /** `findLargestInscribedEllipse`: centroid and bounding box, then the grid search. */
  method FindLargestInscribedEllipse(boundary: seq<Point>, trig: Trig) returns (maxEllipse: Option<Ellipse>)
    ensures maxEllipse == LargestEllipse(boundary, trig)
    ensures |boundary| < 3 ==> maxEllipse == None
  {
    if |boundary| < 3 {
      return None;
    }
    var centroid := Centroid(boundary);
    var bounds := BoundingBox(boundary);
    maxEllipse := SearchEllipseGrid(boundary, trig, EllipseFitsIn(boundary, trig), centroid, bounds);
  }

  /** The three nested loops of `findLargestInscribedEllipse`, with their running maximum. */
  method SearchEllipseGrid(boundary: seq<Point>, trig: Trig, ghost fits: Ellipse -> bool, centroid: Point, bounds: Box)
    returns (maxEllipse: Option<Ellipse>)
    requires DecidesEllipse(fits, boundary, trig)
    ensures maxEllipse == EllipseSearch(fits, centroid, bounds, trig.pi)
  {
    maxEllipse := None;
    var maxArea := 0.0;
    ghost var goal := EllipseSearch(fits, centroid, bounds, trig.pi);
    for k := 2 to 11
      invariant EllipseSearchFrom(fits, centroid, bounds, trig.pi, k, 2, 0, maxEllipse) == goal
      invariant maxArea == ScoreOf(maxEllipse, EllipseArea)
    {
      for l := 2 to 11
        invariant EllipseSearchFrom(fits, centroid, bounds, trig.pi, k, l, 0, maxEllipse) == goal
        invariant maxArea == ScoreOf(maxEllipse, EllipseArea)
      {
        maxEllipse, maxArea := SearchRotations(boundary, trig, fits, centroid, bounds, k, l, maxEllipse, maxArea);
      }
    }
  }

  /** The innermost loop of `findLargestInscribedEllipse`: the eight rotations for one pair of semi-axes. */
  method SearchRotations(boundary: seq<Point>, trig: Trig, ghost fits: Ellipse -> bool, centroid: Point,
                         bounds: Box, k: nat, l: nat, best: Option<Ellipse>, bestArea: real)
    returns (maxEllipse: Option<Ellipse>, maxArea: real)
    requires 2 <= k <= 10 && 2 <= l <= 10
    requires DecidesEllipse(fits, boundary, trig)
    requires bestArea == ScoreOf(best, EllipseArea)
    ensures EllipseSearchFrom(fits, centroid, bounds, trig.pi, k, l, 8, maxEllipse)
            == EllipseSearchFrom(fits, centroid, bounds, trig.pi, k, l, 0, best)
    ensures maxArea == ScoreOf(maxEllipse, EllipseArea)
  {
    maxEllipse, maxArea := best, bestArea;
    for m := 0 to 8
      invariant EllipseSearchFrom(fits, centroid, bounds, trig.pi, k, l, m, maxEllipse)
                == EllipseSearchFrom(fits, centroid, bounds, trig.pi, k, l, 0, best)
      invariant maxArea == ScoreOf(maxEllipse, EllipseArea)
    {
      var ellipse := EllipseCandidate(centroid, bounds, trig.pi, k, l, m);
      maxEllipse, maxArea := ConsiderEllipse(boundary, trig, fits, ellipse, maxEllipse, maxArea);
    }
  }

  /** The body of the innermost loop: test the candidate, keep it when it fits and beats the best area. */
  method ConsiderEllipse(boundary: seq<Point>, trig: Trig, ghost fits: Ellipse -> bool, ellipse: Ellipse,
                         best: Option<Ellipse>, bestArea: real)
    returns (next: Option<Ellipse>, nextArea: real)
    requires DecidesEllipse(fits, boundary, trig)
    requires bestArea == ScoreOf(best, EllipseArea)
    ensures next == Consider(best, ellipse, fits, EllipseArea)
    ensures nextArea == ScoreOf(next, EllipseArea)
  {
    next, nextArea := best, bestArea;
    var inside := IsEllipseInPolygon(ellipse, boundary, trig);
    if inside {
      var area := ellipse.area;
      if area > bestArea {
        next, nextArea := Some(ellipse), area;
      }
    }
  }

  /** The recursive search computes the running maximum over the flat candidate sequence. */
  lemma {:induction false} EllipseSearchIsBestFit(fits: Ellipse -> bool, c: Point, bounds: Box,
                                                 pi: real, k: nat, l: nat, m: nat, n: nat)
    requires 2 <= k <= 11 && 2 <= l <= 11 && m <= 8
    requires (k < 11 || (l == 2 && m == 0)) && (l < 11 || m == 0)
    requires n == (k - 2) * 72 + (l - 2) * 8 + m
    ensures var cands := EllipseCandidates(c, bounds, pi);
            EllipseSearchFrom(fits, c, bounds, pi, k, l, m, BestFit(cands, fits, EllipseArea, n))
            == BestFit(cands, fits, EllipseArea, 648)
    decreases 11 - k, 11 - l, 8 - m
  {
    var cands := EllipseCandidates(c, bounds, pi);
    var best := BestFit(cands, fits, EllipseArea, n);
    if k == 11 {
      assert n == 648;
    } else if l == 11 {
      assert EllipseSearchFrom(fits, c, bounds, pi, k, l, m, best)
          == EllipseSearchFrom(fits, c, bounds, pi, k + 1, 2, 0, best);
      EllipseSearchIsBestFit(fits, c, bounds, pi, k + 1, 2, 0, n);
    } else if m == 8 {
      assert EllipseSearchFrom(fits, c, bounds, pi, k, l, m, best)
          == EllipseSearchFrom(fits, c, bounds, pi, k, l + 1, 0, best);
      EllipseSearchIsBestFit(fits, c, bounds, pi, k, l + 1, 0, n);
    } else {
      var e := EllipseCandidate(c, bounds, pi, k, l, m);
      EllipseCandidateAt(c, bounds, pi, k, l, m);
      var next := Consider(best, e, fits, EllipseArea);
      assert BestFit(cands, fits, EllipseArea, n + 1) == next;
      assert EllipseSearchFrom(fits, c, bounds, pi, k, l, m, best)
          == EllipseSearchFrom(fits, c, bounds, pi, k, l, m + 1, next);
      EllipseSearchIsBestFit(fits, c, bounds, pi, k, l, m + 1, n + 1);
    }
  }

  /** Index n of the flat candidate sequence splits back into its ratios and rotation. */
  lemma EllipseIndex(n: nat)
    requires n < 648
    ensures 2 <= 2 + n / 72 <= 10 && 2 <= 2 + n % 72 / 8 <= 10 && n % 8 < 8
    ensures n == (n / 72) * 72 + (n % 72 / 8) * 8 + n % 8
  {
  }

  /** For any containment test, a found ellipse is a fitting candidate of positive area. */
  lemma EllipseSearchWitness(fits: Ellipse -> bool, c: Point, bounds: Box, pi: real)
    ensures var best := EllipseSearch(fits, c, bounds, pi);
            best.Some? ==> exists k, l, m :: 2 <= k <= 10 && 2 <= l <= 10 && m < 8 &&
                             best.value == EllipseCandidate(c, bounds, pi, k, l, m) &&
                             fits(best.value) && 0.0 < best.value.area
  {
    var cands := EllipseCandidates(c, bounds, pi);
    EllipseSearchIsBestFit(fits, c, bounds, pi, 2, 2, 0, 0);
    BestFitIsFirstMaximum(cands, fits, EllipseArea, 648);
    var best := BestFit(cands, fits, EllipseArea, 648);
    if best.Some? {
      var n :| 0 <= n < 648 && cands[n] == best.value && fits(cands[n]) && 0.0 < EllipseArea(cands[n]);
      EllipseIndex(n);
      EllipseCandidateAt(c, bounds, pi, 2 + n / 72, 2 + n % 72 / 8, n % 8);
    }
  }

  /** For any containment test, no fitting candidate is larger than the ellipse found (nor than 0 when none is). */
  lemma EllipseSearchMaximal(fits: Ellipse -> bool, c: Point, bounds: Box, pi: real)
    ensures var best := EllipseSearch(fits, c, bounds, pi);
            forall k, l, m :: 2 <= k <= 10 && 2 <= l <= 10 && m < 8 &&
                              fits(EllipseCandidate(c, bounds, pi, k, l, m)) ==>
              EllipseCandidate(c, bounds, pi, k, l, m).area <= ScoreOf(best, EllipseArea)
  {
    var cands := EllipseCandidates(c, bounds, pi);
    EllipseSearchIsBestFit(fits, c, bounds, pi, 2, 2, 0, 0);
    BestFitIsFirstMaximum(cands, fits, EllipseArea, 648);
    forall k, l, m | 2 <= k <= 10 && 2 <= l <= 10 && m < 8 &&
                     fits(EllipseCandidate(c, bounds, pi, k, l, m))
      ensures EllipseCandidate(c, bounds, pi, k, l, m).area
              <= ScoreOf(BestFit(cands, fits, EllipseArea, 648), EllipseArea)
    {
      EllipseCandidateAt(c, bounds, pi, k, l, m);
    }
  }

  /** A product of three non-negative factors that is positive has positive factors. */
  lemma PositiveFactors(p: real, a: real, b: real)
    requires 0.0 < p && 0.0 <= a && 0.0 <= b && 0.0 < p * a * b
    ensures 0.0 < a && 0.0 < b
  {
  }

  /**
   * A candidate of positive area over non-negative ranges (pi positive) is
   * centred on c, has positive semi-axes of at most half of each range, and a
   * rotation in [0, pi).
   */
  lemma EllipseCandidateShape(c: Point, bounds: Box, pi: real, k: nat, l: nat, m: nat)
    requires bounds.minX <= bounds.maxX && bounds.minY <= bounds.maxY && 0.0 < pi
    requires 2 <= k <= 10 && 2 <= l <= 10 && m < 8
    requires 0.0 < EllipseCandidate(c, bounds, pi, k, l, m).area
    ensures var e := EllipseCandidate(c, bounds, pi, k, l, m);
            e.center == c &&
            0.0 < e.semiMajorAxis <= BoxWidth(bounds) / 2.0 && 0.0 < e.semiMinorAxis <= BoxHeight(bounds) / 2.0 &&
            0.0 <= e.rotation < pi
  {
    var e := EllipseCandidate(c, bounds, pi, k, l, m);
    MulNonNegative(BoxWidth(bounds) / 2.0, k as real / 10.0);
    MulNonNegative(BoxHeight(bounds) / 2.0, l as real / 10.0);
    MulNonNegative(BoxWidth(bounds) / 2.0, (10 - k) as real / 10.0);
    MulNonNegative(BoxHeight(bounds) / 2.0, (10 - l) as real / 10.0);
    PositiveFactors(pi, e.semiMajorAxis, e.semiMinorAxis);
    MulNonNegative(m as real, pi / 8.0);
    MulNonNegative((7 - m) as real, pi / 8.0);
  }

  /**
   * Over an ordered box (pi positive), an ellipse found by the grid search
   * passes the test, is centred on c, has positive semi-axes of at most half
   * the box in each direction, and a rotation in [0, pi).
   */
  lemma EllipseSearchFound(fits: Ellipse -> bool, c: Point, bounds: Box, pi: real)
    requires bounds.minX <= bounds.maxX && bounds.minY <= bounds.maxY && 0.0 < pi
    requires EllipseSearch(fits, c, bounds, pi).Some?
    ensures var e := EllipseSearch(fits, c, bounds, pi).value;
            fits(e) && e.center == c &&
            0.0 < e.semiMajorAxis <= BoxWidth(bounds) / 2.0 && 0.0 < e.semiMinorAxis <= BoxHeight(bounds) / 2.0 &&
            0.0 <= e.rotation < pi
  {
    EllipseSearchWitness(fits, c, bounds, pi);
    var e := EllipseSearch(fits, c, bounds, pi).value;
    var k, l, m :| 2 <= k <= 10 && 2 <= l <= 10 && m < 8 && fits(e) && 0.0 < e.area &&
                   e == EllipseCandidate(c, bounds, pi, k, l, m);
    EllipseCandidateShape(c, bounds, pi, k, l, m);
  }

  /**
   * Ties go to the earlier candidate: the ellipse found is the first, in
   * search order, of the fitting candidates of largest area.
   */
  lemma EllipseSearchFirst(fits: Ellipse -> bool, c: Point, bounds: Box, pi: real)
    requires EllipseSearch(fits, c, bounds, pi).Some?
    ensures var cands, e := EllipseCandidates(c, bounds, pi), EllipseSearch(fits, c, bounds, pi).value;
            exists i :: 0 <= i < 648 && cands[i] == e &&
              forall j :: 0 <= j < i && fits(cands[j]) ==> cands[j].area < e.area
  {
    var cands := EllipseCandidates(c, bounds, pi);
    EllipseSearchIsBestFit(fits, c, bounds, pi, 2, 2, 0, 0);
    assert EllipseSearch(fits, c, bounds, pi) == BestFit(cands, fits, EllipseArea, 648);
    BestFitIsFirstMaximum(cands, fits, EllipseArea, 648);
  }

  /** No candidate of the grid that passes the test has a larger area than the one found (or than 0). */
  lemma EllipseSearchLargest(fits: Ellipse -> bool, c: Point, bounds: Box, pi: real, k: nat, l: nat, m: nat)
    requires 2 <= k <= 10 && 2 <= l <= 10 && m < 8
    ensures var e := EllipseCandidate(c, bounds, pi, k, l, m);
            fits(e) ==> e.area <= ScoreOf(EllipseSearch(fits, c, bounds, pi), EllipseArea)
  {
    EllipseSearchMaximal(fits, c, bounds, pi);
  }

  /**
   * A found ellipse has all 16 sampled outline points inside the boundary
   * (and so inside its bounding box), is centred on the boundary's centroid,
   * has semi-axes of at most half the bounding box and a rotation in [0, pi).
   */
  lemma LargestEllipseProps(boundary: seq<Point>, trig: Trig)
    requires 0.0 < trig.pi
    requires LargestEllipse(boundary, trig).Some?
    ensures var e, bb := LargestEllipse(boundary, trig).value, BoundingBox(boundary);
            EllipseFits(e, boundary, trig) && e.center == Centroid(boundary) &&
            0.0 < e.semiMajorAxis <= BoxWidth(bb) / 2.0 &&
            0.0 < e.semiMinorAxis <= BoxHeight(bb) / 2.0 &&
            0.0 <= e.rotation < trig.pi &&
            forall i :: 0 <= i < 16 ==>
              bb.minX <= EllipsePoint(e, trig, i).x < bb.maxX && bb.minY <= EllipsePoint(e, trig, i).y < bb.maxY
  {
    LargestEllipseFound(boundary, trig, EllipseFitsIn(boundary, trig));
    EllipseInBox(LargestEllipse(boundary, trig).value, boundary, trig);
  }

  /** The shape part of LargestEllipseProps, for any `fits` that is the boundary's containment test. */
  lemma LargestEllipseFound(boundary: seq<Point>, trig: Trig, fits: Ellipse -> bool)
    requires 0.0 < trig.pi && |boundary| >= 3 && DecidesEllipse(fits, boundary, trig)
    requires EllipseSearch(fits, Centroid(boundary), BoundingBox(boundary), trig.pi).Some?
    ensures var e, bb := EllipseSearch(fits, Centroid(boundary), BoundingBox(boundary), trig.pi).value, BoundingBox(boundary);
            EllipseFits(e, boundary, trig) && e.center == Centroid(boundary) &&
            0.0 < e.semiMajorAxis <= BoxWidth(bb) / 2.0 &&
            0.0 < e.semiMinorAxis <= BoxHeight(bb) / 2.0 &&
            0.0 <= e.rotation < trig.pi
  {
    BoxOrdered(boundary);
    EllipseSearchFound(fits, Centroid(boundary), BoundingBox(boundary), trig.pi);
    assert EllipseFits(EllipseSearch(fits, Centroid(boundary), BoundingBox(boundary), trig.pi).value, boundary, trig);
  }

  /** The ellipse found is the first candidate, in search order, of largest area among those that fit. */
  lemma LargestEllipseFirst(boundary: seq<Point>, trig: Trig)
    requires LargestEllipse(boundary, trig).Some?
    ensures var e, cands := LargestEllipse(boundary, trig).value,
                            EllipseCandidates(Centroid(boundary), BoundingBox(boundary), trig.pi);
            exists i :: 0 <= i < 648 && cands[i] == e &&
              forall j :: 0 <= j < i && EllipseFits(cands[j], boundary, trig) ==> cands[j].area < e.area
  {
    EllipseSearchFirst(EllipseFitsIn(boundary, trig), Centroid(boundary), BoundingBox(boundary), trig.pi);
  }

  /** An ellipse whose sampled outline passes the containment test has its samples inside the polygon's bounding box. */
  lemma EllipseInBox(e: Ellipse, polygon: seq<Point>, trig: Trig)
    requires EllipseFits(e, polygon, trig)
    ensures var bb := BoundingBox(polygon);
            forall i :: 0 <= i < 16 ==>
              bb.minX <= EllipsePoint(e, trig, i).x < bb.maxX && bb.minY <= EllipsePoint(e, trig, i).y < bb.maxY
  {
    forall i | 0 <= i < 16
      ensures var bb := BoundingBox(polygon);
              bb.minX <= EllipsePoint(e, trig, i).x < bb.maxX && bb.minY <= EllipsePoint(e, trig, i).y < bb.maxY
    {
      InsideWithinBox(EllipsePoint(e, trig, i), polygon);
    }
  }

  /** No candidate of the search that fits inside the boundary is larger than the ellipse found. */
  lemma LargestEllipseIsLargest(boundary: seq<Point>, trig: Trig, k: nat, l: nat, m: nat)
    requires |boundary| >= 3 && 2 <= k <= 10 && 2 <= l <= 10 && m < 8
    ensures var bb := BoundingBox(boundary);
            var e := EllipseCandidate(Centroid(boundary), bb, trig.pi, k, l, m);
            EllipseFits(e, boundary, trig) ==> e.area <= ScoreOf(LargestEllipse(boundary, trig), EllipseArea)
  {
    EllipseSearchLargest(EllipseFitsIn(boundary, trig), Centroid(boundary), BoundingBox(boundary), trig.pi, k, l, m);
  }
}
