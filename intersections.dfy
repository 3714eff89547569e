/**
 * The intersection finder (geometric_analysis.js `lineSegmentIntersection`,
 * `findCurvePairIntersections`, `findCurveIntersections`): every pair of
 * sample segments of every pair of curves is tested with the cross-product
 * determinant, and the hits of one curve pair are deduplicated first-found-wins.
 */
module Intersections {
  import opened Wrappers
  import opened Seqs
  import opened Geometry
  import opened Bezier

  /** A crossing point together with the indices of the two curves that produced it. */
  datatype Intersection = Intersection(pt: Point, curve1Index: nat, curve2Index: nat)

  /** Determinants smaller than this in magnitude count as parallel segments. */
  const ParallelTolerance: real := 0.0000000001

  /** Two hits closer than this distance are the same crossing. */
  const DedupThreshold: real := 3.0

  function Denominator(p1: Point, p2: Point, p3: Point, p4: Point): real
  {
    (p1.x - p2.x) * (p3.y - p4.y) - (p1.y - p2.y) * (p3.x - p4.x)
  }

  /** q lies on the closed segment from a to b. */
  ghost predicate OnSegment(q: Point, a: Point, b: Point)
  {
    exists s :: 0.0 <= s <= 1.0 && q == Lerp(a, b, s)
  }

  /** The parameter along p1-p2 of the crossing of the two carrier lines (`t`). */
  function ParamT(p1: Point, p2: Point, p3: Point, p4: Point): real
    requires Denominator(p1, p2, p3, p4) != 0.0
  {
    ((p1.x - p3.x) * (p3.y - p4.y) - (p1.y - p3.y) * (p3.x - p4.x)) / Denominator(p1, p2, p3, p4)
  }

  /** The parameter along p3-p4 of the crossing of the two carrier lines (`u`). */
  function ParamU(p1: Point, p2: Point, p3: Point, p4: Point): real
    requires Denominator(p1, p2, p3, p4) != 0.0
  {
    -((p1.x - p2.x) * (p1.y - p3.y) - (p1.y - p2.y) * (p1.x - p3.x)) / Denominator(p1, p2, p3, p4)
  }

  /**
   * `lineSegmentIntersection`: nothing for (near-)parallel segments; otherwise
   * the common point of the segments p1-p2 and p3-p4 when they have one.
   */
  function LineSegmentIntersection(p1: Point, p2: Point, p3: Point, p4: Point): (r: Option<Point>)
    ensures Abs(Denominator(p1, p2, p3, p4)) < ParallelTolerance ==> r == None
    ensures r.Some? ==> OnSegment(r.value, p1, p2) && OnSegment(r.value, p3, p4)
  {
    var denom := Denominator(p1, p2, p3, p4);
    if Abs(denom) < ParallelTolerance then None
    else
      var t := ParamT(p1, p2, p3, p4);
      var u := ParamU(p1, p2, p3, p4);
      if t >= 0.0 && t <= 1.0 && u >= 0.0 && u <= 1.0 then
        HitOnBoth(p1, p2, p3, p4);
        Some(Lerp(p1, p2, t))
      else None
  }

  lemma CancelFactor(d: real, a: real, b: real)
    requires d != 0.0 && d * a == d * b
    ensures a == b
  {
    assert d * (a - b) == 0.0;
    if a - b > 0.0 {
      if d > 0.0 { MulPositive(d, a - b); } else { MulPositive(-d, a - b); }
    } else if a - b < 0.0 {
      if d > 0.0 { MulPositive(d, b - a); } else { MulPositive(-d, b - a); }
    }
  }

  /**
   * Cramer's rule for the 2x2 system s*a - v*c == f, s*b - v*e == g with
   * determinant a*e - b*c, read forwards.
   */
  lemma CramerForward(a: real, b: real, c: real, e: real, f: real, g: real, s: real, v: real)
    requires f == s * a - v * c && g == s * b - v * e
    ensures s * (a * e - b * c) == f * e - g * c
    ensures v * (a * e - b * c) == -(a * g - b * f)
  {
    assert f * e == s * a * e - v * c * e;
    assert g * c == s * b * c - v * e * c;
    assert a * g == s * a * b - v * a * e;
    assert b * f == s * a * b - v * b * c;
  }

  /** The same rule read backwards: the quotients solve the system. */
  lemma CramerBackward(a: real, b: real, c: real, e: real, f: real, g: real, t: real, u: real)
    requires a * e - b * c != 0.0
    requires t * (a * e - b * c) == f * e - g * c
    requires u * (a * e - b * c) == -(a * g - b * f)
    ensures f == t * a - u * c && g == t * b - u * e
  {
    var d := a * e - b * c;
    assert d * (t * a - u * c) == a * (t * d) - c * (u * d);
    assert a * (f * e - g * c) + c * (a * g - b * f) == f * d;
    CancelFactor(d, t * a - u * c, f);
    assert d * (t * b - u * e) == b * (t * d) - e * (u * d);
    assert b * (f * e - g * c) + e * (a * g - b * f) == g * d;
    CancelFactor(d, t * b - u * e, g);
  }

  /** The parameters the function computes name the same point on both segments. */
  lemma CommonPoint(p1: Point, p2: Point, p3: Point, p4: Point)
    requires Denominator(p1, p2, p3, p4) != 0.0
    ensures Lerp(p1, p2, ParamT(p1, p2, p3, p4)) == Lerp(p3, p4, ParamU(p1, p2, p3, p4))
  {
    var t, u := ParamT(p1, p2, p3, p4), ParamU(p1, p2, p3, p4);
    var a, b, c, e := p1.x - p2.x, p1.y - p2.y, p3.x - p4.x, p3.y - p4.y;
    var f, g := p1.x - p3.x, p1.y - p3.y;
    var d := a * e - b * c;
    assert d == Denominator(p1, p2, p3, p4);
    assert t * d == f * e - g * c;
    assert u * d == -(a * g - b * f);
    CramerBackward(a, b, c, e, f, g, t, u);
  }

  lemma HitOnBoth(p1: Point, p2: Point, p3: Point, p4: Point)
    requires Denominator(p1, p2, p3, p4) != 0.0
    requires 0.0 <= ParamT(p1, p2, p3, p4) <= 1.0 && 0.0 <= ParamU(p1, p2, p3, p4) <= 1.0
    ensures var q := Lerp(p1, p2, ParamT(p1, p2, p3, p4));
            OnSegment(q, p1, p2) && OnSegment(q, p3, p4)
  {
    CommonPoint(p1, p2, p3, p4);
  }

  /**
   * Completeness: when the segments are not parallel and share a point, the
   * function returns exactly that point.
   */
  lemma IntersectionFound(p1: Point, p2: Point, p3: Point, p4: Point, s: real, v: real)
    requires Abs(Denominator(p1, p2, p3, p4)) >= ParallelTolerance
    requires 0.0 <= s <= 1.0 && 0.0 <= v <= 1.0 && Lerp(p1, p2, s) == Lerp(p3, p4, v)
    ensures LineSegmentIntersection(p1, p2, p3, p4) == Some(Lerp(p1, p2, s))
  {
    var a, b, c, e := p1.x - p2.x, p1.y - p2.y, p3.x - p4.x, p3.y - p4.y;
    var f, g := p1.x - p3.x, p1.y - p3.y;
    var d := a * e - b * c;
    assert d == Denominator(p1, p2, p3, p4);
    // The two coordinate equations of the common point.
    assert f == s * a - v * c;
    assert g == s * b - v * e;
    CramerForward(a, b, c, e, f, g, s, v);
    assert s == ParamT(p1, p2, p3, p4);
    assert v == ParamU(p1, p2, p3, p4);
  }

  /** The segments (0,0)-(10,10) and (0,10)-(10,0) cross exactly at (5,5). */
  lemma DiagonalsCrossAtCenter()
    ensures LineSegmentIntersection(Point(0.0, 0.0), Point(10.0, 10.0), Point(0.0, 10.0), Point(10.0, 0.0))
         == Some(Point(5.0, 5.0))
  {
    IntersectionFound(Point(0.0, 0.0), Point(10.0, 10.0), Point(0.0, 10.0), Point(10.0, 0.0), 0.5, 0.5);
  }

  // ---------------------------------------------------------------------
  // Deduplication within one curve pair
  // ---------------------------------------------------------------------

  /** Some kept intersection lies closer than the threshold to p (`isDuplicate`). */
  predicate NearAny(kept: seq<Intersection>, p: Point)
  {
    exists k :: 0 <= k < |kept| && SqDist(kept[k].pt, p) < DedupThreshold * DedupThreshold
  }

  /** One step of the dedup loop: keep x unless a kept point is near it. */
  function Absorb(kept: seq<Intersection>, x: Intersection): seq<Intersection>
  {
    if NearAny(kept, x.pt) then kept else kept + [x]
  }

  /** The hits that survive deduplication, scanned in order. */
  function Dedup(xs: seq<Intersection>): seq<Intersection>
  {
    if xs == [] then [] else Absorb(Dedup(xs[..|xs| - 1]), xs[|xs| - 1])
  }

  lemma DedupSnoc(xs: seq<Intersection>, x: Intersection)
    ensures Dedup(xs + [x]) == Absorb(Dedup(xs), x)
  {
    assert (xs + [x])[..|xs|] == xs;
  }

  /** Any two entries are at least the dedup threshold apart. */
  predicate Separated(d: seq<Intersection>)
  {
    forall a, b :: 0 <= a < b < |d| ==> SqDist(d[a].pt, d[b].pt) >= DedupThreshold * DedupThreshold
  }

  /** Retained intersections are pairwise at least the threshold apart. */
  lemma {:induction false} DedupSeparated(xs: seq<Intersection>)
    ensures Separated(Dedup(xs))
  {
    if xs != [] {
      var init, x := xs[..|xs| - 1], xs[|xs| - 1];
      DedupSeparated(init);
      var d0 := Dedup(init);
      assert Dedup(xs) == Absorb(d0, x);
      if !NearAny(d0, x.pt) {
        AppendFar(d0, x);
      }
    }
  }

  lemma AppendFar(d0: seq<Intersection>, x: Intersection)
    requires Separated(d0) && !NearAny(d0, x.pt)
    ensures Separated(d0 + [x])
  {
    var d := d0 + [x];
    forall a, b | 0 <= a < b < |d|
      ensures SqDist(d[a].pt, d[b].pt) >= DedupThreshold * DedupThreshold
    {
      assert d[a] == d0[a];
      if b < |d0| {
        assert d[b] == d0[b];
      }
    }
  }

  /** Every candidate lies closer than the threshold to some retained intersection. */
  lemma {:induction false} DedupCovers(xs: seq<Intersection>)
    ensures forall i :: 0 <= i < |xs| ==> NearAny(Dedup(xs), xs[i].pt)
  {
    if xs != [] {
      var init, x := xs[..|xs| - 1], xs[|xs| - 1];
      DedupCovers(init);
      var d0 := Dedup(init);
      var d := Dedup(xs);
      assert d[..|d0|] == d0;
      forall i | 0 <= i < |xs|
        ensures NearAny(d, xs[i].pt)
      {
        if i < |init| {
          assert NearAny(d0, init[i].pt);
          var k :| 0 <= k < |d0| && SqDist(d0[k].pt, init[i].pt) < DedupThreshold * DedupThreshold;
          assert d[k] == d0[k];
        } else if !NearAny(d0, x.pt) {
          assert d[|d0|] == x && SqDist(x.pt, x.pt) == 0.0;
        } else {
          var k :| 0 <= k < |d0| && SqDist(d0[k].pt, x.pt) < DedupThreshold * DedupThreshold;
          assert d[k] == d0[k];
        }
      }
    }
  }

  /** The retained intersections are candidates kept in discovery order. */
  lemma {:induction false} DedupSubseq(xs: seq<Intersection>)
    ensures IsSubseq(Dedup(xs), xs)
  {
    if xs != [] {
      var init, x := xs[..|xs| - 1], xs[|xs| - 1];
      DedupSubseq(init);
      assert xs == init + [x];
      if NearAny(Dedup(init), x.pt) {
        SubseqExtend(Dedup(init), init, x);
      } else {
        SubseqAppendBoth(Dedup(init), init, x);
      }
    }
  }

  /** The first candidate found is always retained, in first position. */
  lemma {:induction false} DedupKeepsFirst(xs: seq<Intersection>)
    requires xs != []
    ensures Dedup(xs) != [] && Dedup(xs)[0] == xs[0]
  {
    var init := xs[..|xs| - 1];
    if init != [] {
      DedupKeepsFirst(init);
      assert init[0] == xs[0];
    }
  }

  /** Two hits 1 unit apart collapse to one; two hits 5 units apart both stay. */
  lemma DedupThresholdExamples()
    ensures Dedup([Intersection(Point(0.0, 0.0), 0, 1), Intersection(Point(1.0, 0.0), 0, 1)])
         == [Intersection(Point(0.0, 0.0), 0, 1)]
    ensures Dedup([Intersection(Point(0.0, 0.0), 0, 1), Intersection(Point(5.0, 0.0), 0, 1)])
         == [Intersection(Point(0.0, 0.0), 0, 1), Intersection(Point(5.0, 0.0), 0, 1)]
  {
    var a := Intersection(Point(0.0, 0.0), 0, 1);
    var b := Intersection(Point(1.0, 0.0), 0, 1);
    var c := Intersection(Point(5.0, 0.0), 0, 1);
    DedupSnoc([a], b);
    DedupSnoc([a], c);
    assert Dedup([a]) == [a] by { DedupSnoc([], a); }
    assert NearAny([a], b.pt) by { assert SqDist(a.pt, b.pt) == 1.0; }
    assert !NearAny([a], c.pt) by { assert SqDist(a.pt, c.pt) == 25.0; }
  }

  // ---------------------------------------------------------------------
  // Candidates of one curve pair, in scan order
  // ---------------------------------------------------------------------

  /** Number of segments of a sampled polyline (`samples.length - 1`, none when empty). */
  function SegCount(s: seq<Sample>): nat
  {
    if |s| == 0 then 0 else |s| - 1
  }

  /** The hit of segment a-b against segment c-d, tagged with the curve indices. */
  function Hit(a: Point, b: Point, c: Point, d: Point, i1: nat, i2: nat): seq<Intersection>
  {
    match LineSegmentIntersection(a, b, c, d)
    case None => []
    case Some(p) => [Intersection(p, i1, i2)]
  }

  /** Hits of segment a-b against the first k segments of s2. */
  function RowHits(a: Point, b: Point, s2: seq<Sample>, k: nat, i1: nat, i2: nat): seq<Intersection>
    requires k <= SegCount(s2)
  {
    if k == 0 then [] else RowHits(a, b, s2, k - 1, i1, i2) + Hit(a, b, s2[k - 1].pt, s2[k].pt, i1, i2)
  }

  /** Hits of the first k segments of s1 against every segment of s2, outer loop over s1. */
  function PairHits(s1: seq<Sample>, s2: seq<Sample>, k: nat, i1: nat, i2: nat): seq<Intersection>
    requires k <= SegCount(s1)
  {
    if k == 0 then []
    else PairHits(s1, s2, k - 1, i1, i2) + RowHits(s1[k - 1].pt, s1[k].pt, s2, SegCount(s2), i1, i2)
  }

  /** All segment hits between two curves, before deduplication. */
  function Candidates(c1: Curve, c2: Curve): seq<Intersection>
  {
    PairHits(c1.samples, c2.samples, SegCount(c1.samples), c1.index, c2.index)
  }

  /** What `findCurvePairIntersections` returns. */
  function PairIntersections(c1: Curve, c2: Curve): seq<Intersection>
  {
    Dedup(Candidates(c1, c2))
  }

  /** One step of the inner loop: the next segment's hit, if any, is absorbed. */
  lemma RowStep(done: seq<Intersection>, a: Point, b: Point, s2: seq<Sample>, j: nat, i1: nat, i2: nat)
    requires j < SegCount(s2)
    ensures var before := Dedup(done + RowHits(a, b, s2, j, i1, i2));
            Dedup(done + RowHits(a, b, s2, j + 1, i1, i2))
            == match LineSegmentIntersection(a, b, s2[j].pt, s2[j + 1].pt)
               case None => before
               case Some(p) => Absorb(before, Intersection(p, i1, i2))
  {
    var row := RowHits(a, b, s2, j, i1, i2);
    match LineSegmentIntersection(a, b, s2[j].pt, s2[j + 1].pt)
    case None =>
      assert done + RowHits(a, b, s2, j + 1, i1, i2) == done + row;
    case Some(p) =>
      var hit := Intersection(p, i1, i2);
      assert done + RowHits(a, b, s2, j + 1, i1, i2) == (done + row) + [hit];
      DedupSnoc(done + row, hit);
  }

  /** `findCurvePairIntersections`: the double segment loop with first-found-wins deduplication. */
  method FindCurvePairIntersections(curve1: Curve, curve2: Curve) returns (intersections: seq<Intersection>)
    ensures intersections == PairIntersections(curve1, curve2)
  {
    var s1, s2 := curve1.samples, curve2.samples;
    intersections := [];
    var i := 0;
    while i < |s1| - 1
      invariant 0 <= i <= SegCount(s1)
      invariant intersections == Dedup(PairHits(s1, s2, i, curve1.index, curve2.index))
    {
      var seg1Start, seg1End := s1[i], s1[i + 1];
      ghost var done := PairHits(s1, s2, i, curve1.index, curve2.index);
      intersections := ScanRow(seg1Start.pt, seg1End.pt, s2, curve1.index, curve2.index, done, intersections);
      assert PairHits(s1, s2, i + 1, curve1.index, curve2.index)
          == done + RowHits(seg1Start.pt, seg1End.pt, s2, SegCount(s2), curve1.index, curve2.index);
      i := i + 1;
    }
  }

  /** The inner loop of `findCurvePairIntersections`: segment a-b against every segment of s2. */
  method ScanRow(a: Point, b: Point, s2: seq<Sample>, i1: nat, i2: nat,
                 ghost done: seq<Intersection>, kept: seq<Intersection>) returns (intersections: seq<Intersection>)
    requires kept == Dedup(done)
    ensures intersections == Dedup(done + RowHits(a, b, s2, SegCount(s2), i1, i2))
  {
    intersections := kept;
    assert done + RowHits(a, b, s2, 0, i1, i2) == done;
    var j := 0;
    while j < |s2| - 1
      invariant 0 <= j <= SegCount(s2)
      invariant intersections == Dedup(done + RowHits(a, b, s2, j, i1, i2))
    {
      intersections := ConsiderSegments(a, b, s2, j, i1, i2, done, intersections);
      j := j + 1;
    }
    assert j == SegCount(s2);
  }

  /**
   * The body of the inner loop of `findCurvePairIntersections`: intersect
   * segment a-b with segment j of the second curve and keep the point unless
   * it is near one already kept.
   */
  method ConsiderSegments(a: Point, b: Point, s2: seq<Sample>, j: nat, i1: nat, i2: nat,
                          ghost done: seq<Intersection>, kept: seq<Intersection>) returns (intersections: seq<Intersection>)
    requires j < SegCount(s2)
    requires kept == Dedup(done + RowHits(a, b, s2, j, i1, i2))
    ensures intersections == Dedup(done + RowHits(a, b, s2, j + 1, i1, i2))
  {
    RowStep(done, a, b, s2, j, i1, i2);
    intersections := kept;
    var intersection := LineSegmentIntersection(a, b, s2[j].pt, s2[j + 1].pt);
    if intersection.Some? {
      var isDuplicate := NearAny(intersections, intersection.value);
      if !isDuplicate {
        intersections := intersections + [Intersection(intersection.value, i1, i2)];
      }
    }
  }

  /** Every candidate of a curve pair carries that pair's indices. */
  lemma {:induction false} RowHitsTagged(a: Point, b: Point, s2: seq<Sample>, k: nat, i1: nat, i2: nat)
    requires k <= SegCount(s2)
    ensures forall x :: x in RowHits(a, b, s2, k, i1, i2) ==> x.curve1Index == i1 && x.curve2Index == i2
  {
    if k > 0 {
      RowHitsTagged(a, b, s2, k - 1, i1, i2);
    }
  }

  lemma {:induction false} PairHitsTagged(s1: seq<Sample>, s2: seq<Sample>, k: nat, i1: nat, i2: nat)
    requires k <= SegCount(s1)
    ensures forall x :: x in PairHits(s1, s2, k, i1, i2) ==> x.curve1Index == i1 && x.curve2Index == i2
  {
    if k > 0 {
      PairHitsTagged(s1, s2, k - 1, i1, i2);
      RowHitsTagged(s1[k - 1].pt, s1[k].pt, s2, SegCount(s2), i1, i2);
    }
  }

  /** The retained intersections of a pair are its candidates, each tagged with the pair's indices. */
  lemma PairIntersectionsTagged(c1: Curve, c2: Curve)
    ensures forall x :: x in PairIntersections(c1, c2) ==>
              x in Candidates(c1, c2) && x.curve1Index == c1.index && x.curve2Index == c2.index
  {
    DedupSubseq(Candidates(c1, c2));
    SubseqElements(PairIntersections(c1, c2), Candidates(c1, c2));
    PairHitsTagged(c1.samples, c2.samples, SegCount(c1.samples), c1.index, c2.index);
  }

  // ---------------------------------------------------------------------
  // All curve pairs
  // ---------------------------------------------------------------------

  /** The hits of curve i with curves i+1 .. j-1, concatenated in order, for a pair function `pair`. */
  function PairsFrom(pair: (Curve, Curve) -> seq<Intersection>, curves: seq<Curve>, i: nat, j: nat): seq<Intersection>
    requires i < j <= |curves|
    decreases j - i
  {
    if j == i + 1 then [] else PairsFrom(pair, curves, i, j - 1) + pair(curves[i], curves[j - 1])
  }

  /** The pairs whose first curve is below k, concatenated in loop order, with no cross-pair deduplication. */
  function AllPairs(pair: (Curve, Curve) -> seq<Intersection>, curves: seq<Curve>, k: nat): seq<Intersection>
    requires k <= |curves|
  {
    if k == 0 then [] else AllPairs(pair, curves, k - 1) + PairsFrom(pair, curves, k - 1, |curves|)
  }

  /** What `findCurveIntersections` returns. */
  function AllIntersections(curves: seq<Curve>): seq<Intersection>
  {
    AllPairs(PairIntersections, curves, |curves|)
  }

  /** `findCurveIntersections`: concatenates the deduplicated hits of every pair i < j. */
  method FindCurveIntersections(curves: seq<Curve>) returns (all: seq<Intersection>)
    ensures all == AllIntersections(curves)
  {
    all := [];
    var i := 0;
    while i < |curves|
      invariant 0 <= i <= |curves|
      invariant all == AllPairs(PairIntersections, curves, i)
    {
      var found := PairsWithLater(curves, i);
      all := all + found;
      assert all == AllPairs(PairIntersections, curves, i + 1);
      i := i + 1;
    }
    assert i == |curves|;
  }

  /** The inner loop of `findCurveIntersections`: the hits of curve i with every later curve, in order. */
  method PairsWithLater(curves: seq<Curve>, i: nat) returns (found: seq<Intersection>)
    requires i < |curves|
    ensures found == PairsFrom(PairIntersections, curves, i, |curves|)
  {
    found := [];
    var j := i + 1;
    while j < |curves|
      invariant i + 1 <= j <= |curves|
      invariant found == PairsFrom(PairIntersections, curves, i, j)
    {
      var intersects := FindCurvePairIntersections(curves[i], curves[j]);
      found := found + intersects;
      j := j + 1;
    }
    assert j == |curves|;
  }

  /** Curve k of the analyzer carries index k. */
  predicate WellIndexed(curves: seq<Curve>)
  {
    forall k :: 0 <= k < |curves| ==> curves[k].index == k
  }

  /** Every element names two distinct curves below n, the lower index first. */
  predicate OrderedPairsBelow(xs: seq<Intersection>, n: nat)
  {
    forall x :: x in xs ==> x.curve1Index < x.curve2Index < n
  }

  /** A pair function that tags every hit with the indices of the two curves it was given. */
  ghost predicate TagsPairs(pair: (Curve, Curve) -> seq<Intersection>)
  {
    forall c1, c2, x :: x in pair(c1, c2) ==> x.curve1Index == c1.index && x.curve2Index == c2.index
  }

  lemma {:induction false} PairsFromTagged(pair: (Curve, Curve) -> seq<Intersection>, curves: seq<Curve>, i: nat, j: nat)
    requires TagsPairs(pair) && WellIndexed(curves) && i < j <= |curves|
    ensures forall x :: x in PairsFrom(pair, curves, i, j) ==> x.curve1Index == i < x.curve2Index < j
    decreases j - i
  {
    if j > i + 1 {
      PairsFromTagged(pair, curves, i, j - 1);
    }
  }

  lemma {:induction false} AllPairsTagged(pair: (Curve, Curve) -> seq<Intersection>, curves: seq<Curve>, k: nat)
    requires TagsPairs(pair) && WellIndexed(curves) && k <= |curves|
    ensures OrderedPairsBelow(AllPairs(pair, curves, k), |curves|)
  {
    if k > 0 {
      AllPairsTagged(pair, curves, k - 1);
      PairsFromTagged(pair, curves, k - 1, |curves|);
    }
  }

  /** Every intersection names two distinct curves, the lower index first. */
  lemma AllIntersectionsTagged(curves: seq<Curve>)
    requires WellIndexed(curves)
    ensures forall x :: x in AllIntersections(curves) ==> x.curve1Index < x.curve2Index < |curves|
  {
    forall c1, c2 ensures forall x :: x in PairIntersections(c1, c2) ==>
                            x.curve1Index == c1.index && x.curve2Index == c2.index {
      PairIntersectionsTagged(c1, c2);
    }
    AllPairsTagged(PairIntersections, curves, |curves|);
  }

  /** A single curve (or none) has nothing to intersect with. */
  lemma FewCurvesNoIntersections(curves: seq<Curve>)
    requires |curves| < 2
    ensures AllIntersections(curves) == []
  {
    if |curves| == 1 {
      assert AllPairs(PairIntersections, curves, 1) == [] + PairsFrom(PairIntersections, curves, 0, 1);
    }
  }
}
