/**
 * `convexHull` (geometric_analysis.js): a Graham scan around the bottom-most
 * point of the screen (largest y, leftmost on ties), with the points ordered
 * by the polar angle `atan2(q.y - pivot.y, q.x - pivot.x)`.
 */
module Hull {
  import opened Seqs
  import opened Geometry
  import opened Sorting

  /** p takes over as pivot from b: further down the screen, or as far down and further left. */
  predicate Lower(p: Point, b: Point)
  {
    p.y > b.y || (p.y == b.y && p.x < b.x)
  }

  /** The pivot after the first k points have been scanned. */
  function PivotAfter(points: seq<Point>, k: nat): Point
    requires 0 < |points| && k <= |points|
  {
    if k == 0 then points[0]
    else
      var b := PivotAfter(points, k - 1);
      if Lower(points[k - 1], b) then points[k - 1] else b
  }

  function Pivot(points: seq<Point>): Point
    requires 0 < |points|
  {
    PivotAfter(points, |points|)
  }

  lemma {:induction false} PivotAfterIsLowest(points: seq<Point>, k: nat)
    requires 0 < |points| && k <= |points|
    ensures PivotAfter(points, k) in points
    ensures forall m :: 0 <= m < k ==> !Lower(points[m], PivotAfter(points, k))
  {
    if k > 0 {
      PivotAfterIsLowest(points, k - 1);
    }
  }

  /** The pivot is one of the points, none lies lower, and none as low lies further left. */
  lemma PivotIsLowest(points: seq<Point>)
    requires 0 < |points|
    ensures var b := Pivot(points);
            b in points &&
            forall q :: q in points ==> q.y <= b.y && (q.y == b.y ==> b.x <= q.x)
  {
    PivotAfterIsLowest(points, |points|);
  }

  /** The sort key: polar angle of q seen from the pivot b. */
  function AngleKey(b: Point, atan2: (real, real) -> real): Point -> real
  {
    (q: Point) => atan2(q.y - b.y, q.x - b.x)
  }

  /** Pops the top of the stack while it does not make a strict left turn towards p (`while ... hull.pop()`). */
  function PopNonLeft(hull: seq<Point>, p: Point): seq<Point>
    decreases |hull|
  {
    if |hull| > 1 && Cross(hull[|hull| - 2], hull[|hull| - 1], p) <= 0.0
    then PopNonLeft(hull[..|hull| - 1], p)
    else hull
  }

  /** The scan from stack `hull` over the remaining sorted points. */
  function ScanFrom(hull: seq<Point>, rest: seq<Point>): seq<Point>
    decreases |rest|
  {
    if rest == [] then hull
    else ScanFrom(PopNonLeft(hull, rest[0]) + [rest[0]], rest[1..])
  }

  /** The scan over an angle-sorted sequence, seeded with its first two points. */
  function Scan(sorted: seq<Point>): seq<Point>
    requires |sorted| >= 2
  {
    ScanFrom([sorted[0], sorted[1]], sorted[2..])
  }

  /** The points in the order the scan visits them. */
  function SortedAround(points: seq<Point>, atan2: (real, real) -> real): (s: seq<Point>)
    requires 0 < |points|
    ensures |s| == |points|
  {
    SortByKey(points, AngleKey(Pivot(points), atan2))
  }

  /** What `convexHull` returns: its input when fewer than three points, the scan otherwise. */
  function HullOf(points: seq<Point>, atan2: (real, real) -> real): seq<Point>
  {
    if |points| < 3 then points else Scan(SortedAround(points, atan2))
  }

  /** `convexHull`: the pivot loop, the angle sort, then the stack scan. */
  method ConvexHull(points: seq<Point>, atan2: (real, real) -> real) returns (hull: seq<Point>)
    ensures hull == HullOf(points, atan2)
  {
    if |points| < 3 {
      return points;
    }
    var bottom := points[0];
    for i := 0 to |points|
      invariant bottom == PivotAfter(points, i)
    {
      var p := points[i];
      if p.y > bottom.y || (p.y == bottom.y && p.x < bottom.x) {
        bottom := p;
      }
    }
    var sorted := SortByKey(points, AngleKey(bottom, atan2));
    hull := [sorted[0], sorted[1]];
    for i := 2 to |sorted|
      invariant ScanFrom(hull, sorted[i..]) == Scan(sorted)
    {
      ghost var before := hull;
      while |hull| > 1 && Cross(hull[|hull| - 2], hull[|hull| - 1], sorted[i]) <= 0.0
        invariant PopNonLeft(hull, sorted[i]) == PopNonLeft(before, sorted[i])
        decreases |hull|
      {
        hull := hull[..|hull| - 1];
      }
      assert sorted[i..][0] == sorted[i] && sorted[i..][1..] == sorted[i + 1..];
      hull := hull + [sorted[i]];
    }
  }

  /** Every three consecutive points of h make a strict left turn (positive cross product). */
  predicate LeftTurns(h: seq<Point>)
  {
    forall k :: 0 <= k < |h| - 2 ==> LeftTurnAt(h, k)
  }

  predicate LeftTurnAt(h: seq<Point>, k: nat)
    requires k + 2 < |h|
  {
    Cross(h[k], h[k + 1], h[k + 2]) > 0.0
  }

  /**
   * Popping leaves a non-empty prefix of the stack that still turns left
   * everywhere and, unless a single point is left, turns left towards p.
   */
  lemma {:induction false} PopNonLeftProps(hull: seq<Point>, p: Point)
    requires |hull| >= 1 && LeftTurns(hull)
    ensures var r := PopNonLeft(hull, p);
            1 <= |r| <= |hull| && r == hull[..|r|] && LeftTurns(r) &&
            (|r| > 1 ==> Cross(r[|r| - 2], r[|r| - 1], p) > 0.0)
    decreases |hull|
  {
    if |hull| > 1 && Cross(hull[|hull| - 2], hull[|hull| - 1], p) <= 0.0 {
      var h' := hull[..|hull| - 1];
      assert LeftTurns(h') by {
        forall k | 0 <= k < |h'| - 2
          ensures LeftTurnAt(h', k)
        {
          assert LeftTurnAt(hull, k);
          assert h'[k] == hull[k] && h'[k + 1] == hull[k + 1] && h'[k + 2] == hull[k + 2];
        }
      }
      PopNonLeftProps(h', p);
      var r := PopNonLeft(h', p);
      assert hull[..|r|] == h'[..|r|];
    } else {
      assert hull[..|hull|] == hull;
    }
  }

  /** Pushing p onto a popped stack keeps every turn strictly left. */
  lemma PushKeepsLeftTurns(r: seq<Point>, p: Point)
    requires 1 <= |r| && LeftTurns(r)
    requires |r| > 1 ==> Cross(r[|r| - 2], r[|r| - 1], p) > 0.0
    ensures LeftTurns(r + [p])
  {
    var h := r + [p];
    forall k | 0 <= k < |h| - 2
      ensures LeftTurnAt(h, k)
    {
      if k + 2 < |r| {
        assert LeftTurnAt(r, k);
        assert h[k] == r[k] && h[k + 1] == r[k + 1] && h[k + 2] == r[k + 2];
      } else {
        assert h[k] == r[|r| - 2] && h[k + 1] == r[|r| - 1] && h[k + 2] == p;
      }
    }
  }

  /**
   * The scan keeps its first point, ends with the last point visited and
   * turns strictly left at every intermediate point.
   */
  lemma {:induction false} ScanFromShape(hull: seq<Point>, rest: seq<Point>)
    requires |hull| >= 2 && LeftTurns(hull)
    ensures var h := ScanFrom(hull, rest);
            |h| >= 2 && h[0] == hull[0] && LeftTurns(h) &&
            (rest != [] ==> h[|h| - 1] == rest[|rest| - 1])
    decreases |rest|
  {
    if rest != [] {
      var p := rest[0];
      PopNonLeftProps(hull, p);
      var r := PopNonLeft(hull, p);
      PushKeepsLeftTurns(r, p);
      assert (r + [p])[0] == hull[0];
      ScanFromShape(r + [p], rest[1..]);
      if rest[1..] == [] {
        assert rest == [p];
      } else {
        assert rest[1..][|rest[1..]| - 1] == rest[|rest| - 1];
      }
    }
  }

  /** The scan only ever drops points: its result keeps the visiting order. */
  lemma {:induction false} ScanFromSubseq(hull: seq<Point>, rest: seq<Point>, seen: seq<Point>)
    requires |hull| >= 1 && LeftTurns(hull) && IsSubseq(hull, seen)
    ensures IsSubseq(ScanFrom(hull, rest), seen + rest)
    decreases |rest|
  {
    if rest == [] {
      assert seen + rest == seen;
    } else {
      var p := rest[0];
      PopNonLeftProps(hull, p);
      var r := PopNonLeft(hull, p);
      PushKeepsLeftTurns(r, p);
      SubseqPrefix(hull, seen, |r|);
      SubseqAppendBoth(r, seen, p);
      ScanFromSubseq(r + [p], rest[1..], seen + [p]);
      assert (seen + [p]) + rest[1..] == seen + rest;
    }
  }

  /**
   * For three or more points the result starts and ends with the first and
   * last point in angle order, turns strictly left at every intermediate
   * vertex, keeps the angle order, and uses input points only.
   */
  lemma HullProps(points: seq<Point>, atan2: (real, real) -> real)
    requires |points| >= 3
    ensures var s, h := SortedAround(points, atan2), HullOf(points, atan2);
            |h| >= 2 && h[0] == s[0] && h[|h| - 1] == s[|s| - 1] &&
            LeftTurns(h) && IsSubseq(h, s) &&
            forall q :: q in h ==> q in points
  {
    var s := SortedAround(points, atan2);
    var h := HullOf(points, atan2);
    assert h == Scan(s);
    ScanProps(s);
    SortByKeyCorrect(points, AngleKey(Pivot(points), atan2));
    forall q | q in h
      ensures q in points
    {
      assert q in multiset(s);
    }
  }

  /** The scan over any sequence of at least three points, whatever its order. */
  lemma ScanProps(s: seq<Point>)
    requires |s| >= 3
    ensures var h := Scan(s);
            |h| >= 2 && h[0] == s[0] && h[|h| - 1] == s[|s| - 1] &&
            LeftTurns(h) && IsSubseq(h, s) &&
            forall q :: q in h ==> q in s
  {
    var seed := [s[0], s[1]];
    assert s == seed + s[2..];
    assert IsSubseq(seed, seed) by { SubseqRefl(seed); }
    ScanFromShape(seed, s[2..]);
    ScanFromSubseq(seed, s[2..], seed);
    SubseqElements(Scan(s), s);
  }

  /** Fewer than three points are returned unchanged. */
  lemma SmallHullIsInput(points: seq<Point>, atan2: (real, real) -> real)
    requires |points| < 3
    ensures HullOf(points, atan2) == points
  {
  }
}
