/**
 * Plane geometry of the analyzer (geometric_analysis.js): points, the
 * orientation test, bounding boxes, the point-mean centroid, the shoelace area
 * and the ray-casting containment test. Coordinates are exact reals.
 */
module Geometry {
  import opened Seqs

  datatype Point = Point(x: real, y: real)

  /** An axis-aligned box, as `getBoundingBox` returns it. */
  datatype Box = Box(minX: real, maxX: real, minY: real, maxY: real)

  /** The extent of a box along x (`maxX - minX`) and along y. */
  function BoxWidth(b: Box): real { b.maxX - b.minX }

  function BoxHeight(b: Box): real { b.maxY - b.minY }

  /** `crossProduct(o, a, b)`: positive when o -> a -> b turns left. */
  function Cross(o: Point, a: Point, b: Point): real
  {
    (a.x - o.x) * (b.y - o.y) - (a.y - o.y) * (b.x - o.x)
  }

  /** The square of `distance(p, q)`; comparing it with 9 is comparing the distance with 3. */
  function SqDist(p: Point, q: Point): (d: real)
    ensures d >= 0.0
    ensures p == q ==> d == 0.0
  {
    (p.x - q.x) * (p.x - q.x) + (p.y - q.y) * (p.y - q.y)
  }

  /**
   * `Math.sqrt` as the model needs it: never negative, 0 at 0 and positive at
   * every positive argument.
   */
  type Sqrt = f: real -> real | (forall x :: f(x) >= 0.0) && f(0.0) == 0.0 && (forall x :: x > 0.0 ==> f(x) > 0.0)
    witness (x: real) => if x > 0.0 then x else 0.0

  /** The point a + s * (b - a). */
  function Lerp(a: Point, b: Point, s: real): Point
  {
    Point(a.x + s * (b.x - a.x), a.y + s * (b.y - a.y))
  }

  function Xs(pts: seq<Point>): (xs: seq<real>)
    ensures |xs| == |pts| && forall i :: 0 <= i < |pts| ==> xs[i] == pts[i].x
  {
    seq(|pts|, i requires 0 <= i < |pts| => pts[i].x)
  }

  function Ys(pts: seq<Point>): (ys: seq<real>)
    ensures |ys| == |pts| && forall i :: 0 <= i < |pts| ==> ys[i] == pts[i].y
  {
    seq(|pts|, i requires 0 <= i < |pts| => pts[i].y)
  }

  /**
   * `getBoundingBox`: all zeros for no points, otherwise the tightest box
   * holding every point (each bound is attained by some point).
   */
  function BoundingBox(pts: seq<Point>): (b: Box)
    ensures |pts| == 0 ==> b == Box(0.0, 0.0, 0.0, 0.0)
    ensures forall i :: 0 <= i < |pts| ==>
              b.minX <= pts[i].x <= b.maxX && b.minY <= pts[i].y <= b.maxY
    ensures |pts| > 0 ==>
              (exists i :: 0 <= i < |pts| && pts[i].x == b.minX) &&
              (exists i :: 0 <= i < |pts| && pts[i].x == b.maxX) &&
              (exists i :: 0 <= i < |pts| && pts[i].y == b.minY) &&
              (exists i :: 0 <= i < |pts| && pts[i].y == b.maxY)
  {
    if |pts| == 0 then Box(0.0, 0.0, 0.0, 0.0)
    else Box(MinOf(Xs(pts)), MaxOf(Xs(pts)), MinOf(Ys(pts)), MaxOf(Ys(pts)))
  }

  /** A box around at least one point has its minimum below its maximum on each axis. */
  lemma BoxOrdered(pts: seq<Point>)
    requires |pts| > 0
    ensures var b := BoundingBox(pts); b.minX <= b.maxX && b.minY <= b.maxY
  {
    var b := BoundingBox(pts);
    assert b.minX <= pts[0].x <= b.maxX && b.minY <= pts[0].y <= b.maxY;
  }

  /** `calculateCentroid`: (0, 0) for no points, otherwise the mean of the points. */
  function Centroid(pts: seq<Point>): Point
  {
    if |pts| == 0 then Point(0.0, 0.0)
    else Point(Sum(Xs(pts)) / |pts| as real, Sum(Ys(pts)) / |pts| as real)
  }

  /** The mean of a non-empty set of points lies inside their bounding box. */
  lemma CentroidInBox(pts: seq<Point>)
    requires |pts| > 0
    ensures var c, b := Centroid(pts), BoundingBox(pts);
            b.minX <= c.x <= b.maxX && b.minY <= c.y <= b.maxY
  {
    var b := BoundingBox(pts);
    MeanInBounds(Xs(pts), b.minX, b.maxX);
    MeanInBounds(Ys(pts), b.minY, b.maxY);
  }

  lemma MeanInBounds(s: seq<real>, lo: real, hi: real)
    requires |s| > 0
    requires forall i :: 0 <= i < |s| ==> lo <= s[i] <= hi
    ensures lo <= Sum(s) / |s| as real <= hi
  {
    SumBounds(s, lo, hi);
    MeanBetween(Sum(s), |s| as real, lo, hi);
  }

  lemma MeanBetween(total: real, n: real, lo: real, hi: real)
    requires n > 0.0 && n * lo <= total <= n * hi
    ensures lo <= total / n <= hi
  {
    var m := total / n;
    assert total == n * m;
    if m < lo { MulPositive(n, lo - m); }
    if m > hi { MulPositive(n, m - hi); }
  }

  lemma MulPositive(a: real, b: real)
    requires a > 0.0 && b > 0.0
    ensures a * b > 0.0
  {
  }

  // ---------------------------------------------------------------------
  // Shoelace area (`calculatePolygonArea`)
  // ---------------------------------------------------------------------

  /** The shoelace term of the edge p -> q. */
  function Term(p: Point, q: Point): real
  {
    p.x * q.y - q.x * p.y
  }

  /** Shoelace terms of the open chain pts[0] -> pts[1] -> ... -> pts[k]. */
  function ChainSum(pts: seq<Point>, k: nat): real
    requires k < |pts|
  {
    if k == 0 then 0.0 else ChainSum(pts, k - 1) + Term(pts[k - 1], pts[k])
  }

  /** Twice the signed area: the chain closed by the edge from the last point back to the first. */
  function SignedArea2(pts: seq<Point>): real
  {
    if |pts| == 0 then 0.0 else ChainSum(pts, |pts| - 1) + Term(pts[|pts| - 1], pts[0])
  }

  /** The area the source reports: 0 below three points, otherwise |shoelace sum / 2|. */
  function PolygonArea(pts: seq<Point>): real
  {
    if |pts| < 3 then 0.0 else Abs(SignedArea2(pts) / 2.0)
  }

  /** `calculatePolygonArea`: the shoelace loop. */
  method CalculatePolygonArea(points: seq<Point>) returns (area: real)
    ensures area == PolygonArea(points)
    ensures area >= 0.0
    ensures |points| < 3 ==> area == 0.0
  {
    if |points| < 3 {
      return 0.0;
    }
    var n := |points|;
    var sum := 0.0;
    var i := 0;
    while i < n
      invariant 0 <= i <= n
      invariant i < n ==> sum == ChainSum(points, i)
      invariant i == n ==> sum == SignedArea2(points)
    {
      var j := (i + 1) % n;
      assert j == if i < n - 1 then i + 1 else 0;
      ghost var before := sum;
      sum := sum + points[i].x * points[j].y;
      sum := sum - points[j].x * points[i].y;
      assert sum == before + Term(points[i], points[j]);
      i := i + 1;
    }
    area := Abs(sum / 2.0);
  }

  /** The chain sum read from the front: first edge, then the chain of the rest. */
  lemma {:induction false} ChainSumFront(pts: seq<Point>, k: nat)
    requires 1 <= k < |pts|
    ensures ChainSum(pts, k) == Term(pts[0], pts[1]) + ChainSum(pts[1..], k - 1)
  {
    if k > 1 {
      ChainSumFront(pts, k - 1);
    }
  }

  /** The chain sum up to k only reads the first k + 1 points. */
  lemma {:induction false} ChainSumPrefix(a: seq<Point>, b: seq<Point>, k: nat)
    requires k < |a| && k < |b| && a[..k + 1] == b[..k + 1]
    ensures ChainSum(a, k) == ChainSum(b, k)
  {
    if k > 0 {
      assert a[k - 1] == a[..k + 1][k - 1] && a[k] == a[..k + 1][k];
      assert b[k - 1] == b[..k + 1][k - 1] && b[k] == b[..k + 1][k];
      assert a[..k] == a[..k + 1][..k] && b[..k] == b[..k + 1][..k];
      ChainSumPrefix(a, b, k - 1);
    }
  }

  /** Moving the first vertex to the end. */
  function Rotate(pts: seq<Point>): seq<Point>
    requires |pts| > 0
  {
    pts[1..] + [pts[0]]
  }

  /** The shoelace sum does not depend on which vertex the polygon starts at. */
  lemma SignedAreaRotate(pts: seq<Point>)
    requires |pts| > 0
    ensures SignedArea2(Rotate(pts)) == SignedArea2(pts)
  {
    var n := |pts|;
    var q := Rotate(pts);
    if n >= 2 {
      var rest := pts[1..];
      // The chain of q is the chain of rest followed by the edge back to pts[0].
      assert q[..n - 1] == rest;
      if n >= 3 {
        ChainSumPrefix(q, rest, n - 2);
      }
      assert ChainSum(q, n - 1) == ChainSum(rest, n - 2) + Term(pts[n - 1], pts[0]);
      ChainSumFront(pts, n - 1);
    } else {
      assert q == pts;
    }
  }

  /** The reported area does not depend on which vertex the polygon starts at. */
  lemma PolygonAreaRotate(pts: seq<Point>)
    requires |pts| > 0
    ensures PolygonArea(Rotate(pts)) == PolygonArea(pts)
  {
    SignedAreaRotate(pts);
  }

  /** For a triangle the shoelace area is half the magnitude of the cross product. */
  lemma TriangleArea(a: Point, b: Point, c: Point)
    ensures PolygonArea([a, b, c]) == Abs(Cross(a, b, c)) / 2.0
  {
    var pts := [a, b, c];
    assert ChainSum(pts, 1) == Term(a, b);
    assert ChainSum(pts, 2) == Term(a, b) + Term(b, c);
    assert SignedArea2(pts) == Cross(a, b, c);
  }

  // ---------------------------------------------------------------------
  // Ray casting (`isPointInPolygon`)
  // ---------------------------------------------------------------------

  /** The index paired with i in the loop: the previous vertex, wrapping to the last for i = 0. */
  function Prev(i: nat, n: nat): nat
    requires i < n
  {
    if i == 0 then n - 1 else i - 1
  }

  /** The edge from b to a straddles the horizontal line through p (one end strictly above it). */
  predicate Straddles(p: Point, a: Point, b: Point)
  {
    (a.y > p.y) != (b.y > p.y)
  }

  /**
   * The edge from b to a crosses the ray going right from p. The division is
   * only reached when the edge straddles p, so its divisor is never zero.
   */
  predicate Crosses(p: Point, a: Point, b: Point)
  {
    Straddles(p, a, b) && p.x < (b.x - a.x) * (p.y - a.y) / (b.y - a.y) + a.x
  }

  /** Whether an odd number of the first k edges (vertex i paired with Prev(i)) cross the ray from p. */
  function CrossingParity(p: Point, poly: seq<Point>, k: nat): bool
    requires k <= |poly|
  {
    if k == 0 then false
    else CrossingParity(p, poly, k - 1) != Crosses(p, poly[k - 1], poly[Prev(k - 1, |poly|)])
  }

  /** Ray casting: inside exactly when an odd number of edges cross the ray. */
  predicate PointInPolygon(p: Point, poly: seq<Point>)
  {
    CrossingParity(p, poly, |poly|)
  }

  /** Number of the first k edges that cross the ray from p. */
  function CrossingCount(p: Point, poly: seq<Point>, k: nat): nat
    requires k <= |poly|
  {
    if k == 0 then 0
    else CrossingCount(p, poly, k - 1) + (if Crosses(p, poly[k - 1], poly[Prev(k - 1, |poly|)]) then 1 else 0)
  }

  /** The toggled flag is the parity of the number of crossed edges. */
  lemma {:induction false} ParityOfCount(p: Point, poly: seq<Point>, k: nat)
    requires k <= |poly|
    ensures CrossingParity(p, poly, k) == (CrossingCount(p, poly, k) % 2 == 1)
  {
    if k > 0 {
      ParityOfCount(p, poly, k - 1);
    }
  }

  /** `isPointInPolygon`: toggles `inside` for every crossing edge. */
  method IsPointInPolygon(point: Point, polygon: seq<Point>) returns (inside: bool)
    ensures inside == PointInPolygon(point, polygon)
    ensures |polygon| == 0 ==> !inside
  {
    inside := false;
    var i, j := 0, |polygon| - 1;
    while i < |polygon|
      invariant 0 <= i <= |polygon|
      invariant j == if i == 0 then |polygon| - 1 else i - 1
      invariant inside == CrossingParity(point, polygon, i)
    {
      assert j == Prev(i, |polygon|);
      var vi, vj := polygon[i], polygon[j];
      var intersect := ((vi.y > point.y) != (vj.y > point.y))
        && (point.x < (vj.x - vi.x) * (point.y - vi.y) / (vj.y - vi.y) + vi.x);
      if intersect {
        inside := !inside;
      }
      j := i;
      i := i + 1;
    }
  }

  /** Where the edge from b to a meets the horizontal line through p. */
  function CrossingX(p: Point, a: Point, b: Point): real
    requires Straddles(p, a, b)
  {
    (b.x - a.x) * (p.y - a.y) / (b.y - a.y) + a.x
  }

  lemma MulNonNegative(a: real, b: real)
    requires a >= 0.0 && b >= 0.0
    ensures a * b >= 0.0
  {
  }

  /** s * d lies between 0 and d when s is in [0, 1] (d of either sign). */
  lemma ScaleBetween(s: real, d: real)
    requires 0.0 <= s <= 1.0
    ensures Min(0.0, d) <= s * d <= Max(0.0, d)
  {
    if d >= 0.0 {
      MulNonNegative(s, d);
      MulNonNegative(1.0 - s, d);
    } else {
      MulNonNegative(s, -d);
      MulNonNegative(1.0 - s, -d);
    }
  }

  /** The ratio num / den of a straddling edge is in [0, 1]. */
  lemma RatioInUnit(num: real, den: real)
    requires (0.0 <= num < den) || (den <= num < 0.0)
    ensures 0.0 <= num / den <= 1.0
  {
    var s := num / den;
    assert s * den == num;
    if den > 0.0 {
      if s < 0.0 { MulNonNegative(-s, den); }
      if s > 1.0 { MulNonNegative(s - 1.0, den); }
    } else {
      if s < 0.0 { MulNonNegative(-s, -den); }
      if s > 1.0 { MulNonNegative(s - 1.0, -den); }
    }
  }

  /** A straddling edge meets the line through p between its two end x-coordinates. */
  lemma CrossingXBetween(p: Point, a: Point, b: Point)
    requires Straddles(p, a, b)
    ensures Min(a.x, b.x) <= CrossingX(p, a, b) <= Max(a.x, b.x)
    ensures Min(a.y, b.y) <= p.y < Max(a.y, b.y)
  {
    var s := (p.y - a.y) / (b.y - a.y);
    RatioInUnit(p.y - a.y, b.y - a.y);
    ScaleBetween(s, b.x - a.x);
    MulDiv(b.x - a.x, p.y - a.y, b.y - a.y);
  }

  /** Dividing a product by z is scaling one factor by the other divided by z. */
  lemma MulDiv(x: real, y: real, z: real)
    requires z != 0.0
    ensures x * y / z == (y / z) * x
  {
    var q := y / z;
    assert q * z == y;
    assert x * y == (q * x) * z;
  }

  /** Whether an odd number of the first k edges straddle the horizontal line through p. */
  function StraddleParity(p: Point, poly: seq<Point>, k: nat): bool
    requires k <= |poly|
  {
    if k == 0 then false
    else StraddleParity(p, poly, k - 1) != Straddles(p, poly[k - 1], poly[Prev(k - 1, |poly|)])
  }

  /** Each straddle up to vertex k - 1 flips the side, starting from the last vertex's side. */
  lemma {:induction false} StraddleFlips(p: Point, poly: seq<Point>, k: nat)
    requires 1 <= k <= |poly|
    ensures StraddleParity(p, poly, k) == ((poly[k - 1].y > p.y) != (poly[|poly| - 1].y > p.y))
  {
    if k > 1 {
      StraddleFlips(p, poly, k - 1);
    }
  }

  /** A closed polygon crosses any horizontal line an even number of times. */
  lemma StraddleCountEven(p: Point, poly: seq<Point>)
    requires |poly| > 0
    ensures !StraddleParity(p, poly, |poly|)
  {
    StraddleFlips(p, poly, |poly|);
  }

  /** Left of every vertex, every straddling edge is crossed. */
  lemma {:induction false} CrossingsAreStraddles(p: Point, poly: seq<Point>, k: nat)
    requires k <= |poly|
    requires forall i :: 0 <= i < |poly| ==> p.x < poly[i].x
    ensures CrossingParity(p, poly, k) == StraddleParity(p, poly, k)
  {
    if k > 0 {
      CrossingsAreStraddles(p, poly, k - 1);
      var a, b := poly[k - 1], poly[Prev(k - 1, |poly|)];
      if Straddles(p, a, b) {
        CrossingXBetween(p, a, b);
      }
    }
  }

  /** Some edge is crossed whenever the parity is odd. */
  lemma {:induction false} SomeCrossing(p: Point, poly: seq<Point>, k: nat)
    requires k <= |poly| && CrossingParity(p, poly, k)
    ensures exists i :: 0 <= i < k && Crosses(p, poly[i], poly[Prev(i, |poly|)])
  {
    if !Crosses(p, poly[k - 1], poly[Prev(k - 1, |poly|)]) {
      SomeCrossing(p, poly, k - 1);
    }
  }

  /**
   * A point the ray casting calls inside lies in the polygon's bounding box,
   * strictly below its upper x and y bounds.
   */
  lemma InsideWithinBox(p: Point, poly: seq<Point>)
    requires PointInPolygon(p, poly)
    ensures var b := BoundingBox(poly);
            b.minX <= p.x < b.maxX && b.minY <= p.y < b.maxY
  {
    var b := BoundingBox(poly);
    var n := |poly|;
    SomeCrossing(p, poly, n);
    var i :| 0 <= i < n && Crosses(p, poly[i], poly[Prev(i, n)]);
    CrossingXBetween(p, poly[i], poly[Prev(i, n)]);
    if p.x < b.minX {
      CrossingsAreStraddles(p, poly, n);
      StraddleCountEven(p, poly);
      assert false;
    }
  }
}
