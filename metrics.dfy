/**
 * The area metrics and the degeneracy check of parameter_explorer.js
 * (`calculateMetrics`, `checkDegenerate`): the `forEach` over the regions
 * that accumulates the total area, the center area, the inscribed ratio and
 * the petal areas with their running maximum and minimum, then the center
 * dominance and the petal area variance, and the ordered degeneracy tests.
 *
 * The regularity, complexity and simplicity scores follow; the square root
 * the regularity needs is a parameter, and roundness is an input.
 */
module Metrics {
  import opened Wrappers
  import opened Seqs
  import opened Inscribed
  import opened Regions
  import Geometry

  /** A real or +Infinity: `smallestPetalArea` starts at `Infinity`. */
  datatype Bound = Finite(value: real) | Infinity

  /** `Math.min(b, x)`. */
  function MinBound(b: Bound, x: real): (r: Bound)
    ensures r.Finite? && r.value <= x
    ensures b.Finite? ==> r.value <= b.value
    ensures r.value == x || (b.Finite? && r.value == b.value)
  {
    match b
    case Infinity => Finite(x)
    case Finite(v) => Finite(Min(v, x))
  }

  /** The area part of the metrics record. */
  datatype AreaMetrics = AreaMetrics(totalArea: real, centerArea: real, petalAreas: seq<real>,
                                     largestPetalArea: real, smallestPetalArea: Bound,
                                     petalAreaVariance: real, centerInscribedRatio: real, centerDominance: real)

  /** The metrics record before the `forEach` runs. */
  const InitialAreas := AreaMetrics(0.0, 0.0, [], 0.0, Infinity, 0.0, 0.0, 0.0)

  /** One turn of the `forEach`: adds the area; records a center region or appends a petal. */
  function Step(m: AreaMetrics, r: Region): AreaMetrics
  {
    var total := m.totalArea + r.area;
    if r.kind.Center? then
      var ratio := if r.inscribedRectangle.Some? && r.area != 0.0
                   then r.inscribedRectangle.value.area / r.area else m.centerInscribedRatio;
      m.(totalArea := total, centerArea := r.area, centerInscribedRatio := ratio)
    else if r.kind.Petal? then
      m.(totalArea := total, petalAreas := m.petalAreas + [r.area],
         largestPetalArea := Max(m.largestPetalArea, r.area),
         smallestPetalArea := MinBound(m.smallestPetalArea, r.area))
    else
      m.(totalArea := total)
  }

  /** The metrics after the `forEach` has visited every region of rs, in order. */
  function Accumulate(rs: seq<Region>): AreaMetrics
  {
    if rs == [] then InitialAreas else Step(Accumulate(rs[..|rs| - 1]), rs[|rs| - 1])
  }

  /** The mean of the petal areas. */
  function Mean(s: seq<real>): real
    requires |s| > 0
  {
    Sum(s) / |s| as real
  }

  /** The sum of (x - mu)² over s. */
  function SquaredDeviations(s: seq<real>, mu: real): real
  {
    if s == [] then 0.0 else (s[0] - mu) * (s[0] - mu) + SquaredDeviations(s[1..], mu)
  }

  /** The population variance of s. */
  function Variance(s: seq<real>): real
    requires |s| > 0
  {
    SquaredDeviations(s, Mean(s)) / |s| as real
  }

  /** The dominance and variance computed after the `forEach`. */
  function Finish(m: AreaMetrics): AreaMetrics
  {
    var dominance := if m.totalArea > 0.0 then m.centerArea / m.totalArea else m.centerDominance;
    var variance := if |m.petalAreas| > 1 then Variance(m.petalAreas) else m.petalAreaVariance;
    m.(centerDominance := dominance, petalAreaVariance := variance)
  }

  /** The area part of `calculateMetrics` for a list of regions. */
  function AreaMetricsOf(rs: seq<Region>): AreaMetrics
  {
    Finish(Accumulate(rs))
  }

  /** The area part of `calculateMetrics`: the `forEach` over the regions, then dominance and variance. */
  method CalculateAreaMetrics(regions: seq<Region>) returns (m: AreaMetrics)
    ensures m == AreaMetricsOf(regions)
  {
    m := InitialAreas;
    for i := 0 to |regions|
      invariant m == Accumulate(regions[..i])
    {
      var region := regions[i];
      m := m.(totalArea := m.totalArea + region.area);
      if region.kind.Center? {
        m := m.(centerArea := region.area);
        if region.inscribedRectangle.Some? && region.area != 0.0 {
          m := m.(centerInscribedRatio := region.inscribedRectangle.value.area / region.area);
        }
      } else if region.kind.Petal? {
        m := m.(petalAreas := m.petalAreas + [region.area]);
        m := m.(largestPetalArea := Max(m.largestPetalArea, region.area));
        m := m.(smallestPetalArea := MinBound(m.smallestPetalArea, region.area));
      }
      assert regions[..i + 1][..i] == regions[..i];
    }
    assert regions[..|regions|] == regions;
    if m.totalArea > 0.0 {
      m := m.(centerDominance := m.centerArea / m.totalArea);
    }
    if |m.petalAreas| > 1 {
      var meanPetalArea := Sum(m.petalAreas) / |m.petalAreas| as real;
      var variance := SquaredDeviations(m.petalAreas, meanPetalArea) / |m.petalAreas| as real;
      m := m.(petalAreaVariance := variance);
    }
  }

  // ---------------------------------------------------------------------
  // Reference definitions and what the accumulation computes
  // ---------------------------------------------------------------------

  /** The area of every region, in order. */
  function Areas(rs: seq<Region>): (a: seq<real>)
    ensures |a| == |rs|
  {
    seq(|rs|, i requires 0 <= i < |rs| => rs[i].area)
  }

  predicate IsPetal(r: Region) { r.kind.Petal? }

  predicate IsCenter(r: Region) { r.kind.Center? }

  /** A center region whose inscribed rectangle yields a ratio. */
  predicate HasRatio(r: Region) { r.kind.Center? && r.inscribedRectangle.Some? && r.area != 0.0 }

  /** The areas of the petal regions, in region order. */
  function PetalAreas(rs: seq<Region>): seq<real>
  {
    Areas(Filter(rs, IsPetal))
  }

  /** The area of the last center region, 0 when there is none. */
  function LastCenterArea(rs: seq<Region>): real
  {
    var cs := Filter(rs, IsCenter);
    if cs == [] then 0.0 else cs[|cs| - 1].area
  }

  /** Rectangle area over region area for the last center region that has both, 0 when none does. */
  function LastRatio(rs: seq<Region>): real
  {
    var cs := Filter(rs, HasRatio);
    if cs == [] then 0.0
    else
      var c := cs[|cs| - 1];
      FilterProps(rs, HasRatio);
      assert c in cs;
      c.inscribedRectangle.value.area / c.area
  }

  lemma AreasSnoc(rs: seq<Region>, r: Region)
    ensures Areas(rs + [r]) == Areas(rs) + [r.area]
  {
  }

  /** The accumulated total is the sum of all region areas. */
  lemma {:induction false} AccumulateTotal(rs: seq<Region>)
    ensures Accumulate(rs).totalArea == Sum(Areas(rs))
    decreases |rs|
  {
    if rs != [] {
      var init, last := rs[..|rs| - 1], rs[|rs| - 1];
      AccumulateTotal(init);
      assert rs == init + [last];
      AreasSnoc(init, last);
      SumAppend(Areas(init), last.area);
    }
  }

  /** The accumulated petal list is the petal areas in region order. */
  lemma {:induction false} AccumulatePetals(rs: seq<Region>)
    ensures Accumulate(rs).petalAreas == PetalAreas(rs)
    decreases |rs|
  {
    if rs != [] {
      var init, last := rs[..|rs| - 1], rs[|rs| - 1];
      AccumulatePetals(init);
      if IsPetal(last) {
        AreasSnoc(Filter(init, IsPetal), last);
      }
    }
  }

  /** The accumulated center area and inscribed ratio come from the last center region. */
  lemma {:induction false} AccumulateCenter(rs: seq<Region>)
    ensures Accumulate(rs).centerArea == LastCenterArea(rs)
    ensures Accumulate(rs).centerInscribedRatio == LastRatio(rs)
    decreases |rs|
  {
    if rs != [] {
      AccumulateCenter(rs[..|rs| - 1]);
    }
  }

  /** The maximum of a sequence extended by x is the larger of its old maximum and x. */
  lemma MaxOfSnoc(s: seq<real>, x: real)
    requires s != []
    ensures MaxOf(s + [x]) == Max(MaxOf(s), x)
  {
    var t := s + [x];
    var i :| 0 <= i < |s| && s[i] == MaxOf(s);
    assert t[i] == s[i] && t[|s|] == x;
    var j :| 0 <= j < |t| && t[j] == MaxOf(t);
    if j < |s| {
      assert t[j] == s[j];
    }
  }

  lemma MinOfSnoc(s: seq<real>, x: real)
    requires s != []
    ensures MinOf(s + [x]) == Min(MinOf(s), x)
  {
    var t := s + [x];
    var i :| 0 <= i < |s| && s[i] == MinOf(s);
    assert t[i] == s[i] && t[|s|] == x;
    var j :| 0 <= j < |t| && t[j] == MinOf(t);
    if j < |s| {
      assert t[j] == s[j];
    }
  }

  /** A petal region appends its area and updates the running maximum and minimum. */
  lemma StepPetal(m: AreaMetrics, r: Region)
    requires IsPetal(r)
    ensures Step(m, r).petalAreas == m.petalAreas + [r.area]
    ensures Step(m, r).largestPetalArea == Max(m.largestPetalArea, r.area)
    ensures Step(m, r).smallestPetalArea == MinBound(m.smallestPetalArea, r.area)
  {
  }

  /** Any other region leaves the petal list and its extremes alone. */
  lemma StepOther(m: AreaMetrics, r: Region)
    requires !IsPetal(r)
    ensures Step(m, r).petalAreas == m.petalAreas
    ensures Step(m, r).largestPetalArea == m.largestPetalArea
    ensures Step(m, r).smallestPetalArea == m.smallestPetalArea
  {
  }

  /**
   * The running maximum: with no petals it keeps its start value 0;
   * otherwise it is the larger of 0 and the greatest petal area.
   */
  lemma {:induction false} AccumulateLargest(rs: seq<Region>)
    ensures var m, p := Accumulate(rs), PetalAreas(rs);
            (p == [] ==> m.largestPetalArea == 0.0) &&
            (p != [] ==> m.largestPetalArea == Max(0.0, MaxOf(p)))
    decreases |rs|
  {
    if rs != [] {
      var init, last := rs[..|rs| - 1], rs[|rs| - 1];
      AccumulateLargest(init);
      assert Accumulate(rs) == Step(Accumulate(init), last);
      if IsPetal(last) {
        StepPetal(Accumulate(init), last);
        var p0 := PetalAreas(init);
        AreasSnoc(Filter(init, IsPetal), last);
        assert PetalAreas(rs) == p0 + [last.area];
        if p0 != [] {
          MaxOfSnoc(p0, last.area);
        } else {
          assert p0 + [last.area] == [last.area];
        }
      } else {
        StepOther(Accumulate(init), last);
        assert Filter(rs, IsPetal) == Filter(init, IsPetal);
      }
    }
  }

  /**
   * The running minimum: with no petals it keeps its start value Infinity;
   * otherwise it is the least petal area.
   */
  lemma {:induction false} AccumulateSmallest(rs: seq<Region>)
    ensures var m, p := Accumulate(rs), PetalAreas(rs);
            (p == [] ==> m.smallestPetalArea == Infinity) &&
            (p != [] ==> m.smallestPetalArea == Finite(MinOf(p)))
    decreases |rs|
  {
    if rs != [] {
      var init, last := rs[..|rs| - 1], rs[|rs| - 1];
      AccumulateSmallest(init);
      assert Accumulate(rs) == Step(Accumulate(init), last);
      if IsPetal(last) {
        StepPetal(Accumulate(init), last);
        var p0 := PetalAreas(init);
        AreasSnoc(Filter(init, IsPetal), last);
        assert PetalAreas(rs) == p0 + [last.area];
        if p0 != [] {
          MinOfSnoc(p0, last.area);
        } else {
          assert p0 + [last.area] == [last.area];
        }
      } else {
        StepOther(Accumulate(init), last);
        assert Filter(rs, IsPetal) == Filter(init, IsPetal);
      }
    }
  }

  /** Squared deviations are never negative. */
  lemma {:induction false} SquaredDeviationsNonNegative(s: seq<real>, mu: real)
    ensures SquaredDeviations(s, mu) >= 0.0
  {
    if s != [] {
      SquaredDeviationsNonNegative(s[1..], mu);
      MulNonNegativeSquare(s[0] - mu);
    }
  }

  lemma MulNonNegativeSquare(d: real)
    ensures d * d >= 0.0
  {
    if d < 0.0 {
      assert d * d == (-d) * (-d);
    }
  }

  /**
   * The area metrics of a list of regions: the total is the sum of the
   * areas, the petal list is the petal areas in order with its maximum
   * (against 0) and minimum, the center area and inscribed ratio come from
   * the last center region, the dominance is center / total when the total
   * is positive and 0 otherwise, and the variance is the population
   * variance of the petal areas when there are at least two petals, 0
   * otherwise, and never negative.
   */
  lemma AreaMetricsCorrect(rs: seq<Region>)
    ensures var m, p := AreaMetricsOf(rs), PetalAreas(rs);
            m.totalArea == Sum(Areas(rs)) &&
            m.petalAreas == p &&
            (p == [] ==> m.largestPetalArea == 0.0 && m.smallestPetalArea == Infinity) &&
            (p != [] ==> m.largestPetalArea == Max(0.0, MaxOf(p)) && m.smallestPetalArea == Finite(MinOf(p))) &&
            m.centerArea == LastCenterArea(rs) &&
            m.centerInscribedRatio == LastRatio(rs) &&
            m.centerDominance == (if m.totalArea > 0.0 then m.centerArea / m.totalArea else 0.0) &&
            m.petalAreaVariance == (if |p| > 1 then Variance(p) else 0.0) &&
            m.petalAreaVariance >= 0.0
  {
    var a := Accumulate(rs);
    AccumulateTotal(rs);
    AccumulatePetals(rs);
    AccumulateLargest(rs);
    AccumulateSmallest(rs);
    AccumulateCenter(rs);
    AccumulateKeepsStart(rs);
    FinishProps(a);
  }

  /**
   * What the code after the `forEach` does to a record whose dominance and
   * variance are still 0: it sets the dominance to center / total when the
   * total is positive and the variance to the population variance of the
   * petal areas when there are at least two, which is never negative; every
   * other field is kept.
   */
  lemma FinishProps(a: AreaMetrics)
    requires a.centerDominance == 0.0 && a.petalAreaVariance == 0.0
    ensures var m, p := Finish(a), a.petalAreas;
            m.totalArea == a.totalArea && m.centerArea == a.centerArea && m.petalAreas == p &&
            m.largestPetalArea == a.largestPetalArea && m.smallestPetalArea == a.smallestPetalArea &&
            m.centerInscribedRatio == a.centerInscribedRatio &&
            m.centerDominance == (if a.totalArea > 0.0 then a.centerArea / a.totalArea else 0.0) &&
            m.petalAreaVariance == (if |p| > 1 then Variance(p) else 0.0) &&
            m.petalAreaVariance >= 0.0
  {
    var p := a.petalAreas;
    if |p| > 1 {
      SquaredDeviationsNonNegative(p, Mean(p));
      DivNonNegative(SquaredDeviations(p, Mean(p)), |p| as real);
    }
  }

  /** A non-negative number over a positive one is non-negative. */
  lemma DivNonNegative(a: real, b: real)
    requires a >= 0.0 && b > 0.0
    ensures a / b >= 0.0
  {
    var d := a / b;
    assert d * b == a;
    if d < 0.0 {
      Geometry.MulPositive(-d, b);
    }
  }

  /** A number in [0, b] over a positive b lies in [0, 1]. */
  lemma DivAtMostOne(a: real, b: real)
    requires 0.0 <= a <= b && b > 0.0
    ensures 0.0 <= a / b <= 1.0
  {
    var d := a / b;
    DivNonNegative(a, b);
    assert d * b == a;
    if d > 1.0 {
      Geometry.MulPositive(d - 1.0, b);
    }
  }

  /** The accumulation never touches dominance or variance: they keep their start value 0. */
  lemma {:induction false} AccumulateKeepsStart(rs: seq<Region>)
    ensures Accumulate(rs).centerDominance == 0.0 && Accumulate(rs).petalAreaVariance == 0.0
    decreases |rs|
  {
    if rs != [] {
      AccumulateKeepsStart(rs[..|rs| - 1]);
    }
  }

  /**
   * With non-negative region areas the center area is at most the total,
   * so the center dominance lies in [0, 1].
   */
  lemma {:induction false} CenterWithinTotal(rs: seq<Region>)
    requires forall i :: 0 <= i < |rs| ==> rs[i].area >= 0.0
    ensures 0.0 <= Accumulate(rs).centerArea <= Accumulate(rs).totalArea
    decreases |rs|
  {
    if rs != [] {
      CenterWithinTotal(rs[..|rs| - 1]);
    }
  }

  lemma CenterDominanceBounded(rs: seq<Region>)
    requires forall i :: 0 <= i < |rs| ==> rs[i].area >= 0.0
    ensures 0.0 <= AreaMetricsOf(rs).centerDominance <= 1.0
  {
    CenterWithinTotal(rs);
    AccumulateKeepsStart(rs);
    var m := Accumulate(rs);
    if m.totalArea > 0.0 {
      DivAtMostOne(m.centerArea, m.totalArea);
    }
  }

  // ---------------------------------------------------------------------
  // checkDegenerate
  // ---------------------------------------------------------------------

  datatype DegenerateReason = Collapsed | Exploded | NoRegions | InfiniteFolding

  /** The part of the explorer's state the checks read. */
  datatype State = State(sides: nat, handleAngle: real, curveFactor: real, rotation: real)

  /** The degeneracy tests in their order; the first that holds gives the reason. */
  function DegenerateReasonOf(state: State, regionCount: nat, intersectionCount: nat, totalArea: real, size: real)
    : Option<DegenerateReason>
  {
    var canvasArea := size * size;
    if totalArea < canvasArea * 0.01 then Some(Collapsed)
    else if totalArea > canvasArea * 2.0 then Some(Exploded)
    else if regionCount == 0 then Some(NoRegions)
    else if state.curveFactor < -2.5 && intersectionCount > state.sides * 3 then Some(InfiniteFolding)
    else None
  }

  /** The metrics record of a configuration. */
  datatype Metrics = Metrics(curveCount: nat, intersectionCount: nat, regionCount: nat, areas: AreaMetrics,
                             roundness: real, regularity: real, complexityScore: real, simplicityScore: real,
                             isDegenerate: bool, degenerateReason: Option<DegenerateReason>)

  /**
   * `checkDegenerate`: true exactly when some test holds; the reason of the
   * first such test is written into the record, which is otherwise unchanged.
   */
  method CheckDegenerate(state: State, regionCount: nat, metrics: Metrics, size: real)
    returns (degenerate: bool, updated: Metrics)
    ensures var reason := DegenerateReasonOf(state, regionCount, metrics.intersectionCount, metrics.areas.totalArea, size);
            degenerate == reason.Some? &&
            updated == (if degenerate then metrics.(degenerateReason := reason) else metrics)
  {
    var canvasArea := size * size;
    updated := metrics;
    if metrics.areas.totalArea < canvasArea * 0.01 {
      updated := updated.(degenerateReason := Some(Collapsed));
      return true, updated;
    }
    if metrics.areas.totalArea > canvasArea * 2.0 {
      updated := updated.(degenerateReason := Some(Exploded));
      return true, updated;
    }
    if regionCount == 0 {
      updated := updated.(degenerateReason := Some(NoRegions));
      return true, updated;
    }
    if state.curveFactor < -2.5 && metrics.intersectionCount > state.sides * 3 {
      updated := updated.(degenerateReason := Some(InfiniteFolding));
      return true, updated;
    }
    return false, updated;
  }

  // ---------------------------------------------------------------------
  // Scores
  // ---------------------------------------------------------------------

  /** A square root as the scores use it: never negative. */
  type Root = f: real -> real | forall x :: f(x) >= 0.0 witness (x: real) => 0.0

  /**
   * Regularity: 1 / (1 + sqrt(variance) / largest petal area) when there is a
   * petal and the largest petal area is positive, otherwise 0.
   */
  function Regularity(areas: AreaMetrics, sqrt: Root): real
  {
    if |areas.petalAreas| > 0 && areas.largestPetalArea > 0.0 then
      1.0 / (1.0 + sqrt(areas.petalAreaVariance) / areas.largestPetalArea)
    else 0.0
  }

  /**
   * The regularity lies in [0, 1], and it is 1
   * exactly when there are petals of positive size and no spread.
   */
  lemma RegularityInUnit(areas: AreaMetrics, sqrt: Root)
    ensures 0.0 <= Regularity(areas, sqrt) <= 1.0
    ensures Regularity(areas, sqrt) == 1.0 <==>
            |areas.petalAreas| > 0 && areas.largestPetalArea > 0.0 && sqrt(areas.petalAreaVariance) == 0.0
  {
    if |areas.petalAreas| > 0 && areas.largestPetalArea > 0.0 {
      var root := sqrt(areas.petalAreaVariance);
      var nv := root / areas.largestPetalArea;
      DivNonNegative(root, areas.largestPetalArea);
      DivAtMostOne(1.0, 1.0 + nv);
      var r := 1.0 / (1.0 + nv);
      assert r * (1.0 + nv) == 1.0;
      assert nv * areas.largestPetalArea == root;
      if r == 1.0 {
        assert nv == 0.0;
      }
    }
  }

  /** A count per polygon side; 0 when there are no sides. */
  function PerSide(count: nat, sides: nat): real
  {
    if sides == 0 then 0.0 else count as real / sides as real
  }

  /**
   * The complexity score: intersection density, regions per expected region
   * (one center and one petal per side) and irregularity, weighted 0.4, 0.3
   * and 0.3. The expected layout with no crossings and perfect regularity
   * scores 0.3.
   */
  function ComplexityScore(sides: nat, intersectionCount: nat, regionCount: nat, regularity: real): (c: real)
    ensures intersectionCount == 0 && regionCount == sides + 1 && regularity == 1.0 ==> c == 0.3
  {
    PerSide(intersectionCount, sides) * 0.4 + regionCount as real / (sides + 1) as real * 0.3 + (1.0 - regularity) * 0.3
  }

  /** More intersections on the same polygon give a strictly higher complexity score. */
  lemma ComplexityGrowsWithIntersections(sides: nat, fewer: nat, more: nat, regionCount: nat, regularity: real)
    requires 0 < sides && fewer < more
    ensures ComplexityScore(sides, fewer, regionCount, regularity) < ComplexityScore(sides, more, regionCount, regularity)
  {
    var d := PerSide(more, sides) - PerSide(fewer, sides);
    assert d * sides as real == more as real - fewer as real;
    if d <= 0.0 {
      Geometry.MulNonNegative(-d, sides as real);
    }
  }

  /**
   * The simplicity score: center dominance, regularity and inscribed ratio,
   * weighted 0.4, 0.3 and 0.3; it lies in [0, 1] when all three do.
   */
  function SimplicityScore(areas: AreaMetrics, regularity: real): (s: real)
    ensures (0.0 <= areas.centerDominance <= 1.0 && 0.0 <= regularity <= 1.0 &&
             0.0 <= areas.centerInscribedRatio <= 1.0) ==> 0.0 <= s <= 1.0
    ensures areas.centerDominance == 1.0 && regularity == 1.0 && areas.centerInscribedRatio == 1.0 ==> s == 1.0
  {
    areas.centerDominance * 0.4 + regularity * 0.3 + areas.centerInscribedRatio * 0.3
  }

  /** `calculateMetrics` of a configuration with the given curve, intersection and region lists. */
  function MetricsOf(state: State, curveCount: nat, intersectionCount: nat, regions: seq<Region>,
                     roundness: real, sqrt: Root, size: real): Metrics
  {
    var areas := AreaMetricsOf(regions);
    var regularity := Regularity(areas, sqrt);
    var reason := DegenerateReasonOf(state, |regions|, intersectionCount, areas.totalArea, size);
    Metrics(curveCount, intersectionCount, |regions|, areas, roundness, regularity,
            ComplexityScore(state.sides, intersectionCount, |regions|, regularity),
            SimplicityScore(areas, regularity), reason.Some?, reason)
  }

  /**
   * `calculateMetrics`: counts, area metrics, regularity, the complexity and
   * simplicity scores, then the degeneracy check. Roundness is an input.
   */
  method CalculateMetrics(state: State, curveCount: nat, intersectionCount: nat, regions: seq<Region>,
                          roundness: real, sqrt: Root, size: real) returns (metrics: Metrics)
    ensures metrics == MetricsOf(state, curveCount, intersectionCount, regions, roundness, sqrt, size)
  {
    var areas := CalculateAreaMetrics(regions);
    var regularity := 0.0;
    if |areas.petalAreas| > 0 && areas.largestPetalArea > 0.0 {
      var normalizedVariance := sqrt(areas.petalAreaVariance) / areas.largestPetalArea;
      regularity := 1.0 / (1.0 + normalizedVariance);
    }
    var intersectionDensity := if state.sides == 0 then 0.0 else intersectionCount as real / state.sides as real;
    var regionComplexity := |regions| as real / (state.sides + 1) as real;
    var irregularity := 1.0 - regularity;
    var complexity := intersectionDensity * 0.4 + regionComplexity * 0.3 + irregularity * 0.3;
    var simplicity := areas.centerDominance * 0.4 + regularity * 0.3 + areas.centerInscribedRatio * 0.3;
    metrics := Metrics(curveCount, intersectionCount, |regions|, areas, roundness, regularity,
                       complexity, simplicity, false, None);
    var degenerate;
    degenerate, metrics := CheckDegenerate(state, |regions|, metrics, size);
    metrics := metrics.(isDegenerate := degenerate);
  }

  /**
   * On a canvas of non-zero size the `no_regions` reason is never reported:
   * with no regions the total area is 0, which the `collapsed` test catches
   * first.
   */
  lemma NoRegionsUnreachable(state: State, curveCount: nat, intersectionCount: nat, regions: seq<Region>,
                             roundness: real, sqrt: Root, size: real)
    requires size != 0.0
    ensures MetricsOf(state, curveCount, intersectionCount, regions, roundness, sqrt, size).degenerateReason != Some(NoRegions)
    ensures regions == [] ==>
            MetricsOf(state, curveCount, intersectionCount, regions, roundness, sqrt, size).degenerateReason == Some(Collapsed)
  {
    if regions == [] {
      assert AreaMetricsOf(regions).totalArea == 0.0;
      if size < 0.0 {
        Geometry.MulPositive(-size, -size);
        assert size * size == (-size) * (-size);
      } else {
        Geometry.MulPositive(size, size);
      }
    }
  }

  /** A 600 by 600 canvas whose regions total 1000 square units is collapsed. */
  lemma CollapsedExample(state: State, regionCount: nat, intersectionCount: nat)
    ensures DegenerateReasonOf(state, regionCount, intersectionCount, 1000.0, 600.0) == Some(Collapsed)
  {
  }
}
