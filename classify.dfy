/**
 * `classifyConfigurations` of parameter_explorer.js: one pass that tracks
 * six extreme configurations with strict comparisons, one pass that pushes
 * each configuration into every archetype whose thresholds it meets, then a
 * sort of each archetype list by its defining metric and a cut to the first
 * ten entries.
 */
module Classify {
  import opened Wrappers
  import opened Seqs
  import opened Sorting
  import opened Metrics

  /** A configuration the sweep kept: its parameters and its metrics. */
  datatype Config = Config(state: State, metrics: Metrics)

  /** The six tracked extremes; None until a configuration has been seen. */
  datatype Extremes = Extremes(maxComplexity: Option<Config>, maxSimplicity: Option<Config>,
                               maxCenterDominance: Option<Config>, minCenterDominance: Option<Config>,
                               maxRoundness: Option<Config>, maxRegularity: Option<Config>)

  /** The five archetype lists. */
  datatype Archetypes = Archetypes(fractalBloom: seq<Config>, gridAligned: seq<Config>,
                                   petalDominant: seq<Config>, roundTransition: seq<Config>,
                                   balanced: seq<Config>)

  /** The classification of the configurations found for one value of n. */
  datatype Classified = Classified(n: nat, totalConfigurations: nat, archetypes: Archetypes, extremes: Extremes)

  // ---------------------------------------------------------------------
  // Extremes
  // ---------------------------------------------------------------------

  function Complexity(c: Config): real { c.metrics.complexityScore }
  function Simplicity(c: Config): real { c.metrics.simplicityScore }
  function Dominance(c: Config): real { c.metrics.areas.centerDominance }
  /** `minCenterDominance` replaces on a strictly smaller dominance, that is a strictly larger negation. */
  function NegatedDominance(c: Config): real { -c.metrics.areas.centerDominance }
  function Roundness(c: Config): real { c.metrics.roundness }
  function Regularity(c: Config): real { c.metrics.regularity }

  /** One turn for one extreme: c replaces the current holder only when its key is strictly larger. */
  function Track(current: Option<Config>, c: Config, key: Config -> real): Option<Config>
  {
    if current.None? || key(c) > key(current.value) then Some(c) else current
  }

  /** The holder of one extreme after the pass over cs. */
  function Tracked(cs: seq<Config>, key: Config -> real): Option<Config>
  {
    if cs == [] then None else Track(Tracked(cs[..|cs| - 1], key), cs[|cs| - 1], key)
  }

  /** One more configuration adds one turn. */
  lemma TrackedSnoc(cs: seq<Config>, key: Config -> real, i: nat)
    requires i < |cs|
    ensures Tracked(cs[..i + 1], key) == Track(Tracked(cs[..i], key), cs[i], key)
  {
    assert cs[..i + 1][..i] == cs[..i];
  }

  /** All six extremes after the pass over cs. */
  function ExtremesOf(cs: seq<Config>): Extremes
  {
    Extremes(Tracked(cs, Complexity), Tracked(cs, Simplicity), Tracked(cs, Dominance),
             Tracked(cs, NegatedDominance), Tracked(cs, Roundness), Tracked(cs, Regularity))
  }

  /** cs[i] has the largest key in cs, and every configuration before it a strictly smaller one. */
  predicate IsFirstMax(cs: seq<Config>, key: Config -> real, i: int)
  {
    0 <= i < |cs| &&
    (forall j :: 0 <= j < |cs| ==> key(cs[j]) <= key(cs[i])) &&
    (forall j :: 0 <= j < i ==> key(cs[j]) < key(cs[i]))
  }

  /**
   * An extreme is absent exactly when there are no configurations;
   * otherwise it is the FIRST configuration whose key is maximal.
   */
  lemma {:induction false} TrackedIsFirstMax(cs: seq<Config>, key: Config -> real)
    ensures Tracked(cs, key).None? <==> cs == []
    ensures cs != [] ==> exists i :: IsFirstMax(cs, key, i) && Tracked(cs, key) == Some(cs[i])
    decreases |cs|
  {
    if cs != [] {
      var init, last := cs[..|cs| - 1], cs[|cs| - 1];
      TrackedIsFirstMax(init, key);
      assert Tracked(cs, key) == Track(Tracked(init, key), last, key);
      if init == [] {
        assert IsFirstMax(cs, key, 0);
      } else {
        var i0 :| IsFirstMax(init, key, i0) && Tracked(init, key) == Some(init[i0]);
        FirstMaxSnoc(cs, key, i0);
        if key(last) > key(init[i0]) {
          assert IsFirstMax(cs, key, |cs| - 1) && Tracked(cs, key) == Some(cs[|cs| - 1]);
        } else {
          assert IsFirstMax(cs, key, i0) && Tracked(cs, key) == Some(cs[i0]);
        }
      }
    }
  }

  /** Appending a configuration keeps the first maximum unless the new one beats it strictly. */
  lemma FirstMaxSnoc(cs: seq<Config>, key: Config -> real, i0: int)
    requires |cs| > 1 && IsFirstMax(cs[..|cs| - 1], key, i0)
    ensures key(cs[|cs| - 1]) > key(cs[i0]) ==> IsFirstMax(cs, key, |cs| - 1)
    ensures key(cs[|cs| - 1]) <= key(cs[i0]) ==> IsFirstMax(cs, key, i0)
  {
    var init := cs[..|cs| - 1];
    assert forall j :: 0 <= j < |init| ==> init[j] == cs[j];
  }

  // ---------------------------------------------------------------------
  // Archetypes
  // ---------------------------------------------------------------------

  datatype Archetype = FractalBloom | GridAligned | PetalDominant | RoundTransition | Balanced

  /** The thresholds a configuration must meet to join an archetype. */
  predicate Fits(a: Archetype, n: nat, c: Config)
  {
    var m := c.metrics;
    match a
    case FractalBloom => m.complexityScore > 0.7 && m.intersectionCount as real > n as real * 1.5
    case GridAligned => m.simplicityScore > 0.6 && m.areas.centerInscribedRatio > 0.5 && m.areas.centerDominance > 0.3
    case PetalDominant => m.areas.centerDominance < 0.2 && m.regularity > 0.8 && |m.areas.petalAreas| == n
    case RoundTransition => m.roundness > 0.8 && m.regularity > 0.9
    case Balanced =>
      0.3 < m.complexityScore < 0.7 && 0.2 < m.areas.centerDominance < 0.5 && m.regularity > 0.6
  }

  function Member(a: Archetype, n: nat): Config -> bool
  {
    c => Fits(a, n, c)
  }

  /** How close a configuration is to complexity 0.5 and dominance 0.35; smaller is better. */
  function BalanceScore(c: Config): real
  {
    Abs(0.5 - c.metrics.complexityScore) + Abs(0.35 - c.metrics.areas.centerDominance)
  }

  /**
   * The ascending sort key of each archetype: the descending comparators
   * (`b.x - a.x`) sort ascending on the negated metric; `balanced` sorts
   * ascending on its balance score.
   */
  function RankKey(a: Archetype): Config -> real
  {
    match a
    case FractalBloom => (c: Config) => -c.metrics.complexityScore
    case GridAligned => (c: Config) => -c.metrics.simplicityScore
    case PetalDominant => (c: Config) => -c.metrics.regularity
    case RoundTransition => (c: Config) => -c.metrics.roundness
    case Balanced => BalanceScore
  }

  /** Every archetype list is cut to this many entries. */
  const Limit := 10

  /** `slice(0, 10)`. */
  function Top<T>(s: seq<T>): (r: seq<T>)
    ensures |r| <= Limit && |r| <= |s| && r == s[..|r|]
    ensures |s| <= Limit ==> r == s
  {
    if |s| <= Limit then s else s[..Limit]
  }

  /** An archetype list: the members in input order, sorted stably by the key, cut to ten. */
  function Ranked(cs: seq<Config>, a: Archetype, n: nat): seq<Config>
  {
    Top(SortByKey(Filter(cs, Member(a, n)), RankKey(a)))
  }

  function ArchetypesOf(cs: seq<Config>, n: nat): Archetypes
  {
    Archetypes(Ranked(cs, FractalBloom, n), Ranked(cs, GridAligned, n), Ranked(cs, PetalDominant, n),
               Ranked(cs, RoundTransition, n), Ranked(cs, Balanced, n))
  }

  /** The list of one archetype inside the record. */
  function ListOf(arch: Archetypes, a: Archetype): seq<Config>
  {
    match a
    case FractalBloom => arch.fractalBloom
    case GridAligned => arch.gridAligned
    case PetalDominant => arch.petalDominant
    case RoundTransition => arch.roundTransition
    case Balanced => arch.balanced
  }

  /** The classification of cs for the given n. */
  function ClassifyOf(cs: seq<Config>, n: nat): Classified
  {
    Classified(n, |cs|, ArchetypesOf(cs, n), ExtremesOf(cs))
  }

  /**
   * Filtering, a stable sort and a cut to ten keep at most ten elements,
   * each from the input and passing the filter, in ascending key order; all
   * of them when at most ten pass, and ten otherwise.
   */
  lemma TopOfSortedMembers<T>(cs: seq<T>, keep: T -> bool, key: T -> real)
    ensures var r, f := Top(SortByKey(Filter(cs, keep), key)), Filter(cs, keep);
            (|f| <= Limit ==> |r| == |f|) &&
            (|f| > Limit ==> |r| == Limit) &&
            (forall x :: x in r ==> x in cs && keep(x)) &&
            SortedBy(r, key)
  {
    var f := Filter(cs, keep);
    var s := SortByKey(f, key);
    var r := Top(s);
    FilterProps(cs, keep);
    SortByKeyCorrect(f, key);
    forall x | x in r
      ensures x in cs && keep(x)
    {
      assert x in multiset(s);
    }
    forall i, j | 0 <= i < j < |r|
      ensures key(r[i]) <= key(r[j])
    {
      assert r[i] == s[i] && r[j] == s[j];
    }
  }

  /** Every passing element the cut to ten leaves out has a key no better than every element kept. */
  lemma TopOfSortedBest<T>(cs: seq<T>, keep: T -> bool, key: T -> real)
    ensures var r := Top(SortByKey(Filter(cs, keep), key));
            forall x, y :: x in cs && keep(x) && x !in r && y in r ==> key(y) <= key(x)
  {
    var f := Filter(cs, keep);
    var s := SortByKey(f, key);
    var r := Top(s);
    FilterProps(cs, keep);
    SortByKeyCorrect(f, key);
    forall x, y | x in cs && keep(x) && x !in r && y in r
      ensures key(y) <= key(x)
    {
      assert x in multiset(f);
      var j :| 0 <= j < |s| && s[j] == x;
      var i :| 0 <= i < |r| && r[i] == y;
      assert j >= |r|;
      assert s[i] == y;
    }
  }

  /** `TopOfSortedMembers` and `TopOfSortedBest` for one archetype list: its members meet the archetype's thresholds. */
  lemma RankedProps(cs: seq<Config>, a: Archetype, n: nat)
    ensures var r := Ranked(cs, a, n);
            |r| <= Limit &&
            (|Filter(cs, Member(a, n))| <= Limit ==> |r| == |Filter(cs, Member(a, n))|) &&
            (forall x :: x in r ==> x in cs && Fits(a, n, x)) &&
            SortedBy(r, RankKey(a)) &&
            (forall x, y :: x in cs && Fits(a, n, x) && x !in r && y in r ==> RankKey(a)(y) <= RankKey(a)(x))
  {
    TopOfSortedMembers(cs, Member(a, n), RankKey(a));
    TopOfSortedBest(cs, Member(a, n), RankKey(a));
  }

  /** `classifyConfigurations`: counts, tracks the extremes, then fills, sorts and cuts the archetype lists. */
  method ClassifyConfigurations(configurations: seq<Config>, n: nat) returns (classified: Classified)
    ensures classified == ClassifyOf(configurations, n)
  {
    var extremes := FindExtremes(configurations);
    var archetypes := CollectArchetypes(configurations, n);
    var fractalBloom := SortByKey(archetypes.fractalBloom, RankKey(FractalBloom));
    var gridAligned := SortByKey(archetypes.gridAligned, RankKey(GridAligned));
    var petalDominant := SortByKey(archetypes.petalDominant, RankKey(PetalDominant));
    var roundTransition := SortByKey(archetypes.roundTransition, RankKey(RoundTransition));
    var balanced := SortByKey(archetypes.balanced, RankKey(Balanced));
    archetypes := Archetypes(Top(fractalBloom), Top(gridAligned), Top(petalDominant),
                             Top(roundTransition), Top(balanced));
    classified := Classified(n, |configurations|, archetypes, extremes);
  }

  /** The first `forEach`: each extreme moves to a configuration whose metric beats it strictly. */
  method FindExtremes(configurations: seq<Config>) returns (extremes: Extremes)
    ensures extremes == ExtremesOf(configurations)
  {
    extremes := Extremes(None, None, None, None, None, None);
    for i := 0 to |configurations|
      invariant extremes == ExtremesOf(configurations[..i])
    {
      var config := configurations[i];
      var maxComplexity := Challenge(extremes.maxComplexity, config, Complexity);
      var maxSimplicity := Challenge(extremes.maxSimplicity, config, Simplicity);
      var maxCenterDominance := Challenge(extremes.maxCenterDominance, config, Dominance);
      var minCenterDominance := Challenge(extremes.minCenterDominance, config, NegatedDominance);
      var maxRoundness := Challenge(extremes.maxRoundness, config, Roundness);
      var maxRegularity := Challenge(extremes.maxRegularity, config, Regularity);
      extremes := Extremes(maxComplexity, maxSimplicity, maxCenterDominance, minCenterDominance,
                           maxRoundness, maxRegularity);
      TrackedSnoc(configurations, Complexity, i);
      TrackedSnoc(configurations, Simplicity, i);
      TrackedSnoc(configurations, Dominance, i);
      TrackedSnoc(configurations, NegatedDominance, i);
      TrackedSnoc(configurations, Roundness, i);
      TrackedSnoc(configurations, Regularity, i);
    }
    assert configurations[..|configurations|] == configurations;
  }

  /**
   * One of the six tests of the first `forEach`: the configuration takes
   * the extreme when there is none yet or when its metric is strictly
   * larger (strictly smaller dominance, for the minimum).
   */
  method Challenge(current: Option<Config>, config: Config, key: Config -> real) returns (next: Option<Config>)
    ensures next == Track(current, config, key)
    ensures next.Some?
    ensures current.Some? ==> key(current.value) <= key(next.value)
  {
    next := current;
    if current.None? || key(config) > key(current.value) {
      next := Some(config);
    }
  }

  /** The second `forEach`: each configuration is pushed onto every archetype list whose thresholds it meets. */
  method CollectArchetypes(configurations: seq<Config>, n: nat) returns (archetypes: Archetypes)
    ensures archetypes == Archetypes(Filter(configurations, Member(FractalBloom, n)),
                                     Filter(configurations, Member(GridAligned, n)),
                                     Filter(configurations, Member(PetalDominant, n)),
                                     Filter(configurations, Member(RoundTransition, n)),
                                     Filter(configurations, Member(Balanced, n)))
  {
    archetypes := Archetypes([], [], [], [], []);
    for i := 0 to |configurations|
      invariant archetypes == Archetypes(Filter(configurations[..i], Member(FractalBloom, n)),
                                         Filter(configurations[..i], Member(GridAligned, n)),
                                         Filter(configurations[..i], Member(PetalDominant, n)),
                                         Filter(configurations[..i], Member(RoundTransition, n)),
                                         Filter(configurations[..i], Member(Balanced, n)))
    {
      var config := configurations[i];
      var m := config.metrics;
      FilterSnoc(configurations, Member(FractalBloom, n), i);
      FilterSnoc(configurations, Member(GridAligned, n), i);
      FilterSnoc(configurations, Member(PetalDominant, n), i);
      FilterSnoc(configurations, Member(RoundTransition, n), i);
      FilterSnoc(configurations, Member(Balanced, n), i);
      if m.complexityScore > 0.7 && m.intersectionCount as real > n as real * 1.5 {
        archetypes := archetypes.(fractalBloom := archetypes.fractalBloom + [config]);
      }
      if m.simplicityScore > 0.6 && m.areas.centerInscribedRatio > 0.5 && m.areas.centerDominance > 0.3 {
        archetypes := archetypes.(gridAligned := archetypes.gridAligned + [config]);
      }
      if m.areas.centerDominance < 0.2 && m.regularity > 0.8 && |m.areas.petalAreas| == n {
        archetypes := archetypes.(petalDominant := archetypes.petalDominant + [config]);
      }
      if m.roundness > 0.8 && m.regularity > 0.9 {
        archetypes := archetypes.(roundTransition := archetypes.roundTransition + [config]);
      }
      var isBalanced := m.complexityScore > 0.3 && m.complexityScore < 0.7 &&
                        m.areas.centerDominance > 0.2 && m.areas.centerDominance < 0.5 &&
                        m.regularity > 0.6;
      if isBalanced {
        archetypes := archetypes.(balanced := archetypes.balanced + [config]);
      }
    }
    assert configurations[..|configurations|] == configurations;
  }

  /**
   * Each extreme is absent exactly for an empty input; `minCenterDominance`
   * is the first configuration with the smallest dominance (the other five
   * are the first with the largest metric, by `TrackedIsFirstMax`).
   */
  lemma ExtremesCorrect(cs: seq<Config>)
    ensures var e := ExtremesOf(cs);
            (e.maxComplexity.None? <==> cs == []) &&
            (e.minCenterDominance.None? <==> cs == []) &&
            (cs != [] ==> exists i :: 0 <= i < |cs| && e.minCenterDominance == Some(cs[i]) &&
                            (forall j :: 0 <= j < |cs| ==> Dominance(cs[i]) <= Dominance(cs[j])) &&
                            (forall j :: 0 <= j < i ==> Dominance(cs[i]) < Dominance(cs[j])))
  {
    TrackedIsFirstMax(cs, Complexity);
    TrackedIsFirstMax(cs, NegatedDominance);
    if cs != [] {
      var i :| IsFirstMax(cs, NegatedDominance, i) && Tracked(cs, NegatedDominance) == Some(cs[i]);
      assert forall j :: 0 <= j < |cs| ==> NegatedDominance(cs[j]) <= NegatedDominance(cs[i]);
      assert forall j :: 0 <= j < |cs| ==> Dominance(cs[i]) <= Dominance(cs[j]);
      assert forall j :: 0 <= j < i ==> Dominance(cs[i]) < Dominance(cs[j]);
    }
  }

  /**
   * The five maximum extremes: each is absent exactly for an empty input and
   * otherwise the first configuration with the largest metric.
   */
  lemma ExtremesMaxima(cs: seq<Config>)
    ensures var e := ExtremesOf(cs);
            (e.maxComplexity.None? <==> cs == []) && (e.maxSimplicity.None? <==> cs == []) &&
            (e.maxCenterDominance.None? <==> cs == []) && (e.maxRoundness.None? <==> cs == []) &&
            (e.maxRegularity.None? <==> cs == [])
    ensures var e := ExtremesOf(cs);
            cs != [] ==>
              (exists i :: IsFirstMax(cs, Complexity, i) && e.maxComplexity == Some(cs[i])) &&
              (exists i :: IsFirstMax(cs, Simplicity, i) && e.maxSimplicity == Some(cs[i])) &&
              (exists i :: IsFirstMax(cs, Dominance, i) && e.maxCenterDominance == Some(cs[i])) &&
              (exists i :: IsFirstMax(cs, Roundness, i) && e.maxRoundness == Some(cs[i])) &&
              (exists i :: IsFirstMax(cs, Regularity, i) && e.maxRegularity == Some(cs[i]))
  {
    TrackedIsFirstMax(cs, Complexity);
    TrackedIsFirstMax(cs, Simplicity);
    TrackedIsFirstMax(cs, Dominance);
    TrackedIsFirstMax(cs, Roundness);
    TrackedIsFirstMax(cs, Regularity);
  }

  /**
   * The classification records n and the input length, and every archetype
   * list obeys `RankedProps`.
   */
  lemma ClassificationArchetypes(cs: seq<Config>, n: nat, a: Archetype)
    ensures ClassifyOf(cs, n).n == n && ClassifyOf(cs, n).totalConfigurations == |cs|
    ensures var r := ListOf(ClassifyOf(cs, n).archetypes, a);
            |r| <= Limit && (forall x :: x in r ==> x in cs && Fits(a, n, x)) && SortedBy(r, RankKey(a))
  {
    RankedProps(cs, a, n);
    assert ListOf(ClassifyOf(cs, n).archetypes, a) == Ranked(cs, a, n);
  }
}
