/**
 * The `ParameterSpaceExplorer` class of parameter_explorer.js: the map of
 * classifications it keeps per value of n, the step that classifies and
 * stores the configurations of one sweep, and `getNovelConfigurations`,
 * which lists the present extremes and the head of every non-empty
 * archetype list with the reason shown for each.
 */
module Explorer {
  import opened Wrappers
  import opened Seqs
  import opened Classify

  /** A listed configuration, the key it is listed under, and the reason shown for it. */
  datatype NovelConfig = NovelConfig(config: Config, noveltyType: string, noveltyReason: string)

  /** The answer of `getNovelConfigurations`. */
  datatype Novel = Novel(n: nat, configurations: seq<NovelConfig>)

  // ---------------------------------------------------------------------
  // Reason tables (`getNoveltyReason`, `getArchetypeReason`)
  // ---------------------------------------------------------------------

  const NoveltyReasons: map<string, string> := map[
    "maxComplexity" := "Maximum fractal complexity",
    "maxSimplicity" := "Maximum simplicity and grid alignment",
    "maxCenterDominance" := "Largest center region",
    "minCenterDominance" := "Smallest center region (petal-dominant)",
    "maxRoundness" := "Most circular/round form",
    "maxRegularity" := "Most regular petal distribution"]

  const DefaultNoveltyReason := "Novel configuration"

  const ArchetypeReasons: map<string, string> := map[
    "fractalBloom" := "Full fractal bloom - maximal visual complexity",
    "gridAligned" := "Grid-aligned with large center - ideal for UI components",
    "petalDominant" := "Petal-dominant with minimal center - radial symmetry",
    "roundTransition" := "Round and featureless - good for n-transitions",
    "balanced" := "Balanced features - versatile configuration"]

  const DefaultArchetypeReason := "Interesting archetype"

  /** The reason for an extreme: its table entry, the default for any other key. */
  function NoveltyReason(kind: string): (r: string)
    ensures kind in NoveltyReasons ==> r == NoveltyReasons[kind]
    ensures r == DefaultNoveltyReason <==> kind !in NoveltyReasons
  {
    if kind in NoveltyReasons then NoveltyReasons[kind] else DefaultNoveltyReason
  }

  /** The reason for an archetype: its table entry, the default for any other key. */
  function ArchetypeReason(archetype: string): (r: string)
    ensures archetype in ArchetypeReasons ==> r == ArchetypeReasons[archetype]
    ensures r == DefaultArchetypeReason <==> archetype !in ArchetypeReasons
  {
    if archetype in ArchetypeReasons then ArchetypeReasons[archetype] else DefaultArchetypeReason
  }

  // ---------------------------------------------------------------------
  // The listing
  // ---------------------------------------------------------------------

  /** `Object.entries(extremes)`, in the order the record literal declares its keys. */
  function ExtremeEntries(e: Extremes): seq<(string, Option<Config>)>
  {
    [("maxComplexity", e.maxComplexity), ("maxSimplicity", e.maxSimplicity),
     ("maxCenterDominance", e.maxCenterDominance), ("minCenterDominance", e.minCenterDominance),
     ("maxRoundness", e.maxRoundness), ("maxRegularity", e.maxRegularity)]
  }

  /** `Object.entries(archetypes)`, in declaration order. */
  function ArchetypeEntries(a: Archetypes): seq<(string, seq<Config>)>
  {
    [("fractalBloom", a.fractalBloom), ("gridAligned", a.gridAligned), ("petalDominant", a.petalDominant),
     ("roundTransition", a.roundTransition), ("balanced", a.balanced)]
  }

  const ExtremeKeys: seq<string> :=
    ["maxComplexity", "maxSimplicity", "maxCenterDominance", "minCenterDominance", "maxRoundness", "maxRegularity"]

  const ArchetypeKeys: seq<string> := ["fractalBloom", "gridAligned", "petalDominant", "roundTransition", "balanced"]

  /** An extreme is listed when it is present. */
  function Itself(x: Option<Config>): Option<Config> { x }

  /** An archetype list contributes its first entry when it is not empty. */
  function Head(cs: seq<Config>): Option<Config>
  {
    if |cs| > 0 then Some(cs[0]) else None
  }

  /** The entries whose `pick` gives a configuration, in entry order, each with its key and reason. */
  function Novelties<X>(entries: seq<(string, X)>, pick: X -> Option<Config>, reason: string -> string)
    : seq<NovelConfig>
  {
    if entries == [] then []
    else
      var last := entries[|entries| - 1];
      Novelties(entries[..|entries| - 1], pick, reason) +
      (if pick(last.1).Some? then [NovelConfig(pick(last.1).value, last.0, reason(last.0))] else [])
  }

  /** The listing of one classification. */
  function NovelOf(n: nat, c: Classified): Novel
  {
    Novel(n, Novelties(ExtremeEntries(c.extremes), Itself, NoveltyReason) +
             Novelties(ArchetypeEntries(c.archetypes), Head, ArchetypeReason))
  }

  function KeysOf<X>(entries: seq<(string, X)>): (keys: seq<string>)
    ensures |keys| == |entries|
  {
    seq(|entries|, i requires 0 <= i < |entries| => entries[i].0)
  }

  function TypesOf(r: seq<NovelConfig>): (types: seq<string>)
    ensures |types| == |r|
  {
    seq(|r|, i requires 0 <= i < |r| => r[i].noveltyType)
  }

  lemma NoveltiesSnoc<X>(entries: seq<(string, X)>, pick: X -> Option<Config>, reason: string -> string, i: nat)
    requires i < |entries|
    ensures Novelties(entries[..i + 1], pick, reason) ==
            Novelties(entries[..i], pick, reason) +
            (if pick(entries[i].1).Some? then [NovelConfig(pick(entries[i].1).value, entries[i].0, reason(entries[i].0))]
             else [])
  {
    assert entries[..i + 1][..i] == entries[..i];
  }

  /**
   * At most one configuration per entry is listed, and the keys they are
   * listed under appear in entry order.
   */
  lemma {:induction false} NoveltiesInOrder<X>(entries: seq<(string, X)>, pick: X -> Option<Config>,
                                              reason: string -> string)
    ensures |Novelties(entries, pick, reason)| <= |entries|
    ensures IsSubseq(TypesOf(Novelties(entries, pick, reason)), KeysOf(entries))
    decreases |entries|
  {
    if entries != [] {
      var init, last := entries[..|entries| - 1], entries[|entries| - 1];
      var r0 := Novelties(init, pick, reason);
      NoveltiesInOrder(init, pick, reason);
      assert KeysOf(entries) == KeysOf(init) + [last.0];
      if pick(last.1).Some? {
        var x := NovelConfig(pick(last.1).value, last.0, reason(last.0));
        assert Novelties(entries, pick, reason) == r0 + [x];
        assert TypesOf(r0 + [x]) == TypesOf(r0) + [last.0];
        SubseqAppendBoth(TypesOf(r0), KeysOf(init), last.0);
      } else {
        assert Novelties(entries, pick, reason) == r0;
        SubseqExtend(TypesOf(r0), KeysOf(init), last.0);
      }
    }
  }

  /** x is the listing of entry i. */
  predicate ListingOf<X>(entries: seq<(string, X)>, pick: X -> Option<Config>, reason: string -> string,
                         x: NovelConfig, i: int)
  {
    0 <= i < |entries| && pick(entries[i].1).Some? &&
    x == NovelConfig(pick(entries[i].1).value, entries[i].0, reason(entries[i].0))
  }

  /**
   * Every listed configuration is what `pick` gives for an entry, listed
   * under that entry's key with that key's reason; conversely every entry
   * for which `pick` gives a configuration is listed.
   */
  lemma {:induction false} NoveltiesExact<X>(entries: seq<(string, X)>, pick: X -> Option<Config>,
                                            reason: string -> string)
    ensures forall x :: x in Novelties(entries, pick, reason) <==> exists i :: ListingOf(entries, pick, reason, x, i)
    decreases |entries|
  {
    if entries != [] {
      var init, last := entries[..|entries| - 1], entries[|entries| - 1];
      var r0, r := Novelties(init, pick, reason), Novelties(entries, pick, reason);
      NoveltiesExact(init, pick, reason);
      var tail := if pick(last.1).Some? then [NovelConfig(pick(last.1).value, last.0, reason(last.0))] else [];
      assert r == r0 + tail;
      forall x
        ensures x in r <==> exists i :: ListingOf(entries, pick, reason, x, i)
      {
        if x in r0 {
          var i :| ListingOf(init, pick, reason, x, i);
          assert entries[i] == init[i];
          assert ListingOf(entries, pick, reason, x, i);
        } else if x in tail {
          assert ListingOf(entries, pick, reason, x, |entries| - 1);
        } else {
          forall i | 0 <= i < |entries|
            ensures !ListingOf(entries, pick, reason, x, i)
          {
            if i < |init| {
              assert entries[i] == init[i];
              assert !ListingOf(init, pick, reason, x, i);
            }
          }
        }
      }
    }
  }

  /**
   * The listing has at most eleven entries: the present extremes first,
   * their keys in declaration order, then the archetype heads, likewise.
   */
  lemma NovelListingOrder(n: nat, c: Classified)
    ensures var ext := Novelties(ExtremeEntries(c.extremes), Itself, NoveltyReason);
            var arch := Novelties(ArchetypeEntries(c.archetypes), Head, ArchetypeReason);
            NovelOf(n, c).n == n && NovelOf(n, c).configurations == ext + arch &&
            |NovelOf(n, c).configurations| <= 11 &&
            IsSubseq(TypesOf(ext), ExtremeKeys) && IsSubseq(TypesOf(arch), ArchetypeKeys)
  {
    var es, ars := ExtremeEntries(c.extremes), ArchetypeEntries(c.archetypes);
    NoveltiesInOrder(es, Itself, NoveltyReason);
    NoveltiesInOrder(ars, Head, ArchetypeReason);
    assert KeysOf(es) == ExtremeKeys;
    assert KeysOf(ars) == ArchetypeKeys;
  }

  /**
   * Every listed extreme carries its own table reason and every listed
   * archetype head the archetype's table reason, never a default.
   */
  lemma NovelListingReasons(n: nat, c: Classified)
    ensures var ext := Novelties(ExtremeEntries(c.extremes), Itself, NoveltyReason);
            var arch := Novelties(ArchetypeEntries(c.archetypes), Head, ArchetypeReason);
            (forall x :: x in ext ==> x.noveltyType in NoveltyReasons &&
                                      x.noveltyReason == NoveltyReasons[x.noveltyType] &&
                                      x.noveltyReason != DefaultNoveltyReason) &&
            (forall x :: x in arch ==> x.noveltyType in ArchetypeReasons &&
                                       x.noveltyReason == ArchetypeReasons[x.noveltyType] &&
                                       x.noveltyReason != DefaultArchetypeReason)
  {
    var es, ars := ExtremeEntries(c.extremes), ArchetypeEntries(c.archetypes);
    var ext := Novelties(es, Itself, NoveltyReason);
    var arch := Novelties(ars, Head, ArchetypeReason);
    NoveltiesExact(es, Itself, NoveltyReason);
    NoveltiesExact(ars, Head, ArchetypeReason);
    forall x | x in ext
      ensures x.noveltyType in NoveltyReasons && x.noveltyReason == NoveltyReasons[x.noveltyType]
    {
      var i :| ListingOf(es, Itself, NoveltyReason, x, i);
    }
    forall x | x in arch
      ensures x.noveltyType in ArchetypeReasons && x.noveltyReason == ArchetypeReasons[x.noveltyType]
    {
      var i :| ListingOf(ars, Head, ArchetypeReason, x, i);
    }
  }

  // ---------------------------------------------------------------------
  // The explorer
  // ---------------------------------------------------------------------

  class ParameterSpaceExplorer {
    /** The classification stored for every value of n explored so far. */
    var discoveries: map<nat, Classified>

    constructor()
      ensures discoveries == map[]
    {
      discoveries := map[];
    }

    /**
     * The end of `exploreParameterSpace`: classify the configurations the
     * sweep kept and store the result under n, replacing any earlier one.
     */
    method RecordDiscoveries(n: nat, configurations: seq<Config>) returns (classified: Classified)
      modifies this
      ensures classified == ClassifyOf(configurations, n)
      ensures discoveries == old(discoveries)[n := classified]
    {
      classified := ClassifyConfigurations(configurations, n);
      discoveries := discoveries[n := classified];
    }

    /**
     * `getNovelConfigurations`: nothing for an n never explored; otherwise
     * every present extreme, then the first entry of every non-empty
     * archetype list, each with its key and reason.
     */
    method GetNovelConfigurations(n: nat) returns (novel: Option<Novel>)
      ensures n !in discoveries ==> novel == None
      ensures n in discoveries ==> novel == Some(NovelOf(n, discoveries[n]))
      ensures novel.Some? ==> |novel.value.configurations| <= 11
    {
      if n !in discoveries {
        return None;
      }
      var found := discoveries[n];
      var configurations: seq<NovelConfig> := [];
      var extremes := ExtremeEntries(found.extremes);
      for i := 0 to |extremes|
        invariant configurations == Novelties(extremes[..i], Itself, NoveltyReason)
      {
        var kind, config := extremes[i].0, extremes[i].1;
        if config.Some? {
          configurations := configurations + [NovelConfig(config.value, kind, NoveltyReason(kind))];
        }
        NoveltiesSnoc(extremes, Itself, NoveltyReason, i);
      }
      assert extremes[..|extremes|] == extremes;
      ghost var fromExtremes := configurations;
      var archetypes := ArchetypeEntries(found.archetypes);
      for i := 0 to |archetypes|
        invariant configurations == fromExtremes + Novelties(archetypes[..i], Head, ArchetypeReason)
      {
        var archetype, configs := archetypes[i].0, archetypes[i].1;
        if |configs| > 0 {
          configurations := configurations + [NovelConfig(configs[0], archetype, ArchetypeReason(archetype))];
        }
        NoveltiesSnoc(archetypes, Head, ArchetypeReason, i);
      }
      assert archetypes[..|archetypes|] == archetypes;
      novel := Some(Novel(n, configurations));
      NovelListingOrder(n, found);
    }
  }
}
