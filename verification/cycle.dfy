/** A worked example: two strata that build-depend on each other. The walk
    ends at the cache check, each file is read once, and the second
    reference to stratum a, which declares another name, draws no warning
    because the name is only checked when the file is first read. */
module CycleExample {
  import opened Outcome
  import opened Morphs
  import opened Resolver

  function Stratum(name: string, deps: seq<StratumRef>): Morph {
    Morph("stratum", name, "", [], [], Some(deps))
  }

  const RefA := StratumRef("a.morph", Some("a"))
  const RefB := StratumRef("b.morph", None)
  const BackToA := StratumRef("a.morph", Some("other"))
  const SystemS := Morph("system", "s", "x86_64", [RefA], [], None)
  const StratumA := Stratum("a", [RefB])
  const StratumB := Stratum("b", [BackToA])

  const CycleLoader: Loader := map["s.morph" := SystemS, "a.morph" := StratumA, "b.morph" := StratumB]

  /** Resolving system s reads s, a and b once each, in that order. */
  lemma CycleResolves()
    ensures var r := Resolve(CycleLoader, ["s.morph"]);
      && r.Success?
      && r.value.defs.strata.Keys == {"a.morph", "b.morph"}
      && r.value.loads == [Load(SystemKind, "s.morph"), Load(StratumKind, "a.morph"), Load(StratumKind, "b.morph")]
      && r.value.warnings == []
  {
    var L := CycleLoader;
    var s1 := Store(Start, SystemKind, "s.morph", SystemS);
    var s2 := Store(s1, StratumKind, "a.morph", StratumA);
    var s3 := Store(s2, StratumKind, "b.morph", StratumB);
    assert "a.morph" != "b.morph";
    assert "a.morph" in s3.defs.strata;
    assert ParseStratum(L, s3, BackToA) == Success(s3);
    assert ParseStrata(L, s3, [BackToA]) == Success(s3);
    assert ParseChunks(L, s3, []) == Success(s3);
    assert ParseStratum(L, s2, RefB) == Success(s3);
    assert ParseStrata(L, s2, [RefB]) == Success(s3);
    assert ParseStratum(L, s1, RefA) == Success(s3);
    assert ParseStrata(L, s1, [RefA]) == Success(s3);
    assert ParseSystem(L, Start, "s.morph") == Success(s3);
    assert ParseSystems(L, s3, []) == Success(s3);
  }
}
