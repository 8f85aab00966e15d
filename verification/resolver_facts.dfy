/** What `parse_system`, `parse_stratum` and `parse_chunk` establish across
    their recursion: closure of the caches, that only reachable strata are
    read, that nothing is read twice, and when a warning is printed. */
module ResolverFacts {
  import opened Outcome
  import opened Morphs
  import opened Invariants
  import opened Resolver

  /** Reading and caching a fresh file, after an optional warning about it. */
  lemma StoreLogged(s: Session, cond: bool, w: Warning, k: Kind, p: Path, m: Morph)
    requires p !in s.defs.Cache(k)
    requires cond ==> w.kind == k && w.path == p && w.declared != w.found
    ensures var t := Store(WarnIf(s, cond, w), k, p, m); Grows(s, t) && FreshLogs(s, t)
  {
    var t := Store(WarnIf(s, cond, w), k, p, m);
    assert Fresh(s, t, k, p);
    forall k', q | Fresh(s, t, k', q)
      ensures ReadBetween(s, t, Load(k', q))
    {
      assert t.loads[|s.loads|] == Load(k', q);
    }
  }

  lemma NoStepLogged(s: Session)
    ensures FreshLogs(s, s)
  {
  }

  lemma {:induction false} ChunkLogged(L: Loader, s: Session, ref: ChunkRef)
    ensures var r := ParseChunk(L, s, ref); r.Success? ==> FreshLogs(s, r.value)
  {
    if ref.morph.Some? && ref.morph.value !in s.defs.chunks && LoadMorph(L, ref.morph.value, ChunkKind).Success? {
      var p := ref.morph.value;
      var chunk := L[p];
      StoreLogged(s, ref.name != chunk.name, NameMismatch(ChunkKind, p, ref.name, chunk.name), ChunkKind, p, chunk);
    } else {
      NoStepLogged(s);
    }
  }

  lemma {:induction false} ChunksLogged(L: Loader, s: Session, refs: seq<ChunkRef>)
    decreases |refs|
    ensures var r := ParseChunks(L, s, refs); r.Success? ==> FreshLogs(s, r.value)
  {
    if |refs| == 0 {
      NoStepLogged(s);
    } else {
      var c := ParseChunk(L, s, refs[0]);
      if c.Success? {
        ChunkLogged(L, s, refs[0]);
        ChunksLogged(L, c.value, refs[1..]);
        var r := ParseChunks(L, c.value, refs[1..]);
        if r.Success? {
          FreshLogsTrans(s, c.value, r.value);
        }
      }
    }
  }

  /** `parse_stratum` reads every file at most once and warns about each at
      most once, whatever cycles the build-depends contain. */
  lemma {:induction false} StratumLogged(L: Loader, s: Session, ref: StratumRef)
    decreases Unloaded(L, s), 0, 0
    ensures var r := ParseStratum(L, s, ref); r.Success? ==> FreshLogs(s, r.value)
  {
    var p := ref.morph;
    if p in s.defs.strata || LoadMorph(L, p, StratumKind).Failure? {
      NoStepLogged(s);
    } else {
      var stratum := L[p];
      var cond := ref.name.Some? && ref.name.value != stratum.name;
      var w := NameMismatch(StratumKind, p, ref.name.GetOr(""), stratum.name);
      StoreLogged(s, cond, w, StratumKind, p, stratum);
      var s2 := Store(WarnIf(s, cond, w), StratumKind, p, stratum);
      var c := ParseChunks(L, s2, stratum.chunks);
      if c.Success? {
        ChunksLogged(L, s2, stratum.chunks);
        FreshLogsTrans(s, s2, c.value);
        assert Unloaded(L, c.value) < Unloaded(L, s);
        StrataLogged(L, c.value, Deps(stratum));
        var r := ParseStrata(L, c.value, Deps(stratum));
        if r.Success? {
          FreshLogsTrans(s, c.value, r.value);
        }
      }
    }
  }

  lemma {:induction false} StrataLogged(L: Loader, s: Session, refs: seq<StratumRef>)
    decreases Unloaded(L, s), 1, |refs|
    ensures var r := ParseStrata(L, s, refs); r.Success? ==> FreshLogs(s, r.value)
  {
    if |refs| == 0 {
      NoStepLogged(s);
    } else {
      var s1 := ParseStratum(L, s, refs[0]);
      if s1.Success? {
        StratumLogged(L, s, refs[0]);
        UnloadedShrinks(L, s, s1.value);
        StrataLogged(L, s1.value, refs[1..]);
        var r := ParseStrata(L, s1.value, refs[1..]);
        if r.Success? {
          FreshLogsTrans(s, s1.value, r.value);
        }
      }
    }
  }

  lemma {:induction false} SystemLogged(L: Loader, s: Session, p: Path)
    ensures var r := ParseSystem(L, s, p); r.Success? ==> FreshLogs(s, r.value)
  {
    if p in s.defs.systems || LoadMorph(L, p, SystemKind).Failure? {
      NoStepLogged(s);
    } else {
      var system := L[p];
      StoreLogged(s, false, NameMismatch(SystemKind, p, "", ""), SystemKind, p, system);
      var s1 := Store(WarnIf(s, false, NameMismatch(SystemKind, p, "", "")), SystemKind, p, system);
      StrataLogged(L, s1, system.strata);
      var r := ParseStrata(L, s1, system.strata);
      if r.Success? {
        FreshLogsTrans(s, s1, r.value);
      }
    }
  }

  lemma {:induction false} SystemsLogged(L: Loader, s: Session, paths: seq<Path>)
    decreases |paths|
    ensures var r := ParseSystems(L, s, paths); r.Success? ==> FreshLogs(s, r.value)
  {
    if |paths| == 0 {
      NoStepLogged(s);
    } else {
      var s1 := ParseSystem(L, s, paths[0]);
      if s1.Success? {
        SystemLogged(L, s, paths[0]);
        SystemsLogged(L, s1.value, paths[1..]);
        var r := ParseSystems(L, s1.value, paths[1..]);
        if r.Success? {
          FreshLogsTrans(s, s1.value, r.value);
        }
      }
    }
  }

  /** `parse_stratum` leaves every stratum it caches closed: its chunk files
      and its build-depends are cached by the time it returns. */
  lemma {:induction false} StratumCloses(L: Loader, s: Session, ref: StratumRef)
    decreases Unloaded(L, s), 0, 0
    ensures var r := ParseStratum(L, s, ref); r.Success? ==> NewStrataClosed(s.defs, r.value.defs)
  {
    var p := ref.morph;
    if p !in s.defs.strata && LoadMorph(L, p, StratumKind).Success? {
      var stratum := L[p];
      var cond := ref.name.Some? && ref.name.value != stratum.name;
      var w := NameMismatch(StratumKind, p, ref.name.GetOr(""), stratum.name);
      var s2 := Store(WarnIf(s, cond, w), StratumKind, p, stratum);
      var c := ParseChunks(L, s2, stratum.chunks);
      if c.Success? {
        assert s2.defs.Cache(StratumKind) == s.defs.strata[p := stratum];
        UnloadedShrinksStrictly(L, s, c.value, p);
        StrataClose(L, c.value, Deps(stratum));
        var r := ParseStrata(L, c.value, Deps(stratum));
        if r.Success? {
          var d := r.value.defs;
          assert ChunksCached(c.value.defs, stratum);
          assert StratumClosed(d, stratum);
          assert d.strata[p] == stratum;
        }
      }
    }
  }

  lemma {:induction false} StrataClose(L: Loader, s: Session, refs: seq<StratumRef>)
    decreases Unloaded(L, s), 1, |refs|
    ensures var r := ParseStrata(L, s, refs); r.Success? ==> NewStrataClosed(s.defs, r.value.defs)
  {
    if |refs| > 0 {
      var s1 := ParseStratum(L, s, refs[0]);
      if s1.Success? {
        StratumCloses(L, s, refs[0]);
        UnloadedShrinks(L, s, s1.value);
        StrataClose(L, s1.value, refs[1..]);
        var r := ParseStrata(L, s1.value, refs[1..]);
        if r.Success? {
          NewStrataClosedTrans(s.defs, s1.value.defs, r.value.defs);
        }
      }
    }
  }

  /** `parse_system` leaves the system it caches, and every stratum it
      caches, closed. */
  lemma {:induction false} SystemCloses(L: Loader, s: Session, p: Path)
    ensures var r := ParseSystem(L, s, p); r.Success? ==> NewClosed(s.defs, r.value.defs)
  {
    if p !in s.defs.systems && LoadMorph(L, p, SystemKind).Success? {
      var system := L[p];
      var s1 := Store(s, SystemKind, p, system);
      StrataClose(L, s1, system.strata);
      var r := ParseStrata(L, s1, system.strata);
      if r.Success? {
        assert r.value.defs.systems[p] == system;
        assert SystemClosed(r.value.defs, system);
      }
    }
  }

  lemma {:induction false} SystemsClose(L: Loader, s: Session, paths: seq<Path>)
    decreases |paths|
    ensures var r := ParseSystems(L, s, paths); r.Success? ==> NewClosed(s.defs, r.value.defs)
  {
    if |paths| > 0 {
      var s1 := ParseSystem(L, s, paths[0]);
      if s1.Success? {
        SystemCloses(L, s, paths[0]);
        SystemsClose(L, s1.value, paths[1..]);
        var r := ParseSystems(L, s1.value, paths[1..]);
        if r.Success? {
          NewClosedTrans(s.defs, s1.value.defs, r.value.defs);
        }
      }
    }
  }

  /** Every stratum `parse_stratum` caches is reachable, through
      build-depends, from the referenced stratum. */
  lemma {:induction false} StratumReach(L: Loader, s: Session, ref: StratumRef)
    decreases Unloaded(L, s), 0, 0
    ensures var r := ParseStratum(L, s, ref);
      r.Success? ==> forall q :: q in r.value.defs.strata && q !in s.defs.strata ==> Reaches(L, ref.morph, q)
  {
    var p := ref.morph;
    if p !in s.defs.strata && LoadMorph(L, p, StratumKind).Success? {
      var stratum := L[p];
      var cond := ref.name.Some? && ref.name.value != stratum.name;
      var w := NameMismatch(StratumKind, p, ref.name.GetOr(""), stratum.name);
      var s2 := Store(WarnIf(s, cond, w), StratumKind, p, stratum);
      var c := ParseChunks(L, s2, stratum.chunks);
      if c.Success? {
        assert s2.defs.Cache(StratumKind) == s.defs.strata[p := stratum];
        UnloadedShrinksStrictly(L, s, c.value, p);
        StrataReach(L, c.value, Deps(stratum));
        var r := ParseStrata(L, c.value, Deps(stratum));
        if r.Success? {
          forall q | q in r.value.defs.strata && q !in s.defs.strata
            ensures Reaches(L, p, q)
          {
            if q == p {
              ReachesSelf(L, p);
            } else {
              assert q !in c.value.defs.strata;
              var i :| 0 <= i < |Deps(stratum)| && Reaches(L, Deps(stratum)[i].morph, q);
              ReachesStep(L, p, Deps(stratum)[i].morph, q);
            }
          }
        }
      }
    }
  }

  lemma {:induction false} StrataReach(L: Loader, s: Session, refs: seq<StratumRef>)
    decreases Unloaded(L, s), 1, |refs|
    ensures var r := ParseStrata(L, s, refs);
      r.Success? ==> forall q :: q in r.value.defs.strata && q !in s.defs.strata ==> RefsReach(L, refs, q)
  {
    if |refs| > 0 {
      var s1 := ParseStratum(L, s, refs[0]);
      if s1.Success? {
        StratumReach(L, s, refs[0]);
        UnloadedShrinks(L, s, s1.value);
        StrataReach(L, s1.value, refs[1..]);
        var r := ParseStrata(L, s1.value, refs[1..]);
        if r.Success? {
          forall q | q in r.value.defs.strata && q !in s.defs.strata
            ensures RefsReach(L, refs, q)
          {
            if q in s1.value.defs.strata {
              assert Reaches(L, refs[0].morph, q);
            } else {
              var i :| 0 <= i < |refs[1..]| && Reaches(L, refs[1..][i].morph, q);
              assert refs[1..][i] == refs[i + 1];
            }
          }
        }
      }
    }
  }

  lemma {:induction false} SystemReach(L: Loader, s: Session, p: Path)
    ensures var r := ParseSystem(L, s, p);
      r.Success? ==> forall q :: q in r.value.defs.strata && q !in s.defs.strata ==> RootsReach(L, [p], q)
  {
    if p !in s.defs.systems && LoadMorph(L, p, SystemKind).Success? {
      var system := L[p];
      var s1 := Store(s, SystemKind, p, system);
      StrataReach(L, s1, system.strata);
      var r := ParseStrata(L, s1, system.strata);
      if r.Success? {
        forall q | q in r.value.defs.strata && q !in s.defs.strata
          ensures RootsReach(L, [p], q)
        {
          assert RefsReach(L, L[[p][0]].strata, q);
        }
      }
    }
  }

  /** Every stratum the loop of `main` caches is reachable from a stratum
      listed by one of the systems named. */
  lemma {:induction false} SystemsReach(L: Loader, s: Session, paths: seq<Path>)
    decreases |paths|
    ensures var r := ParseSystems(L, s, paths);
      r.Success? ==> forall q :: q in r.value.defs.strata && q !in s.defs.strata ==> RootsReach(L, paths, q)
  {
    if |paths| > 0 {
      var s1 := ParseSystem(L, s, paths[0]);
      if s1.Success? {
        SystemReach(L, s, paths[0]);
        SystemsReach(L, s1.value, paths[1..]);
        var r := ParseSystems(L, s1.value, paths[1..]);
        if r.Success? {
          forall q | q in r.value.defs.strata && q !in s.defs.strata
            ensures RootsReach(L, paths, q)
          {
            if q in s1.value.defs.strata {
              var j :| 0 <= j < 1 && [paths[0]][j] in L && RefsReach(L, L[[paths[0]][j]].strata, q);
              assert paths[0] in L && RefsReach(L, L[paths[0]].strata, q);
            } else {
              var j :| 0 <= j < |paths[1..]| && paths[1..][j] in L && RefsReach(L, L[paths[1..][j]].strata, q);
              assert paths[1..][j] == paths[j + 1];
            }
          }
        }
      }
    }
  }

  /** Every chunk file `parse_stratum` caches is named by a chunk reference
      of a cached stratum: a reference without `morph` adds nothing. */
  lemma {:induction false} StratumOwnsChunks(L: Loader, s: Session, ref: StratumRef)
    decreases Unloaded(L, s), 0, 0
    ensures var r := ParseStratum(L, s, ref); r.Success? ==> NewChunksOwned(s.defs, r.value.defs)
  {
    var p := ref.morph;
    if p !in s.defs.strata && LoadMorph(L, p, StratumKind).Success? {
      var stratum := L[p];
      var cond := ref.name.Some? && ref.name.value != stratum.name;
      var w := NameMismatch(StratumKind, p, ref.name.GetOr(""), stratum.name);
      var s2 := Store(WarnIf(s, cond, w), StratumKind, p, stratum);
      var c := ParseChunks(L, s2, stratum.chunks);
      if c.Success? {
        assert s2.defs.Cache(StratumKind) == s.defs.strata[p := stratum];
        UnloadedShrinksStrictly(L, s, c.value, p);
        StrataOwnChunks(L, c.value, Deps(stratum));
        var r := ParseStrata(L, c.value, Deps(stratum));
        if r.Success? {
          var d := r.value.defs;
          assert NewChunksOwned(s2.defs, c.value.defs) by {
            forall x | x in c.value.defs.chunks && x !in s2.defs.chunks
              ensures ChunkOwned(c.value.defs, x)
            {
              var i :| 0 <= i < |stratum.chunks| && stratum.chunks[i].morph == Some(x);
              assert c.value.defs.strata[p] == stratum;
            }
          }
          NewChunksOwnedTrans(s.defs, c.value.defs, d);
        }
      }
    }
  }

  lemma {:induction false} StrataOwnChunks(L: Loader, s: Session, refs: seq<StratumRef>)
    decreases Unloaded(L, s), 1, |refs|
    ensures var r := ParseStrata(L, s, refs); r.Success? ==> NewChunksOwned(s.defs, r.value.defs)
  {
    if |refs| > 0 {
      var s1 := ParseStratum(L, s, refs[0]);
      if s1.Success? {
        StratumOwnsChunks(L, s, refs[0]);
        UnloadedShrinks(L, s, s1.value);
        StrataOwnChunks(L, s1.value, refs[1..]);
        var r := ParseStrata(L, s1.value, refs[1..]);
        if r.Success? {
          NewChunksOwnedTrans(s.defs, s1.value.defs, r.value.defs);
        }
      }
    }
  }

  lemma {:induction false} SystemOwnsChunks(L: Loader, s: Session, p: Path)
    ensures var r := ParseSystem(L, s, p); r.Success? ==> NewChunksOwned(s.defs, r.value.defs)
  {
    if p !in s.defs.systems && LoadMorph(L, p, SystemKind).Success? {
      var s1 := Store(s, SystemKind, p, L[p]);
      StrataOwnChunks(L, s1, L[p].strata);
    }
  }

  lemma {:induction false} SystemsOwnChunks(L: Loader, s: Session, paths: seq<Path>)
    decreases |paths|
    ensures var r := ParseSystems(L, s, paths); r.Success? ==> NewChunksOwned(s.defs, r.value.defs)
  {
    if |paths| > 0 {
      var s1 := ParseSystem(L, s, paths[0]);
      if s1.Success? {
        SystemOwnsChunks(L, s, paths[0]);
        SystemsOwnChunks(L, s1.value, paths[1..]);
        var r := ParseSystems(L, s1.value, paths[1..]);
        if r.Success? {
          NewChunksOwnedTrans(s.defs, s1.value.defs, r.value.defs);
        }
      }
    }
  }

  /** A file already cached at `m` gets no warning after `m`, so any warning
      about it since `s` was logged by `m`. */
  lemma WarnedEarly(s: Session, m: Session, t: Session, k: Kind, p: Path)
    requires s.warnings <= m.warnings <= t.warnings
    requires WarningsFresh(m, t) && p in m.defs.Cache(k)
    ensures WarnedAbout(s, t, k, p) <==> WarnedAbout(s, m, k, p)
  {
    if WarnedAbout(s, t, k, p) {
      var i :| |s.warnings| <= i < |t.warnings| && t.warnings[i].kind == k && t.warnings[i].path == p;
      assert i < |m.warnings|;
      assert m.warnings[i] == t.warnings[i];
    }
    if WarnedAbout(s, m, k, p) {
      var i :| |s.warnings| <= i < |m.warnings| && m.warnings[i].kind == k && m.warnings[i].path == p;
      assert t.warnings[i] == m.warnings[i];
    }
  }

  /** `parse_stratum` prints "Mismatched names" for a stratum it reads
      exactly when the reference declares a name and the file another. */
  lemma {:induction false} StratumWarning(L: Loader, s: Session, ref: StratumRef)
    ensures var r := ParseStratum(L, s, ref);
      r.Success? && ref.morph !in s.defs.strata ==>
        && (WarnedAbout(s, r.value, StratumKind, ref.morph) <==> ref.name.Some? && ref.name.value != L[ref.morph].name)
        && (ref.name.Some? && ref.name.value != L[ref.morph].name ==>
              r.value.warnings[|s.warnings|] == NameMismatch(StratumKind, ref.morph, ref.name.value, L[ref.morph].name))
  {
    var p := ref.morph;
    if p !in s.defs.strata && LoadMorph(L, p, StratumKind).Success? {
      var stratum := L[p];
      var cond := ref.name.Some? && ref.name.value != stratum.name;
      var w := NameMismatch(StratumKind, p, ref.name.GetOr(""), stratum.name);
      var s2 := Store(WarnIf(s, cond, w), StratumKind, p, stratum);
      var c := ParseChunks(L, s2, stratum.chunks);
      if c.Success? {
        assert s2.defs.Cache(StratumKind) == s.defs.strata[p := stratum];
        UnloadedShrinksStrictly(L, s, c.value, p);
        ChunksLogged(L, s2, stratum.chunks);
        StrataLogged(L, c.value, Deps(stratum));
        var r := ParseStrata(L, c.value, Deps(stratum));
        assert ParseStratum(L, s, ref) == r;
        if r.Success? {
          FreshLogsTrans(s2, c.value, r.value);
          WarnedEarly(s, s2, r.value, StratumKind, p);
          if cond {
            assert r.value.warnings[..|s2.warnings|] == s2.warnings;
            assert r.value.warnings[|s.warnings|] == w;
          } else {
            assert s2.warnings == s.warnings;
          }
        }
      }
    }
  }

  /** `parse_stratum` succeeds, whatever is cached already, when every
      stratum reachable from the referenced one is readable. */
  lemma {:induction false} StratumSucceeds(L: Loader, s: Session, ref: StratumRef)
    requires forall q :: Reaches(L, ref.morph, q) ==> StratumReadable(L, q)
    ensures ParseStratum(L, s, ref).Success?
    decreases Unloaded(L, s), 0, 0
  {
    var p := ref.morph;
    if p !in s.defs.strata {
      ReachesSelf(L, p);
      var stratum := L[p];
      var cond := ref.name.Some? && ref.name.value != stratum.name;
      var w := NameMismatch(StratumKind, p, ref.name.GetOr(""), stratum.name);
      var s2 := Store(WarnIf(s, cond, w), StratumKind, p, stratum);
      var c := ParseChunks(L, s2, stratum.chunks);
      assert c.Success?;
      assert s2.defs.Cache(StratumKind) == s.defs.strata[p := stratum];
      UnloadedShrinksStrictly(L, s, c.value, p);
      forall q | RefsReach(L, Deps(stratum), q)
        ensures StratumReadable(L, q)
      {
        var i :| 0 <= i < |Deps(stratum)| && Reaches(L, Deps(stratum)[i].morph, q);
        ReachesStep(L, p, Deps(stratum)[i].morph, q);
      }
      StrataSucceed(L, c.value, Deps(stratum));
    }
  }

  lemma {:induction false} StrataSucceed(L: Loader, s: Session, refs: seq<StratumRef>)
    requires forall q :: RefsReach(L, refs, q) ==> StratumReadable(L, q)
    ensures ParseStrata(L, s, refs).Success?
    decreases Unloaded(L, s), 1, |refs|
  {
    if |refs| > 0 {
      forall q | Reaches(L, refs[0].morph, q)
        ensures StratumReadable(L, q)
      {
        assert RefsReach(L, refs, q);
      }
      StratumSucceeds(L, s, refs[0]);
      var s1 := ParseStratum(L, s, refs[0]).value;
      UnloadedShrinks(L, s, s1);
      forall q | RefsReach(L, refs[1..], q)
        ensures StratumReadable(L, q)
      {
        var i :| 0 <= i < |refs[1..]| && Reaches(L, refs[1..][i].morph, q);
        assert refs[1..][i] == refs[i + 1];
      }
      StrataSucceed(L, s1, refs[1..]);
    }
  }

  /** `parse_system` succeeds, whatever is cached already, on a readable
      system. */
  lemma {:induction false} SystemSucceeds(L: Loader, s: Session, p: Path)
    requires SystemReadable(L, p)
    ensures ParseSystem(L, s, p).Success?
  {
    if p !in s.defs.systems {
      StrataSucceed(L, Store(s, SystemKind, p, L[p]), L[p].strata);
    }
  }

  lemma {:induction false} SystemsSucceed(L: Loader, s: Session, paths: seq<Path>)
    requires Resolvable(L, paths)
    ensures ParseSystems(L, s, paths).Success?
    decreases |paths|
  {
    if |paths| > 0 {
      SystemSucceeds(L, s, paths[0]);
      var s1 := ParseSystem(L, s, paths[0]).value;
      assert Resolvable(L, paths[1..]) by {
        forall j | 0 <= j < |paths[1..]|
          ensures SystemReadable(L, paths[1..][j])
        {
          assert paths[1..][j] == paths[j + 1];
        }
      }
      SystemsSucceed(L, s1, paths[1..]);
    }
  }

  /** Closed caches holding the loader's records, with the named systems
      and every stratum reachable from them, witness that everything the
      resolver needs can be read. */
  lemma CachedResolvable(L: Loader, d: Defs, roots: seq<Path>)
    requires Closed(d)
    requires forall k, p :: p in d.Cache(k) ==> p in L && d.Cache(k)[p] == L[p] && L[p].kind == Tag(k)
    requires forall j :: 0 <= j < |roots| ==> roots[j] in d.systems
    requires forall q :: RootsReach(L, roots, q) ==> q in d.strata
    ensures Resolvable(L, roots)
  {
    forall j | 0 <= j < |roots|
      ensures SystemReadable(L, roots[j])
    {
      var p := roots[j];
      assert p in d.Cache(SystemKind);
      forall q | RefsReach(L, L[p].strata, q)
        ensures StratumReadable(L, q)
      {
        assert RootsReach(L, roots, q);
        assert q in d.Cache(StratumKind);
        assert StratumClosed(d, d.strata[q]);
        forall i | 0 <= i < |L[q].chunks| && L[q].chunks[i].morph.Some?
          ensures L[q].chunks[i].morph.value in L && L[L[q].chunks[i].morph.value].kind == Tag(ChunkKind)
        {
          assert L[q].chunks[i].morph.value in d.Cache(ChunkKind);
        }
      }
    }
  }

  /** A successful run of the loop of `main` has read, as the expected
      kind, everything the named systems reach. */
  lemma ResolvedReadable(L: Loader, roots: seq<Path>)
    ensures Resolve(L, roots).Success? ==> Resolvable(L, roots)
  {
    var r := Resolve(L, roots);
    if r.Success? {
      var d := r.value.defs;
      assert Closed(d) && forall j :: 0 <= j < |roots| ==> roots[j] in d.systems by {
        ResolveClosed(L, roots);
        assert forall j :: 0 <= j < |roots| ==> roots[j] in d.systems.Keys;
      }
      assert forall k, p :: p in d.Cache(k) ==> p in L && d.Cache(k)[p] == L[p] && L[p].kind == Tag(k) by {
        ResolveLoadsOnce(L, roots);
      }
      assert forall q :: RootsReach(L, roots, q) ==> q in d.strata by {
        ResolveStrataExact(L, roots);
      }
      CachedResolvable(L, d, roots);
    }
  }

  /** The loop of `main` gets through the named systems iff each of them,
      and everything reachable from it, can be read as the kind expected.
      Otherwise the run ends on a missing file or a wrong kind. */
  lemma ResolveSucceeds(L: Loader, roots: seq<Path>)
    ensures Resolve(L, roots).Success? <==> Resolvable(L, roots)
    ensures Resolve(L, roots).Failure? ==> ReadError(Resolve(L, roots).error)
  {
    ResolvedReadable(L, roots);
    if Resolvable(L, roots) {
      SystemsSucceed(L, Start, roots);
    }
  }

  /** After the loop of `main`: exactly the named systems are cached, and
      the caches are closed under references. */
  lemma ResolveClosed(L: Loader, roots: seq<Path>)
    ensures var r := Resolve(L, roots); r.Success? ==>
      && r.value.defs.systems.Keys == (set i | 0 <= i < |roots| :: roots[i])
      && Closed(r.value.defs)
  {
    var r := Resolve(L, roots);
    if r.Success? {
      SystemsClose(L, Start, roots);
      ClosedGrows(NoDefs, r.value.defs);
    }
  }

  /** After the loop of `main`: the strata cached are exactly those reachable,
      through build-depends, from a stratum a named system lists. */
  lemma ResolveStrataExact(L: Loader, roots: seq<Path>)
    ensures var r := Resolve(L, roots); r.Success? ==>
      forall q :: q in r.value.defs.strata <==> RootsReach(L, roots, q)
  {
    var r := Resolve(L, roots);
    if r.Success? {
      var d := r.value.defs;
      SystemsReach(L, Start, roots);
      ResolveClosed(L, roots);
      forall q | RootsReach(L, roots, q)
        ensures q in d.strata
      {
        var j :| 0 <= j < |roots| && roots[j] in L && RefsReach(L, L[roots[j]].strata, q);
        var i :| 0 <= i < |L[roots[j]].strata| && Reaches(L, L[roots[j]].strata[i].morph, q);
        var n: nat :| ReachN(L, L[roots[j]].strata[i].morph, q, n);
        assert roots[j] in d.systems;
        assert d.systems[roots[j]] == L[roots[j]];
        assert SystemClosed(d, d.systems[roots[j]]);
        ClosedHoldsReachable(L, d, L[roots[j]].strata[i].morph, q, n);
      }
    }
  }

  /** After the loop of `main`: the chunk files cached are exactly those
      named by a `morph` in a cached stratum's chunk list. */
  lemma ResolveChunksExact(L: Loader, roots: seq<Path>)
    ensures var r := Resolve(L, roots); r.Success? ==>
      forall c :: c in r.value.defs.chunks <==> ChunkOwned(r.value.defs, c)
  {
    var r := Resolve(L, roots);
    if r.Success? {
      var d := r.value.defs;
      SystemsOwnChunks(L, Start, roots);
      ResolveClosed(L, roots);
      forall c | ChunkOwned(d, c)
        ensures c in d.chunks
      {
        var p, i :| p in d.strata && 0 <= i < |d.strata[p].chunks| && d.strata[p].chunks[i].morph == Some(c);
        assert StratumClosed(d, d.strata[p]);
      }
    }
  }

  /** After the loop of `main`: every cached record is the file at its path,
      of the cache's kind; every file was read once and only cached files
      were read; every warning reports a real mismatch, once per file. */
  lemma ResolveLoadsOnce(L: Loader, roots: seq<Path>)
    ensures var r := Resolve(L, roots); r.Success? ==>
      && (forall k, p :: p in r.value.defs.Cache(k) ==>
            p in L && r.value.defs.Cache(k)[p] == L[p] && L[p].kind == Tag(k))
      && Accounted(r.value)
      && WarningsSound(r.value)
  {
    var r := Resolve(L, roots);
    if r.Success? {
      SystemsLogged(L, Start, roots);
      LoggedSound(r.value);
      forall k, p | p in r.value.defs.Cache(k)
        ensures p in L && r.value.defs.Cache(k)[p] == L[p] && L[p].kind == Tag(k)
      {
        assert p !in NoDefs.Cache(k);
      }
    }
  }
}
