/** What a resolved `defs` satisfies: closure under references, agreement
    with the strata reachable in the definitions, and the bookkeeping of the
    files read and the warnings printed. */
module Invariants {
  import opened Outcome
  import opened Morphs

  /** Every chunk reference of `m` that names a chunk file has that file cached. */
  predicate ChunksCached(d: Defs, m: Morph) {
    forall i :: 0 <= i < |m.chunks| && m.chunks[i].morph.Some? ==> m.chunks[i].morph.value in d.chunks
  }

  /** Every stratum reference in `refs` has its stratum cached. */
  predicate RefsCached(d: Defs, refs: seq<StratumRef>) {
    forall i :: 0 <= i < |refs| ==> refs[i].morph in d.strata
  }

  predicate StratumClosed(d: Defs, m: Morph) {
    ChunksCached(d, m) && RefsCached(d, Deps(m))
  }

  predicate SystemClosed(d: Defs, m: Morph) {
    RefsCached(d, m.strata)
  }

  /** No cached system or stratum refers to anything missing from the caches. */
  predicate Closed(d: Defs) {
    && (forall p :: p in d.systems ==> SystemClosed(d, d.systems[p]))
    && (forall p :: p in d.strata ==> StratumClosed(d, d.strata[p]))
  }

  /** The strata `b` adds to `a` are closed in `b`. */
  predicate NewStrataClosed(a: Defs, b: Defs) {
    forall p :: p in b.strata && p !in a.strata ==> StratumClosed(b, b.strata[p])
  }

  lemma StratumClosedMonotone(a: Defs, b: Defs, m: Morph)
    requires a.strata.Keys <= b.strata.Keys && a.chunks.Keys <= b.chunks.Keys
    requires StratumClosed(a, m)
    ensures StratumClosed(b, m)
  {
  }

  /** The strata and systems `b` adds to `a` are closed in `b`. */
  predicate NewClosed(a: Defs, b: Defs) {
    && NewStrataClosed(a, b)
    && (forall p :: p in b.systems && p !in a.systems ==> SystemClosed(b, b.systems[p]))
  }

  lemma NewStrataClosedTrans(a: Defs, b: Defs, c: Defs)
    requires Extends(a, b) && Extends(b, c)
    requires NewStrataClosed(a, b) && NewStrataClosed(b, c)
    ensures NewStrataClosed(a, c)
  {
    forall p | p in c.strata && p !in a.strata
      ensures StratumClosed(c, c.strata[p])
    {
      if p in b.strata {
        StratumClosedMonotone(b, c, b.strata[p]);
      }
    }
  }

  lemma NewClosedTrans(a: Defs, b: Defs, c: Defs)
    requires Extends(a, b) && Extends(b, c)
    requires NewClosed(a, b) && NewClosed(b, c)
    ensures NewClosed(a, c)
  {
    NewStrataClosedTrans(a, b, c);
  }

  /** Growing a closed `defs` by closed entries keeps it closed. */
  lemma ClosedGrows(a: Defs, b: Defs)
    requires Extends(a, b) && Closed(a) && NewClosed(a, b)
    ensures Closed(b)
  {
    forall p | p in b.strata
      ensures StratumClosed(b, b.strata[p])
    {
      if p in a.strata {
        StratumClosedMonotone(a, b, a.strata[p]);
      }
    }
  }

  /** Some cached stratum lists a chunk reference whose `morph` is `c`. */
  ghost predicate ChunkOwned(d: Defs, c: Path) {
    exists p, i :: p in d.strata && 0 <= i < |d.strata[p].chunks| && d.strata[p].chunks[i].morph == Some(c)
  }

  /** The chunks `b` adds to `a` are owned in `b`. */
  ghost predicate NewChunksOwned(a: Defs, b: Defs) {
    forall c :: c in b.chunks && c !in a.chunks ==> ChunkOwned(b, c)
  }

  lemma NewChunksOwnedTrans(a: Defs, b: Defs, c: Defs)
    requires Extends(a, b) && Extends(b, c)
    requires NewChunksOwned(a, b) && NewChunksOwned(b, c)
    ensures NewChunksOwned(a, c)
  {
    forall x | x in c.chunks && x !in a.chunks
      ensures ChunkOwned(c, x)
    {
      if x in b.chunks {
        var p, i :| p in b.strata && 0 <= i < |b.strata[p].chunks| && b.strata[p].chunks[i].morph == Some(x);
        assert c.strata[p] == b.strata[p];
      }
    }
  }

  /** `q` is listed in the build-depends of the stratum file at `p`. */
  ghost predicate Edge(L: Loader, p: Path, q: Path) {
    p in L && exists i :: 0 <= i < |Deps(L[p])| && Deps(L[p])[i].morph == q
  }

  /** `q` is reached from `p` by at most `n` build-depends edges. */
  ghost predicate ReachN(L: Loader, p: Path, q: Path, n: nat)
    decreases n
  {
    p == q || (n > 0 && exists c :: Edge(L, p, c) && ReachN(L, c, q, n - 1))
  }

  ghost predicate Reaches(L: Loader, p: Path, q: Path) {
    exists n: nat :: ReachN(L, p, q, n)
  }

  /** `q` is reached from one of `refs`. */
  ghost predicate RefsReach(L: Loader, refs: seq<StratumRef>, q: Path) {
    exists i :: 0 <= i < |refs| && Reaches(L, refs[i].morph, q)
  }

  /** `q` is reached from a stratum listed by one of the systems at `roots`. */
  ghost predicate RootsReach(L: Loader, roots: seq<Path>, q: Path) {
    exists j :: 0 <= j < |roots| && roots[j] in L && RefsReach(L, L[roots[j]].strata, q)
  }

  /** The stratum file at `q` exists with kind `stratum`, and every chunk
      file it names exists with kind `chunk`. */
  predicate StratumReadable(L: Loader, q: Path) {
    && q in L && L[q].kind == Tag(StratumKind)
    && forall i :: 0 <= i < |L[q].chunks| && L[q].chunks[i].morph.Some? ==>
         L[q].chunks[i].morph.value in L && L[L[q].chunks[i].morph.value].kind == Tag(ChunkKind)
  }

  /** The system file at `p` exists with kind `system`, and every stratum
      reachable from the strata it lists is readable. */
  ghost predicate SystemReadable(L: Loader, p: Path) {
    && p in L && L[p].kind == Tag(SystemKind)
    && forall q :: RefsReach(L, L[p].strata, q) ==> StratumReadable(L, q)
  }

  /** Every system named at `roots`, and everything reachable from it, can
      be read as the kind the resolver expects. */
  ghost predicate Resolvable(L: Loader, roots: seq<Path>) {
    forall j :: 0 <= j < |roots| ==> SystemReadable(L, roots[j])
  }

  lemma ReachesSelf(L: Loader, p: Path)
    ensures Reaches(L, p, p)
  {
    assert ReachN(L, p, p, 0);
  }

  lemma ReachesStep(L: Loader, p: Path, c: Path, q: Path)
    requires Edge(L, p, c) && Reaches(L, c, q)
    ensures Reaches(L, p, q)
  {
    var n: nat :| ReachN(L, c, q, n);
    assert ReachN(L, p, q, n + 1);
  }

  /** A closed `defs` whose strata are the loader's records holds every
      stratum reachable from a cached one. */
  lemma {:induction false} ClosedHoldsReachable(L: Loader, d: Defs, p: Path, q: Path, n: nat)
    requires Closed(d)
    requires forall x :: x in d.strata ==> x in L && d.strata[x] == L[x]
    requires p in d.strata && ReachN(L, p, q, n)
    ensures q in d.strata
    decreases n
  {
    if p != q {
      var c :| Edge(L, p, c) && ReachN(L, c, q, n - 1);
      var i :| 0 <= i < |Deps(L[p])| && Deps(L[p])[i].morph == c;
      assert StratumClosed(d, d.strata[p]);
      ClosedHoldsReachable(L, d, c, q, n - 1);
    }
  }

  /** `k`'s cache lacks `p` in `s` and has it in `t`. */
  predicate Fresh(s: Session, t: Session, k: Kind, p: Path) {
    p !in s.defs.Cache(k) && p in t.defs.Cache(k)
  }

  /** The reads appended from `s` to `t`: each concerns a file cached in
      between, none is repeated, and every file cached in between was read. */
  ghost predicate LoadsFresh(s: Session, t: Session) {
    && |s.loads| <= |t.loads|
    && (forall i :: |s.loads| <= i < |t.loads| ==> Fresh(s, t, t.loads[i].kind, t.loads[i].path))
    && (forall i, j :: |s.loads| <= i < j < |t.loads| ==> t.loads[i] != t.loads[j])
    && (forall k, p :: Fresh(s, t, k, p) ==> ReadBetween(s, t, Load(k, p)))
  }

  /** `l` is among the reads appended from `s` to `t`. */
  ghost predicate ReadBetween(s: Session, t: Session, l: Load) {
    exists i :: |s.loads| <= i < |t.loads| && t.loads[i] == l
  }

  /** The warnings appended from `s` to `t`: each concerns a file cached in
      between, reports names that differ, and no file is warned about twice. */
  ghost predicate WarningsFresh(s: Session, t: Session) {
    && |s.warnings| <= |t.warnings|
    && (forall i :: |s.warnings| <= i < |t.warnings| ==>
          Fresh(s, t, t.warnings[i].kind, t.warnings[i].path) && t.warnings[i].declared != t.warnings[i].found)
    && (forall i, j :: |s.warnings| <= i < j < |t.warnings| ==> !SameSubject(t.warnings[i], t.warnings[j]))
  }

  predicate SameSubject(v: Warning, w: Warning) {
    v.kind == w.kind && v.path == w.path
  }

  ghost predicate FreshLogs(s: Session, t: Session) {
    LoadsFresh(s, t) && WarningsFresh(s, t)
  }

  lemma LoadsFreshTrans(s: Session, t: Session, u: Session)
    requires Grows(s, t) && Grows(t, u)
    requires LoadsFresh(s, t) && LoadsFresh(t, u)
    ensures LoadsFresh(s, u)
  {
    assert t.loads == u.loads[..|t.loads|];
    forall i, j | |s.loads| <= i < j < |u.loads|
      ensures u.loads[i] != u.loads[j]
    {
      if j >= |t.loads| && i < |t.loads| {
        assert Fresh(s, t, u.loads[i].kind, u.loads[i].path);
        assert Fresh(t, u, u.loads[j].kind, u.loads[j].path);
      }
    }
    forall k, p | Fresh(s, u, k, p)
      ensures ReadBetween(s, u, Load(k, p))
    {
      if p in t.defs.Cache(k) {
        assert Fresh(s, t, k, p);
        var i :| |s.loads| <= i < |t.loads| && t.loads[i] == Load(k, p);
        assert u.loads[i] == Load(k, p);
      } else {
        assert Fresh(t, u, k, p);
      }
    }
  }

  lemma WarningsFreshTrans(s: Session, t: Session, u: Session)
    requires Grows(s, t) && Grows(t, u)
    requires WarningsFresh(s, t) && WarningsFresh(t, u)
    ensures WarningsFresh(s, u)
  {
    assert t.warnings == u.warnings[..|t.warnings|];
    forall i, j | |s.warnings| <= i < j < |u.warnings|
      ensures !SameSubject(u.warnings[i], u.warnings[j])
    {
      if j >= |t.warnings| && i < |t.warnings| {
        assert Fresh(s, t, u.warnings[i].kind, u.warnings[i].path);
        assert Fresh(t, u, u.warnings[j].kind, u.warnings[j].path);
      }
    }
  }

  lemma FreshLogsTrans(s: Session, t: Session, u: Session)
    requires Grows(s, t) && Grows(t, u)
    requires FreshLogs(s, t) && FreshLogs(t, u)
    ensures FreshLogs(s, u)
  {
    LoadsFreshTrans(s, t, u);
    WarningsFreshTrans(s, t, u);
  }

  /** The bookkeeping of a session that started empty. */
  ghost predicate Logged(s: Session) {
    FreshLogs(Start, s)
  }

  /** Some warning appended from `s` to `t` is about the file `p` of kind `k`. */
  ghost predicate WarnedAbout(s: Session, t: Session, k: Kind, p: Path) {
    exists i :: |s.warnings| <= i < |t.warnings| && t.warnings[i].kind == k && t.warnings[i].path == p
  }

  /** The files read in a session: none twice, and exactly the cached ones. */
  ghost predicate Accounted(s: Session) {
    && (forall i, j :: 0 <= i < j < |s.loads| ==> s.loads[i] != s.loads[j])
    && (forall k, p :: p in s.defs.Cache(k) <==> Load(k, p) in s.loads)
  }

  /** The warnings of a session: each reports two different names for a
      cached file, and no file is warned about twice. */
  ghost predicate WarningsSound(s: Session) {
    && (forall i :: 0 <= i < |s.warnings| ==>
          s.warnings[i].path in s.defs.Cache(s.warnings[i].kind) && s.warnings[i].declared != s.warnings[i].found)
    && (forall i, j :: 0 <= i < j < |s.warnings| ==> !SameSubject(s.warnings[i], s.warnings[j]))
  }

  lemma LoggedSound(s: Session)
    requires Logged(s)
    ensures Accounted(s) && WarningsSound(s)
  {
    forall k, p | Load(k, p) in s.loads
      ensures p in s.defs.Cache(k)
    {
      var i :| 0 <= i < |s.loads| && s.loads[i] == Load(k, p);
      assert Fresh(Start, s, k, p);
    }
    forall k, p | p in s.defs.Cache(k)
      ensures Load(k, p) in s.loads
    {
      assert Fresh(Start, s, k, p);
    }
  }
}
