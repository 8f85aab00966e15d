/** The resolver: `parse_chunk`, `parse_stratum` and `parse_system` of
    morph-to-bb.py, and the loop of `main` that resolves every system named
    on the command line. Each function returns the new session, or the error
    that makes the script exit. */
module Resolver {
  import opened Outcome
  import opened Morphs

  /** Appends `w` to the warnings when `cond` holds. */
  function WarnIf(s: Session, cond: bool, w: Warning): Session {
    if cond then s.(warnings := s.warnings + [w]) else s
  }

  /** Stores `m` at `p` in the cache of kind `k` and records the read. */
  function Store(s: Session, k: Kind, p: Path, m: Morph): (t: Session)
    ensures forall k' :: t.defs.Cache(k') == if k' == k then s.defs.Cache(k)[p := m] else s.defs.Cache(k')
    ensures t.warnings == s.warnings && t.loads == s.loads + [Load(k, p)]
  {
    var d := s.defs;
    var d' := match k
      case SystemKind => d.(systems := d.systems[p := m])
      case StratumKind => d.(strata := d.strata[p := m])
      case ChunkKind => d.(chunks := d.chunks[p := m]);
    s.(defs := d', loads := s.loads + [Load(k, p)])
  }

  /** `parse_chunk`: a chunk reference with a `morph` path not yet cached has
      that file read, kind-checked, name-checked and cached; any other
      reference leaves the session as it is. */
  function ParseChunk(L: Loader, s: Session, ref: ChunkRef): (r: Result<Session, Error>)
    ensures ref.morph.None? ==> r == Success(s)
    ensures r.Failure? ==> ReadError(r.error)
    ensures ref.morph.Some? && ref.morph.value in s.defs.chunks ==> r == Success(s)
    ensures ref.morph.Some? && ref.morph.value !in s.defs.chunks ==>
              var p := ref.morph.value;
              && (r.Success? <==> p in L && L[p].kind == "chunk")
              && (p !in L ==> r == Failure(NoSuchFile(p)))
              && (p in L && L[p].kind != "chunk" ==> r == Failure(NotA(p, ChunkKind)))
    ensures ref.morph.Some? && ref.morph.value !in s.defs.chunks && r.Success? ==>
              var p := ref.morph.value;
              r.value.warnings == s.warnings + if ref.name != L[p].name then [NameMismatch(ChunkKind, p, ref.name, L[p].name)] else []
    ensures r.Success? ==> Step(L, s, r.value)
    ensures r.Success? ==> r.value.defs.systems == s.defs.systems && r.value.defs.strata == s.defs.strata
    ensures r.Success? && ref.morph.Some? ==> ref.morph.value in r.value.defs.chunks
    ensures r.Success? ==> forall p :: p in r.value.defs.chunks && p !in s.defs.chunks ==> ref.morph == Some(p)
  {
    match ref.morph
    case None => Success(s)
    case Some(p) =>
      if p in s.defs.chunks then Success(s)
      else
        var chunk :- LoadMorph(L, p, ChunkKind);
        var s1 := WarnIf(s, ref.name != chunk.name, NameMismatch(ChunkKind, p, ref.name, chunk.name));
        Success(Store(s1, ChunkKind, p, chunk))
  }

  /** The loop over a stratum's `chunks` list. */
  function ParseChunks(L: Loader, s: Session, refs: seq<ChunkRef>): (r: Result<Session, Error>)
    decreases |refs|
    ensures r.Failure? ==> ReadError(r.error)
    ensures r.Success? <==>
              forall i :: 0 <= i < |refs| && refs[i].morph.Some? && refs[i].morph.value !in s.defs.chunks ==>
                refs[i].morph.value in L && L[refs[i].morph.value].kind == "chunk"
    ensures r.Success? ==> Step(L, s, r.value)
    ensures r.Success? ==> r.value.defs.systems == s.defs.systems && r.value.defs.strata == s.defs.strata
    ensures r.Success? ==> forall i :: 0 <= i < |refs| && refs[i].morph.Some? ==> refs[i].morph.value in r.value.defs.chunks
    ensures r.Success? ==> forall p :: p in r.value.defs.chunks && p !in s.defs.chunks ==>
              exists i :: 0 <= i < |refs| && refs[i].morph == Some(p)
  {
    if |refs| == 0 then Success(s)
    else
      var s1 :- ParseChunk(L, s, refs[0]);
      var r := ParseChunks(L, s1, refs[1..]);
      if r.Success? then StepTrans(L, s, s1, r.value); r else r
  }

  /** `parse_stratum`: a stratum path not yet cached has its file read,
      kind-checked and name-checked; it is cached BEFORE its chunks and its
      build-depends are walked, so a cycle through build-depends ends at the
      cache check. */
  function ParseStratum(L: Loader, s: Session, ref: StratumRef): (r: Result<Session, Error>)
    decreases Unloaded(L, s), 0, 0
    ensures r.Failure? ==> ReadError(r.error)
    ensures ref.morph in s.defs.strata ==> r == Success(s)
    ensures ref.morph !in s.defs.strata && ref.morph !in L ==> r == Failure(NoSuchFile(ref.morph))
    ensures ref.morph !in s.defs.strata && ref.morph in L && L[ref.morph].kind != "stratum" ==>
              r == Failure(NotA(ref.morph, StratumKind))
    ensures r.Success? ==> Step(L, s, r.value)
    ensures r.Success? ==> r.value.defs.systems == s.defs.systems
    ensures r.Success? ==> ref.morph in r.value.defs.strata
  {
    var p := ref.morph;
    if p in s.defs.strata then Success(s)
    else
      var stratum :- LoadMorph(L, p, StratumKind);
      var s1 := WarnIf(s, ref.name.Some? && ref.name.value != stratum.name,
                       NameMismatch(StratumKind, p, ref.name.GetOr(""), stratum.name));
      var s2 := Store(s1, StratumKind, p, stratum);
      assert Step(L, s, s2);
      var s3 :- ParseChunks(L, s2, stratum.chunks);
      StepTrans(L, s, s2, s3);
      assert Unloaded(L, s3) < Unloaded(L, s);
      var r := ParseStrata(L, s3, Deps(stratum));
      if r.Success? then StepTrans(L, s, s3, r.value); r else r
  }

  /** The loop over a list of stratum references: a system's `strata` or a
      stratum's `build-depends`. */
  function ParseStrata(L: Loader, s: Session, refs: seq<StratumRef>): (r: Result<Session, Error>)
    decreases Unloaded(L, s), 1, |refs|
    ensures r.Failure? ==> ReadError(r.error)
    ensures r.Success? ==> Step(L, s, r.value)
    ensures r.Success? ==> r.value.defs.systems == s.defs.systems
    ensures r.Success? ==> forall i :: 0 <= i < |refs| ==> refs[i].morph in r.value.defs.strata
  {
    if |refs| == 0 then Success(s)
    else
      var s1 :- ParseStratum(L, s, refs[0]);
      UnloadedShrinks(L, s, s1);
      var r := ParseStrata(L, s1, refs[1..]);
      if r.Success? then StepTrans(L, s, s1, r.value); r else r
  }

  /** `parse_system`: a system path not yet cached has its file read,
      kind-checked and cached, then every stratum it lists is resolved. */
  function ParseSystem(L: Loader, s: Session, p: Path): (r: Result<Session, Error>)
    ensures p in s.defs.systems ==> r == Success(s)
    ensures r.Failure? ==> ReadError(r.error)
    ensures p !in s.defs.systems && p !in L ==> r == Failure(NoSuchFile(p))
    ensures p !in s.defs.systems && p in L && L[p].kind != "system" ==> r == Failure(NotA(p, SystemKind))
    ensures r.Success? ==> Step(L, s, r.value)
    ensures r.Success? ==> p in r.value.defs.systems
    ensures r.Success? ==> r.value.defs.systems.Keys == s.defs.systems.Keys + {p}
  {
    if p in s.defs.systems then Success(s)
    else
      var system :- LoadMorph(L, p, SystemKind);
      var s1 := Store(s, SystemKind, p, system);
      var r := ParseStrata(L, s1, system.strata);
      if r.Success? then StepTrans(L, s, s1, r.value); r else r
  }

  /** The loop of `main` over the system paths given on the command line. */
  function ParseSystems(L: Loader, s: Session, paths: seq<Path>): (r: Result<Session, Error>)
    decreases |paths|
    ensures r.Failure? ==> ReadError(r.error)
    ensures r.Success? ==> Step(L, s, r.value)
    ensures r.Success? ==> r.value.defs.systems.Keys == s.defs.systems.Keys + set i | 0 <= i < |paths| :: paths[i]
  {
    if |paths| == 0 then Success(s)
    else
      var s1 :- ParseSystem(L, s, paths[0]);
      var r := ParseSystems(L, s1, paths[1..]);
      if r.Success? then StepTrans(L, s, s1, r.value); r else r
  }

  /** Resolves the given systems from an empty `defs`. */
  function Resolve(L: Loader, roots: seq<Path>): Result<Session, Error> {
    ParseSystems(L, Start, roots)
  }
}
