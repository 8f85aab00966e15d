/** The definitions format read by morph-to-bb: systems, strata and chunks
    ("morphologies"), the references between them, and the three path-keyed
    caches the resolver fills. */
module Morphs {
  import opened Outcome

  /** A definition file, identified by its path relative to the definitions root. */
  type Path = string

  /** The three kinds of morphology, and the `kind` tag each must carry. */
  datatype Kind = SystemKind | StratumKind | ChunkKind

  function Tag(k: Kind): string {
    match k
    case SystemKind => "system"
    case StratumKind => "stratum"
    case ChunkKind => "chunk"
  }

  /** An entry of a system's `strata` list or of a stratum's `build-depends`
      list: the path of the stratum and, optionally, the name it is expected
      to declare. */
  datatype StratumRef = StratumRef(morph: Path, name: Option<string>)

  /** An entry of a stratum's `chunks` list: the chunk's name and, optionally,
      the path of its chunk morphology. */
  datatype ChunkRef = ChunkRef(name: string, morph: Option<Path>)

  /** A loaded morphology file. One record type serves the three kinds, as the
      parsed YAML mapping does: a system uses `arch` and `strata`, a stratum
      uses `chunks` and `buildDepends`, a chunk only `name`. */
  datatype Morph = Morph(
    kind: string,
    name: string,
    arch: string,
    strata: seq<StratumRef>,
    chunks: seq<ChunkRef>,
    buildDepends: Option<seq<StratumRef>>)

  /** A stratum's build-depends, the empty list when the key is absent. */
  function Deps(m: Morph): seq<StratumRef> {
    m.buildDepends.GetOr([])
  }

  /** The definitions on disk: what `yaml.load(file(path))` returns for each
      readable path. A path outside the map cannot be opened. */
  type Loader = map<Path, Morph>

  /** The `defs` dictionary: one cache per kind, each keyed by file path. */
  datatype Defs = Defs(systems: map<Path, Morph>, strata: map<Path, Morph>, chunks: map<Path, Morph>) {

    /** The cache that holds morphologies of kind `k`. */
    function Cache(k: Kind): map<Path, Morph> {
      match k
      case SystemKind => systems
      case StratumKind => strata
      case ChunkKind => chunks
    }
  }

  const NoDefs := Defs(map[], map[], map[])

  /** The fatal exits of the converter. */
  datatype Error =
    | NoSuchFile(path: Path)              // the definition file cannot be opened
    | NotA(path: Path, expected: Kind)    // the file's kind tag is not the expected one
    | StratumNotFound(path: Path)         // a build-depends path absent from the strata cache
    | UnnamedStratum(system: string)      // a system's stratum reference without a name

  /** The errors reading a definition file can raise. */
  predicate ReadError(e: Error) {
    e.NoSuchFile? || e.NotA?
  }

  /** A "Mismatched names" message: the reference declared one name, the
      loaded file another. */
  datatype Warning = NameMismatch(kind: Kind, path: Path, declared: string, found: string)

  /** One read of a definition file, as the kind the caller expected. */
  datatype Load = Load(kind: Kind, path: Path)

  /** The resolver's state: the caches, the warnings printed so far and the
      files read so far, in order. */
  datatype Session = Session(defs: Defs, warnings: seq<Warning>, loads: seq<Load>)

  const Start := Session(NoDefs, [], [])

  /** Reads `path` expecting kind `k`: fails when the file is missing or its
      kind tag differs. */
  function LoadMorph(L: Loader, path: Path, k: Kind): Result<Morph, Error> {
    if path !in L then Failure(NoSuchFile(path))
    else if L[path].kind != Tag(k) then Failure(NotA(path, k))
    else Success(L[path])
  }

  /** `b` keeps every entry of `a` unchanged. */
  predicate SubMap(a: map<Path, Morph>, b: map<Path, Morph>) {
    forall p :: p in a ==> p in b && b[p] == a[p]
  }

  /** No cache entry of `a` is removed or overwritten in `b`. */
  predicate Extends(a: Defs, b: Defs) {
    SubMap(a.systems, b.systems) && SubMap(a.strata, b.strata) && SubMap(a.chunks, b.chunks)
  }

  /** From `s` to `t` the caches only grow and the logs only get appended to. */
  predicate Grows(s: Session, t: Session) {
    Extends(s.defs, t.defs) && s.warnings <= t.warnings && s.loads <= t.loads
  }

  /** Every entry that `b` has and `a` lacks is the record the loader holds at
      that path, and carries the kind tag `k`. */
  predicate Fetched(L: Loader, a: map<Path, Morph>, b: map<Path, Morph>, k: Kind) {
    forall p :: p in b && p !in a ==> p in L && b[p] == L[p] && L[p].kind == Tag(k)
  }

  /** `Fetched` for all three caches. */
  predicate AllFetched(L: Loader, a: Defs, b: Defs) {
    Fetched(L, a.systems, b.systems, SystemKind)
    && Fetched(L, a.strata, b.strata, StratumKind)
    && Fetched(L, a.chunks, b.chunks, ChunkKind)
  }

  /** What every resolver call guarantees of the session it returns: nothing
      cached is lost or changed, and whatever is new was read from `L`. */
  predicate Step(L: Loader, s: Session, t: Session) {
    Grows(s, t) && AllFetched(L, s.defs, t.defs)
  }

  lemma SubMapTrans(a: map<Path, Morph>, b: map<Path, Morph>, c: map<Path, Morph>)
    requires SubMap(a, b) && SubMap(b, c)
    ensures SubMap(a, c)
  {
  }

  lemma FetchedTrans(L: Loader, a: map<Path, Morph>, b: map<Path, Morph>, c: map<Path, Morph>, k: Kind)
    requires SubMap(b, c) && Fetched(L, a, b, k) && Fetched(L, b, c, k)
    ensures Fetched(L, a, c, k)
  {
  }

  /** Two resolver steps in a row are one step. */
  lemma StepTrans(L: Loader, s: Session, t: Session, u: Session)
    requires Step(L, s, t) && Step(L, t, u)
    ensures Step(L, s, u)
  {
    SubMapTrans(s.defs.systems, t.defs.systems, u.defs.systems);
    SubMapTrans(s.defs.strata, t.defs.strata, u.defs.strata);
    SubMapTrans(s.defs.chunks, t.defs.chunks, u.defs.chunks);
    FetchedTrans(L, s.defs.systems, t.defs.systems, u.defs.systems, SystemKind);
    FetchedTrans(L, s.defs.strata, t.defs.strata, u.defs.strata, StratumKind);
    FetchedTrans(L, s.defs.chunks, t.defs.chunks, u.defs.chunks, ChunkKind);
  }

  /** The strata the loader holds that are not cached yet: the measure that
      bounds the resolver's recursion. */
  function Unloaded(L: Loader, s: Session): set<Path> {
    L.Keys - s.defs.strata.Keys
  }

  /** Caching a stratum the loader holds shrinks the measure strictly. */
  lemma UnloadedShrinksStrictly(L: Loader, s: Session, t: Session, p: Path)
    requires SubMap(s.defs.strata, t.defs.strata)
    requires p in L && p !in s.defs.strata && p in t.defs.strata
    ensures Unloaded(L, t) < Unloaded(L, s)
  {
    assert p in Unloaded(L, s) - Unloaded(L, t);
  }

  lemma UnloadedShrinks(L: Loader, s: Session, t: Session)
    requires SubMap(s.defs.strata, t.defs.strata)
    ensures Unloaded(L, t) <= Unloaded(L, s)
  {
  }
}
