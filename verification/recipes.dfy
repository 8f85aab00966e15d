/** The projection of a resolved `defs` onto BitBake recipes:
    `convert_chunk_to_package`, `convert_stratum_to_packagegroup`,
    `convert_system_to_image` and `convert_defs_to_recipes`. */
module Recipes {
  import opened Outcome
  import opened Morphs
  import opened Invariants

  const ChunkSuffix := "-chunk"
  const StratumSuffix := "-stratum"
  const SystemSuffix := "-system"

  datatype Package = Package(name: string)
  datatype PackageGroup = PackageGroup(name: string, depends: seq<string>, rdepends: seq<string>)
  datatype Image = Image(name: string, arch: string, imageInstall: seq<string>)

  /** The `recipes` dictionary: each collection keyed by recipe name. */
  datatype Recipes = Recipes(images: map<string, Image>, packagegroups: map<string, PackageGroup>, packages: map<string, Package>)

  /** The name a recipe name was made from, when it carries `suffix`. */
  function Unsuffix(s: string, suffix: string): Option<string> {
    if |suffix| <= |s| && s[|s| - |suffix|..] == suffix then Some(s[..|s| - |suffix|]) else None
  }

  lemma SuffixRoundTrip(n: string, suffix: string)
    ensures Unsuffix(n + suffix, suffix) == Some(n)
  {
    var s := n + suffix;
    assert s[|s| - |suffix|..] == suffix;
    assert s[..|s| - |suffix|] == n;
  }

  lemma UnsuffixInverse(s: string, suffix: string, n: string)
    requires Unsuffix(s, suffix) == Some(n)
    ensures s == n + suffix
  {
    assert s == s[..|s| - |suffix|] + s[|s| - |suffix|..];
  }

  /** Appending the same suffix keeps distinct names distinct. */
  lemma SuffixInjective(a: string, b: string, suffix: string)
    requires a + suffix == b + suffix
    ensures a == b
  {
    SuffixRoundTrip(a, suffix);
    SuffixRoundTrip(b, suffix);
  }

  /** `convert_chunk_to_package`. */
  function ConvertChunk(chunk: Morph): (p: Package)
    ensures Unsuffix(p.name, ChunkSuffix) == Some(chunk.name)
  {
    SuffixRoundTrip(chunk.name, ChunkSuffix);
    Package(chunk.name + ChunkSuffix)
  }

  /** The names of a stratum's chunks, each with `-chunk` appended. */
  function ChunkNames(chunks: seq<ChunkRef>): (r: seq<string>)
    decreases |chunks|
    ensures |r| == |chunks|
    ensures forall i :: 0 <= i < |chunks| ==> Unsuffix(r[i], ChunkSuffix) == Some(chunks[i].name)
  {
    if |chunks| == 0 then []
    else
      SuffixRoundTrip(chunks[0].name, ChunkSuffix);
      [chunks[0].name + ChunkSuffix] + ChunkNames(chunks[1..])
  }

  /** `refs[i]` is the first reference whose stratum is not cached, and `e`
      reports it. */
  predicate FirstMissing(d: Defs, refs: seq<StratumRef>, e: Error) {
    exists i :: 0 <= i < |refs| && refs[i].morph !in d.strata && RefsCached(d, refs[..i])
                && e == StratumNotFound(refs[i].morph)
  }

  /** The build-depends part of a package group's DEPENDS: the name of each
      referenced stratum as cached, with `-stratum` appended. */
  function BuildDependNames(d: Defs, refs: seq<StratumRef>): (r: Result<seq<string>, Error>)
    decreases |refs|
    ensures r.Success? <==> RefsCached(d, refs)
    ensures r.Failure? ==> FirstMissing(d, refs, r.error)
    ensures r.Success? ==> |r.value| == |refs|
    ensures r.Success? ==>
              forall i :: 0 <= i < |refs| ==> Unsuffix(r.value[i], StratumSuffix) == Some(d.strata[refs[i].morph].name)
  {
    if |refs| == 0 then Success([])
    else if refs[0].morph !in d.strata then
      assert refs[..0] == [];
      Failure(StratumNotFound(refs[0].morph))
    else
      var rest := BuildDependNames(d, refs[1..]);
      if rest.Failure? then
        assert forall i :: 1 <= i <= |refs| ==> refs[..i] == [refs[0]] + refs[1..][..i - 1];
        Failure(rest.error)
      else
        SuffixRoundTrip(d.strata[refs[0].morph].name, StratumSuffix);
        Success([d.strata[refs[0].morph].name + StratumSuffix] + rest.value)
  }

  /** `convert_stratum_to_packagegroup`: fails on the first build-depends
      path missing from the strata cache. */
  function ConvertStratum(d: Defs, stratum: Morph): (r: Result<PackageGroup, Error>)
    ensures r.Success? <==> RefsCached(d, Deps(stratum))
    ensures r.Failure? ==> FirstMissing(d, Deps(stratum), r.error)
    ensures r.Success? ==>
      var g := r.value;
      var bds := Deps(stratum);
      && Unsuffix(g.name, StratumSuffix) == Some(stratum.name)
      && |g.rdepends| == |stratum.chunks|
      && (forall i :: 0 <= i < |stratum.chunks| ==> Unsuffix(g.rdepends[i], ChunkSuffix) == Some(stratum.chunks[i].name))
      && |g.depends| == |bds| + |g.rdepends|
      && (forall i :: 0 <= i < |bds| ==> Unsuffix(g.depends[i], StratumSuffix) == Some(d.strata[bds[i].morph].name))
      && g.depends[|bds|..] == g.rdepends
  {
    var depends :- BuildDependNames(d, Deps(stratum));
    var rdepends := ChunkNames(stratum.chunks);
    SuffixRoundTrip(stratum.name, StratumSuffix);
    Success(PackageGroup(stratum.name + StratumSuffix, depends + rdepends, rdepends))
  }

  /** The IMAGE_INSTALL list: each stratum reference's declared name with
      `-stratum` appended; None when a reference declares no name. */
  function InstallNames(refs: seq<StratumRef>): (r: Option<seq<string>>)
    decreases |refs|
    ensures r.Some? <==> forall i :: 0 <= i < |refs| ==> refs[i].name.Some?
    ensures r.Some? ==> |r.value| == |refs|
    ensures r.Some? ==> forall i :: 0 <= i < |refs| ==> Unsuffix(r.value[i], StratumSuffix) == refs[i].name
  {
    if |refs| == 0 then Some([])
    else if refs[0].name.None? then None
    else
      var rest := InstallNames(refs[1..]);
      if rest.None? then None
      else
        SuffixRoundTrip(refs[0].name.value, StratumSuffix);
        Some([refs[0].name.value + StratumSuffix] + rest.value)
  }

  /** `convert_system_to_image`: fails when a stratum reference has no name. */
  function ConvertSystem(system: Morph): (r: Result<Image, Error>)
    ensures r.Success? <==> forall i :: 0 <= i < |system.strata| ==> system.strata[i].name.Some?
    ensures r.Failure? ==> r.error == UnnamedStratum(system.name)
    ensures r.Success? ==>
      var img := r.value;
      && Unsuffix(img.name, SystemSuffix) == Some(system.name)
      && img.arch == system.arch
      && |img.imageInstall| == |system.strata|
      && forall i :: 0 <= i < |system.strata| ==> Unsuffix(img.imageInstall[i], StratumSuffix) == system.strata[i].name
  {
    match InstallNames(system.strata)
    case None => Failure(UnnamedStratum(system.name))
    case Some(names) =>
      SuffixRoundTrip(system.name, SystemSuffix);
      Success(Image(system.name + SystemSuffix, system.arch, names))
  }

  /** `pk` holds one package per cached chunk, each keyed by its own name. */
  ghost predicate PackagesOf(d: Defs, pk: map<string, Package>) {
    && (forall p :: p in d.chunks ==> ConvertChunk(d.chunks[p]).name in pk)
    && (forall n {:trigger pk[n]} :: n in pk ==> pk[n].name == n && exists p :: p in d.chunks && pk[n] == ConvertChunk(d.chunks[p]))
  }

  /** `pg` holds one package group per cached stratum, each keyed by its own
      name; when two strata share a name, one of them is kept. */
  ghost predicate GroupsOf(d: Defs, pg: map<string, PackageGroup>) {
    && (forall p {:trigger ConvertStratum(d, d.strata[p])} :: p in d.strata ==>
          ConvertStratum(d, d.strata[p]).Success? && ConvertStratum(d, d.strata[p]).value.name in pg)
    && (forall n {:trigger pg[n]} :: n in pg ==> pg[n].name == n && exists p :: p in d.strata && ConvertStratum(d, d.strata[p]) == Success(pg[n]))
  }

  /** `im` holds one image per cached system, each keyed by its own name. */
  ghost predicate ImagesOf(d: Defs, im: map<string, Image>) {
    && (forall p :: p in d.systems ==> ConvertSystem(d.systems[p]).Success? && ConvertSystem(d.systems[p]).value.name in im)
    && (forall n {:trigger im[n]} :: n in im ==> im[n].name == n && exists p :: p in d.systems && ConvertSystem(d.systems[p]) == Success(im[n]))
  }

  ghost predicate RecipesOf(d: Defs, rec: Recipes) {
    PackagesOf(d, rec.packages) && GroupsOf(d, rec.packagegroups) && ImagesOf(d, rec.images)
  }

  /** Every cached stratum and system converts without a fatal exit. */
  ghost predicate Convertible(d: Defs) {
    && (forall p {:trigger ConvertStratum(d, d.strata[p])} :: p in d.strata ==> ConvertStratum(d, d.strata[p]).Success?)
    && (forall p :: p in d.systems ==> ConvertSystem(d.systems[p]).Success?)
  }

  /** A stratum whose name no other cached stratum shares keeps its own
      package group: the dictionary write of another stratum cannot replace it. */
  lemma GroupKept(d: Defs, pg: map<string, PackageGroup>, p: Path)
    requires GroupsOf(d, pg) && p in d.strata
    requires forall q :: q in d.strata && q != p ==> d.strata[q].name != d.strata[p].name
    ensures ConvertStratum(d, d.strata[p]).Success?
    ensures pg[ConvertStratum(d, d.strata[p]).value.name] == ConvertStratum(d, d.strata[p]).value
  {
    var g := ConvertStratum(d, d.strata[p]).value;
    var q :| q in d.strata && ConvertStratum(d, d.strata[q]) == Success(pg[g.name]);
    UnsuffixInverse(g.name, StratumSuffix, d.strata[p].name);
    UnsuffixInverse(pg[g.name].name, StratumSuffix, d.strata[q].name);
    SuffixInjective(d.strata[q].name, d.strata[p].name, StratumSuffix);
  }

  /** A system whose name no other cached system shares keeps its own image. */
  lemma ImageKept(d: Defs, im: map<string, Image>, p: Path)
    requires ImagesOf(d, im) && p in d.systems
    requires forall q :: q in d.systems && q != p ==> d.systems[q].name != d.systems[p].name
    ensures ConvertSystem(d.systems[p]).Success?
    ensures im[ConvertSystem(d.systems[p]).value.name] == ConvertSystem(d.systems[p]).value
  {
    var m := ConvertSystem(d.systems[p]).value;
    var q :| q in d.systems && ConvertSystem(d.systems[q]) == Success(im[m.name]);
    UnsuffixInverse(m.name, SystemSuffix, d.systems[p].name);
    UnsuffixInverse(im[m.name].name, SystemSuffix, d.systems[q].name);
    SuffixInjective(d.systems[q].name, d.systems[p].name, SystemSuffix);
  }

  /** The first loop of `convert_defs_to_recipes`, in whatever order the
      chunks cache yields its entries. */
  method ConvertChunks(d: Defs) returns (pk: map<string, Package>)
    ensures PackagesOf(d, pk)
  {
    pk := map[];
    var todo := d.chunks.Keys;
    while todo != {}
      invariant todo <= d.chunks.Keys
      invariant forall p :: p in d.chunks && p !in todo ==> ConvertChunk(d.chunks[p]).name in pk
      invariant forall n {:trigger pk[n]} :: n in pk ==> pk[n].name == n && exists p :: p in d.chunks && pk[n] == ConvertChunk(d.chunks[p])
      decreases todo
    {
      var p :| p in todo;
      var package := ConvertChunk(d.chunks[p]);
      pk := pk[package.name := package];
      todo := todo - {p};
    }
  }

  /** The second loop: stops at the first stratum that does not convert. */
  method ConvertStrata(d: Defs) returns (r: Result<map<string, PackageGroup>, Error>)
    ensures r.Success? <==> forall p {:trigger ConvertStratum(d, d.strata[p])} :: p in d.strata ==> ConvertStratum(d, d.strata[p]).Success?
    ensures r.Success? ==> GroupsOf(d, r.value)
    ensures r.Failure? ==> exists p :: p in d.strata && ConvertStratum(d, d.strata[p]) == Failure(r.error)
  {
    var pg: map<string, PackageGroup> := map[];
    var todo := d.strata.Keys;
    while todo != {}
      invariant todo <= d.strata.Keys
      invariant forall p {:trigger ConvertStratum(d, d.strata[p])} :: p in d.strata && p !in todo ==>
                  ConvertStratum(d, d.strata[p]).Success? && ConvertStratum(d, d.strata[p]).value.name in pg
      invariant forall n {:trigger pg[n]} :: n in pg ==>
                  pg[n].name == n && exists p :: p in d.strata && ConvertStratum(d, d.strata[p]) == Success(pg[n])
      decreases todo
    {
      var p :| p in todo;
      var g := ConvertStratum(d, d.strata[p]);
      if g.Failure? {
        return Failure(g.error);
      }
      pg := pg[g.value.name := g.value];
      todo := todo - {p};
    }
    r := Success(pg);
  }

  /** The third loop: stops at the first system that does not convert. */
  method ConvertSystems(d: Defs) returns (r: Result<map<string, Image>, Error>)
    ensures r.Success? <==> forall p :: p in d.systems ==> ConvertSystem(d.systems[p]).Success?
    ensures r.Success? ==> ImagesOf(d, r.value)
    ensures r.Failure? ==> exists p :: p in d.systems && ConvertSystem(d.systems[p]) == Failure(r.error)
  {
    var im: map<string, Image> := map[];
    var todo := d.systems.Keys;
    while todo != {}
      invariant todo <= d.systems.Keys
      invariant forall p :: p in d.systems && p !in todo ==>
                  ConvertSystem(d.systems[p]).Success? && ConvertSystem(d.systems[p]).value.name in im
      invariant forall n {:trigger im[n]} :: n in im ==>
                  im[n].name == n && exists p :: p in d.systems && ConvertSystem(d.systems[p]) == Success(im[n])
      decreases todo
    {
      var p :| p in todo;
      var m := ConvertSystem(d.systems[p]);
      if m.Failure? {
        return Failure(m.error);
      }
      im := im[m.value.name := m.value];
      todo := todo - {p};
    }
    r := Success(im);
  }

  /** `convert_defs_to_recipes`: packages, then package groups, then images.
      A stratum that fails to convert ends the run before any system is
      converted. */
  method ConvertDefsToRecipes(d: Defs) returns (r: Result<Recipes, Error>)
    ensures r.Success? <==> Convertible(d)
    ensures r.Success? ==> RecipesOf(d, r.value)
    ensures r.Failure? ==>
      || (exists p :: p in d.strata && ConvertStratum(d, d.strata[p]) == Failure(r.error))
      || ((forall p {:trigger ConvertStratum(d, d.strata[p])} :: p in d.strata ==> ConvertStratum(d, d.strata[p]).Success?) &&
          exists p :: p in d.systems && ConvertSystem(d.systems[p]) == Failure(r.error))
  {
    var packages := ConvertChunks(d);
    var groups := ConvertStrata(d);
    if groups.Failure? {
      return Failure(groups.error);
    }
    var images := ConvertSystems(d);
    if images.Failure? {
      return Failure(images.error);
    }
    r := Success(Recipes(images.value, groups.value, packages));
  }
}
