/** The whole run of morph-to-bb after argument handling: resolve the named
    systems, then convert the caches into recipes; and what the recipes
    produced this way refer to. */
module Translation {
  import opened Outcome
  import opened Morphs
  import opened Invariants
  import opened Resolver
  import opened ResolverFacts
  import opened Recipes

  /** A stratum reference that declares a name declares its stratum's name. */
  predicate StratumRefAgrees(d: Defs, ref: StratumRef) {
    ref.morph in d.strata && ref.name.Some? ==> ref.name.value == d.strata[ref.morph].name
  }

  /** A chunk reference that names a cached chunk file declares its name. */
  predicate ChunkRefAgrees(d: Defs, ref: ChunkRef) {
    ref.morph.Some? && ref.morph.value in d.chunks ==> ref.name == d.chunks[ref.morph.value].name
  }

  /** Every name a cached system's stratum reference declares is the name
      of the stratum it points at. */
  ghost predicate SystemRefsAgree(d: Defs) {
    forall p, i :: p in d.systems && 0 <= i < |d.systems[p].strata| ==> StratumRefAgrees(d, d.systems[p].strata[i])
  }

  /** Every name a cached stratum's chunk reference declares is the name of
      the chunk file it points at. */
  ghost predicate ChunkRefsAgree(d: Defs) {
    forall p, i :: p in d.strata && 0 <= i < |d.strata[p].chunks| ==> ChunkRefAgrees(d, d.strata[p].chunks[i])
  }

  /** Every chunk reference of a cached stratum names a chunk file. */
  ghost predicate ChunkRefsHaveMorphs(d: Defs) {
    forall p, i :: p in d.strata && 0 <= i < |d.strata[p].chunks| ==> d.strata[p].chunks[i].morph.Some?
  }

  /** Once resolution succeeds, converting a stratum cannot hit the
      "could not be found" exit: every build-depends was cached. */
  lemma ResolvedStrataConvert(L: Loader, roots: seq<Path>)
    ensures var r := Resolve(L, roots); r.Success? ==>
      forall p {:trigger ConvertStratum(r.value.defs, r.value.defs.strata[p])} :: p in r.value.defs.strata ==>
        ConvertStratum(r.value.defs, r.value.defs.strata[p]).Success?
  {
    var r := Resolve(L, roots);
    if r.Success? {
      ResolveClosed(L, roots);
      var d := r.value.defs;
      forall p | p in d.strata
        ensures ConvertStratum(d, d.strata[p]).Success?
      {
        assert StratumClosed(d, d.strata[p]);
      }
    }
  }

  /** The package group a cached stratum converts to is present under the
      stratum's name with `-stratum` appended. */
  lemma GroupPresent(d: Defs, pg: map<string, PackageGroup>, q: Path)
    requires GroupsOf(d, pg) && q in d.strata
    ensures d.strata[q].name + StratumSuffix in pg
  {
    var g := ConvertStratum(d, d.strata[q]).value;
    UnsuffixInverse(g.name, StratumSuffix, d.strata[q].name);
  }

  /** Each image installs only package groups that exist, provided the
      strata references of systems declare the names of their strata. */
  lemma ImagesInstallGroups(d: Defs, rec: Recipes)
    requires Closed(d) && SystemRefsAgree(d) && RecipesOf(d, rec)
    ensures forall n, j :: n in rec.images && 0 <= j < |rec.images[n].imageInstall| ==>
              rec.images[n].imageInstall[j] in rec.packagegroups
  {
    forall n, j | n in rec.images && 0 <= j < |rec.images[n].imageInstall|
      ensures rec.images[n].imageInstall[j] in rec.packagegroups
    {
      var p :| p in d.systems && ConvertSystem(d.systems[p]) == Success(rec.images[n]);
      var ref := d.systems[p].strata[j];
      assert SystemClosed(d, d.systems[p]);
      UnsuffixInverse(rec.images[n].imageInstall[j], StratumSuffix, ref.name.value);
      GroupPresent(d, rec.packagegroups, ref.morph);
    }
  }

  /** The build-depends part of each package group's DEPENDS names only
      package groups that exist. */
  lemma GroupsDependOnGroups(d: Defs, rec: Recipes)
    requires RecipesOf(d, rec)
    ensures forall n, j ::
              (n in rec.packagegroups && 0 <= j < |rec.packagegroups[n].depends| - |rec.packagegroups[n].rdepends|) ==>
              rec.packagegroups[n].depends[j] in rec.packagegroups
  {
    forall n, j | n in rec.packagegroups && 0 <= j < |rec.packagegroups[n].depends| - |rec.packagegroups[n].rdepends|
      ensures rec.packagegroups[n].depends[j] in rec.packagegroups
    {
      var g := rec.packagegroups[n];
      var p :| p in d.strata && ConvertStratum(d, d.strata[p]) == Success(g);
      var q := Deps(d.strata[p])[j].morph;
      UnsuffixInverse(g.depends[j], StratumSuffix, d.strata[q].name);
      GroupPresent(d, rec.packagegroups, q);
    }
  }

  /** Each package group's RDEPENDS names only packages that exist, provided
      every chunk reference names its chunk file and declares its name. */
  lemma GroupsRdependOnPackages(d: Defs, rec: Recipes)
    requires Closed(d) && ChunkRefsAgree(d) && ChunkRefsHaveMorphs(d) && RecipesOf(d, rec)
    ensures forall n, j :: n in rec.packagegroups && 0 <= j < |rec.packagegroups[n].rdepends| ==>
              rec.packagegroups[n].rdepends[j] in rec.packages
  {
    forall n, j | n in rec.packagegroups && 0 <= j < |rec.packagegroups[n].rdepends|
      ensures rec.packagegroups[n].rdepends[j] in rec.packages
    {
      var g := rec.packagegroups[n];
      var p :| p in d.strata && ConvertStratum(d, d.strata[p]) == Success(g);
      var ref := d.strata[p].chunks[j];
      assert StratumClosed(d, d.strata[p]);
      var c := ref.morph.value;
      UnsuffixInverse(g.rdepends[j], ChunkSuffix, ref.name);
      UnsuffixInverse(ConvertChunk(d.chunks[c]).name, ChunkSuffix, d.chunks[c].name);
    }
  }

  /** A cached system lists a stratum reference without a name, and `e` is
      the error converting that system raises. */
  ghost predicate UnnamedIn(d: Defs, e: Error) {
    exists p, i :: p in d.systems && 0 <= i < |d.systems[p].strata| && d.systems[p].strata[i].name.None?
                   && e == UnnamedStratum(d.systems[p].name)
  }

  /** `main` after its argument checks: resolve every system, then convert.
      The run succeeds iff resolution succeeds and every cached system
      converts; after a successful resolution the only fatal exit left is a
      system's stratum reference without a name. */
  method MorphToBb(L: Loader, roots: seq<Path>) returns (r: Result<Recipes, Error>)
    ensures r.Success? <==> Resolve(L, roots).Success? && Convertible(Resolve(L, roots).value.defs)
    ensures Resolve(L, roots).Failure? ==> r == Failure(Resolve(L, roots).error)
    ensures Resolve(L, roots).Success? && r.Failure? ==> UnnamedIn(Resolve(L, roots).value.defs, r.error)
    ensures r.Success? ==> RecipesOf(Resolve(L, roots).value.defs, r.value)
    ensures r.Success? && SystemRefsAgree(Resolve(L, roots).value.defs) ==>
              forall n, j :: n in r.value.images && 0 <= j < |r.value.images[n].imageInstall| ==>
                r.value.images[n].imageInstall[j] in r.value.packagegroups
  {
    var s := Resolve(L, roots);
    if s.Failure? {
      return Failure(s.error);
    }
    ResolvedStrataConvert(L, roots);
    r := ConvertDefsToRecipes(s.value.defs);
    if r.Failure? {
      var d := s.value.defs;
      var p :| p in d.systems && ConvertSystem(d.systems[p]) == Failure(r.error);
      var i :| 0 <= i < |d.systems[p].strata| && d.systems[p].strata[i].name.None?;
    }
    if r.Success? && SystemRefsAgree(s.value.defs) {
      ResolveClosed(L, roots);
      ImagesInstallGroups(s.value.defs, r.value);
    }
  }
}
