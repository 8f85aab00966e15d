# morph-to-bb in Dafny

A model of the core of `morph-to-bb.py`. This script turns Baserock definitions
("morphologies") into BitBake recipes. It has two parts:

- **The resolver** (`parse_system`, `parse_stratum`, `parse_chunk`) starts from
  the system files named on the command line. It follows each system's `strata`
  references, each stratum's `chunks` references and each stratum's
  `build-depends` references. It fills three caches, each keyed by file path:
  `systems`, `strata` and `chunks`. A file is read only when its path is not
  cached yet. A stratum is cached before its build-depends are walked, so
  cycles and shared sub-graphs terminate. A wrong `kind` tag is fatal. A
  declared name that differs from the file's own name only prints a warning.
- **The projection** (`convert_*`) turns each cached chunk into a package
  named `<name>-chunk`. Each stratum becomes a package group named
  `<name>-stratum`. Its DEPENDS list is the build-depends strata, then the
  chunks; its RDEPENDS list is the chunks. Each system becomes an image named
  `<name>-system` that installs the package groups of its strata. A
  build-depends path missing from the strata cache is fatal.

Modules:

- `Outcome` (outcome.dfy): Option and Result.
- `Morphs` (morphs.dfy): the records, the caches (`Defs`) and the resolver
  state (`Session`). A `Session` holds the caches, a log of the warnings
  printed and a log of the files read. Reading a YAML file is a lookup in a
  `Loader`, a finite map from path to record. A path outside the map cannot be
  opened.
- `Resolver` (resolver.dfy): the three `parse_*` functions and the loop of
  `main` over the system paths.
- `Invariants` (invariants.dfy): the properties a resolved state has.
  - closure: every reference points into the caches;
  - reachability along build-depends in the loader;
  - the two logs: nothing is read twice, and every warning is genuine.
- `ResolverFacts` (resolver_facts.dfy): inductive proofs of those properties.
  Each lemma follows the recursion of the resolver.
- `Recipes` (recipes.dfy): the four `convert_*` functions.
- `Translation` (translation.dfy): resolution followed by conversion. It
  proves that images install only existing package groups when every
  system's stratum references declare their strata's names. It also proves
  that RDEPENDS lists name only existing packages when every chunk reference
  has a `morph` and declares its chunk's name.
- `CycleExample` (cycle.dfy): two strata that build-depend on each other.

Fatal exits (`sys.exit(1)`, and the IOError or KeyError the script would
raise) are `Failure` results carrying an `Error`. Warnings are entries in the
session's warning log. A warning never changes what is cached.

Chunks are cached by the path of their chunk file. An image's install list
uses the names *declared* in the system's stratum references.

Resolution succeeds iff every named system file exists with kind `system`,
and every stratum reachable from them exists with kind `stratum` and lists
only readable `chunk` files (`ResolverFacts.ResolveSucceeds`). A failure is
a NoSuchFile or NotA error. The file it names may lie anywhere on the walk.

Three behaviours of the code are modelled as written:

- A declared name is checked only when the file is first read. A later
  reference to the same path with a different declared name prints nothing
  (`CycleExample.CycleResolves`).
- Because of this and because install lists use declared names, an image may install a package
  group that does not exist. `Translation.ImagesInstallGroups` assumes that
  every system's stratum references declare the names their strata have.
- A chunk reference without `morph` gets an RDEPENDS entry but no package.

## Model

| member | source | states |
|---|---|---|
| Resolver.ParseChunk | morph-to-bb.py:14-28 | A reference without `morph`, and a `morph` path already cached, leave the session exactly as it was. When the path is not cached, the call succeeds iff the file exists with kind `chunk`. A missing file is NoSuchFile. A wrong kind is the NotA fatal error. A warning is logged iff the declared name differs from the file's name. On success the caches only grow. The only new chunk entry is the reference's own path, holding the loaded record. |
| Resolver.ParseChunks | morph-to-bb.py:45-46 | The loop succeeds iff every uncached chunk path it meets is a readable `chunk` file. Afterwards every reference with `morph` has its path cached. Every new chunk entry is the `morph` of one of the references. Systems and strata are untouched. |
| Resolver.ParseStratum | morph-to-bb.py:30-51 | A cached stratum path returns the session unchanged, and nothing is read. An uncached path fails with NoSuchFile if the file is missing and with NotA if its kind is not `stratum`. Any failure, including one met further down the walk, is NoSuchFile or NotA. On success the path is cached. Caches only grow, and every new entry is the loader's record of its kind. The recursion terminates because the set of unloaded strata shrinks strictly on every read. |
| Resolver.ParseStrata | morph-to-bb.py:49-51 | Any failure is NoSuchFile or NotA. After the loop over a reference list, every referenced stratum path is cached. Caches only grow, and new entries come from the loader. |
| Resolver.ParseSystem | morph-to-bb.py:54-64 | A cached system path returns the session unchanged. An uncached path fails with NoSuchFile or NotA(system) when the file is missing or has the wrong kind. Any failure, including one met in the strata it lists, is NoSuchFile or NotA. On success exactly this path is added to the systems cache, and the other caches only grow. |
| Resolver.ParseSystems | morph-to-bb.py:180-183 | Any failure is NoSuchFile or NotA. After `main`'s loop the systems cache holds exactly the previously cached paths plus the paths named. |
| ResolverFacts.ChunkLogged | morph-to-bb.py:19-28 | `parse_chunk` reads a file only when it caches it, and its warning concerns that newly cached file. |
| ResolverFacts.ChunksLogged | morph-to-bb.py:45-46 | Across a stratum's chunk list, no file is read twice and every newly cached chunk was read exactly once. |
| ResolverFacts.StratumLogged | morph-to-bb.py:35-51 | Even through cyclic build-depends, `parse_stratum` reads each file at most once. It reads exactly the files it newly caches, and warns at most once per file. |
| ResolverFacts.StrataLogged | morph-to-bb.py:49-51 | The same holds for a list of stratum references. |
| ResolverFacts.SystemLogged | morph-to-bb.py:56-64 | The same holds for `parse_system`. |
| ResolverFacts.SystemsLogged | morph-to-bb.py:182-183 | The same holds for `main`'s loop over systems. |
| ResolverFacts.StratumCloses | morph-to-bb.py:44-51 | When `parse_stratum` returns, every stratum it cached is closed: each chunk `morph` it lists is in the chunks cache, and each of its build-depends paths is in the strata cache. |
| ResolverFacts.StrataClose | morph-to-bb.py:49-51 | The same holds for every stratum cached while walking a reference list. |
| ResolverFacts.SystemCloses | morph-to-bb.py:62-64 | The system `parse_system` caches has all its strata cached, and every stratum cached on the way is closed. |
| ResolverFacts.SystemsClose | morph-to-bb.py:182-183 | The same holds for everything cached by `main`'s loop. |
| ResolverFacts.StratumReach | morph-to-bb.py:44-51 | Every stratum `parse_stratum` caches is reachable in the definitions from the referenced stratum through build-depends. Nothing unrelated is read. |
| ResolverFacts.StrataReach | morph-to-bb.py:49-51 | Every stratum cached while walking a reference list is reachable from one of the references. |
| ResolverFacts.SystemReach | morph-to-bb.py:62-64 | Every stratum `parse_system` caches is reachable from one of the system's stratum references. |
| ResolverFacts.SystemsReach | morph-to-bb.py:182-183 | Every stratum `main`'s loop caches is reachable from a stratum listed by one of the named systems. |
| ResolverFacts.StratumOwnsChunks | morph-to-bb.py:17-28 | Every chunk file cached under `parse_stratum` is the `morph` of a chunk reference in some cached stratum. A reference without `morph` adds nothing. |
| ResolverFacts.StrataOwnChunks | morph-to-bb.py:45-46 | The same holds over a list of stratum references. |
| ResolverFacts.SystemOwnsChunks | morph-to-bb.py:63-64 | The same holds for `parse_system`. |
| ResolverFacts.SystemsOwnChunks | morph-to-bb.py:182-183 | The same holds for `main`'s loop. |
| ResolverFacts.StratumWarning | morph-to-bb.py:41-42 | When `parse_stratum` reads a stratum, a "Mismatched names" warning about it is logged iff the reference declares a name and the file has another. That warning comes first and carries both names. |
| ResolverFacts.StratumSucceeds | morph-to-bb.py:30-51 | `parse_stratum` succeeds whenever every stratum reachable from the reference through build-depends exists with kind `stratum`, and every chunk `morph` it lists is a file with kind `chunk`. This holds from any session. |
| ResolverFacts.StrataSucceed | morph-to-bb.py:49-51 | The loop over a reference list succeeds under the same condition for every stratum reachable from the list. |
| ResolverFacts.SystemSucceeds | morph-to-bb.py:54-64 | `parse_system` succeeds when the system file exists with kind `system` and every stratum reachable from its list is readable in that sense. |
| ResolverFacts.SystemsSucceed | morph-to-bb.py:180-183 | `main`'s loop succeeds when every named system is readable in that sense. |
| ResolverFacts.CachedResolvable | morph-to-bb.py:35-64 | Caches that are closed, hold the loader's records under their kind tags, hold every named system and every stratum reachable from them witness that those systems are readable. |
| ResolverFacts.ResolvedReadable | morph-to-bb.py:180-183 | A successful resolution implies that every named system is readable in that sense. |
| ResolverFacts.ResolveSucceeds | morph-to-bb.py:180-183 | Resolution succeeds iff every named system is readable in that sense. A failure is NoSuchFile or NotA. |
| ResolverFacts.ResolveClosed | morph-to-bb.py:180-183 | After resolving from empty caches, the systems cache holds exactly the named paths. The caches are closed: every system's strata, every stratum's build-depends and every chunk `morph` of a cached stratum is cached. |
| ResolverFacts.ResolveStrataExact | morph-to-bb.py:44-51 | After resolution, a stratum path is cached iff it is reachable through build-depends from a stratum that a named system lists. |
| ResolverFacts.ResolveChunksExact | morph-to-bb.py:17-28 | After resolution, a chunk path is cached iff some cached stratum has a chunk reference with that `morph`. |
| ResolverFacts.ResolveLoadsOnce | morph-to-bb.py:19-62 | After resolution, every cache entry is the file at its path and carries its cache's kind tag. No file was read twice. A file was read iff it is cached. Every warning reports two different names for a cached file, and no file is warned about twice. |
| CycleExample.CycleResolves | morph-to-bb.py:35-51 | Take two strata that build-depend on each other. Resolving their system succeeds. It caches both strata and reads s, a and b once each, in that order. It prints no warning, although the back-reference to a declares another name. |
| Recipes.ConvertChunk | morph-to-bb.py:98-99 | Removing `-chunk` from the package name gives back the chunk's name. |
| Recipes.SuffixRoundTrip | morph-to-bb.py:69-99 | Every recipe name is the entity's name followed by its suffix. Removing the suffix gives back the entity's name. |
| Recipes.SuffixInjective | morph-to-bb.py:87-99 | Distinct names give distinct recipe names under the same suffix. |
| Recipes.GroupKept | morph-to-bb.py:107-109 | A cached stratum whose name no other cached stratum shares keeps its own package group under its key. No other stratum's write replaces it. |
| Recipes.ImageKept | morph-to-bb.py:110-112 | A cached system whose name no other cached system shares keeps its own image under its key. |
| Recipes.ChunkNames | morph-to-bb.py:90-92 | The list has one entry per chunk reference, in order. Each entry is that reference's declared name followed by `-chunk`. |
| Recipes.BuildDependNames | morph-to-bb.py:80-87 | Succeeds iff every build-depends path is in the strata cache. It then yields, in order, each resolved stratum's own name followed by `-stratum`. Otherwise the error is StratumNotFound for the first missing path. |
| Recipes.ConvertStratum | morph-to-bb.py:76-96 | Succeeds iff every build-depends path is cached, else the error names the first missing path. The group name is the stratum name with `-stratum`. RDEPENDS has one entry per chunk, `<chunk name>-chunk`, in order. DEPENDS is the resolved build-depends names with `-stratum`, followed by RDEPENDS. |
| Recipes.InstallNames | morph-to-bb.py:67-70 | Defined iff every stratum reference declares a name. It then lists, in order, each declared name with `-stratum`. |
| Recipes.ConvertSystem | morph-to-bb.py:66-74 | Fails with UnnamedStratum iff some stratum reference lacks a name, the KeyError of line 69. Otherwise the image name is the system name with `-system`, and `arch` is copied. The install list has one `<declared name>-stratum` per stratum reference, in order. |
| Recipes.ConvertChunks | morph-to-bb.py:104-106 | Every cached chunk's package is present, in any iteration order. Every entry is keyed by its own name and is the package of some cached chunk. |
| Recipes.ConvertStrata | morph-to-bb.py:107-109 | Succeeds iff every cached stratum converts. Then every stratum's package group is present, keyed by its own name. Otherwise the error is one stratum's conversion error. |
| Recipes.ConvertSystems | morph-to-bb.py:110-112 | Succeeds iff every cached system converts. Then every system's image is present, keyed by its own name. Otherwise the error is one system's conversion error. |
| Recipes.ConvertDefsToRecipes | morph-to-bb.py:101-112 | Succeeds iff every cached stratum and system converts. Each of the three collections then holds the recipe of every cached entity, keyed by its own name. A failure is a stratum's error, or else a system's error when all strata converted. |
| Translation.ResolvedStrataConvert | morph-to-bb.py:83-85 | After a successful resolution, no stratum conversion can hit the "could not be found" exit. |
| Translation.ImagesInstallGroups | morph-to-bb.py:66-74 | Take recipes converted from closed caches in which every system's stratum references declare the names their strata have. Every image installs only existing package groups. |
| Translation.GroupsDependOnGroups | morph-to-bb.py:80-87 | In converted recipes, the build-depends part of every package group's DEPENDS names only existing package groups. |
| Translation.GroupsRdependOnPackages | morph-to-bb.py:89-92 | In closed caches where every chunk reference has a `morph` and declares its chunk's name, every RDEPENDS entry names an existing package. |
| Translation.MorphToBb | morph-to-bb.py:179-185 | `main` succeeds iff resolution succeeds and every cached system converts. A resolution failure is the result. After a successful resolution, a failure is UnnamedStratum naming a cached system that has a stratum reference without a name. On success the recipes are those of the resolved caches. When every system's stratum references declare their strata's names, images install only existing package groups. |

## Left out

- Reading and parsing YAML (`yaml.load(file(...))`) is replaced by the `Loader` map. A file that cannot be opened is the NoSuchFile error.
- A required key absent from a YAML mapping (a KeyError) is not modelled, because the record type always carries `kind`, `name`, `arch`, `strata` and `chunks`. The keys the code tests for presence are optional: a chunk reference's `morph`, a stratum reference's `name` and a stratum's `build-depends`. So is the `name` of a system's stratum references, which `convert_system_to_image` reads unconditionally.
- `write_image`, `write_packagegroup`, `write_package` and `write_recipes` are left out: text templating and directory creation.
- `main`'s argument count check, `print_usage` and the `DEFAULTS` file check are left out: argument handling and process exit codes.
- Console output is left out. Only the "Mismatched names" warnings are kept, as a log. The fatal messages become `Error` values. A warning printed before a later fatal exit still appears on the console, but in the model it is discarded with the `Failure`.
- Resolver.ParseStratum: its own contract names the error only for the stratum file itself, and says of deeper failures only that they are NoSuchFile or NotA. `ResolverFacts.StratumSucceeds` states when the walk succeeds.
- Resolver.ParseStrata: its own contract does not say when it succeeds. `ResolverFacts.StrataSucceed` states a sufficient condition.
- Resolver.ParseSystem: its own contract names the error only for the system file itself. `ResolverFacts.SystemSucceeds` states when it succeeds.
- Resolver.ParseSystems: its own contract does not say when it succeeds. `ResolverFacts.SystemsSucceed` and `ResolverFacts.ResolveSucceeds` do, the latter as an iff from empty caches.
- Recipes.ConvertDefsToRecipes: the iteration order of Python dictionaries is arbitrary in the model. When two cached entities of one kind share a name, the contract says only that one of their recipes is kept, not which one. `Recipes.GroupKept` and `Recipes.ImageKept` state that an entity with a unique name keeps its own recipe.
