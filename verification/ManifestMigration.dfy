/**
 Migration of legacy ".gc/system/packs" references to pinned bundled imports
 (Fix and migrateLegacySystemPacksManifest in cmd/gc/builtin_include_doctor_check.go).

 A manifest means a set of composition routes: a pack together with the options
 it is composed under.  A legacy reference to a builtin pack and an import of
 that pack's canonical source are the same route.
 */
module ManifestMigration {
  import opened Common
  import opened ImportLanding

  // ------------------------------------------------------------- environment

  /** How references are read: whether one lies in the retired tree, the pack it
      names there ("" for none), whether it is a wave-1 public pack, and the
      canonical source and pin of a bundled pack. */
  datatype World = World(isLegacy: string -> bool, packName: string -> string, wave1: string -> bool,
                         canonical: string -> Option<string>, pin: string -> string)

  /** Only references into the retired tree name a pack there, canonical sources
      lie outside it, and every bundled source has a pin. */
  ghost predicate Sane(w: World) {
    && (forall ref :: w.packName(ref) != "" ==> w.isLegacy(ref))
    && (forall n :: w.canonical(n).Some? ==> !w.isLegacy(w.canonical(n).value) && w.pin(w.canonical(n).value) != "")
  }

  /** The canonical source of the builtin pack a legacy reference names. */
  function BundledSource(w: World, ref: string): Option<string> {
    if w.packName(ref) == "" then None else w.canonical(w.packName(ref))
  }

  function BundledImport(w: World, source: string): Import {
    Import(source, w.pin(source), false, None, "")
  }

  /** The order in which the runtime ranges over an import table, call by call:
      scope number, position of the include being converted, table. */
  type Orders = (nat, nat, Imports) -> seq<string>

  ghost predicate Fair(orders: Orders) {
    forall s, k, m :: Enumerates(orders(s, k, m), m)
  }

  // ------------------------------------------------------------ the migration

  /** A rig, or the default-rig table: include entries beside imports. */
  datatype Scope = Scope(includes: seq<string>, imports: Imports)

  /** city.toml: top-level imports, workspace includes, the default rig and the rigs. */
  datatype Manifest = Manifest(imports: Imports, includes: seq<string>, defaultRig: Scope, rigs: seq<Scope>)

  predicate RewritesSource(w: World, source: string) {
    !w.wave1(source) && BundledSource(w, source).Some?
  }

  function RewriteImport(w: World, imp: Import): Import {
    if RewritesSource(w, imp.source) then
      var source := BundledSource(w, imp.source).value;
      imp.(source := source, version := w.pin(source))
    else imp
  }

  function RewriteSources(w: World, imports: Imports): Imports {
    map b | b in imports :: RewriteImport(w, imports[b])
  }

  /** A workspace include the migration strips. */
  predicate StripsInclude(w: World, inc: string) {
    w.isLegacy(inc) && (BundledSource(w, inc).Some? || w.wave1(inc))
  }

  function StripWorkspace(w: World, includes: seq<string>): seq<string> {
    if includes == [] then []
    else (if StripsInclude(w, includes[0]) then [] else [includes[0]]) + StripWorkspace(w, includes[1..])
  }

  /** Converts include `k` and those after it. */
  function ConvertIncludes(w: World, s: nat, includes: seq<string>, k: nat, imports: Imports, orders: Orders): Result<Scope, string>
    requires Fair(orders) && k <= |includes|
    decreases |includes| - k
  {
    if k == |includes| then Ok(Scope([], imports))
    else match BundledSource(w, includes[k])
    case None =>
      (match ConvertIncludes(w, s, includes, k + 1, imports, orders)
       case Ok(rest) => Ok(rest.(includes := [includes[k]] + rest.includes))
       case Err(e) => Err(e))
    case Some(source) =>
      match Land(imports, w.packName(includes[k]), BundledImport(w, source), orders(s, k, imports))
      case Ok(landed) => ConvertIncludes(w, s, includes, k + 1, landed, orders)
      case Err(e) => Err(e)
  }

  function MigrateScope(w: World, s: nat, scope: Scope, orders: Orders): Result<Scope, string>
    requires Fair(orders)
  {
    ConvertIncludes(w, s, scope.includes, 0, RewriteSources(w, scope.imports), orders)
  }

  /** Migrates rig `i` and those after it; scope 0 is the default rig. */
  function MigrateRigs(w: World, rigs: seq<Scope>, i: nat, orders: Orders): Result<seq<Scope>, string>
    requires Fair(orders) && i <= |rigs|
    decreases |rigs| - i
  {
    if i == |rigs| then Ok([])
    else match MigrateScope(w, i + 1, rigs[i], orders)
    case Err(e) => Err(e)
    case Ok(rig) =>
      match MigrateRigs(w, rigs, i + 1, orders)
      case Err(e) => Err(e)
      case Ok(rest) => Ok([rig] + rest)
  }

  function Migrate(w: World, m: Manifest, orders: Orders): Result<Manifest, string>
    requires Fair(orders)
  {
    match MigrateScope(w, 0, m.defaultRig, orders)
    case Err(e) => Err(e)
    case Ok(defaultRig) =>
      match MigrateRigs(w, m.rigs, 0, orders)
      case Err(e) => Err(e)
      case Ok(rigs) => Ok(Manifest(RewriteSources(w, m.imports), StripWorkspace(w, m.includes), defaultRig, rigs))
  }

  /** Whether the migration reports a change. */
  predicate ScopeChanges(w: World, scope: Scope) {
    || (exists b :: b in scope.imports && RewritesSource(w, scope.imports[b].source))
    || (exists inc :: inc in scope.includes && BundledSource(w, inc).Some?)
  }

  predicate Changes(w: World, m: Manifest) {
    || (exists b :: b in m.imports && RewritesSource(w, m.imports[b].source))
    || (exists inc :: inc in m.includes && StripsInclude(w, inc))
    || ScopeChanges(w, m.defaultRig)
    || (exists i :: 0 <= i < |m.rigs| && ScopeChanges(w, m.rigs[i]))
  }

  // --------------------------------------------------------------- its meaning

  datatype Options = Default | Custom(exported: bool, transitive: Option<bool>, shadow: string)

  datatype Route = Route(pack: string, options: Options)

  /** A reference to a builtin pack in the retired tree denotes the bundled pack; any other reference itself. */
  function Denotes(w: World, ref: string): string {
    BundledSource(w, ref).GetOr(ref)
  }

  function ImportRoute(w: World, imp: Import): Route {
    Route(Denotes(w, imp.source),
          if imp.HasDefaultOptions() then Default else Custom(imp.exported, imp.transitive, imp.shadow))
  }

  function IncludeRoute(w: World, inc: string): Route {
    Route(Denotes(w, inc), Default)
  }

  ghost function ImportRoutes(w: World, imports: Imports): set<Route> {
    set b | b in imports :: ImportRoute(w, imports[b])
  }

  ghost function IncludeRoutes(w: World, includes: seq<string>): set<Route> {
    set inc | inc in includes :: IncludeRoute(w, inc)
  }

  ghost function ScopeRoutes(w: World, scope: Scope): set<Route> {
    ImportRoutes(w, scope.imports) + IncludeRoutes(w, scope.includes)
  }

  /** A bundled source denotes itself and what is landed for it is pinned with default options. */
  lemma DenotesCanonical(w: World, n: string)
    requires Sane(w) && w.canonical(n).Some?
    ensures Denotes(w, w.canonical(n).value) == w.canonical(n).value && !w.isLegacy(w.canonical(n).value)
    ensures Bundled(BundledImport(w, w.canonical(n).value))
  {
    assert w.packName(w.canonical(n).value) == "";
  }

  /** A legacy import of a builtin pack, no wave-1 pack, is relocated to the
      bundled source at the bundled pin with its options; any other import stays. */
  ghost predicate Relocated(w: World, before: Import, after: Import) {
    var pack := w.packName(before.source);
    if !w.wave1(before.source) && pack != "" && w.canonical(pack).Some? then
      && after.source == w.canonical(pack).value && after.version == w.pin(after.source)
      && after.exported == before.exported && after.transitive == before.transitive && after.shadow == before.shadow
    else after == before
  }

  /** Relocating legacy sources changes no route, whatever the options. */
  lemma RewriteKeepsRoutes(w: World, imports: Imports)
    requires Sane(w)
    ensures ImportRoutes(w, RewriteSources(w, imports)) == ImportRoutes(w, imports)
    ensures RewriteSources(w, imports).Keys == imports.Keys
    ensures forall b :: b in imports ==> ImportRoute(w, RewriteSources(w, imports)[b]) == ImportRoute(w, imports[b])
    ensures forall b :: b in imports ==> Relocated(w, imports[b], RewriteSources(w, imports)[b])
  {
    var after := RewriteSources(w, imports);
    forall b | b in imports ensures ImportRoute(w, after[b]) == ImportRoute(w, imports[b]) {
      if RewritesSource(w, imports[b].source) { DenotesCanonical(w, w.packName(imports[b].source)); }
    }
    assert forall r :: r in ImportRoutes(w, after) <==> r in ImportRoutes(w, imports);
  }

  /** Landing pack `n` adds exactly its default route. */
  lemma LandAddsRoute(w: World, imports: Imports, n: string, o: seq<string>)
    requires Sane(w) && w.canonical(n).Some? && Enumerates(o, imports)
    requires Land(imports, n, BundledImport(w, w.canonical(n).value), o).Ok?
    ensures var after := Land(imports, n, BundledImport(w, w.canonical(n).value), o).value;
            && imports.Keys <= after.Keys
            && (forall b :: b in imports ==> ImportRoute(w, after[b]) == ImportRoute(w, imports[b]))
            && ImportRoutes(w, after) == ImportRoutes(w, imports) + {Route(w.canonical(n).value, Default)}
  {
    var imp := BundledImport(w, w.canonical(n).value);
    var after := Land(imports, n, imp, o).value;
    DenotesCanonical(w, n);
    LandSucceeds(imports, n, imp, o);
    var p :| p in Pinned(after, imp);
    assert ImportRoute(w, after[p]) == Route(imp.source, Default);
    forall r | r in ImportRoutes(w, after) ensures r in ImportRoutes(w, imports) + {Route(imp.source, Default)} {
      var b :| b in after && r == ImportRoute(w, after[b]);
    }
  }

  lemma IncludeRoutesCons(w: World, inc: string, rest: seq<string>)
    ensures IncludeRoutes(w, [inc] + rest) == {IncludeRoute(w, inc)} + IncludeRoutes(w, rest)
  {
    assert forall x :: x in [inc] + rest <==> x == inc || x in rest;
  }

  lemma KeptIncludeRoutes(w: World, inc: string, rest: Scope)
    ensures ScopeRoutes(w, rest.(includes := [inc] + rest.includes)) == ScopeRoutes(w, rest) + {IncludeRoute(w, inc)}
  {
    IncludeRoutesCons(w, inc, rest.includes);
  }

  lemma LandedIncludeRoutes(w: World, imports: Imports, inc: string, o: seq<string>)
    requires Sane(w) && BundledSource(w, inc).Some? && Enumerates(o, imports)
    requires Land(imports, w.packName(inc), BundledImport(w, BundledSource(w, inc).value), o).Ok?
    ensures ImportRoutes(w, Land(imports, w.packName(inc), BundledImport(w, BundledSource(w, inc).value), o).value) ==
            ImportRoutes(w, imports) + {IncludeRoute(w, inc)}
  {
    LandAddsRoute(w, imports, w.packName(inc), o);
  }

  /** The conversion fails, or ends in a scope with these routes. */
  ghost predicate EndsWith(w: World, result: Result<Scope, string>, routes: set<Route>) {
    result.Ok? ==> ScopeRoutes(w, result.value) == routes
  }

  lemma KeptNextRoutes(w: World, s: nat, includes: seq<string>, k: nat, imports: Imports, orders: Orders, routes: set<Route>)
    requires Fair(orders) && k < |includes| && BundledSource(w, includes[k]).None?
    requires EndsWith(w, ConvertIncludes(w, s, includes, k + 1, imports, orders), routes)
    ensures EndsWith(w, ConvertIncludes(w, s, includes, k, imports, orders), routes + {IncludeRoute(w, includes[k])})
  {
    var rest := ConvertIncludes(w, s, includes, k + 1, imports, orders);
    if rest.Ok? { KeptIncludeRoutes(w, includes[k], rest.value); }
  }

  /** Converting includes to imports leaves the meaning of a scope exactly as it was. */
  lemma {:induction false} ConvertKeepsRoutes(w: World, s: nat, includes: seq<string>, k: nat, imports: Imports, orders: Orders)
    requires Sane(w) && Fair(orders) && k <= |includes|
    ensures EndsWith(w, ConvertIncludes(w, s, includes, k, imports, orders), ImportRoutes(w, imports) + IncludeRoutes(w, includes[k..]))
    decreases |includes| - k
  {
    if k < |includes| {
      var inc, routes := includes[k], ImportRoutes(w, imports);
      assert includes[k..] == [inc] + includes[k + 1..];
      IncludeRoutesCons(w, inc, includes[k + 1..]);
      if BundledSource(w, inc).None? {
        ConvertKeepsRoutes(w, s, includes, k + 1, imports, orders);
        KeptNextRoutes(w, s, includes, k, imports, orders, routes + IncludeRoutes(w, includes[k + 1..]));
        assert routes + IncludeRoutes(w, includes[k + 1..]) + {IncludeRoute(w, inc)} == routes + IncludeRoutes(w, includes[k..]);
      } else {
        var o := orders(s, k, imports);
        var landed := Land(imports, w.packName(inc), BundledImport(w, BundledSource(w, inc).value), o);
        if landed.Ok? {
          LandedIncludeRoutes(w, imports, inc, o);
          ConvertKeepsRoutes(w, s, includes, k + 1, landed.value, orders);
          assert routes + {IncludeRoute(w, inc)} + IncludeRoutes(w, includes[k + 1..]) == routes + IncludeRoutes(w, includes[k..]);
        }
      }
    } else {
      assert includes[k..] == [];
    }
  }

  /** The migration preserves the meaning of the default rig and of every rig. */
  lemma ScopeMeaningPreserved(w: World, s: nat, scope: Scope, orders: Orders)
    requires Sane(w) && Fair(orders) && MigrateScope(w, s, scope, orders).Ok?
    ensures ScopeRoutes(w, MigrateScope(w, s, scope, orders).value) == ScopeRoutes(w, scope)
  {
    RewriteKeepsRoutes(w, scope.imports);
    ConvertKeepsRoutes(w, s, scope.includes, 0, RewriteSources(w, scope.imports), orders);
    assert scope.includes[0..] == scope.includes;
  }

  lemma {:induction false} RigsMigrated(w: World, rigs: seq<Scope>, i: nat, orders: Orders)
    requires Fair(orders) && i <= |rigs| && MigrateRigs(w, rigs, i, orders).Ok?
    ensures |MigrateRigs(w, rigs, i, orders).value| == |rigs| - i
    ensures forall j :: i <= j < |rigs| ==> MigrateScope(w, j + 1, rigs[j], orders) == Ok(MigrateRigs(w, rigs, i, orders).value[j - i])
    decreases |rigs| - i
  {
    if i < |rigs| { RigsMigrated(w, rigs, i + 1, orders); }
  }

  /** Two lists of rigs that mean the same, rig by rig; the first starts at `i`. */
  ghost predicate SameMeanings(w: World, rigs: seq<Scope>, i: nat, after: seq<Scope>)
    requires i <= |rigs|
  {
    |after| == |rigs| - i && forall j :: 0 <= j < |after| ==> ScopeRoutes(w, after[j]) == ScopeRoutes(w, rigs[i + j])
  }

  lemma SameMeaningsCons(w: World, rigs: seq<Scope>, i: nat, rig: Scope, rest: seq<Scope>)
    requires i < |rigs| && SameMeanings(w, rigs, i + 1, rest) && ScopeRoutes(w, rig) == ScopeRoutes(w, rigs[i])
    ensures SameMeanings(w, rigs, i, [rig] + rest)
  {
    var after := [rig] + rest;
    forall j | 0 <= j < |after| ensures ScopeRoutes(w, after[j]) == ScopeRoutes(w, rigs[i + j]) {
      if j > 0 { assert after[j] == rest[j - 1] && rigs[i + j] == rigs[i + 1 + (j - 1)]; }
    }
  }

  lemma {:induction false} RigsMeaningPreserved(w: World, rigs: seq<Scope>, i: nat, orders: Orders)
    requires Sane(w) && Fair(orders) && i <= |rigs| && MigrateRigs(w, rigs, i, orders).Ok?
    ensures SameMeanings(w, rigs, i, MigrateRigs(w, rigs, i, orders).value)
    decreases |rigs| - i
  {
    if i < |rigs| {
      var rig, rest := MigrateScope(w, i + 1, rigs[i], orders).value, MigrateRigs(w, rigs, i + 1, orders).value;
      RigsMeaningPreserved(w, rigs, i + 1, orders);
      ScopeMeaningPreserved(w, i + 1, rigs[i], orders);
      SameMeaningsCons(w, rigs, i, rig, rest);
    }
  }

  // ------------------------------------------------------- Fix, write by write

  /** The two manifests on disk.  A binding of city.toml overrides the same binding of pack.toml. */
  datatype Disk = Disk(pack: Imports, city: Manifest)

  function EffectiveImports(d: Disk): Imports {
    d.pack + d.city.imports
  }

  /** Required packs that are missing, then the packs of the includes to be stripped, each once. */
  function NamesToLand(w: World, missing: seq<string>, includes: seq<string>): seq<string> {
    if includes != [] then
      var init, inc := includes[..|includes| - 1], includes[|includes| - 1];
      var names := NamesToLand(w, missing, init);
      if BundledSource(w, inc).Some? && w.packName(inc) !in names then names + [w.packName(inc)] else names
    else if missing != [] then
      var names := NamesToLand(w, missing[..|missing| - 1], []);
      if w.canonical(missing[|missing| - 1]).Some? then names + [missing[|missing| - 1]] else names
    else []
  }

  /** Lands the first `k` names in pack.toml. */
  function LandNames(w: World, pack: Imports, names: seq<string>, k: nat, orders: Orders): Result<Imports, string>
    requires Fair(orders) && k <= |names| && forall n :: n in names ==> w.canonical(n).Some?
  {
    if k == 0 then Ok(pack)
    else match LandNames(w, pack, names, k - 1, orders)
    case Err(e) => Err(e)
    case Ok(landed) => Land(landed, names[k - 1], BundledImport(w, w.canonical(names[k - 1]).value), orders(0, k - 1, landed))
  }

  lemma {:induction false} NamesAreBundled(w: World, missing: seq<string>, includes: seq<string>)
    ensures forall n :: n in NamesToLand(w, missing, includes) ==> w.canonical(n).Some?
    ensures forall inc :: inc in includes && BundledSource(w, inc).Some? ==> w.packName(inc) in NamesToLand(w, missing, includes)
    decreases |includes|, |missing|
  {
    if includes != [] {
      NamesAreBundled(w, missing, includes[..|includes| - 1]);
      assert includes == includes[..|includes| - 1] + [includes[|includes| - 1]];
    } else if missing != [] {
      NamesAreBundled(w, missing[..|missing| - 1], []);
    }
  }

  /** Fix up to its pack.toml write. */
  function LandPack(w: World, d: Disk, missing: seq<string>, orders: Orders): Result<Imports, string>
    requires Fair(orders)
  {
    var names := NamesToLand(w, missing, d.city.includes);
    NamesAreBundled(w, missing, d.city.includes);
    LandNames(w, d.pack, names, |names|, orders)
  }

  /** The disk as a crash could leave it: before any write, after the pack.toml write, after the city.toml write. */
  function FixStates(w: World, d: Disk, missing: seq<string>, packOrders: Orders, orders: Orders): (states: seq<Disk>)
    requires Fair(packOrders) && Fair(orders)
    ensures 1 <= |states| <= 3 && states[0] == d
    ensures |states| > 1 ==> states[1].city == d.city && LandPack(w, d, missing, packOrders) == Ok(states[1].pack)
    ensures |states| > 2 ==> states[2].pack == states[1].pack && Migrate(w, d.city, orders) == Ok(states[2].city)
  {
    match LandPack(w, d, missing, packOrders)
    case Err(_) => [d]
    case Ok(pack) =>
      match Migrate(w, d.city, orders)
      case Err(_) => [d, Disk(pack, d.city)]
      case Ok(city) => [d, Disk(pack, d.city), Disk(pack, city)]
  }

  ghost function CityRoutes(w: World, d: Disk): set<Route> {
    ImportRoutes(w, EffectiveImports(d)) + IncludeRoutes(w, d.city.includes)
  }

  /** A workspace include whose removal is its whole migration: a wave-1 pack without a bundled source. */
  predicate OnlyRemoved(w: World, inc: string) {
    w.isLegacy(inc) && w.wave1(inc) && BundledSource(w, inc).None?
  }

  /** What the city scope must keep: every route but those of removed wave-1 includes. */
  ghost function RoutesToKeep(w: World, d: Disk): set<Route> {
    ImportRoutes(w, EffectiveImports(d)) + set inc | inc in d.city.includes && !OnlyRemoved(w, inc) :: IncludeRoute(w, inc)
  }

  /** No binding is dropped and none changes its route. */
  ghost predicate KeepsBindings(w: World, before: Imports, after: Imports) {
    before.Keys <= after.Keys && forall b :: b in before ==> ImportRoute(w, after[b]) == ImportRoute(w, before[b])
  }

  lemma KeepsRoutes(w: World, before: Imports, after: Imports)
    requires KeepsBindings(w, before, after)
    ensures ImportRoutes(w, before) <= ImportRoutes(w, after)
  {
  }

  lemma {:induction false} NamesKept(w: World, pack: Imports, names: seq<string>, k: nat, orders: Orders)
    requires Sane(w) && Fair(orders) && k <= |names| && forall n :: n in names ==> w.canonical(n).Some?
    requires LandNames(w, pack, names, k, orders).Ok?
    ensures KeepsBindings(w, pack, LandNames(w, pack, names, k, orders).value)
  {
    if k > 0 {
      NamesKept(w, pack, names, k - 1, orders);
      var landed := LandNames(w, pack, names, k - 1, orders).value;
      LandAddsRoute(w, landed, names[k - 1], orders(0, k - 1, landed));
    }
  }

  /** The default routes of the first `k` names. */
  ghost function NameRoutes(w: World, names: seq<string>, k: nat): set<Route>
    requires k <= |names| && forall n :: n in names ==> w.canonical(n).Some?
  {
    if k == 0 then {} else NameRoutes(w, names, k - 1) + {Route(w.canonical(names[k - 1]).value, Default)}
  }

  lemma {:induction false} NameRoutesHolds(w: World, names: seq<string>, k: nat, i: nat)
    requires i < k <= |names| && forall n :: n in names ==> w.canonical(n).Some?
    ensures Route(w.canonical(names[i]).value, Default) in NameRoutes(w, names, k)
  {
    if i < k - 1 { NameRoutesHolds(w, names, k - 1, i); }
  }

  lemma {:induction false} NamesLanded(w: World, pack: Imports, names: seq<string>, k: nat, orders: Orders)
    requires Sane(w) && Fair(orders) && k <= |names| && forall n :: n in names ==> w.canonical(n).Some?
    requires LandNames(w, pack, names, k, orders).Ok?
    ensures ImportRoutes(w, LandNames(w, pack, names, k, orders).value) == ImportRoutes(w, pack) + NameRoutes(w, names, k)
  {
    if k > 0 {
      NamesLanded(w, pack, names, k - 1, orders);
      var landed := LandNames(w, pack, names, k - 1, orders).value;
      LandAddsRoute(w, landed, names[k - 1], orders(0, k - 1, landed));
    }
  }

  /** The pack.toml write keeps every binding's route and provides one for every
      missing pack and every include to be stripped. */
  lemma PackLanded(w: World, d: Disk, missing: seq<string>, orders: Orders)
    requires Sane(w) && Fair(orders) && LandPack(w, d, missing, orders).Ok?
    ensures var after := LandPack(w, d, missing, orders).value;
            && KeepsBindings(w, d.pack, after)
            && (forall n :: n in missing && w.canonical(n).Some? ==> Route(w.canonical(n).value, Default) in ImportRoutes(w, after))
            && (forall inc :: inc in d.city.includes && BundledSource(w, inc).Some? ==> IncludeRoute(w, inc) in ImportRoutes(w, after))
  {
    var names := NamesToLand(w, missing, d.city.includes);
    NamesAreBundled(w, missing, d.city.includes);
    NamesKept(w, d.pack, names, |names|, orders);
    NamesLanded(w, d.pack, names, |names|, orders);
    forall inc | inc in d.city.includes && BundledSource(w, inc).Some?
      ensures IncludeRoute(w, inc) in ImportRoutes(w, LandPack(w, d, missing, orders).value)
    {
      var i :| 0 <= i < |names| && names[i] == w.packName(inc);
      NameRoutesHolds(w, names, |names|, i);
    }
    NamesToLandIff(w, missing, d.city.includes);
    forall n | n in missing && w.canonical(n).Some?
      ensures Route(w.canonical(n).value, Default) in ImportRoutes(w, LandPack(w, d, missing, orders).value)
    {
      assert ToLand(w, missing, d.city.includes, n);
      var i :| 0 <= i < |names| && names[i] == n;
      NameRoutesHolds(w, names, |names|, i);
    }
  }

  /** Replacing both tables binding by binding, without dropping a binding or changing a route, narrows nothing. */
  lemma EffectiveGrows(w: World, d: Disk, d': Disk)
    requires KeepsBindings(w, d.pack, d'.pack) && KeepsBindings(w, d.city.imports, d'.city.imports)
    requires d.city.imports.Keys == d'.city.imports.Keys
    ensures ImportRoutes(w, EffectiveImports(d)) <= ImportRoutes(w, EffectiveImports(d'))
  {
    KeepsRoutes(w, EffectiveImports(d), EffectiveImports(d'));
  }

  /** A crash between the two writes leaves a city that composes at least what it did. */
  lemma CrashAfterPackWrite(w: World, d: Disk, missing: seq<string>, orders: Orders)
    requires Sane(w) && Fair(orders) && LandPack(w, d, missing, orders).Ok?
    ensures CityRoutes(w, d) <= CityRoutes(w, Disk(LandPack(w, d, missing, orders).value, d.city))
  {
    PackLanded(w, d, missing, orders);
    EffectiveGrows(w, d, Disk(LandPack(w, d, missing, orders).value, d.city));
  }

  lemma {:induction false} StripWorkspaceKeeps(w: World, includes: seq<string>)
    ensures forall inc :: inc in StripWorkspace(w, includes) <==> inc in includes && !StripsInclude(w, inc)
  {
    if includes != [] { StripWorkspaceKeeps(w, includes[1..]); }
  }

  /** A pack landed in pack.toml is composed: some default binding of it there
      is not overridden by city.toml, or city.toml itself provides it. */
  ghost predicate Unshadowed(w: World, pack: Imports, city: Manifest, source: string) {
    || (exists b :: b in pack && b !in city.imports && ImportRoute(w, pack[b]) == Route(source, Default))
    || (exists b :: b in city.imports && ImportRoute(w, city.imports[b]) == Route(source, Default))
    || source in city.includes
  }

  lemma KeptWhenVisible(w: World, d: Disk, missing: seq<string>, packOrders: Orders, orders: Orders)
    requires Sane(w) && Fair(packOrders) && Fair(orders)
    requires |FixStates(w, d, missing, packOrders, orders)| == 3
    ensures var fixed := FixStates(w, d, missing, packOrders, orders)[2];
            RoutesToKeep(w, d) <= CityRoutes(w, fixed) <==>
            forall inc :: inc in d.city.includes && BundledSource(w, inc).Some? ==>
              Unshadowed(w, fixed.pack, d.city, BundledSource(w, inc).value)
  {
    var fixed := FixStates(w, d, missing, packOrders, orders)[2];
    PackLanded(w, d, missing, packOrders);
    RewriteKeepsRoutes(w, d.city.imports);
    EffectiveGrows(w, d, fixed);
    StripWorkspaceKeeps(w, d.city.includes);
    forall inc | inc in d.city.includes && BundledSource(w, inc).Some?
      ensures IncludeRoute(w, inc) in CityRoutes(w, fixed) <==> Unshadowed(w, fixed.pack, d.city, BundledSource(w, inc).value)
    {
      StrippedRouteVisible(w, d, fixed, inc);
    }
  }

  /** What Fix leaves visible of an include's pack: an import of either manifest, or the canonical source included as such. */
  lemma StrippedRouteVisible(w: World, d: Disk, fixed: Disk, inc: string)
    requires Sane(w) && BundledSource(w, inc).Some?
    requires fixed.city.imports == RewriteSources(w, d.city.imports) && fixed.city.includes == StripWorkspace(w, d.city.includes)
    ensures IncludeRoute(w, inc) in CityRoutes(w, fixed) <==> Unshadowed(w, fixed.pack, d.city, BundledSource(w, inc).value)
  {
    var source := BundledSource(w, inc).value;
    DenotesCanonical(w, w.packName(inc));
    ImportedIff(w, d, fixed, source);
    IncludedIff(w, d.city.includes, source);
  }

  lemma ImportedIff(w: World, d: Disk, fixed: Disk, source: string)
    requires Sane(w) && fixed.city.imports == RewriteSources(w, d.city.imports)
    ensures Route(source, Default) in ImportRoutes(w, EffectiveImports(fixed)) <==>
            || (exists b :: b in fixed.pack && b !in d.city.imports && ImportRoute(w, fixed.pack[b]) == Route(source, Default))
            || (exists b :: b in d.city.imports && ImportRoute(w, d.city.imports[b]) == Route(source, Default))
  {
    RewriteKeepsRoutes(w, d.city.imports);
    var all := EffectiveImports(fixed);
    assert forall b :: b in all <==> b in fixed.pack || b in d.city.imports;
    forall b | b in all
      ensures ImportRoute(w, all[b]) == ImportRoute(w, if b in d.city.imports then d.city.imports[b] else fixed.pack[b]) {}
  }

  lemma IncludedIff(w: World, includes: seq<string>, source: string)
    requires Sane(w) && Denotes(w, source) == source && !w.isLegacy(source)
    ensures Route(source, Default) in IncludeRoutes(w, StripWorkspace(w, includes)) <==> source in includes
  {
    StripWorkspaceKeeps(w, includes);
    if source in includes { assert IncludeRoute(w, source) == Route(source, Default); }
  }

  // ------------------------------------------ what Fix lands, told beforehand

  ghost predicate AllBundled(w: World, names: seq<string>) {
    forall n :: n in names ==> w.canonical(n).Some?
  }

  function ImportFor(w: World, n: string): Import
    requires w.canonical(n).Some?
  {
    BundledImport(w, w.canonical(n).value)
  }

  /** The landings Fix is about to make in pack.toml.  `forgets(j)` says that the
      runtime's order lets a binding named "" hide the others from landing `j`. */
  datatype Landings = Landings(w: World, pack: Imports, names: seq<string>, forgets: nat -> bool)

  ghost predicate Valid(l: Landings, k: nat) {
    AllBundled(l.w, l.names) && k <= |l.names|
  }

  function Landed(l: Landings, j: nat): Import
    requires j < |l.names| && l.w.canonical(l.names[j]).Some?
  {
    ImportFor(l.w, l.names[j])
  }

  /** One of the first `k` names lands `source`. */
  ghost predicate Lands(l: Landings, k: nat, source: string)
    requires Valid(l, k)
  {
    exists i: nat :: i < k && Landed(l, i).source == source
  }

  /** Landing name `j` adds a binding: it is the first name of its source, and
      pack.toml has no default binding of that source, or only ones the scan
      loses: one named "" alone, or one named "" that hides the others. */
  ghost predicate IsFresh(l: Landings, j: nat)
    requires Valid(l, j + 1)
  {
    var unpinned := Unpinned(l.pack, Landed(l, j));
    && !Lands(l, j, Landed(l, j).source) && Pinned(l.pack, Landed(l, j)) == {}
    && (unpinned == {} || unpinned == {""} || ("" in unpinned && l.forgets(j)))
  }

  /** The names bound in pack.toml after the first `k` landings. */
  ghost function LandedKeys(l: Landings, k: nat): (keys: set<string>)
    requires Valid(l, k)
    ensures l.pack.Keys <= keys
  {
    KeysAfter(l.pack.Keys, l.names, FreshOnes(l), k)
  }

  /** The landings that add a binding. */
  ghost function FreshOnes(l: Landings): set<nat>
    requires Valid(l, 0)
  {
    set j: nat | j < |l.names| && IsFresh(l, j)
  }

  /** The names bound once the first `k` landings are through, if those of `adds` add a binding. */
  function KeysAfter(keys: set<string>, names: seq<string>, adds: set<nat>, k: nat): (after: set<string>)
    requires k <= |names|
    ensures keys <= after
  {
    if k == 0 then keys
    else
      var before := KeysAfter(keys, names, adds, k - 1);
      if k - 1 in adds then before + {UniqueBinding(before, names[k - 1])} else before
  }

  /** The name a fresh landing takes. */
  ghost function FreshName(l: Landings, j: nat): (b: string)
    requires Valid(l, j + 1)
    ensures Spells(l.names[j], b) && b !in LandedKeys(l, j) && b !in l.pack
  {
    UniqueBinding(LandedKeys(l, j), l.names[j])
  }

  /** A binding pack.toml had: only its version can have changed, and only if its source was landed. */
  ghost predicate OldBinding(l: Landings, k: nat, table: Imports, b: string)
    requires Valid(l, k) && b in l.pack
  {
    && b in table && table[b].(version := l.pack[b].version) == l.pack[b]
    && (table[b] == l.pack[b] || Lands(l, k, l.pack[b].source))
  }

  ghost predicate OldBindings(l: Landings, k: nat, table: Imports)
    requires Valid(l, k)
  {
    forall b :: b in l.pack ==> OldBinding(l, k, table, b)
  }

  ghost predicate AddedBy(l: Landings, i: nat, table: Imports)
    requires Valid(l, i + 1)
  {
    FreshName(l, i) in table && table[FreshName(l, i)] == Landed(l, i)
  }

  /** Every fresh landing's binding is there. */
  ghost predicate AllAdded(l: Landings, k: nat, table: Imports)
    requires Valid(l, k)
  {
    forall i: nat :: i < k && IsFresh(l, i) ==> AddedBy(l, i, table)
  }

  /** `b` is the name of one of the first `k` landings, a fresh one. */
  ghost predicate Added(l: Landings, k: nat, b: string)
    requires Valid(l, k)
  {
    exists i: nat :: i < k && IsFresh(l, i) && b == FreshName(l, i)
  }

  ghost predicate OnlyAdded(l: Landings, k: nat, table: Imports)
    requires Valid(l, k)
  {
    forall b :: b in table && b !in l.pack ==> Added(l, k, b)
  }

  ghost predicate AllPinned(l: Landings, k: nat, table: Imports)
    requires Valid(l, k)
  {
    forall i: nat :: i < k ==> Pinned(table, Landed(l, i)) != {}
  }

  /** `table` is pack.toml after the first `k` landings. */
  ghost predicate IsTable(l: Landings, k: nat, table: Imports)
    requires Valid(l, k)
  {
    && table.Keys == LandedKeys(l, k) && OldBindings(l, k, table)
    && AllAdded(l, k, table) && OnlyAdded(l, k, table) && AllPinned(l, k, table)
  }

  lemma NewBindingLands(l: Landings, k: nat, table: Imports, b: string)
    requires Valid(l, k) && AllAdded(l, k, table) && OnlyAdded(l, k, table) && b in table && b !in l.pack
    ensures Lands(l, k, table[b].source)
  {
    assert Added(l, k, b);
    var i: nat :| i < k && IsFresh(l, i) && b == FreshName(l, i);
    assert AddedBy(l, i, table);
  }

  /** Until the first landing of a source, the table has of it what pack.toml had. */
  lemma SourceUntouched(l: Landings, k: nat, table: Imports)
    requires Valid(l, k + 1) && IsTable(l, k, table) && !Lands(l, k, Landed(l, k).source)
    ensures Pinned(table, Landed(l, k)) == Pinned(l.pack, Landed(l, k))
    ensures Unpinned(table, Landed(l, k)) == Unpinned(l.pack, Landed(l, k))
  {
    forall b ensures b in table && table[b].source == Landed(l, k).source <==> b in l.pack && l.pack[b].source == Landed(l, k).source
             ensures b in table && table[b].source == Landed(l, k).source ==> b in l.pack && table[b] == l.pack[b]
    {
      if b in l.pack { assert OldBinding(l, k, table, b); }
      if b in table && b !in l.pack { NewBindingLands(l, k, table, b); }
    }
  }

  /** `after` is `table` except for the versions of old bindings of this landing's source. */
  ghost predicate Repinned(l: Landings, k: nat, table: Imports, after: Imports)
    requires Valid(l, k + 1)
  {
    && table.Keys <= after.Keys
    && forall b :: b in table ==>
         if b in l.pack && l.pack[b].source == Landed(l, k).source then after[b].(version := table[b].version) == table[b]
         else after[b] == table[b]
  }

  lemma OldKept(l: Landings, k: nat, table: Imports, after: Imports)
    requires Valid(l, k + 1) && OldBindings(l, k, table) && Repinned(l, k, table, after)
    ensures OldBindings(l, k + 1, after)
  {
    forall b | b in l.pack ensures OldBinding(l, k + 1, after, b) {
      assert OldBinding(l, k, table, b);
      if after[b] != table[b] {
        assert Landed(l, k).source == l.pack[b].source;
      } else if table[b] != l.pack[b] {
        var i: nat :| i < k && Landed(l, i).source == l.pack[b].source;
        assert i < k + 1;
      }
    }
  }

  lemma AddedKept(l: Landings, k: nat, table: Imports, after: Imports)
    requires Valid(l, k + 1) && AllAdded(l, k, table) && Repinned(l, k, table, after)
    requires IsFresh(l, k) ==> AddedBy(l, k, after)
    ensures AllAdded(l, k + 1, after)
  {
    forall i: nat | i < k + 1 && IsFresh(l, i) ensures AddedBy(l, i, after) {
      if i < k { assert AddedBy(l, i, table); }
    }
  }

  lemma OnlyAddedKept(l: Landings, k: nat, table: Imports, after: Imports)
    requires Valid(l, k + 1) && OnlyAdded(l, k, table) && table.Keys == LandedKeys(l, k) && after.Keys == LandedKeys(l, k + 1)
    ensures OnlyAdded(l, k + 1, after)
  {
    forall b | b in after && b !in l.pack ensures Added(l, k + 1, b) {
      if b in table {
        assert Added(l, k, b);
        var i: nat :| i < k && IsFresh(l, i) && b == FreshName(l, i);
      } else {
        assert b in LandedKeys(l, k + 1) && b !in LandedKeys(l, k);
        assert IsFresh(l, k) && b == FreshName(l, k);
      }
    }
  }

  /** One landing turns the table of the first `k` into that of the first `k + 1`. */
  lemma TableStep(l: Landings, k: nat, table: Imports, after: Imports)
    requires Valid(l, k + 1) && IsTable(l, k, table) && Repinned(l, k, table, after) && AllPinned(l, k + 1, after)
    requires after.Keys == LandedKeys(l, k + 1) && (IsFresh(l, k) ==> AddedBy(l, k, after))
    ensures IsTable(l, k + 1, after)
  {
    OldKept(l, k, table, after);
    AddedKept(l, k, table, after);
    OnlyAddedKept(l, k, table, after);
  }

  /** Landing never unpins. */
  lemma StaysPinned(table: Imports, after: Imports, imp: Import, other: Import)
    requires OneBindingChanged(table, after, imp) && Bundled(imp) && Pinned(table, other) != {}
    ensures Pinned(after, other) != {}
  {
    var b :| b in Pinned(table, other);
    assert b in Pinned(after, other);
  }

  lemma PinsStep(l: Landings, k: nat, table: Imports, after: Imports)
    requires Sane(l.w) && Valid(l, k + 1) && AllPinned(l, k, table)
    requires OneBindingChanged(table, after, Landed(l, k)) && Pinned(after, Landed(l, k)) != {}
    ensures AllPinned(l, k + 1, after)
  {
    forall i: nat | i < k + 1 ensures Pinned(after, Landed(l, i)) != {} {
      DenotesCanonical(l.w, l.names[k]);
      if i < k { StaysPinned(table, after, Landed(l, k), Landed(l, i)); }
    }
  }

  /** A first landing adds a binding exactly when the scan ends without a binding to keep. */
  lemma FreshIff(l: Landings, k: nat, o: seq<string>)
    requires Valid(l, k + 1) && !Lands(l, k, Landed(l, k).source) && Unpinned(l.pack, Landed(l, k)) <= Elements(o)
    requires l.forgets(k) <==> Best(o, Unpinned(l.pack, Landed(l, k))) == ""
    ensures IsFresh(l, k) <==> Pinned(l.pack, Landed(l, k)) == {} && Best(o, Unpinned(l.pack, Landed(l, k))) == ""
  {
    var unpinned := Unpinned(l.pack, Landed(l, k));
    BestIn(o, unpinned);
    if "" !in unpinned { BestIsLeast(o, unpinned); }
  }

  ghost predicate PinsInPlace(l: Landings, k: nat, table: Imports, after: Imports, b: string)
    requires Valid(l, k + 1)
  {
    && b in l.pack && b in table && l.pack[b].source == Landed(l, k).source
    && after == table[b := table[b].(version := Landed(l, k).version)]
  }

  /** What landing `k` does to the table, in terms of what was known before. */
  ghost predicate LandsAsTold(l: Landings, k: nat, table: Imports, after: Imports)
    requires Valid(l, k + 1)
  {
    if IsFresh(l, k) then FreshName(l, k) !in table && after == table[FreshName(l, k) := Landed(l, k)]
    else after == table || exists b :: PinsInPlace(l, k, table, after, b)
  }

  lemma FirstLandingAsTold(l: Landings, k: nat, table: Imports, o: seq<string>)
    requires Valid(l, k + 1) && IsTable(l, k, table) && Enumerates(o, table) && !Lands(l, k, Landed(l, k).source)
    requires Land(table, l.names[k], Landed(l, k), o).Ok?
    requires l.forgets(k) <==> Best(o, Unpinned(l.pack, Landed(l, k))) == ""
    ensures LandsAsTold(l, k, table, Land(table, l.names[k], Landed(l, k), o).value)
  {
    LandCases(table, l.names[k], Landed(l, k), o);
    SourceUntouched(l, k, table);
    FreshIff(l, k, o);
    var after, pin := Land(table, l.names[k], Landed(l, k), o).value, Best(o, Unpinned(table, Landed(l, k)));
    if Pinned(table, Landed(l, k)) == {} && pin != "" { assert PinsInPlace(l, k, table, after, pin); }
  }

  lemma RepeatAsTold(l: Landings, k: nat, table: Imports, o: seq<string>)
    requires Valid(l, k + 1) && AllPinned(l, k, table) && Enumerates(o, table) && Lands(l, k, Landed(l, k).source)
    requires Land(table, l.names[k], Landed(l, k), o).Ok?
    ensures LandsAsTold(l, k, table, Land(table, l.names[k], Landed(l, k), o).value)
  {
    var i: nat :| i < k && Landed(l, i).source == Landed(l, k).source;
    assert Landed(l, i) == Landed(l, k);
    LandCases(table, l.names[k], Landed(l, k), o);
  }

  lemma AddingRepins(l: Landings, k: nat, table: Imports, after: Imports)
    requires Valid(l, k + 1) && table.Keys == LandedKeys(l, k) && IsFresh(l, k) && LandsAsTold(l, k, table, after)
    ensures Repinned(l, k, table, after) && after.Keys == LandedKeys(l, k + 1) && AddedBy(l, k, after)
  {
  }

  lemma PinningRepins(l: Landings, k: nat, table: Imports, after: Imports)
    requires Valid(l, k + 1) && table.Keys == LandedKeys(l, k) && !IsFresh(l, k) && LandsAsTold(l, k, table, after)
    ensures Repinned(l, k, table, after) && after.Keys == LandedKeys(l, k + 1)
  {
    if after != table { var b :| PinsInPlace(l, k, table, after, b); }
  }

  lemma TableNext(l: Landings, k: nat, table: Imports, after: Imports)
    requires Sane(l.w) && Valid(l, k + 1) && IsTable(l, k, table) && LandsAsTold(l, k, table, after)
    requires OneBindingChanged(table, after, Landed(l, k)) && Pinned(after, Landed(l, k)) != {}
    ensures IsTable(l, k + 1, after)
  {
    if IsFresh(l, k) { AddingRepins(l, k, table, after); } else { PinningRepins(l, k, table, after); }
    PinsStep(l, k, table, after);
    TableStep(l, k, table, after);
  }

  lemma LandTable(l: Landings, k: nat, table: Imports, o: seq<string>)
    requires Sane(l.w) && Valid(l, k + 1) && IsTable(l, k, table) && Enumerates(o, table)
    requires Land(table, l.names[k], Landed(l, k), o).Ok?
    requires l.forgets(k) <==> Best(o, Unpinned(l.pack, Landed(l, k))) == ""
    ensures IsTable(l, k + 1, Land(table, l.names[k], Landed(l, k), o).value)
  {
    DenotesCanonical(l.w, l.names[k]);
    LandSucceeds(table, l.names[k], Landed(l, k), o);
    if Lands(l, k, Landed(l, k).source) { RepeatAsTold(l, k, table, o); } else { FirstLandingAsTold(l, k, table, o); }
    TableNext(l, k, table, Land(table, l.names[k], Landed(l, k), o).value);
  }

  /** Whether the runtime's order makes landing `j` overlook the unpinned bindings of its source. */
  ghost function Forgets(w: World, pack: Imports, names: seq<string>, orders: Orders): nat -> bool
    requires Fair(orders) && AllBundled(w, names)
  {
    (j: nat) => && j < |names| && LandNames(w, pack, names, j, orders).Ok?
                && Best(orders(0, j, LandNames(w, pack, names, j, orders).value), Unpinned(pack, ImportFor(w, names[j]))) == ""
  }

  ghost function LandingsOf(w: World, d: Disk, missing: seq<string>, orders: Orders): (l: Landings)
    requires Fair(orders)
    ensures Valid(l, |l.names|) && l.w == w && l.pack == d.pack && l.names == NamesToLand(w, missing, d.city.includes)
  {
    var names := NamesToLand(w, missing, d.city.includes);
    NamesAreBundled(w, missing, d.city.includes);
    Landings(w, d.pack, names, Forgets(w, d.pack, names, orders))
  }

  /** `l` tells what landing in these orders will do. */
  ghost predicate Foretells(l: Landings, orders: Orders) {
    Sane(l.w) && Fair(orders) && AllBundled(l.w, l.names) && l.forgets == Forgets(l.w, l.pack, l.names, orders)
  }

  /** If the first `k` landings succeed, they leave the table told beforehand. */
  ghost predicate Told(l: Landings, k: nat, orders: Orders) {
    k <= |l.names| && Foretells(l, orders) && LandNames(l.w, l.pack, l.names, k, orders).Ok? ==>
      IsTable(l, k, LandNames(l.w, l.pack, l.names, k, orders).value)
  }

  lemma ToldStart(l: Landings, orders: Orders)
    ensures Told(l, 0, orders)
  {
    if Foretells(l, orders) {
      forall b | b in l.pack ensures OldBinding(l, 0, l.pack, b) {}
    }
  }

  lemma ToldNext(l: Landings, k: nat, orders: Orders)
    requires Told(l, k, orders)
    ensures Told(l, k + 1, orders)
  {
    if k + 1 <= |l.names| && Foretells(l, orders) && LandNames(l.w, l.pack, l.names, k + 1, orders).Ok? {
      LandedNext(l, k, orders);
      var table := LandNames(l.w, l.pack, l.names, k, orders).value;
      LandTable(l, k, table, orders(0, k, table));
    }
  }

  /** Landing `k` in terms of the table before it, and what a binding named "" hides from it. */
  lemma LandedNext(l: Landings, k: nat, orders: Orders)
    requires k < |l.names| && Foretells(l, orders) && LandNames(l.w, l.pack, l.names, k + 1, orders).Ok?
    ensures LandNames(l.w, l.pack, l.names, k, orders).Ok?
    ensures var table := LandNames(l.w, l.pack, l.names, k, orders).value;
            var o := orders(0, k, table);
            && Enumerates(o, table)
            && LandNames(l.w, l.pack, l.names, k + 1, orders) == Land(table, l.names[k], Landed(l, k), o)
            && (l.forgets(k) <==> Best(o, Unpinned(l.pack, Landed(l, k))) == "")
  {
  }

  lemma AllTold(l: Landings, k: nat, orders: Orders)
    ensures Told(l, k, orders)
  {
    ToldStart(l, orders);
    forall j: nat | Told(l, j, orders) ensures Told(l, j + 1, orders) { ToldNext(l, j, orders); }
    Induction((j: nat) => Told(l, j, orders), k);
  }

  /** Landing the names one by one produces the tables told beforehand. */
  lemma NamesLandAsTold(l: Landings, k: nat, orders: Orders)
    requires Foretells(l, orders) && Valid(l, k) && LandNames(l.w, l.pack, l.names, k, orders).Ok?
    ensures IsTable(l, k, LandNames(l.w, l.pack, l.names, k, orders).value)
  {
    AllTold(l, k, orders);
  }

  /** Fix has to see to the pack: it is required and missing, or a workspace include of it is stripped. */
  ghost predicate ToLand(w: World, missing: seq<string>, includes: seq<string>, n: string) {
    w.canonical(n).Some? && (n in missing || (n != "" && exists inc :: inc in includes && w.packName(inc) == n))
  }

  /** Missing packs come first, and none is added to them twice. */
  ghost predicate MissingFirst(missing: seq<string>, names: seq<string>) {
    forall i, j :: 0 <= i < j < |names| ==> if names[j] in missing then names[i] in missing else names[i] != names[j]
  }

  lemma {:induction false} MissingNames(w: World, missing: seq<string>)
    ensures forall n :: n in NamesToLand(w, missing, []) <==> n in missing && w.canonical(n).Some?
  {
    if missing != [] {
      MissingNames(w, missing[..|missing| - 1]);
      assert missing == missing[..|missing| - 1] + [missing[|missing| - 1]];
    }
  }

  lemma MissingFirstExtends(missing: seq<string>, names: seq<string>, n: string)
    requires MissingFirst(missing, names) && n !in names && (forall m :: m in missing && m == n ==> m in names)
    ensures MissingFirst(missing, names + [n])
  {
  }

  /** The names landed are exactly those packs. */
  lemma {:induction false} NamesToLandIff(w: World, missing: seq<string>, includes: seq<string>)
    ensures forall n :: n in NamesToLand(w, missing, includes) <==> ToLand(w, missing, includes, n)
    ensures MissingFirst(missing, NamesToLand(w, missing, includes))
    decreases |includes|
  {
    if includes == [] {
      MissingNames(w, missing);
    } else {
      var init, inc := includes[..|includes| - 1], includes[|includes| - 1];
      assert includes == init + [inc];
      NamesToLandIff(w, missing, init);
      var names := NamesToLand(w, missing, init);
      if BundledSource(w, inc).Some? && w.packName(inc) !in names { MissingFirstExtends(missing, names, w.packName(inc)); }
      forall n ensures n in NamesToLand(w, missing, includes) <==> ToLand(w, missing, includes, n) {
        assert n in names <==> ToLand(w, missing, init, n);
      }
    }
  }

  /** The table has a default binding of the source with a version. */
  ghost predicate Holds(table: Imports, source: string) {
    exists b :: b in table && table[b].source == source && Plain(table[b]) && table[b].version != ""
  }

  /** A binding Fix adds is the pinned default import of one of those packs, under a name made from the pack's. */
  ghost predicate AddedFor(w: World, missing: seq<string>, includes: seq<string>, b: string, imp: Import) {
    exists n :: ToLand(w, missing, includes, n) && Spells(n, b) && imp == Import(w.canonical(n).value, w.pin(w.canonical(n).value), false, None, "")
  }

  /** What pack.toml holds after its write, in every order: a pinned default
      binding of each pack to be seen to, no binding added for any other, and of
      the old ones at most the version filled in. */
  lemma PackHolds(w: World, d: Disk, missing: seq<string>, orders: Orders)
    requires Sane(w) && Fair(orders) && LandPack(w, d, missing, orders).Ok?
    ensures var after := LandPack(w, d, missing, orders).value;
            && (forall n :: ToLand(w, missing, d.city.includes, n) ==> Holds(after, w.canonical(n).value))
            && (forall b :: b in after && b !in d.pack ==> AddedFor(w, missing, d.city.includes, b, after[b]))
            && (forall b :: b in d.pack ==> b in after && after[b].(version := d.pack[b].version) == d.pack[b])
  {
    var l, after := LandingsOf(w, d, missing, orders), LandPack(w, d, missing, orders).value;
    NamesLandAsTold(l, |l.names|, orders);
    NamesToLandIff(w, missing, d.city.includes);
    forall n | ToLand(w, missing, d.city.includes, n) ensures Holds(after, w.canonical(n).value) {
      var i: nat :| i < |l.names| && l.names[i] == n;
      var b :| b in Pinned(after, Landed(l, i));
      BindingKinds(after, Landed(l, i), b);
    }
    forall b | b in after && b !in d.pack ensures AddedFor(w, missing, d.city.includes, b, after[b]) {
      var i: nat :| i < |l.names| && IsFresh(l, i) && b == FreshName(l, i);
      assert AddedBy(l, i, after) && l.names[i] in l.names;
    }
    forall b | b in d.pack ensures b in after && after[b].(version := d.pack[b].version) == d.pack[b] {
      assert OldBinding(l, |l.names|, after, b);
    }
  }

  // ------------------------------------------------- the exact condition for Fix

  /** Read off the manifests before Fix: the pack stays composed because
      city.toml imports or includes it by itself, because pack.toml has a default
      binding of it that city.toml does not override, or because the binding Fix
      is about to add for it takes a name that city.toml leaves alone. */
  ghost predicate Provided(l: Landings, city: Manifest, source: string)
    requires Valid(l, |l.names|)
  {
    || (exists b :: b in city.imports && ImportRoute(l.w, city.imports[b]) == Route(source, Default))
    || source in city.includes
    || (exists b :: b in l.pack && b !in city.imports && ImportRoute(l.w, l.pack[b]) == Route(source, Default))
    || (exists i: nat :: i < |l.names| && AddsFor(l, i, city, source))
  }

  /** Landing `i` adds a binding of the source, under a name city.toml does not bind. */
  ghost predicate AddsFor(l: Landings, i: nat, city: Manifest, source: string)
    requires Valid(l, i + 1)
  {
    IsFresh(l, i) && Landed(l, i).source == source && FreshName(l, i) !in city.imports
  }

  lemma AddedRoute(l: Landings, i: nat, table: Imports)
    requires Sane(l.w) && Valid(l, i + 1) && AddedBy(l, i, table)
    ensures ImportRoute(l.w, table[FreshName(l, i)]) == Route(Landed(l, i).source, Default)
  {
    DenotesCanonical(l.w, l.names[i]);
  }

  lemma UnshadowedIsProvided(l: Landings, city: Manifest, table: Imports, source: string)
    requires Sane(l.w) && Valid(l, |l.names|) && IsTable(l, |l.names|, table) && Unshadowed(l.w, table, city, source)
    ensures Provided(l, city, source)
  {
    if b :| b in table && b !in city.imports && ImportRoute(l.w, table[b]) == Route(source, Default) {
      if b in l.pack {
        assert OldBinding(l, |l.names|, table, b);
        assert ImportRoute(l.w, l.pack[b]) == Route(source, Default);
      } else {
        assert Added(l, |l.names|, b);
        var i: nat :| i < |l.names| && IsFresh(l, i) && b == FreshName(l, i);
        assert AddedBy(l, i, table);
        AddedRoute(l, i, table);
        assert AddsFor(l, i, city, source);
      }
    }
  }

  lemma OldIsUnshadowed(l: Landings, city: Manifest, table: Imports, source: string, b: string)
    requires Valid(l, |l.names|) && OldBindings(l, |l.names|, table)
    requires b in l.pack && b !in city.imports && ImportRoute(l.w, l.pack[b]) == Route(source, Default)
    ensures Unshadowed(l.w, table, city, source)
  {
    assert OldBinding(l, |l.names|, table, b);
    assert ImportRoute(l.w, table[b]) == Route(source, Default);
  }

  lemma AddedIsUnshadowed(l: Landings, city: Manifest, table: Imports, i: nat)
    requires Sane(l.w) && Valid(l, |l.names|) && AllAdded(l, |l.names|, table) && i < |l.names|
    requires AddsFor(l, i, city, Landed(l, i).source)
    ensures Unshadowed(l.w, table, city, Landed(l, i).source)
  {
    assert AddedBy(l, i, table);
    AddedRoute(l, i, table);
  }

  lemma ProvidedIsUnshadowed(l: Landings, city: Manifest, table: Imports, source: string)
    requires Sane(l.w) && Valid(l, |l.names|) && OldBindings(l, |l.names|, table) && AllAdded(l, |l.names|, table)
    requires Provided(l, city, source)
    ensures Unshadowed(l.w, table, city, source)
  {
    if b :| b in l.pack && b !in city.imports && ImportRoute(l.w, l.pack[b]) == Route(source, Default) {
      OldIsUnshadowed(l, city, table, source, b);
    } else if i: nat :| i < |l.names| && AddsFor(l, i, city, source) {
      AddedIsUnshadowed(l, city, table, i);
    }
  }

  /** Every include to be stripped is provided for. */
  ghost predicate AllProvided(l: Landings, city: Manifest)
    requires Valid(l, |l.names|)
  {
    forall inc :: inc in city.includes && BundledSource(l.w, inc).Some? ==> Provided(l, city, BundledSource(l.w, inc).value)
  }

  /** The whole Fix keeps the city scope if and only if every include it strips
      is provided for by the manifests as they were.  (Its landing only avoids
      the names taken in pack.toml, but a name bound in city.toml wins.) */
  lemma FixKeepsCityIff(w: World, d: Disk, missing: seq<string>, packOrders: Orders, orders: Orders)
    requires Sane(w) && Fair(packOrders) && Fair(orders)
    requires |FixStates(w, d, missing, packOrders, orders)| == 3
    ensures RoutesToKeep(w, d) <= CityRoutes(w, FixStates(w, d, missing, packOrders, orders)[2]) <==>
            AllProvided(LandingsOf(w, d, missing, packOrders), d.city)
  {
    var l := LandingsOf(w, d, missing, packOrders);
    var table := FixStates(w, d, missing, packOrders, orders)[2].pack;
    KeptWhenVisible(w, d, missing, packOrders, orders);
    NamesLandAsTold(l, |l.names|, packOrders);
    forall inc | inc in d.city.includes && BundledSource(w, inc).Some?
      ensures Unshadowed(w, table, d.city, BundledSource(w, inc).value) <==> Provided(l, d.city, BundledSource(w, inc).value)
    {
      var source := BundledSource(w, inc).value;
      if Unshadowed(w, table, d.city, source) { UnshadowedIsProvided(l, d.city, table, source); }
      if Provided(l, d.city, source) { ProvidedIsUnshadowed(l, d.city, table, source); }
    }
  }

  /** The same landings, but for what a binding named "" hides. */
  ghost predicate SameLandings(l: Landings, l': Landings) {
    l'.w == l.w && l'.pack == l.pack && l'.names == l.names
  }

  lemma SameFreshness(l: Landings, l': Landings, j: nat)
    requires SameLandings(l, l') && Valid(l, j + 1) && "" !in l.pack
    ensures IsFresh(l, j) <==> IsFresh(l', j)
  {
    assert forall i: nat :: i <= j ==> Landed(l', i) == Landed(l, i);
    assert Lands(l, j, Landed(l, j).source) <==> Lands(l', j, Landed(l, j).source);
  }

  lemma ForgetsIrrelevant(l: Landings, l': Landings)
    requires SameLandings(l, l') && Valid(l, 0) && Valid(l', 0) && "" !in l.pack
    ensures FreshOnes(l) == FreshOnes(l')
  {
    forall j: nat | j < |l.names| ensures IsFresh(l, j) <==> IsFresh(l', j) { SameFreshness(l, l', j); }
  }

  /** Unless pack.toml has a binding named "", no runtime order enters the condition. */
  lemma FixKeepsCityInAnyOrderIff(w: World, d: Disk, missing: seq<string>, packOrders: Orders, orders: Orders)
    requires Sane(w) && Fair(packOrders) && Fair(orders) && "" !in d.pack
    requires |FixStates(w, d, missing, packOrders, orders)| == 3
    ensures RoutesToKeep(w, d) <= CityRoutes(w, FixStates(w, d, missing, packOrders, orders)[2]) <==>
            AllProvided(LandingsOf(w, d, missing, packOrders).(forgets := _ => false), d.city)
  {
    var l := LandingsOf(w, d, missing, packOrders);
    var l' := l.(forgets := _ => false);
    FixKeepsCityIff(w, d, missing, packOrders, orders);
    forall inc | inc in d.city.includes && BundledSource(w, inc).Some?
      ensures Provided(l, d.city, BundledSource(w, inc).value) <==> Provided(l', d.city, BundledSource(w, inc).value)
    {
      ProvidedEitherWay(l, l', d.city, BundledSource(w, inc).value);
    }
  }

  lemma ProvidedEitherWay(l: Landings, l': Landings, city: Manifest, source: string)
    requires SameLandings(l, l') && Valid(l, |l.names|) && "" !in l.pack
    ensures Provided(l, city, source) <==> Provided(l', city, source)
  {
    ForgetsIrrelevant(l, l');
    forall i: nat | i < |l.names| ensures AddsFor(l, i, city, source) <==> AddsFor(l', i, city, source) {
      SameFreshness(l, l', i);
    }
  }

  /** city.toml binds no name that a landing could come up with, and overrides no default binding of a pack to be stripped. */
  ghost predicate KeepsClear(w: World, d: Disk, names: seq<string>) {
    && (forall n, b :: n in names && b in d.city.imports ==> !Spells(n, b))
    && (forall b, inc :: b in d.pack && b in d.city.imports && inc in d.city.includes && BundledSource(w, inc).Some? ==>
          ImportRoute(w, d.pack[b]) != IncludeRoute(w, inc))
  }

  lemma {:induction false} FirstLanding(l: Landings, j: nat) returns (i: nat)
    requires Valid(l, j + 1)
    ensures i <= j && Landed(l, i) == Landed(l, j) && !Lands(l, i, Landed(l, i).source)
    decreases j
  {
    if Lands(l, j, Landed(l, j).source) {
      var k: nat :| k < j && Landed(l, k).source == Landed(l, j).source;
      i := FirstLanding(l, k);
    } else {
      i := j;
    }
  }

  lemma ClearIsProvided(l: Landings, d: Disk, inc: string)
    requires Sane(l.w) && Valid(l, |l.names|) && l.pack == d.pack && KeepsClear(l.w, d, l.names)
    requires inc in d.city.includes && BundledSource(l.w, inc).Some? && l.w.packName(inc) in l.names
    ensures Provided(l, d.city, BundledSource(l.w, inc).value)
  {
    var j :| 0 <= j < |l.names| && l.names[j] == l.w.packName(inc);
    var i := FirstLanding(l, j);
    DenotesCanonical(l.w, l.names[i]);
    if IsFresh(l, i) {
      assert l.names[i] in l.names && Spells(l.names[i], FreshName(l, i));
      assert AddsFor(l, i, d.city, BundledSource(l.w, inc).value);
    } else {
      var b :| b in Pinned(l.pack, Landed(l, i)) + Unpinned(l.pack, Landed(l, i));
      assert ImportRoute(l.w, d.pack[b]) == IncludeRoute(l.w, inc);
    }
  }

  /** A check without any simulation of the landing: under KeepsClear the city scope is kept, in every order. */
  lemma FixKeepsCity(w: World, d: Disk, missing: seq<string>, packOrders: Orders, orders: Orders)
    requires Sane(w) && Fair(packOrders) && Fair(orders)
    requires |FixStates(w, d, missing, packOrders, orders)| == 3 && KeepsClear(w, d, NamesToLand(w, missing, d.city.includes))
    ensures RoutesToKeep(w, d) <= CityRoutes(w, FixStates(w, d, missing, packOrders, orders)[2])
  {
    var l := LandingsOf(w, d, missing, packOrders);
    FixKeepsCityIff(w, d, missing, packOrders, orders);
    NamesAreBundled(w, missing, d.city.includes);
    forall inc | inc in d.city.includes && BundledSource(w, inc).Some? ensures Provided(l, d.city, BundledSource(w, inc).value) {
      ClearIsProvided(l, d, inc);
    }
  }

  /** The default rig and every rig mean exactly the same in every state a crash could leave. */
  lemma FixKeepsRigs(w: World, d: Disk, missing: seq<string>, packOrders: Orders, orders: Orders, i: nat)
    requires Sane(w) && Fair(packOrders) && Fair(orders)
    requires i < |FixStates(w, d, missing, packOrders, orders)|
    ensures var city := FixStates(w, d, missing, packOrders, orders)[i].city;
            && ScopeRoutes(w, city.defaultRig) == ScopeRoutes(w, d.city.defaultRig)
            && SameMeanings(w, d.city.rigs, 0, city.rigs)
  {
    if i == 2 {
      ScopeMeaningPreserved(w, 0, d.city.defaultRig, orders);
      RigsMeaningPreserved(w, d.city.rigs, 0, orders);
    }
  }

  /** The family on which the city scope does lose a pack: pack.toml has no
      imports yet, and city.toml binds the include's pack name to anything else
      than that pack's default route. */
  lemma ShadowedPackIsLost(w: World, ref: string, other: Import, packOrders: Orders, orders: Orders)
    requires Sane(w) && Fair(packOrders) && Fair(orders)
    requires BundledSource(w, ref).Some? && ImportRoute(w, other) != IncludeRoute(w, ref)
    ensures var d := Disk(map[], Manifest(map[w.packName(ref) := other], [ref], Scope([], map[]), []));
            var states := FixStates(w, d, [], packOrders, orders);
            && |states| == 3
            && IncludeRoute(w, ref) in RoutesToKeep(w, d)
            && IncludeRoute(w, ref) !in CityRoutes(w, states[2])
  {
    var name, source := w.packName(ref), BundledSource(w, ref).value;
    var d := Disk(map[], Manifest(map[name := other], [ref], Scope([], map[]), []));
    assert NamesToLand(w, [], [ref]) == [name] by {
      assert [ref][..0] == [] && NamesToLand(w, [], []) == [];
    }
    var o := packOrders(0, 0, map[]);
    assert o == [] || o[0] in Elements(o);
    assert LandNames(w, d.pack, [name], 0, packOrders) == Ok(map[]);
    assert LandPack(w, d, [], packOrders) == Ok(map[name := BundledImport(w, source)]);
    var fixed := FixStates(w, d, [], packOrders, orders)[2];
    DenotesCanonical(w, name);
    assert w.isLegacy(ref) && ref != source;
    StrippedRouteVisible(w, d, fixed, ref);
  }

  // -------------------------------------------------- detector and fixer agree

  /** The surfaces the detector distinguishes. */
  datatype Surface = WorkspaceInclude | ScopeInclude | ImportSource

  /** The detector's verdict on a legacy reference of city.toml: fixed automatically, or left to the user. */
  predicate IsAutomatic(w: World, surface: Surface, ref: string) {
    match surface
    case WorkspaceInclude => BundledSource(w, ref).Some? || w.wave1(ref)
    case ScopeInclude => BundledSource(w, ref).Some?
    case ImportSource => !w.wave1(ref) && BundledSource(w, ref).Some?
  }

  /** The include list without the references the detector calls automatic, in order. */
  function WithoutAutomatic(w: World, surface: Surface, includes: seq<string>): seq<string> {
    if includes == [] then []
    else (if w.isLegacy(includes[0]) && IsAutomatic(w, surface, includes[0]) then [] else [includes[0]]) +
         WithoutAutomatic(w, surface, includes[1..])
  }

  /** Every import source the detector calls automatic has left the retired
      tree, every other source is as it was, and nothing new points there. */
  ghost predicate SourcesAgree(w: World, before: Imports, after: Imports) {
    && before.Keys <= after.Keys
    && (forall b :: b in before ==>
          if w.isLegacy(before[b].source) && IsAutomatic(w, ImportSource, before[b].source)
          then !w.isLegacy(after[b].source) else after[b].source == before[b].source)
    && (forall b :: b in after && b !in before ==> !w.isLegacy(after[b].source))
  }

  ghost predicate ScopeAgrees(w: World, before: Scope, after: Scope) {
    after.includes == WithoutAutomatic(w, ScopeInclude, before.includes) && SourcesAgree(w, before.imports, after.imports)
  }

  lemma RewriteAgrees(w: World, imports: Imports)
    requires Sane(w)
    ensures SourcesAgree(w, imports, RewriteSources(w, imports))
  {
  }

  lemma {:induction false} ConvertAgrees(w: World, s: nat, includes: seq<string>, k: nat, imports: Imports, orders: Orders)
    requires Sane(w) && Fair(orders) && k <= |includes| && ConvertIncludes(w, s, includes, k, imports, orders).Ok?
    ensures var after := ConvertIncludes(w, s, includes, k, imports, orders).value;
            && after.includes == WithoutAutomatic(w, ScopeInclude, includes[k..])
            && imports.Keys <= after.imports.Keys
            && (forall b :: b in imports ==> after.imports[b].source == imports[b].source)
            && (forall b :: b in after.imports && b !in imports ==> !w.isLegacy(after.imports[b].source))
    decreases |includes| - k
  {
    if k < |includes| {
      var inc := includes[k];
      assert includes[k..][1..] == includes[k + 1..];
      if BundledSource(w, inc).None? {
        ConvertAgrees(w, s, includes, k + 1, imports, orders);
      } else {
        var imp := BundledImport(w, BundledSource(w, inc).value);
        var o := orders(s, k, imports);
        DenotesCanonical(w, w.packName(inc));
        LandSucceeds(imports, w.packName(inc), imp, o);
        ConvertAgrees(w, s, includes, k + 1, Land(imports, w.packName(inc), imp, o).value, orders);
      }
    }
  }

  lemma ScopeMigrationAgrees(w: World, s: nat, scope: Scope, orders: Orders)
    requires Sane(w) && Fair(orders) && MigrateScope(w, s, scope, orders).Ok?
    ensures ScopeAgrees(w, scope, MigrateScope(w, s, scope, orders).value)
  {
    RewriteAgrees(w, scope.imports);
    ConvertAgrees(w, s, scope.includes, 0, RewriteSources(w, scope.imports), orders);
    assert scope.includes[0..] == scope.includes;
  }

  lemma {:induction false} StripAgrees(w: World, includes: seq<string>)
    ensures StripWorkspace(w, includes) == WithoutAutomatic(w, WorkspaceInclude, includes)
  {
    if includes != [] { StripAgrees(w, includes[1..]); }
  }

  /** A successful migration removes exactly the references of city.toml that
      the detector calls automatic and keeps every one it calls manual. */
  lemma FixerMatchesDetector(w: World, m: Manifest, orders: Orders)
    requires Sane(w) && Fair(orders) && Migrate(w, m, orders).Ok?
    ensures var after := Migrate(w, m, orders).value;
            && SourcesAgree(w, m.imports, after.imports)
            && after.includes == WithoutAutomatic(w, WorkspaceInclude, m.includes)
            && ScopeAgrees(w, m.defaultRig, after.defaultRig)
            && |after.rigs| == |m.rigs|
            && forall i :: 0 <= i < |m.rigs| ==> ScopeAgrees(w, m.rigs[i], after.rigs[i])
  {
    RewriteAgrees(w, m.imports);
    StripAgrees(w, m.includes);
    ScopeMigrationAgrees(w, 0, m.defaultRig, orders);
    RigsMigrated(w, m.rigs, 0, orders);
    forall i | 0 <= i < |m.rigs| ensures ScopeAgrees(w, m.rigs[i], MigrateRigs(w, m.rigs, 0, orders).value[i]) {
      assert MigrateScope(w, i + 1, m.rigs[i], orders) == Ok(MigrateRigs(w, m.rigs, 0, orders).value[i]);
      ScopeMigrationAgrees(w, i + 1, m.rigs[i], orders);
    }
  }

  // ----------------------------------------------------------- a second migration

  lemma {:induction false} WithoutAutomaticHasNone(w: World, surface: Surface, includes: seq<string>)
    ensures forall inc :: inc in WithoutAutomatic(w, surface, includes) ==> !(w.isLegacy(inc) && IsAutomatic(w, surface, inc))
  {
    if includes != [] { WithoutAutomaticHasNone(w, surface, includes[1..]); }
  }

  lemma ScopeSettled(w: World, before: Scope, after: Scope)
    requires Sane(w) && ScopeAgrees(w, before, after)
    ensures !ScopeChanges(w, after)
  {
    WithoutAutomaticHasNone(w, ScopeInclude, before.includes);
  }

  lemma {:induction false} ConvertNothing(w: World, s: nat, includes: seq<string>, k: nat, imports: Imports, orders: Orders)
    requires Fair(orders) && k <= |includes| && forall inc :: inc in includes ==> BundledSource(w, inc).None?
    ensures ConvertIncludes(w, s, includes, k, imports, orders) == Ok(Scope(includes[k..], imports))
    decreases |includes| - k
  {
    if k < |includes| {
      ConvertNothing(w, s, includes, k + 1, imports, orders);
      assert includes[k..] == [includes[k]] + includes[k + 1..];
    } else {
      assert includes[k..] == [];
    }
  }

  lemma ScopeUnchanged(w: World, s: nat, scope: Scope, orders: Orders)
    requires Fair(orders) && !ScopeChanges(w, scope)
    ensures MigrateScope(w, s, scope, orders) == Ok(scope)
  {
    assert RewriteSources(w, scope.imports) == scope.imports;
    ConvertNothing(w, s, scope.includes, 0, scope.imports, orders);
    assert scope.includes[0..] == scope.includes;
  }

  lemma {:induction false} RigsUnchanged(w: World, rigs: seq<Scope>, i: nat, orders: Orders)
    requires Fair(orders) && i <= |rigs| && forall j :: 0 <= j < |rigs| ==> !ScopeChanges(w, rigs[j])
    ensures MigrateRigs(w, rigs, i, orders) == Ok(rigs[i..])
    decreases |rigs| - i
  {
    if i < |rigs| {
      ScopeUnchanged(w, i + 1, rigs[i], orders);
      RigsUnchanged(w, rigs, i + 1, orders);
      assert rigs[i..] == [rigs[i]] + rigs[i + 1..];
    } else {
      assert rigs[i..] == [];
    }
  }

  lemma {:induction false} StripNothing(w: World, includes: seq<string>)
    requires forall inc :: inc in includes ==> !StripsInclude(w, inc)
    ensures StripWorkspace(w, includes) == includes
  {
    if includes != [] { StripNothing(w, includes[1..]); }
  }

  /** A migration that reports no change leaves the manifest alone. */
  lemma UnreportedMeansUnchanged(w: World, m: Manifest, orders: Orders)
    requires Fair(orders) && !Changes(w, m)
    ensures Migrate(w, m, orders) == Ok(m)
  {
    assert RewriteSources(w, m.imports) == m.imports;
    StripNothing(w, m.includes);
    ScopeUnchanged(w, 0, m.defaultRig, orders);
    RigsUnchanged(w, m.rigs, 0, orders);
    assert m.rigs[0..] == m.rigs;
  }

  /** After a successful migration a second one, in any order, succeeds, reports no change and makes none. */
  lemma SecondMigrationIsIdle(w: World, m: Manifest, orders: Orders, orders': Orders)
    requires Sane(w) && Fair(orders) && Fair(orders') && Migrate(w, m, orders).Ok?
    ensures var after := Migrate(w, m, orders).value;
            !Changes(w, after) && Migrate(w, after, orders') == Ok(after)
  {
    var after := Migrate(w, m, orders).value;
    FixerMatchesDetector(w, m, orders);
    WithoutAutomaticHasNone(w, WorkspaceInclude, m.includes);
    ScopeSettled(w, m.defaultRig, after.defaultRig);
    forall i | 0 <= i < |m.rigs| ensures !ScopeChanges(w, after.rigs[i]) { ScopeSettled(w, m.rigs[i], after.rigs[i]); }
    UnreportedMeansUnchanged(w, after, orders');
  }

  // ------------------------------------------------------ the manifest in place

  /** The decoded city.toml that the doctor edits in place. */
  class CityManifest {
    var imports: Imports
    var includes: seq<string>
    var defaultRig: Scope
    var rigs: seq<Scope>

    function Contents(): Manifest
      reads this
    {
      Manifest(imports, includes, defaultRig, rigs)
    }

    constructor (m: Manifest)
      ensures Contents() == m
    {
      imports, includes, defaultRig, rigs := m.imports, m.includes, m.defaultRig, m.rigs;
    }

    /** Strips the workspace includes that have a replacement. */
    method StripIncludes(w: World) returns (changed: bool)
      modifies this`includes
      ensures includes == StripWorkspace(w, old(includes))
      ensures changed <==> exists inc :: inc in old(includes) && StripsInclude(w, inc)
    {
      var kept: seq<string> := [];
      changed := false;
      for i := 0 to |includes|
        invariant includes == old(includes)
        invariant kept + StripWorkspace(w, includes[i..]) == StripWorkspace(w, includes)
        invariant changed <==> exists k :: 0 <= k < i && StripsInclude(w, includes[k])
      {
        StripFrom(w, includes, i, kept);
        if StripsInclude(w, includes[i]) { changed := true; } else { kept := kept + [includes[i]]; }
      }
      assert includes[|includes|..] == [];
      includes := kept;
    }

    /** Edits the manifest; on an error the caller discards it unwritten. */
    method MigrateLegacyRefs(w: World, orders: Orders) returns (result: Result<bool, string>)
      requires Fair(orders)
      modifies this
      ensures match Migrate(w, old(Contents()), orders)
              case Ok(m) => Contents() == m && result == Ok(Changes(w, old(Contents())))
              case Err(e) => result == Err(e)
    {
      var rewritten := exists b | b in imports :: RewritesSource(w, imports[b].source);
      imports := RewriteSources(w, imports);
      var stripped := StripIncludes(w);
      var converted, rig := ConvertScope(w, 0, defaultRig, orders);
      if rig.Err? { return Err(rig.error); }
      defaultRig := rig.value;
      var touched, migrated := ConvertRigs(w, rigs, orders);
      if migrated.Err? { return Err(migrated.error); }
      rigs := migrated.value;
      result := Ok(rewritten || stripped || converted || touched);
    }
  }

  lemma StripFrom(w: World, includes: seq<string>, i: nat, kept: seq<string>)
    requires i < |includes|
    ensures kept + StripWorkspace(w, includes[i..]) ==
            (if StripsInclude(w, includes[i]) then kept else kept + [includes[i]]) + StripWorkspace(w, includes[i + 1..])
  {
    assert includes[i..][1..] == includes[i + 1..];
  }

  /** What was kept so far, in front of what the rest becomes. */
  ghost function KeptBefore(kept: seq<string>, rest: Result<Scope, string>): Result<Scope, string> {
    match rest
    case Ok(scope) => Ok(scope.(includes := kept + scope.includes))
    case Err(e) => Err(e)
  }

  lemma KeptStart(rest: Result<Scope, string>)
    ensures KeptBefore([], rest) == rest
  {
    if rest.Ok? { assert [] + rest.value.includes == rest.value.includes; }
  }

  lemma KeptNext(kept: seq<string>, inc: string, rest: Result<Scope, string>)
    ensures KeptBefore(kept + [inc], rest) == KeptBefore(kept, KeptBefore([inc], rest))
  {
    if rest.Ok? { assert (kept + [inc]) + rest.value.includes == kept + ([inc] + rest.value.includes); }
  }

  /** Relocates the sources of one scope, then converts its includes one by one. */
  method ConvertScope(w: World, s: nat, scope: Scope, orders: Orders) returns (changed: bool, result: Result<Scope, string>)
    requires Fair(orders)
    ensures result == MigrateScope(w, s, scope, orders)
    ensures result.Ok? ==> (changed <==> ScopeChanges(w, scope))
  {
    var includes := scope.includes;
    var rewritten := exists b | b in scope.imports :: RewritesSource(w, scope.imports[b].source);
    var imports, kept, converted := RewriteSources(w, scope.imports), [], false;
    KeptStart(MigrateScope(w, s, scope, orders));
    for k := 0 to |includes|
      invariant KeptBefore(kept, ConvertIncludes(w, s, includes, k, imports, orders)) == MigrateScope(w, s, scope, orders)
      invariant converted <==> exists j :: 0 <= j < k && BundledSource(w, includes[j]).Some?
    {
      var source := BundledSource(w, includes[k]);
      if source.None? {
        KeptNext(kept, includes[k], ConvertIncludes(w, s, includes, k + 1, imports, orders));
        kept := kept + [includes[k]];
      } else {
        var landed := EnsureBundledBinding(imports, w.packName(includes[k]), BundledImport(w, source.value), orders(s, k, imports));
        if landed.Err? { return true, Err(landed.error); }
        imports, converted := landed.value, true;
      }
    }
    assert kept + [] == kept;
    changed, result := rewritten || converted, Ok(Scope(kept, imports));
  }

  /** The rigs done so far, in front of what the rest becomes. */
  ghost function RigsBefore(done: seq<Scope>, rest: Result<seq<Scope>, string>): Result<seq<Scope>, string> {
    match rest
    case Ok(rigs) => Ok(done + rigs)
    case Err(e) => Err(e)
  }

  lemma RigsStart(rest: Result<seq<Scope>, string>)
    ensures RigsBefore([], rest) == rest
  {
    if rest.Ok? { assert [] + rest.value == rest.value; }
  }

  lemma RigsNext(w: World, rigs: seq<Scope>, i: nat, orders: Orders, done: seq<Scope>, rig: Scope)
    requires Fair(orders) && i < |rigs| && MigrateScope(w, i + 1, rigs[i], orders) == Ok(rig)
    ensures RigsBefore(done + [rig], MigrateRigs(w, rigs, i + 1, orders)) == RigsBefore(done, MigrateRigs(w, rigs, i, orders))
  {
    var rest := MigrateRigs(w, rigs, i + 1, orders);
    if rest.Ok? { assert (done + [rig]) + rest.value == done + ([rig] + rest.value); }
  }

  lemma RigsFail(w: World, rigs: seq<Scope>, i: nat, orders: Orders, done: seq<Scope>)
    requires Fair(orders) && i < |rigs| && MigrateScope(w, i + 1, rigs[i], orders).Err?
    ensures RigsBefore(done, MigrateRigs(w, rigs, i, orders)) == Err(MigrateScope(w, i + 1, rigs[i], orders).error)
  {
  }

  ghost predicate RigChanges(w: World, rigs: seq<Scope>, n: nat)
    requires n <= |rigs|
  {
    n > 0 && (RigChanges(w, rigs, n - 1) || ScopeChanges(w, rigs[n - 1]))
  }

  lemma {:induction false} RigChangesIff(w: World, rigs: seq<Scope>, n: nat)
    requires n <= |rigs|
    ensures RigChanges(w, rigs, n) <==> exists i :: 0 <= i < n && ScopeChanges(w, rigs[i])
  {
    if n > 0 { RigChangesIff(w, rigs, n - 1); }
  }

  method ConvertRigs(w: World, rigs: seq<Scope>, orders: Orders) returns (changed: bool, result: Result<seq<Scope>, string>)
    requires Fair(orders)
    ensures result == MigrateRigs(w, rigs, 0, orders)
    ensures result.Ok? ==> (changed <==> exists i :: 0 <= i < |rigs| && ScopeChanges(w, rigs[i]))
  {
    var done: seq<Scope> := [];
    changed := false;
    RigsStart(MigrateRigs(w, rigs, 0, orders));
    for i := 0 to |rigs|
      invariant RigsBefore(done, MigrateRigs(w, rigs, i, orders)) == MigrateRigs(w, rigs, 0, orders)
      invariant changed <==> RigChanges(w, rigs, i)
    {
      var touched, rig := ConvertScope(w, i + 1, rigs[i], orders);
      if rig.Err? {
        RigsFail(w, rigs, i, orders, done);
        return changed, Err(rig.error);
      }
      RigsNext(w, rigs, i, orders, done, rig.value);
      done, changed := done + [rig.value], changed || touched;
    }
    assert done + [] == done;
    RigChangesIff(w, rigs, |rigs|);
    result := Ok(done);
  }
}
