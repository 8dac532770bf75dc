/**
 The city registry: mutable maps behind a lock, and a snapshot published after
 every mutation that readers use without one (cmd/gc/city_registry.go).
 */
module CityRegistry {
  import opened Common

  const GENERATIONS: nat := 0x1_0000_0000_0000_0000

  /** `state` is the handle of the city's API state (None before it has one). */
  datatype City = City(name: string, started: bool, status: string, state: Option<nat>, tombstoned: bool)

  datatype Progress = Progress(name: string, status: string)

  datatype Failure = Failure(lastError: string)

  datatype Panic = Panic(count: nat)

  /** The maps the lock protects, keyed by city path. */
  datatype Maps = Maps(cities: map<string, City>, init: map<string, Progress>, failures: map<string, Failure>, panics: map<string, Panic>)

  const EMPTY := Maps(map[], map[], map[], map[])

  /** A read-only copy of what is known about one city. */
  datatype View = View(name: string, path: string, started: bool, status: string, state: Option<nat>, tombstoned: bool,
                       init: Option<Progress>, failure: Option<Failure>, panic: Option<Panic>)

  function Lookup<V>(m: map<string, V>, k: string): Option<V> {
    if k in m then Some(m[k]) else None
  }

  // --------------------------------------------------------------- the views

  function CityView(m: Maps, path: string): View
    requires path in m.cities
  {
    var c := m.cities[path];
    View(c.name, path, c.started, c.status, c.state, c.tombstoned, Lookup(m.init, path), Lookup(m.failures, path), Lookup(m.panics, path))
  }

  function InitView(m: Maps, path: string): View
    requires path in m.init
  {
    View(m.init[path].name, path, false, m.init[path].status, None, false, Some(m.init[path]), None, None)
  }

  function TrimSlashes(s: string): string {
    if s != "" && s[|s| - 1] == '/' then TrimSlashes(s[..|s| - 1]) else s
  }

  function AfterSlash(s: string): string {
    if s == "" || s[|s| - 1] == '/' then "" else AfterSlash(s[..|s| - 1]) + [s[|s| - 1]]
  }

  /** filepath.Base. */
  function Base(path: string): string {
    if path == "" then "." else if TrimSlashes(path) == "" then "/" else AfterSlash(TrimSlashes(path))
  }

  function Slashes(n: nat): string {
    seq(n, _ => '/')
  }

  lemma {:induction false} TrimmedSlashes(s: string, n: nat)
    requires s == "" || s[|s| - 1] != '/'
    ensures TrimSlashes(s + Slashes(n)) == s
  {
    if n > 0 {
      TrimmedSlashes(s, n - 1);
      assert (s + Slashes(n))[..|s| + n - 1] == s + Slashes(n - 1);
    } else {
      assert s + Slashes(0) == s;
    }
  }

  lemma AfterSlashNext(s: string, ch: char)
    requires ch != '/'
    ensures AfterSlash(s + [ch]) == AfterSlash(s) + [ch]
  {
    assert (s + [ch])[..|s|] == s;
  }

  lemma {:induction false} AfterLastSlash(head: string, name: string)
    requires '/' !in name && (head == "" || head[|head| - 1] == '/')
    ensures AfterSlash(head + name) == name
  {
    if name == "" {
      assert head + name == head;
    } else {
      var init, ch := name[..|name| - 1], name[|name| - 1];
      AfterLastSlash(head, init);
      AfterSlashNext(head + init, ch);
      assert name == init + [ch] && head + name == head + init + [ch];
    }
  }

  /** The base of a path is its last name, however many slashes follow; "." for
      the empty path and "/" for one of slashes only. */
  lemma BaseTells(head: string, name: string, n: nat)
    requires name != "" && '/' !in name && (head == "" || head[|head| - 1] == '/')
    ensures Base(head + name + Slashes(n)) == name
    ensures Base("") == "." && Base(Slashes(n + 1)) == "/"
  {
    assert (head + name)[|head + name| - 1] == name[|name| - 1];
    TrimmedSlashes(head + name, n);
    AfterLastSlash(head, name);
    TrimmedSlashes("", n + 1);
    assert "" + Slashes(n + 1) == Slashes(n + 1);
  }

  function FailureView(m: Maps, path: string): View
    requires path in m.failures
  {
    View(Base(path), path, false, "init_failed", None, false, None, Some(m.failures[path]), None)
  }

  function Paths(m: Maps): set<string> {
    m.cities.Keys + m.init.Keys + m.failures.Keys
  }

  /** One view per path: a managed city comes before its initialization, that before its failure. */
  function ViewAt(m: Maps, path: string): View
    requires path in Paths(m)
  {
    if path in m.cities then CityView(m, path) else if path in m.init then InitView(m, path) else FailureView(m, path)
  }

  // ------------------------------------------------------------ the snapshot

  datatype Snapshot = Snapshot(byName: map<string, View>, byPath: map<string, View>, all: seq<View>, gen: nat)

  /** A path that is only initializing. */
  predicate InitOnly(m: Maps, path: string) {
    path in m.init && path !in m.cities
  }

  predicate HasName(m: Maps, path: string, name: string) {
    if path in m.cities then m.cities[path].name == name else path in m.init && m.init[path].name == name
  }

  /** The entry that may answer to `name`: an initializing city displaces a managed one of the same name. */
  predicate MayAnswer(m: Maps, path: string, name: string) {
    HasName(m, path, name) && (path in m.cities ==> forall q | q in m.init :: !(InitOnly(m, q) && HasName(m, q, name)))
  }

  /** `v` is the view of an entry that may answer to `name`. */
  ghost predicate Answers(m: Maps, v: View, name: string) {
    v.path in Paths(m) && MayAnswer(m, v.path, name) && v == ViewAt(m, v.path)
  }

  /** Every known path once, under the stated precedence. */
  ghost predicate ShowsPaths(byPath: map<string, View>, all: seq<View>, m: Maps) {
    && byPath == (map p | p in Paths(m) :: ViewAt(m, p))
    && Distinct(all) && (forall v :: v in all <==> v.path in byPath && byPath[v.path] == v)
  }

  /** Names, as far as the maps rather than their iteration order decide them. */
  ghost predicate ShowsNames(byName: map<string, View>, m: Maps) {
    && (forall n :: n in byName <==> n in Names(m))
    && (forall n :: n in byName ==> Answers(m, byName[n], n))
  }

  /** The snapshot shows exactly the maps. */
  ghost predicate Shows(s: Snapshot, m: Maps) {
    ShowsPaths(s.byPath, s.all, m) && ShowsNames(s.byName, m)
  }

  /** The names of the managed cities and of those only initializing. */
  ghost function Names(m: Maps): set<string> {
    (set p | p in m.cities :: m.cities[p].name) + (set p | p in m.init && p !in m.cities :: m.init[p].name)
  }

  /** CityState: the API state behind a name, if that city is up. */
  function StateOf(s: Snapshot, name: string): Option<nat> {
    if name !in s.byName then None
    else
      var v := s.byName[name];
      if v.tombstoned || !v.started then None else v.state
  }

  /** The state a managed city at `path` offers. */
  function Offers(m: Maps, path: string): Option<nat>
    requires path in m.cities
  {
    var c := m.cities[path];
    if c.tombstoned || !c.started then None else c.state
  }

  // -------------------------------------------------------------- mutations

  /** `Update` runs a callback on one city, `Batch` one on all the maps. */
  datatype Op = Add(path: string, city: City) | Remove(path: string) | Update(path: string, change: City -> City) | Batch(edit: Maps -> Maps)

  function Apply(m: Maps, op: Op): Maps {
    match op
    case Add(p, c) => m.(cities := m.cities[p := c])
    case Remove(p) => Maps(m.cities - {p}, m.init - {p}, m.failures - {p}, m.panics - {p})
    case Update(p, change) => if p in m.cities then m.(cities := m.cities[p := change(m.cities[p])]) else m
    case Batch(edit) => edit(m)
  }

  /** Every operation rebuilds the snapshot, except an update of an unknown city. */
  predicate Rebuilds(m: Maps, op: Op) {
    op.Update? ==> op.path in m.cities
  }

  /** The maps after the first `n` operations. */
  function MapsAfter(ops: seq<Op>, n: nat): Maps
    requires n <= |ops|
  {
    if n == 0 then EMPTY else Apply(MapsAfter(ops, n - 1), ops[n - 1])
  }

  predicate RebuildsAt(ops: seq<Op>, k: nat)
    requires k < |ops|
  {
    Rebuilds(MapsAfter(ops, k), ops[k])
  }

  /** How many of the first `n` operations rebuild the snapshot. */
  function RebuildsIn(ops: seq<Op>, n: nat): nat
    requires n <= |ops|
  {
    if n == 0 then 0 else RebuildsIn(ops, n - 1) + if RebuildsAt(ops, n - 1) then 1 else 0
  }

  /** After Remove no trace of the path is left, and nothing else moved. */
  lemma RemoveForgets(m: Maps, path: string)
    ensures var after := Apply(m, Remove(path));
            Paths(after) == Paths(m) - {path} && forall p :: p in Paths(after) ==> ViewAt(after, p) == ViewAt(m, p)
  {
    var after := Apply(m, Remove(path));
    assert Paths(after) == Paths(m) - {path} by {
      assert after.cities.Keys == m.cities.Keys - {path};
      assert after.init.Keys == m.init.Keys - {path};
      assert after.failures.Keys == m.failures.Keys - {path};
    }
    forall p | p in Paths(after) ensures ViewAt(after, p) == ViewAt(m, p) {
      OthersStay(m, path, p);
    }
  }

  lemma OthersStay(m: Maps, path: string, p: string)
    requires p != path && p in Paths(m)
    ensures var after := Apply(m, Remove(path)); p in Paths(after) && ViewAt(after, p) == ViewAt(m, p)
  {
  }

  // ------------------------------------------------------------- the registry

  /** A snapshot as an object readers hold on to. */
  class Published {
    var data: Snapshot

    constructor (data: Snapshot)
      ensures this.data == data
    {
      this.data := data;
    }
  }

  class Registry {
    var maps: Maps
    var gen: nat
    var current: Published

    ghost predicate Valid()
      reads this, current
    {
      IsRebuild(current.data, maps) && current.data.gen == gen < GENERATIONS
    }

    constructor ()
      ensures Valid() && maps == EMPTY && gen == 0 && fresh(current)
    {
      maps, gen := EMPTY, 0;
      current := new Published(Snapshot(map[], map[], [], 0));
      new;
      assert RebuildOrder(maps, Start) && current.data == SnapshotOf(maps, Start, 0);
    }

    /** rebuildSnapshotLocked: three loops over the maps, each in the runtime's order. */
    method Rebuild()
      requires gen < GENERATIONS
      modifies this`gen, this`current
      ensures Valid() && fresh(current) && gen == (old(gen) + 1) % GENERATIONS
    {
      gen := (gen + 1) % GENERATIONS;
      var draft, order := AddCities(maps);
      draft, order := AddInitializing(maps, draft, order);
      draft, order := AddFailures(maps, draft, order);
      assert RebuildOrder(maps, order);
      current := new Published(Snapshot(draft.byName, draft.byPath, draft.all, gen));
    }

    method Perform(op: Op)
      requires Valid()
      modifies this
      ensures Valid() && maps == Apply(old(maps), op)
      ensures if Rebuilds(old(maps), op) then fresh(current) && gen == (old(gen) + 1) % GENERATIONS
              else current == old(current) && gen == old(gen)
    {
      if op.Update? && op.path !in maps.cities { return; }
      maps := Apply(maps, op);
      Rebuild();
    }
  }

  // -------------------------------------------------------------- the rebuild

  /** A snapshot being filled. */
  datatype Draft = Draft(byName: map<string, View>, byPath: map<string, View>, all: seq<View>)

  function Place(d: Draft, v: View, named: bool): Draft {
    Draft(if named then d.byName[v.name := v] else d.byName, d.byPath[v.path := v], d.all + [v])
  }

  predicate Named(m: Maps, p: string) {
    p in m.cities || p in m.init
  }

  /** The order in which the loops come to place the paths. */
  datatype Order = Start | Then(init: Order, path: string)

  function Placed(order: Order): set<string> {
    match order
    case Start => {}
    case Then(init, p) => Placed(init) + {p}
  }

  /** Which of the three loops places the path. */
  function Section(m: Maps, p: string): nat {
    if p in m.cities then 0 else if p in m.init then 1 else 2
  }

  /** `p` is a known path not placed yet, and no path of a later loop is. */
  ghost predicate MayFollow(m: Maps, order: Order, p: string) {
    p in Paths(m) && p !in Placed(order) && forall q :: q in Placed(order) ==> Section(m, q) <= Section(m, p)
  }

  /** Known paths, none twice, loop by loop. */
  ghost predicate Orderly(m: Maps, order: Order) {
    match order
    case Start => true
    case Then(init, p) => Orderly(m, init) && MayFollow(m, init, p)
  }

  /** The draft after the paths of `order` have been placed one by one. */
  ghost function Fill(m: Maps, order: Order): Draft
    requires Orderly(m, order)
  {
    match order
    case Start => Draft(map[], map[], [])
    case Then(init, p) => Place(Fill(m, init), ViewAt(m, p), Named(m, p))
  }

  /** An order in which the three loops can place all paths. */
  ghost predicate RebuildOrder(m: Maps, order: Order) {
    Orderly(m, order) && Placed(order) == Paths(m)
  }

  ghost function SnapshotOf(m: Maps, order: Order, gen: nat): Snapshot
    requires Orderly(m, order)
  {
    var d := Fill(m, order);
    Snapshot(d.byName, d.byPath, d.all, gen)
  }

  /** A snapshot that a rebuild can publish, for some iteration order of the maps. */
  ghost predicate IsRebuild(s: Snapshot, m: Maps) {
    exists order :: RebuildOrder(m, order) && s == SnapshotOf(m, order, s.gen)
  }

  lemma {:induction false} FillPaths(m: Maps, order: Order)
    requires Orderly(m, order)
    ensures Placed(order) <= Paths(m)
    ensures Fill(m, order).byPath == map p | p in Placed(order) :: ViewAt(m, p)
  {
    if order.Then? {
      FillPaths(m, order.init);
      assert ViewAt(m, order.path).path == order.path;
    }
  }

  lemma {:induction false} FillAll(m: Maps, order: Order)
    requires Orderly(m, order)
    ensures Distinct(Fill(m, order).all)
    ensures forall v :: v in Fill(m, order).all <==> v.path in Placed(order) && v.path in Paths(m) && v == ViewAt(m, v.path)
  {
    if order.Then? {
      FillAll(m, order.init);
      var v := ViewAt(m, order.path);
      assert v.path == order.path && v !in Fill(m, order.init).all;
    }
  }

  /** The entry behind `v` answers to `n` among those placed. */
  ghost predicate AnswersAmong(m: Maps, placed: set<string>, v: View, n: string) {
    && v.path in placed && v.path in Paths(m) && v == ViewAt(m, v.path) && HasName(m, v.path, n)
    && (v.path in m.cities ==> forall q :: q in placed && InitOnly(m, q) ==> !HasName(m, q, n))
  }

  lemma {:induction false} FillNames(m: Maps, order: Order, n: string)
    requires Orderly(m, order)
    ensures n in Fill(m, order).byName <==> exists p :: p in Placed(order) && HasName(m, p, n)
    ensures n in Fill(m, order).byName ==> AnswersAmong(m, Placed(order), Fill(m, order).byName[n], n)
  {
    if order.Then? {
      var init, p := order.init, order.path;
      FillNames(m, init, n);
      assert HasName(m, p, n) <==> Named(m, p) && ViewAt(m, p).name == n;
      if n in Fill(m, order).byName && !HasName(m, p, n) {
        var q :| q in Placed(init) && HasName(m, q, n);
        assert q in Placed(order);
      }
    }
  }

  lemma FilledNames(m: Maps, order: Order)
    requires RebuildOrder(m, order)
    ensures ShowsNames(Fill(m, order).byName, m)
  {
    var byName := Fill(m, order).byName;
    forall n ensures n in byName <==> n in Names(m) ensures n in byName ==> Answers(m, byName[n], n) {
      FillNames(m, order, n);
      NamesIff(m, n);
    }
  }

  /** Every snapshot a rebuild publishes shows exactly the maps. */
  lemma RebuildShows(s: Snapshot, m: Maps)
    requires IsRebuild(s, m)
    ensures Shows(s, m)
  {
    var order :| RebuildOrder(m, order) && s == SnapshotOf(m, order, s.gen);
    FillPaths(m, order);
    FillAll(m, order);
    FilledNames(m, order);
  }

  /** What the map holds under the key, if anything. */
  ghost predicate IsEntry<V>(entry: Option<V>, m: map<string, V>, k: string) {
    (k in m ==> entry == Some(m[k])) && (k !in m ==> entry == None)
  }

  /** What the view of a path tells: a managed city's own fields, whatever the
      other maps hold; else how far its initialization got; else its failure. */
  lemma ViewTells(m: Maps, p: string)
    requires p in Paths(m)
    ensures var v := ViewAt(m, p);
            && v.path == p
            && (p in m.cities ==> City(v.name, v.started, v.status, v.state, v.tombstoned) == m.cities[p])
            && (p in m.cities ==> IsEntry(v.init, m.init, p) && IsEntry(v.failure, m.failures, p) && IsEntry(v.panic, m.panics, p))
            && (p !in m.cities ==> !v.started && !v.tombstoned && v.state == None && v.panic == None)
            && (p !in m.cities && p in m.init ==> Progress(v.name, v.status) == m.init[p] && v.init == Some(m.init[p]) && v.failure == None)
            && (p !in m.cities && p !in m.init ==> v.name == Base(p) && v.status == "init_failed" && v.failure == Some(m.failures[p]) && v.init == None)
  {
  }

  /** The snapshot shows `city` at `path`, with what the other maps say of that
      path, and every other path as before. */
  ghost predicate ShowsCity(s: Snapshot, m: Maps, path: string, city: City) {
    && s.byPath.Keys == Paths(m) + {path}
    && s.byPath[path] == View(city.name, path, city.started, city.status, city.state, city.tombstoned,
                              Lookup(m.init, path), Lookup(m.failures, path), Lookup(m.panics, path))
    && forall q :: q in Paths(m) && q != path ==> s.byPath[q] == ViewAt(m, q)
  }

  lemma RebuiltPath(s: Snapshot, m: Maps, q: string)
    requires IsRebuild(s, m)
    ensures q in s.byPath <==> q in Paths(m)
    ensures q in Paths(m) ==> s.byPath[q] == ViewAt(m, q)
  {
    RebuildShows(s, m);
  }

  /** Setting one city moves no other path. */
  lemma CitySet(m: Maps, path: string, city: City, q: string)
    ensures var after := m.(cities := m.cities[path := city]);
            && (q in Paths(after) <==> q in Paths(m) || q == path)
            && (q in Paths(m) && q != path ==> ViewAt(after, q) == ViewAt(m, q))
            && (q == path ==> ViewAt(after, q) == View(city.name, path, city.started, city.status, city.state, city.tombstoned,
                                                       Lookup(m.init, path), Lookup(m.failures, path), Lookup(m.panics, path)))
  {
  }

  lemma SetShows(m: Maps, path: string, city: City, s: Snapshot)
    requires IsRebuild(s, m.(cities := m.cities[path := city]))
    ensures ShowsCity(s, m, path, city)
  {
    forall q
      ensures q in s.byPath <==> q in Paths(m) + {path}
      ensures q in Paths(m) && q != path ==> s.byPath[q] == ViewAt(m, q)
    {
      RebuiltPath(s, m.(cities := m.cities[path := city]), q);
      CitySet(m, path, city, q);
    }
    RebuiltPath(s, m.(cities := m.cities[path := city]), path);
    CitySet(m, path, city, path);
  }

  /** Every snapshot published after Add shows the city at its path, and moves no other path. */
  lemma AddShows(m: Maps, path: string, city: City, s: Snapshot)
    requires IsRebuild(s, Apply(m, Add(path, city)))
    ensures ShowsCity(s, m, path, city)
  {
    SetShows(m, path, city, s);
  }

  /** So does every one after the update of a known city; an unknown one stays unknown and nothing is published. */
  lemma UpdateShows(m: Maps, path: string, change: City -> City, s: Snapshot)
    requires IsRebuild(s, Apply(m, Update(path, change)))
    ensures path in m.cities ==> Rebuilds(m, Update(path, change)) && ShowsCity(s, m, path, change(m.cities[path]))
    ensures path !in m.cities ==> !Rebuilds(m, Update(path, change)) && Apply(m, Update(path, change)) == m
  {
    if path in m.cities { SetShows(m, path, change(m.cities[path]), s); }
  }

  lemma NamesIff(m: Maps, n: string)
    ensures n in Names(m) <==> exists p :: p in Paths(m) && HasName(m, p, n)
  {
    if p :| p in Paths(m) && HasName(m, p, n) {
      assert p in m.cities || InitOnly(m, p);
    }
    if n in Names(m) {
      if p :| p in m.cities && m.cities[p].name == n {
        assert HasName(m, p, n);
      } else {
        var p :| p in m.init && p !in m.cities && m.init[p].name == n;
        assert HasName(m, p, n);
      }
    }
  }

  /** The draft holds the paths of `done`, placed loop by loop. */
  ghost predicate Drafted(m: Maps, d: Draft, order: Order, done: set<string>) {
    Orderly(m, order) && Placed(order) == done && d == Fill(m, order)
  }

  /** Visiting `p` in its loop: placed unless it is there already. */
  lemma NextPath(m: Maps, d: Draft, order: Order, done: set<string>, p: string)
    requires Drafted(m, d, order, done) && p in Paths(m)
    requires p !in done ==> forall q :: q in done ==> Section(m, q) <= Section(m, p)
    ensures p in d.byPath <==> p in done
    ensures p !in done ==> Drafted(m, Place(d, ViewAt(m, p), Named(m, p)), Then(order, p), done + {p})
    ensures p in done ==> Drafted(m, d, order, done + {p})
  {
    FillPaths(m, order);
    assert p in done ==> done + {p} == done;
  }

  method AddCities(m: Maps) returns (d: Draft, ghost order: Order)
    ensures Drafted(m, d, order, m.cities.Keys)
  {
    d, order := Draft(map[], map[], []), Start;
    var rest := m.cities.Keys;
    ghost var done: set<string> := {};
    while rest != {}
      invariant done !! rest && done + rest == m.cities.Keys && Drafted(m, d, order, done)
      decreases rest
    {
      var p :| p in rest;
      NextPath(m, d, order, done, p);
      d, order := Place(d, CityView(m, p), true), Then(order, p);
      done, rest := done + {p}, rest - {p};
    }
  }

  /** Entries still initializing and not managed yet. */
  method AddInitializing(m: Maps, start: Draft, ghost order0: Order) returns (d: Draft, ghost order: Order)
    requires Drafted(m, start, order0, m.cities.Keys)
    ensures Drafted(m, d, order, m.cities.Keys + m.init.Keys)
  {
    d, order := start, order0;
    var rest := m.init.Keys;
    ghost var done := m.cities.Keys;
    while rest != {}
      invariant rest <= m.init.Keys && m.cities.Keys <= done && done + rest == m.cities.Keys + m.init.Keys
      invariant Drafted(m, d, order, done)
      decreases rest
    {
      var p :| p in rest;
      NextPath(m, d, order, done, p);
      if p !in d.byPath {
        d, order := Place(d, InitView(m, p), true), Then(order, p);
      }
      done, rest := done + {p}, rest - {p};
    }
    assert done == m.cities.Keys + m.init.Keys;
  }

  /** Entries known only by a failure; they take no name. */
  method AddFailures(m: Maps, start: Draft, ghost order0: Order) returns (d: Draft, ghost order: Order)
    requires Drafted(m, start, order0, m.cities.Keys + m.init.Keys)
    ensures Drafted(m, d, order, Paths(m))
  {
    d, order := start, order0;
    var rest := m.failures.Keys;
    ghost var done := m.cities.Keys + m.init.Keys;
    while rest != {}
      invariant rest <= m.failures.Keys && m.cities.Keys + m.init.Keys <= done && done + rest == Paths(m)
      invariant Drafted(m, d, order, done)
      decreases rest
    {
      var p :| p in rest;
      NextPath(m, d, order, done, p);
      if p !in d.byPath {
        d, order := Place(d, FailureView(m, p), false), Then(order, p);
      }
      done, rest := done + {p}, rest - {p};
    }
    assert done == Paths(m);
  }

  // ------------------------------------------------------------ lookup by name

  /** Lookup by name is honest: it yields the state of a started, not tombstoned
      city of that name, never of a failed or initializing one. */
  lemma StateOfIsHonest(s: Snapshot, m: Maps, name: string)
    requires IsRebuild(s, m) && StateOf(s, name).Some?
    ensures exists p :: p in m.cities && m.cities[p].name == name && Offers(m, p) == StateOf(s, name)
  {
    RebuildShows(s, m);
    var p := s.byName[name].path;
    assert Answers(m, s.byName[name], name) && p in m.cities && Offers(m, p) == StateOf(s, name);
  }

  /** A view that exists only because of a failure answers to no name. */
  lemma FailuresHaveNoName(s: Snapshot, m: Maps, name: string)
    requires IsRebuild(s, m) && name in s.byName
    ensures s.byName[name].path in m.cities.Keys + m.init.Keys
    ensures s.byName[name].name == name && s.byName[name].path in s.byPath && s.byPath[s.byName[name].path] == s.byName[name]
  {
    RebuildShows(s, m);
    assert Answers(m, s.byName[name], name);
  }

  function InitOnlyPaths(m: Maps): set<string> { m.init.Keys - m.cities.Keys }

  function FailedOnlyPaths(m: Maps): set<string> { m.failures.Keys - m.cities.Keys - m.init.Keys }

  /** Once these paths are placed, the entry at `path` answers to `name`. */
  ghost predicate Answering(m: Maps, order: Order, name: string, path: string) {
    Orderly(m, order) && path in Paths(m) && name in Fill(m, order).byName && Fill(m, order).byName[name] == ViewAt(m, path)
  }

  /** Placing one more path: it answers to its own name, and takes no other. */
  lemma PlaceOne(m: Maps, order: Order, p: string, name: string, path: string)
    requires Orderly(m, order) && MayFollow(m, order, p)
    ensures p == path && HasName(m, p, name) ==> Answering(m, Then(order, p), name, path)
    ensures Answering(m, order, name, path) && !HasName(m, p, name) ==> Answering(m, Then(order, p), name, path)
  {
    assert Named(m, p) ==> HasName(m, p, ViewAt(m, p).name);
  }

  /** A loop over the paths `ps`: an entry that answers already goes on to, unless one of them has its name. */
  lemma {:induction false} PlaceAll(m: Maps, order: Order, ps: set<string>, section: nat, name: string, path: string)
    returns (after: Order)
    requires Orderly(m, order) && Placed(order) !! ps && ps <= Paths(m)
    requires forall q :: q in Placed(order) ==> Section(m, q) <= section
    requires forall q :: q in ps ==> Section(m, q) == section
    ensures Orderly(m, after) && Placed(after) == Placed(order) + ps
    ensures Answering(m, order, name, path) && (forall q :: q in ps ==> !HasName(m, q, name)) ==> Answering(m, after, name, path)
    decreases ps
  {
    if ps == {} {
      after := order;
    } else {
      var p :| p in ps;
      var init := PlaceAll(m, order, ps - {p}, section, name, path);
      PlaceOne(m, init, p, name, path);
      after := Then(init, p);
    }
  }

  /** The loops up to the one that places `path`, with `path` at the end. */
  lemma OrderUpTo(m: Maps, name: string, path: string) returns (order: Order)
    requires HasName(m, path, name)
    ensures Answering(m, order, name, path)
    ensures Placed(order) == if path in m.cities then m.cities.Keys else m.cities.Keys + InitOnlyPaths(m)
  {
    order := PlaceAll(m, Start, m.cities.Keys - {path}, 0, name, path);
    if path !in m.cities {
      order := PlaceAll(m, order, InitOnlyPaths(m) - {path}, 1, name, path);
    }
    PlaceOne(m, order, path, name, path);
    order := Then(order, path);
  }

  /** The first two loops; no city still initializing has the name of a managed one that may answer. */
  lemma OrderThroughInit(m: Maps, name: string, path: string) returns (order: Order)
    requires path in Paths(m) && MayAnswer(m, path, name)
    ensures Answering(m, order, name, path) && Placed(order) == m.cities.Keys + InitOnlyPaths(m)
  {
    order := OrderUpTo(m, name, path);
    if path in m.cities { order := PlaceAll(m, order, InitOnlyPaths(m), 1, name, path); }
  }

  /** Whatever entry may answer to a name does answer to it in some rebuild: one that places it last of its loop. */
  lemma SomeRebuildAnswers(m: Maps, name: string, path: string) returns (s: Snapshot)
    requires path in Paths(m) && MayAnswer(m, path, name)
    ensures IsRebuild(s, m) && name in s.byName && s.byName[name] == ViewAt(m, path)
  {
    var order := OrderThroughInit(m, name, path);
    order := PlaceAll(m, order, FailedOnlyPaths(m), 2, name, path);
    s := SnapshotOf(m, order, 0);
    assert RebuildOrder(m, order) && s == SnapshotOf(m, order, s.gen);
  }

  /** A managed city that is up can be found by its name in every snapshot that
      a rebuild of these maps can publish, whatever the iteration orders, exactly
      when no city still initializing elsewhere carries the name and every other
      managed city of that name offers the same state. */
  lemma ReachableByNameIff(m: Maps, path: string)
    requires path in m.cities && Offers(m, path).Some?
    ensures var name := m.cities[path].name;
            (forall s :: IsRebuild(s, m) ==> StateOf(s, name) == Offers(m, path)) <==>
            && (forall q :: !(InitOnly(m, q) && HasName(m, q, name)))
            && (forall q :: q in m.cities && m.cities[q].name == name ==> Offers(m, q) == Offers(m, path))
  {
    var name := m.cities[path].name;
    if q :| InitOnly(m, q) && HasName(m, q, name) {
      var s := SomeRebuildAnswers(m, name, q);
    } else if q :| q in m.cities && m.cities[q].name == name && Offers(m, q) != Offers(m, path) {
      var s := SomeRebuildAnswers(m, name, q);
    } else {
      forall s | IsRebuild(s, m) ensures StateOf(s, name) == Offers(m, path) {
        RebuildShows(s, m);
        assert name in Names(m);
        assert Answers(m, s.byName[name], name);
      }
    }
  }

  /** An input: "east" is up at /a while another city called "east" initializes
      at /b; no snapshot of these maps finds the running one. */
  lemma DisplacedNameExample(state: nat)
    ensures var m := Maps(map["/a" := City("east", true, "running", Some(state), false)], map["/b" := Progress("east", "cloning")], map[], map[]);
            Offers(m, "/a") == Some(state) && forall s :: IsRebuild(s, m) ==> StateOf(s, "east") == None
  {
    var m := Maps(map["/a" := City("east", true, "running", Some(state), false)], map["/b" := Progress("east", "cloning")], map[], map[]);
    forall s | IsRebuild(s, m) ensures StateOf(s, "east") == None {
      RebuildShows(s, m);
      assert InitOnly(m, "/b") && HasName(m, "/b", "east");
      if "east" in s.byName { assert Answers(m, s.byName["east"], "east"); }
    }
  }

  // ------------------------------------------------------------------ whole runs

  /** The snapshot a run publishes with its first `i` operations done. */
  ghost predicate Faithful(s: Snapshot, ops: seq<Op>, i: nat)
    requires i <= |ops|
  {
    IsRebuild(s, MapsAfter(ops, i)) && s.gen == RebuildsIn(ops, i) % GENERATIONS
  }

  lemma FaithfulStep(ops: seq<Op>, k: nat)
    requires k < |ops|
    ensures MapsAfter(ops, k + 1) == Apply(MapsAfter(ops, k), ops[k])
    ensures RebuildsIn(ops, k + 1) == RebuildsIn(ops, k) + if RebuildsAt(ops, k) then 1 else 0
    ensures !RebuildsAt(ops, k) ==> MapsAfter(ops, k + 1) == MapsAfter(ops, k)
    ensures (RebuildsIn(ops, k) % GENERATIONS + 1) % GENERATIONS == (RebuildsIn(ops, k) + 1) % GENERATIONS
  {
  }

  /** A reader that keeps every snapshot of a run: each one shows the maps of
      its moment, and none changes afterwards, whatever is mutated later. */
  method Observe(ops: seq<Op>) returns (registry: Registry, history: seq<Published>)
    ensures |history| == |ops| + 1 && forall i :: 0 <= i <= |ops| ==> Faithful(history[i].data, ops, i)
    ensures registry.Valid() && registry.maps == MapsAfter(ops, |ops|) && registry.current == history[|ops|]
  {
    registry := new Registry();
    history := [registry.current];
    for k := 0 to |ops|
      invariant |history| == k + 1 && fresh(registry) && registry.Valid() && registry.current == history[k]
      invariant registry.maps == MapsAfter(ops, k)
      invariant forall i :: 0 <= i <= k ==> Faithful(history[i].data, ops, i)
    {
      FaithfulStep(ops, k);
      registry.Perform(ops[k]);
      assert Faithful(registry.current.data, ops, k + 1);
      history := history + [registry.current];
    }
  }

  /** One of the operations from `i` to `j` rebuilds the snapshot. */
  ghost predicate RebuiltBetween(ops: seq<Op>, i: nat, j: nat)
    requires i <= j <= |ops|
  {
    exists k: nat :: i <= k < j && RebuildsAt(ops, k)
  }

  lemma RebuiltEarlier(ops: seq<Op>, i: nat, j: nat)
    requires i <= j < |ops|
    ensures RebuiltBetween(ops, i, j + 1) <==> RebuiltBetween(ops, i, j) || RebuildsAt(ops, j)
  {
  }

  lemma {:induction false} RebuildsGrow(ops: seq<Op>, i: nat, j: nat)
    requires i <= j <= |ops|
    ensures RebuildsIn(ops, i) <= RebuildsIn(ops, j)
    ensures RebuildsIn(ops, i) < RebuildsIn(ops, j) <==> RebuiltBetween(ops, i, j)
    ensures !RebuiltBetween(ops, i, j) ==> MapsAfter(ops, i) == MapsAfter(ops, j)
    decreases j - i
  {
    if i < j {
      RebuildsGrow(ops, i, j - 1);
      RebuiltEarlier(ops, i, j - 1);
      FaithfulStep(ops, j - 1);
    }
  }

  /** The generations of the snapshots a run publishes never fall, and grow
      exactly when a rebuild lies between, so that equal generations show equal
      maps; all that until the 64-bit counter has gone round. */
  lemma GenerationsOrder(ops: seq<Op>, i: nat, j: nat, s: Snapshot, t: Snapshot)
    requires i <= j <= |ops| && Faithful(s, ops, i) && Faithful(t, ops, j) && RebuildsIn(ops, j) < GENERATIONS
    ensures s.gen <= t.gen && (s.gen < t.gen <==> RebuiltBetween(ops, i, j))
    ensures s.gen == t.gen ==> MapsAfter(ops, i) == MapsAfter(ops, j)
  {
    RebuildsGrow(ops, i, j);
    GenerationCounts(ops, i, s);
    GenerationCounts(ops, j, t);
  }

  lemma GenerationCounts(ops: seq<Op>, i: nat, s: Snapshot)
    requires i <= |ops| && Faithful(s, ops, i) && RebuildsIn(ops, i) < GENERATIONS
    ensures s.gen == RebuildsIn(ops, i)
  {
  }

  /** One rebuild raises the generation if and only if it was not the last of the counter. */
  lemma GenerationGrowsIff(ops: seq<Op>, i: nat, s: Snapshot, t: Snapshot)
    requires i < |ops| && RebuildsAt(ops, i) && Faithful(s, ops, i) && Faithful(t, ops, i + 1)
    ensures s.gen < t.gen <==> s.gen != GENERATIONS - 1
  {
    FaithfulStep(ops, i);
  }
}
