/**
 Counting ready, unassigned, routed work across store groups
 (defaultScaleCheckCountsAndDemand in cmd/gc/build_desired_state.go).
 */
module DemandCount {
  import opened Common

  /** One probe: a template and the store it reads (None when unavailable). */
  datatype Target = Target(template: string, storeKey: string, store: Option<nat>, failed: bool)

  /** A ready row; `routes` are its normalized route candidates, preferred first. */
  datatype Row = Row(id: string, assignee: string, routes: seq<string>)

  datatype Health = Complete | Partial | Failed

  /** What the demand read of a store yields. */
  datatype Reading = Reading(rows: seq<Row>, health: Health)

  /** The stores' answers, and the key that stands for a store without one. */
  datatype World = World(read: nat -> Reading, pointerKey: nat -> string)

  datatype Group = Group(store: nat, templates: set<string>)

  // ------------------------------------------------------------------- groups

  /** The target takes part in counting: it names a template and its store is there. */
  predicate Probes(t: Target) {
    t.template != "" && t.store.Some?
  }

  function Key(w: World, t: Target): string
    requires t.store.Some?
  {
    if t.storeKey == "" then w.pointerKey(t.store.value) else t.storeKey
  }

  /** Adds a target to its group, opening the group on the first one. */
  function AddTarget(w: World, groups: map<string, Group>, t: Target): map<string, Group> {
    if !Probes(t) then groups
    else
      var k := Key(w, t);
      groups[k := if k in groups then groups[k].(templates := groups[k].templates + {t.template})
                  else Group(t.store.value, {t.template})]
  }

  function Groups(w: World, targets: seq<Target>): map<string, Group> {
    if targets == [] then map[] else AddTarget(w, Groups(w, targets[..|targets| - 1]), targets[|targets| - 1])
  }

  predicate InGroup(w: World, t: Target, key: string) {
    Probes(t) && Key(w, t) == key
  }

  ghost function GroupTemplates(w: World, targets: seq<Target>, key: string): set<string> {
    set t | t in targets && InGroup(w, t, key) :: t.template
  }

  /** Targets meet in a group by their store key or, where they have none, by their store. */
  lemma InGroupIff(w: World, t: Target, key: string)
    ensures InGroup(w, t, key) <==>
            t.template != "" && t.store.Some? && ((t.storeKey != "" && t.storeKey == key) || (t.storeKey == "" && w.pointerKey(t.store.value) == key))
  {
  }

  /** A group holds exactly the templates probed under its key, and reads the store of one of them. */
  lemma {:induction false} GroupHolds(w: World, targets: seq<Target>, key: string)
    ensures key in Groups(w, targets) <==> exists t :: t in targets && InGroup(w, t, key)
    ensures key in Groups(w, targets) ==>
              && Groups(w, targets)[key].templates == GroupTemplates(w, targets, key)
              && exists t :: t in targets && InGroup(w, t, key) && t.store == Some(Groups(w, targets)[key].store)
  {
    if targets != [] {
      var init, last := targets[..|targets| - 1], targets[|targets| - 1];
      GroupHolds(w, init, key);
      assert targets == init + [last];
      assert forall t :: t in targets <==> t in init || t == last;
      assert GroupTemplates(w, targets, key) == GroupTemplates(w, init, key) + if InGroup(w, last, key) then {last.template} else {};
      if key !in Groups(w, init) { assert GroupTemplates(w, init, key) == {}; }
    }
  }

  function Templates(targets: seq<Target>): set<string> {
    set t | t in targets && t.template != "" :: t.template
  }

  /** Templates marked partial before any store is read. */
  function Unavailable(targets: seq<Target>): set<string> {
    set t | t in targets && t.template != "" && (t.failed || t.store.None?) :: t.template
  }

  // ----------------------------------------------------------------- counting

  /** A hard failure yields no rows, a partial read those it got. */
  function Usable(r: Reading): seq<Row> {
    if r.health == Failed then [] else r.rows
  }

  /** The first route candidate among the group's templates. */
  function RouteTarget(routes: seq<string>, templates: set<string>): string {
    if routes == [] then "" else if routes[0] in templates then routes[0] else RouteTarget(routes[1..], templates)
  }

  /** Route `i` is the row's target: it is among the templates and no earlier one is. */
  ghost predicate TargetsAt(routes: seq<string>, templates: set<string>, i: nat) {
    i < |routes| && routes[i] in templates && forall j: nat :: j < i ==> routes[j] !in templates
  }

  lemma {:induction false} RouteTargetIff(routes: seq<string>, templates: set<string>, t: string)
    requires t in templates && t != ""
    ensures RouteTarget(routes, templates) == t <==> exists i: nat :: TargetsAt(routes, templates, i) && routes[i] == t
  {
    if routes != [] {
      RouteTargetIff(routes[1..], templates, t);
      if i: nat :| TargetsAt(routes[1..], templates, i) && routes[1..][i] == t {
        assert routes[0] !in templates ==> TargetsAt(routes, templates, i + 1);
      }
      if i: nat :| TargetsAt(routes, templates, i) && routes[i] == t {
        assert i > 0 ==> TargetsAt(routes[1..], templates, i - 1);
      }
      if routes[0] in templates { assert TargetsAt(routes, templates, 0); }
    }
  }

  /** The row is fresh demand for template `t` in a group with these templates. */
  predicate IsDemand(row: Row, templates: set<string>, t: string) {
    row.assignee == "" && t in templates && RouteTarget(row.routes, templates) == t
  }

  /** Bead ids of the first `n` rows that are demand for `t`. */
  ghost function RowIds(rows: seq<Row>, n: nat, templates: set<string>, t: string): set<string>
    requires n <= |rows|
  {
    set i | 0 <= i < n && IsDemand(rows[i], templates, t) :: rows[i].id
  }

  lemma RowIdsGrow(rows: seq<Row>, n: nat, templates: set<string>, t: string)
    requires n < |rows|
    ensures RowIds(rows, n + 1, templates, t) ==
            RowIds(rows, n, templates, t) + if IsDemand(rows[n], templates, t) then {rows[n].id} else {}
  {
  }

  ghost function GroupIds(w: World, g: Group, t: string): set<string> {
    var rows := Usable(w.read(g.store));
    RowIds(rows, |rows|, g.templates, t)
  }

  /** The group's store, unless its read failed outright, has a row of that id
      which nobody is assigned and whose first route among the group's templates is `t`. */
  ghost predicate Demands(w: World, g: Group, t: string, id: string) {
    && t in g.templates && w.read(g.store).health != Failed
    && exists row :: && row in w.read(g.store).rows && row.id == id && row.assignee == ""
                     && exists i: nat :: TargetsAt(row.routes, g.templates, i) && row.routes[i] == t
  }

  lemma IsDemandIff(row: Row, templates: set<string>, t: string)
    requires t != ""
    ensures IsDemand(row, templates, t) <==>
            row.assignee == "" && t in templates && exists i: nat :: TargetsAt(row.routes, templates, i) && row.routes[i] == t
  {
    if t in templates { RouteTargetIff(row.routes, templates, t); }
  }

  /** What is counted for a template in a group. */
  lemma GroupIdsIff(w: World, g: Group, t: string, id: string)
    requires t != ""
    ensures id in GroupIds(w, g, t) <==> Demands(w, g, t, id)
  {
    var rows := Usable(w.read(g.store));
    forall row { IsDemandIff(row, g.templates, t); }
    if id in GroupIds(w, g, t) {
      var i :| 0 <= i < |rows| && IsDemand(rows[i], g.templates, t) && rows[i].id == id;
      assert rows[i] in w.read(g.store).rows;
    }
    if Demands(w, g, t, id) {
      var row :| row in w.read(g.store).rows && row.id == id && row.assignee == "" && IsDemand(row, g.templates, t);
      var i :| 0 <= i < |rows| && rows[i] == row;
    }
  }

  /** Distinct bead ids that are demand for `t` in any of the groups `keys`. */
  ghost function DemandIds(w: World, groups: map<string, Group>, keys: set<string>, t: string): set<string> {
    set k, id | k in keys && k in groups && id in GroupIds(w, groups[k], t) :: id
  }

  /** Templates of groups whose read was not complete. */
  ghost function Degraded(w: World, groups: map<string, Group>, keys: set<string>): set<string> {
    set k, t | k in keys && k in groups && w.read(groups[k].store).health != Complete && t in groups[k].templates :: t
  }

  /** Running counts, and per template the ids counted, in order. */
  class Tally {
    var counts: map<string, int>
    var ids: map<string, seq<string>>

    /** The ids counted for `t` so far. */
    ghost function Seen(t: string): set<string>
      reads this
    {
      if t in ids then Elements(ids[t]) else {}
    }

    ghost predicate Valid()
      reads this
    {
      && ids.Keys <= counts.Keys
      && (forall t :: t in ids ==> Distinct(ids[t]))
      && (forall t :: t in counts ==> counts[t] == if t in ids then |ids[t]| else 0)
    }

    constructor (templates: set<string>)
      ensures Valid() && counts.Keys == templates && ids == map[]
    {
      counts := map t | t in templates :: 0;
      ids := map[];
    }

    /** Counts one bead for `t` unless it was counted already, in this store or another. */
    method Count(t: string, id: string)
      requires Valid() && t in counts
      modifies this
      ensures Valid() && counts.Keys == old(counts.Keys)
      ensures forall t' :: Seen(t') == old(Seen(t')) + if t' == t then {id} else {}
    {
      var before := if t in ids then ids[t] else [];
      if id in before { return; }
      var after := before + [id];
      assert forall x :: x in after <==> x in before || x == id;
      assert Elements(after) == Elements(before) + {id};
      ids := ids[t := after];
      counts := counts[t := counts[t] + 1];
    }

    /** Counts the rows one group reads. */
    method CountGroup(rows: seq<Row>, templates: set<string>)
      requires Valid() && templates <= counts.Keys
      modifies this
      ensures Valid() && counts.Keys == old(counts.Keys)
      ensures forall t :: Seen(t) == old(Seen(t)) + RowIds(rows, |rows|, templates, t)
    {
      for i := 0 to |rows|
        invariant Valid() && counts.Keys == old(counts.Keys)
        invariant forall t :: Seen(t) == old(Seen(t)) + RowIds(rows, i, templates, t)
      {
        label Before:
        CountRow(rows[i], templates);
        forall t ensures Seen(t) == old(Seen(t)) + RowIds(rows, i + 1, templates, t) {
          assert old@Before(Seen(t)) == old(Seen(t)) + RowIds(rows, i, templates, t);
          RowIdsGrow(rows, i, templates, t);
        }
      }
    }

    /** Counts one row for the template it is routed to, if it is fresh demand. */
    method CountRow(row: Row, templates: set<string>)
      requires Valid() && templates <= counts.Keys
      modifies this
      ensures Valid() && counts.Keys == old(counts.Keys)
      ensures forall t :: Seen(t) == old(Seen(t)) + if IsDemand(row, templates, t) then {row.id} else {}
    {
      if row.assignee == "" {
        var t := RouteTarget(row.routes, templates);
        if t in templates { Count(t, row.id); }
      }
    }
  }

  lemma {:induction false} DistinctSize(s: seq<string>)
    requires Distinct(s)
    ensures |Elements(s)| == |s|
  {
    if s != [] {
      var init, last := s[..|s| - 1], s[|s| - 1];
      DistinctSize(init);
      assert s == init + [last];
      assert forall x :: x in s <==> x in init || x == last;
      assert Elements(s) == Elements(init) + {last};
      assert last !in Elements(init);
    }
  }

  method GroupTargets(w: World, targets: seq<Target>) returns (groups: map<string, Group>, partial: set<string>)
    ensures groups == Groups(w, targets) && partial == Unavailable(targets)
  {
    groups, partial := map[], {};
    for i := 0 to |targets|
      invariant groups == Groups(w, targets[..i]) && partial == Unavailable(targets[..i])
    {
      var t := targets[i];
      assert targets[..i + 1][..i] == targets[..i] && targets[..i + 1] == targets[..i] + [t];
      UnavailableGrows(targets[..i], t);
      if t.template != "" {
        if t.failed || t.store.None? { partial := partial + {t.template}; }
        groups := AddTarget(w, groups, t);
      }
    }
    assert targets[..|targets|] == targets;
  }

  lemma UnavailableGrows(init: seq<Target>, t: Target)
    ensures Unavailable(init + [t]) == Unavailable(init) + if t.template != "" && (t.failed || t.store.None?) then {t.template} else {}
  {
    assert forall x :: x in init + [t] <==> x in init || x == t;
  }

  lemma GroupTemplatesKnown(w: World, targets: seq<Target>, key: string)
    requires key in Groups(w, targets)
    ensures Groups(w, targets)[key].templates <= Templates(targets)
  {
    GroupHolds(w, targets, key);
  }

  lemma DemandIdsGrow(w: World, groups: map<string, Group>, keys: set<string>, key: string, t: string)
    requires key in groups
    ensures DemandIds(w, groups, keys + {key}, t) == DemandIds(w, groups, keys, t) + GroupIds(w, groups[key], t)
  {
  }

  lemma DegradedGrows(w: World, groups: map<string, Group>, keys: set<string>, key: string)
    requires key in groups
    ensures Degraded(w, groups, keys + {key}) ==
            Degraded(w, groups, keys) + if w.read(groups[key].store).health != Complete then groups[key].templates else {}
  {
  }

  /** The ids listed for `t`, in order. */
  function IdsFor(ids: map<string, seq<string>>, t: string): seq<string> {
    if t in ids then ids[t] else []
  }

  /** Template `t` is counted once for each bead that is demand for it in any group. */
  ghost predicate CountedOnce(w: World, groups: map<string, Group>, counts: map<string, int>, ids: map<string, seq<string>>, t: string)
    requires t in counts
  {
    && counts[t] == |DemandIds(w, groups, groups.Keys, t)|
    && Distinct(IdsFor(ids, t)) && Elements(IdsFor(ids, t)) == DemandIds(w, groups, groups.Keys, t)
  }

  /** The result in closed form: the ids counted for each template, exactly once each. */
  ghost predicate ClosedForm(w: World, targets: seq<Target>, counts: map<string, int>, ids: map<string, seq<string>>, partial: set<string>) {
    var groups := Groups(w, targets);
    && counts.Keys == Templates(targets) && ids.Keys <= counts.Keys
    && (forall t :: t in counts ==> CountedOnce(w, groups, counts, ids, t))
    && partial == Unavailable(targets) + Degraded(w, groups, groups.Keys)
  }

  /** However the runtime orders the groups, each template's count is the
      number of distinct beads over all groups probing it that are ready,
      unassigned and routed to it; a store probed under two keys adds nothing;
      and every template of a group not read completely is marked partial. */
  method ScaleCheck(w: World, targets: seq<Target>) returns (counts: map<string, int>, ids: map<string, seq<string>>, partial: set<string>)
    ensures ClosedForm(w, targets, counts, ids, partial)
  {
    var tally := new Tally(Templates(targets));
    var groups, unavailable := GroupTargets(w, targets);
    partial := unavailable;
    var rest := groups.Keys;
    while rest != {}
      invariant rest <= groups.Keys && tally.Valid() && tally.counts.Keys == Templates(targets)
      invariant forall t :: tally.Seen(t) == DemandIds(w, groups, groups.Keys - rest, t)
      invariant partial == unavailable + Degraded(w, groups, groups.Keys - rest)
      decreases rest
    {
      var key :| key in rest;
      var g := groups[key];
      GroupTemplatesKnown(w, targets, key);
      assert groups.Keys - (rest - {key}) == (groups.Keys - rest) + {key};
      forall t ensures DemandIds(w, groups, (groups.Keys - rest) + {key}, t) == DemandIds(w, groups, groups.Keys - rest, t) + GroupIds(w, g, t) {
        DemandIdsGrow(w, groups, groups.Keys - rest, key, t);
      }
      DegradedGrows(w, groups, groups.Keys - rest, key);
      var reading := w.read(g.store);
      if reading.health != Complete { partial := partial + g.templates; }
      tally.CountGroup(Usable(reading), g.templates);
      rest := rest - {key};
    }
    assert groups.Keys - rest == groups.Keys;
    counts, ids := tally.counts, tally.ids;
    forall t | t in counts ensures CountedOnce(w, groups, counts, ids, t) {
      if t in ids { DistinctSize(ids[t]); }
    }
  }

  // ------------------------------------------------------ order of the targets

  /** Targets that share a key share a store. */
  ghost predicate KeysAgree(w: World, targets: seq<Target>) {
    forall s, t :: s in targets && t in targets && Probes(s) && Probes(t) && Key(w, s) == Key(w, t) ==> s.store == t.store
  }

  lemma SameGroups(w: World, targets: seq<Target>, targets': seq<Target>)
    requires Elements(targets) == Elements(targets') && KeysAgree(w, targets)
    ensures Groups(w, targets) == Groups(w, targets')
  {
    var g, g' := Groups(w, targets), Groups(w, targets');
    assert forall t :: t in targets <==> t in Elements(targets);
    assert forall t :: t in targets' <==> t in Elements(targets');
    forall k ensures k in g <==> k in g' ensures k in g ==> g[k] == g'[k] {
      GroupHolds(w, targets, k);
      GroupHolds(w, targets', k);
      if k in g {
        var s :| s in targets && InGroup(w, s, k) && s.store == Some(g[k].store);
        var t :| t in targets' && InGroup(w, t, k) && t.store == Some(g'[k].store);
        assert GroupTemplates(w, targets, k) == GroupTemplates(w, targets', k);
      }
    }
  }

  /** Two scale checks over the same targets, however ordered and repeated, and
      however each orders its groups, agree on every count, on the ids counted
      and on the partial marks, as long as a key names one store. */
  lemma TargetOrderIrrelevant(w: World, targets: seq<Target>, targets': seq<Target>,
                              counts: map<string, int>, ids: map<string, seq<string>>, partial: set<string>,
                              counts': map<string, int>, ids': map<string, seq<string>>, partial': set<string>)
    requires Elements(targets) == Elements(targets') && KeysAgree(w, targets)
    requires ClosedForm(w, targets, counts, ids, partial) && ClosedForm(w, targets', counts', ids', partial')
    ensures counts == counts' && partial == partial' && forall t :: t in counts ==> Elements(IdsFor(ids, t)) == Elements(IdsFor(ids', t))
  {
    SameGroups(w, targets, targets');
    SameTemplates(targets, targets');
    forall t | t in counts ensures t in counts' && counts[t] == counts'[t] && Elements(IdsFor(ids, t)) == Elements(IdsFor(ids', t)) {
      SameCount(w, Groups(w, targets), counts, ids, counts', ids', t);
    }
  }

  lemma SameTemplates(targets: seq<Target>, targets': seq<Target>)
    requires Elements(targets) == Elements(targets')
    ensures Templates(targets) == Templates(targets') && Unavailable(targets) == Unavailable(targets')
  {
    assert forall t :: t in targets <==> t in Elements(targets);
    assert forall t :: t in targets' <==> t in Elements(targets');
  }

  lemma SameCount(w: World, groups: map<string, Group>, counts: map<string, int>, ids: map<string, seq<string>>,
                  counts': map<string, int>, ids': map<string, seq<string>>, t: string)
    requires t in counts && t in counts' && CountedOnce(w, groups, counts, ids, t) && CountedOnce(w, groups, counts', ids', t)
    ensures counts[t] == counts'[t] && Elements(IdsFor(ids, t)) == Elements(IdsFor(ids', t))
  {
  }
}
