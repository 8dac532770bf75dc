/**
 The per-pass cache of ready reads (readyDemandCache and the direct reads it
 replaces in cmd/gc/build_desired_state.go).
 */
module ReadyCache {
  import opened Common

  datatype Bead = Bead(id: string, assignee: string, title: string)

  /** "" and a limit of 0 or less select everything. */
  datatype Query = Query(assignee: string, limit: int)

  const ALL := Query("", 0)

  /** Go's error trees as far as errors.Is and errors.As look into them. */
  datatype Error = NoError | CacheUnavailable | PartialResult(cause: Error) | Joined(first: Error, second: Error) | Other(message: string)

  predicate IsUnavailable(e: Error) {
    match e
    case CacheUnavailable => true
    case PartialResult(cause) => IsUnavailable(cause)
    case Joined(a, b) => IsUnavailable(a) || IsUnavailable(b)
    case _ => false
  }

  predicate IsPartial(e: Error) {
    match e
    case PartialResult(_) => true
    case Joined(a, b) => IsPartial(a) || IsPartial(b)
    case _ => false
  }

  /** The error is part of the tree, as errors.Is sees it. */
  ghost predicate Within(e: Error, x: Error) {
    e == x || (e.PartialResult? && Within(e.cause, x)) || (e.Joined? && (Within(e.first, x) || Within(e.second, x)))
  }

  /** The error is one of those joined. */
  ghost predicate PartOf(e: Error, x: Error) {
    e == x || (e.Joined? && (PartOf(e.first, x) || PartOf(e.second, x)))
  }

  /** An error says that the cache is unavailable if that is anywhere in its tree,
      and partial if a partial result is among the errors joined. */
  lemma {:induction false} ErrorsTell(e: Error)
    ensures IsUnavailable(e) <==> Within(e, CacheUnavailable)
    ensures IsPartial(e) <==> exists cause :: PartOf(e, PartialResult(cause))
  {
    match e
    case PartialResult(cause) => ErrorsTell(cause); assert PartOf(e, PartialResult(cause));
    case Joined(a, b) =>
      ErrorsTell(a);
      ErrorsTell(b);
      if cause :| PartOf(a, PartialResult(cause)) { assert PartOf(e, PartialResult(cause)); }
      if cause :| PartOf(b, PartialResult(cause)) { assert PartOf(e, PartialResult(cause)); }
      if cause :| PartOf(e, PartialResult(cause)) {
        assert PartOf(a, PartialResult(cause)) || PartOf(b, PartialResult(cause));
      }
    case _ =>
  }

  function Join(a: Error, b: Error): Error {
    if a == NoError && b == NoError then NoError else Joined(a, b)
  }

  datatype Answer = Answer(rows: seq<Bead>, err: Error)

  /** A store as seen during one pass: what each tier answers to a query, and
      whether the store hands out explicit tier handles. */
  datatype Store = Store(cached: Query -> Answer, live: Query -> Answer, explicitHandles: bool)

  // ------------------------------------------------------- selecting from rows

  function AssignedTo(rows: seq<Bead>, assignee: string): seq<Bead> {
    if rows == [] then []
    else (if assignee == "" || rows[0].assignee == assignee then [rows[0]] else []) + AssignedTo(rows[1..], assignee)
  }

  function Take(rows: seq<Bead>, limit: int): seq<Bead> {
    if limit <= 0 || limit >= |rows| then rows else rows[..limit]
  }

  /** Order-preserving filter, then take. */
  function Select(rows: seq<Bead>, q: Query): seq<Bead> {
    Take(AssignedTo(rows, q.assignee), q.limit)
  }

  /** A tier that answers every query by selecting from its full answer. */
  ghost predicate Exact(tier: Query -> Answer) {
    forall q :: tier(q) == Answer(Select(tier(ALL).rows, q), tier(ALL).err)
  }

  lemma {:induction false} AssignedToAll(rows: seq<Bead>)
    ensures AssignedTo(rows, "") == rows
  {
    if rows != [] { AssignedToAll(rows[1..]); }
  }

  /** Filtering goes row by row, in order. */
  lemma {:induction false} AssignedToConcat(rows: seq<Bead>, more: seq<Bead>, assignee: string)
    ensures AssignedTo(rows + more, assignee) == AssignedTo(rows, assignee) + AssignedTo(more, assignee)
  {
    if rows == [] {
      assert rows + more == more;
    } else {
      var head := if assignee == "" || rows[0].assignee == assignee then [rows[0]] else [];
      AssignedToConcat(rows[1..], more, assignee);
      assert (rows + more)[0] == rows[0] && (rows + more)[1..] == rows[1..] + more;
      assert AssignedTo(rows + more, assignee) == head + (AssignedTo(rows[1..], assignee) + AssignedTo(more, assignee));
      assert AssignedTo(rows, assignee) == head + AssignedTo(rows[1..], assignee);
    }
  }

  /** A query selects the rows of its assignee, in order, up to its limit. */
  lemma SelectTells(b: Bead, rows: seq<Bead>, more: seq<Bead>, q: Query)
    ensures AssignedTo(rows + more, q.assignee) == AssignedTo(rows, q.assignee) + AssignedTo(more, q.assignee)
    ensures AssignedTo([b], q.assignee) == if q.assignee in {"", b.assignee} then [b] else []
    ensures Select(rows, q) <= AssignedTo(rows, q.assignee)
    ensures Select(rows, q) != AssignedTo(rows, q.assignee) ==> |Select(rows, q)| == q.limit
    ensures q.limit > 0 ==> |Select(rows, q)| <= q.limit
  {
    AssignedToConcat(rows, more, q.assignee);
    assert [b][1..] == [];
  }

  /** filterReadySnapshot: the loop that stops at the limit. */
  method FilterSnapshot(rows: seq<Bead>, q: Query) returns (out: seq<Bead>)
    ensures out == Select(rows, q)
  {
    if q.assignee == "" && q.limit <= 0 {
      AssignedToAll(rows);
      return rows;
    }
    out := [];
    for i := 0 to |rows|
      invariant out + AssignedTo(rows[i..], q.assignee) == AssignedTo(rows, q.assignee)
      invariant q.limit > 0 ==> |out| < q.limit
    {
      AssignedFrom(rows, i, q.assignee, out);
      if q.assignee == "" || rows[i].assignee == q.assignee {
        out := out + [rows[i]];
        if q.limit > 0 && |out| >= q.limit {
          TakeStops(out, AssignedTo(rows[i + 1..], q.assignee));
          return;
        }
      }
    }
    assert rows[|rows|..] == [];
  }

  lemma AssignedFrom(rows: seq<Bead>, i: nat, assignee: string, out: seq<Bead>)
    requires i < |rows|
    ensures out + AssignedTo(rows[i..], assignee) ==
            (if assignee == "" || rows[i].assignee == assignee then out + [rows[i]] else out) + AssignedTo(rows[i + 1..], assignee)
  {
    assert rows[i..][1..] == rows[i + 1..];
  }

  lemma TakeStops(out: seq<Bead>, rest: seq<Bead>)
    requires out != []
    ensures Take(out + rest, |out|) == out
  {
    if rest == [] { assert out + rest == out; }
  }

  // ------------------------------------------------------------ merging tiers

  function Named(rows: seq<Bead>): seq<Bead> {
    if rows == [] then [] else (if rows[0].id == "" then [] else [rows[0]]) + Named(rows[1..])
  }

  function Ids(rows: seq<Bead>): set<string> {
    set b | b in rows :: b.id
  }

  /** The rows whose id is neither blank nor seen, each id once. */
  function Unseen(rows: seq<Bead>, seen: set<string>): seq<Bead> {
    if rows == [] then []
    else if rows[0].id == "" || rows[0].id in seen then Unseen(rows[1..], seen)
    else [rows[0]] + Unseen(rows[1..], seen + {rows[0].id})
  }

  /** The live (secondary) rows, then the cached (primary) rows they do not supersede. */
  function Merge(primary: seq<Bead>, secondary: seq<Bead>): seq<Bead> {
    if primary == [] then secondary
    else if secondary == [] then primary
    else Named(secondary) + Unseen(primary, Ids(Named(secondary)))
  }

  lemma {:induction false} NamedRows(rows: seq<Bead>)
    ensures forall b :: b in Named(rows) <==> b in rows && b.id != ""
  {
    if rows != [] { NamedRows(rows[1..]); }
  }

  lemma {:induction false} UnseenRows(rows: seq<Bead>, seen: set<string>)
    ensures forall b :: b in Unseen(rows, seen) ==> b in rows && b.id != "" && b.id !in seen
    ensures forall b :: b in rows && b.id != "" && b.id !in seen ==> b.id in Ids(Unseen(rows, seen))
    ensures DistinctIds(Unseen(rows, seen))
  {
    if rows != [] {
      var b := rows[0];
      if b.id == "" || b.id in seen {
        UnseenRows(rows[1..], seen);
      } else {
        UnseenRows(rows[1..], seen + {b.id});
        var rest, all := Unseen(rows[1..], seen + {b.id}), Unseen(rows, seen);
        assert forall x :: x in all <==> x == b || x in rest;
        forall i, j | 0 <= i < j < |all| ensures all[i].id != all[j].id {
          assert all[j] == rest[j - 1] && all[j] in rest;
          if i > 0 { assert all[i] == rest[i - 1]; }
        }
      }
    }
  }

  /** No row from index `k` on repeats the id of an earlier one. */
  ghost predicate NoRepeatFrom(rows: seq<Bead>, k: nat) {
    forall i, j :: 0 <= i < j < |rows| && k <= j ==> rows[i].id != rows[j].id
  }

  ghost predicate DistinctIds(rows: seq<Bead>) {
    forall i, j :: 0 <= i < j < |rows| ==> rows[i].id != rows[j].id
  }

  lemma AppendRepeatsNothing(live: seq<Bead>, rest: seq<Bead>)
    requires DistinctIds(rest) && forall b :: b in rest ==> b.id !in Ids(live)
    ensures NoRepeatFrom(live + rest, |live|)
  {
    var all := live + rest;
    forall i, j | 0 <= i < j < |all| && |live| <= j ensures all[i].id != all[j].id {
      assert all[j] == rest[j - |live|] && all[j] in rest;
      if i < |live| {
        assert all[i] == live[i] && live[i].id in Ids(live);
      } else {
        assert all[i] == rest[i - |live|];
      }
    }
  }

  lemma MergeRepeatsNothing(primary: seq<Bead>, secondary: seq<Bead>)
    requires primary != [] && secondary != []
    ensures NoRepeatFrom(Merge(primary, secondary), |Named(secondary)|)
  {
    UnseenRows(primary, Ids(Named(secondary)));
    AppendRepeatsNothing(Named(secondary), Unseen(primary, Ids(Named(secondary))));
  }

  lemma MergeIds(live: seq<Bead>, rest: seq<Bead>)
    ensures Ids(live + rest) == Ids(live) + Ids(rest)
  {
    assert forall b :: b in live + rest <==> b in live || b in rest;
  }

  /** Merging loses no bead, lets the live row win wherever both tiers have the
      bead, and repeats no id that the live tier does not repeat itself. */
  lemma MergeKeepsEveryBead(primary: seq<Bead>, secondary: seq<Bead>)
    ensures Ids(Merge(primary, secondary)) - {""} == Ids(primary) + Ids(secondary) - {""}
    ensures forall b :: b in Merge(primary, secondary) && b.id != "" && b.id in Ids(secondary) ==> b in secondary
    ensures primary != [] && secondary != [] ==> NoRepeatFrom(Merge(primary, secondary), |Named(secondary)|)
  {
    if primary != [] && secondary != [] {
      var seen := Ids(Named(secondary));
      NamedRows(secondary);
      UnseenRows(primary, seen);
      MergeIds(Named(secondary), Unseen(primary, seen));
      MergeRepeatsNothing(primary, secondary);
      assert seen == Ids(secondary) - {""};
    }
  }

  lemma NamedFrom(rows: seq<Bead>, i: nat, out: seq<Bead>)
    requires i < |rows|
    ensures out + Named(rows[i..]) == (if rows[i].id == "" then out else out + [rows[i]]) + Named(rows[i + 1..])
  {
    assert rows[i..][1..] == rows[i + 1..];
  }

  lemma IdsNext(rows: seq<Bead>, b: Bead)
    ensures Ids(rows + [b]) == Ids(rows) + {b.id}
  {
    MergeIds(rows, [b]);
    assert Ids([b]) == {b.id};
  }

  /** The first loop of mergeReadyRowsByID. */
  method CollectNamed(rows: seq<Bead>) returns (out: seq<Bead>, seen: set<string>)
    ensures out == Named(rows) && seen == Ids(out)
  {
    out, seen := [], {};
    for i := 0 to |rows|
      invariant out + Named(rows[i..]) == Named(rows)
      invariant seen == Ids(out)
    {
      NamedFrom(rows, i, out);
      if rows[i].id != "" {
        IdsNext(out, rows[i]);
        seen, out := seen + {rows[i].id}, out + [rows[i]];
      }
    }
    assert rows[|rows|..] == [];
  }

  /** Its second loop. */
  method AppendUnseen(start: seq<Bead>, rows: seq<Bead>, seen0: set<string>) returns (out: seq<Bead>)
    ensures out == start + Unseen(rows, seen0)
  {
    var seen := seen0;
    out := start;
    for i := 0 to |rows|
      invariant out + Unseen(rows[i..], seen) == start + Unseen(rows, seen0)
    {
      assert rows[i..][1..] == rows[i + 1..];
      if rows[i].id != "" && rows[i].id !in seen {
        seen, out := seen + {rows[i].id}, out + [rows[i]];
      }
    }
    assert rows[|rows|..] == [];
  }

  method MergeRows(primary: seq<Bead>, secondary: seq<Bead>) returns (out: seq<Bead>)
    ensures out == Merge(primary, secondary)
  {
    if primary == [] { return secondary; }
    if secondary == [] { return primary; }
    var live, seen := CollectNamed(secondary);
    out := AppendUnseen(live, primary, seen);
  }

  // ------------------------------------------------------------- direct reads

  /** liveReadyForControllerDemandQuery. */
  function LiveDirect(s: Store, q: Query): Answer {
    s.live(q)
  }

  /** A tier's rows count unless it failed outright. */
  function Trusted(a: Answer): seq<Bead> {
    if a.err != NoError && !IsPartial(a.err) then [] else a.rows
  }

  /** readyForControllerDemand: a complete live read is authoritative, cached
      rows only backfill one that failed or was partial. */
  function DemandDirect(s: Store): Answer {
    var c, l := s.cached(ALL), s.live(ALL);
    if IsUnavailable(c.err) then l
    else if !s.explicitHandles then c
    else if l.err == NoError then l
    else
      var rows, err := Merge(Trusted(c), Trusted(l)), Join(c.err, l.err);
      Answer(rows, if rows != [] && !IsPartial(err) then PartialResult(err) else err)
  }

  /** Which tier decides a demand read: the live one, unless the store hands out
      no explicit tier handles and its cache is available. */
  function Deciding(s: Store): Answer {
    if !s.explicitHandles && !IsUnavailable(s.cached(ALL).err) then s.cached(ALL) else s.live(ALL)
  }

  /** The tier did not fail outright: it was read, at least in part. */
  ghost predicate Answered(a: Answer) {
    a.err == NoError || exists cause :: PartOf(a.err, PartialResult(cause))
  }

  /** The bead is among the rows the tier can vouch for. */
  ghost predicate Vouches(a: Answer, id: string) {
    Answered(a) && exists b :: b in a.rows && b.id == id
  }

  /** What a demand read comes to when both tiers are asked and the live one is
      not complete: every bead either tier vouches for, the live row where it
      has one, both errors, and a partial mark exactly if there are rows or one
      of the tiers had it. */
  lemma BothTiersTell(s: Store, id: string)
    requires s.explicitHandles && !Within(s.cached(ALL).err, CacheUnavailable) && s.live(ALL).err != NoError
    ensures var c, l, r := s.cached(ALL), s.live(ALL), DemandDirect(s);
            && (id != "" ==> (id in Ids(r.rows) <==> Vouches(c, id) || Vouches(l, id)))
            && (id != "" && Vouches(l, id) ==> forall b :: b in r.rows && b.id == id ==> b in l.rows)
            && Within(r.err, l.err) && Within(r.err, c.err)
            && (IsPartial(r.err) <==> r.rows != [] || IsPartial(c.err) || IsPartial(l.err))
  {
    var c, l := s.cached(ALL), s.live(ALL);
    ErrorsTell(c.err);
    ErrorsTell(l.err);
    MergeKeepsEveryBead(Trusted(c), Trusted(l));
    assert Vouches(c, id) <==> id in Ids(Trusted(c));
    assert Vouches(l, id) <==> id in Ids(Trusted(l));
    assert id in Ids(Merge(Trusted(c), Trusted(l))) - {""} <==> id in Ids(Trusted(c)) + Ids(Trusted(l)) - {""};
    assert Within(Joined(c.err, l.err), c.err) && Within(Joined(c.err, l.err), l.err);
  }

  /** A demand read succeeds exactly when the deciding tier was read completely,
      and then returns its rows.  A failure returns that tier's answer as it is,
      unless both tiers are asked: then it has every bead of the tiers that did
      not fail outright, and marks whatever rows it returns partial. */
  lemma DemandErrorPrecedence(s: Store)
    ensures DemandDirect(s).err == NoError <==> Deciding(s).err == NoError
    ensures DemandDirect(s).err == NoError || !s.explicitHandles || IsUnavailable(s.cached(ALL).err) ==> DemandDirect(s) == Deciding(s)
    ensures DemandDirect(s).err != NoError && s.explicitHandles && !IsUnavailable(s.cached(ALL).err) ==>
              && (DemandDirect(s).rows == [] || IsPartial(DemandDirect(s).err))
              && Ids(DemandDirect(s).rows) - {""} == Ids(Trusted(s.cached(ALL))) + Ids(Trusted(s.live(ALL))) - {""}
  {
    MergeKeepsEveryBead(Trusted(s.cached(ALL)), Trusted(s.live(ALL)));
  }

  // ---------------------------------------------------------------- the cache

  datatype Tier = Cached | Live

  /** A read of one store's full answer on one tier. */
  datatype Fetch = Fetch(store: nat, tier: Tier)

  /** Stores are told apart by identity; `world` says what each answers during the pass. */
  type World = nat -> Store

  class Cache {
    const world: World
    var live: map<nat, Answer>
    var cached: map<nat, Answer>
    var fetches: seq<Fetch>

    /** Every memo holds what its store answered, and was fetched exactly once. */
    ghost predicate Valid()
      reads this
    {
      && (forall s :: s in live ==> live[s] == world(s).live(ALL))
      && (forall s :: s in cached ==> cached[s] == world(s).cached(ALL))
      && (forall f :: f in fetches <==> f.store in (if f.tier == Live then live else cached))
      && Distinct(fetches)
    }

    constructor (world: World)
      ensures Valid() && this.world == world && fetches == []
    {
      this.world := world;
      live, cached, fetches := map[], map[], [];
    }

    method LiveSnapshot(s: nat) returns (a: Answer)
      requires Valid()
      modifies this
      ensures Valid() && a == world(s).live(ALL)
    {
      if s !in live {
        fetches := fetches + [Fetch(s, Live)];
        live := live[s := world(s).live(ALL)];
      }
      a := live[s];
    }

    method CachedSnapshot(s: nat) returns (a: Answer)
      requires Valid()
      modifies this
      ensures Valid() && a == world(s).cached(ALL)
    {
      if s !in cached {
        fetches := fetches + [Fetch(s, Cached)];
        cached := cached[s := world(s).cached(ALL)];
      }
      a := cached[s];
    }

    method LiveReady(s: nat, q: Query) returns (a: Answer)
      requires Valid() && Exact(world(s).live)
      modifies this
      ensures Valid() && a == LiveDirect(world(s), q)
    {
      var all := LiveSnapshot(s);
      var rows := FilterSnapshot(all.rows, q);
      a := Answer(rows, all.err);
    }

    method ControllerDemandReady(s: nat) returns (a: Answer)
      requires Valid()
      modifies this
      ensures Valid() && a == DemandDirect(world(s))
    {
      a := CachedSnapshot(s);
      if IsUnavailable(a.err) {
        a := LiveSnapshot(s);
        return;
      }
      if !world(s).explicitHandles { return; }
      var rows := if a.err != NoError && !IsPartial(a.err) then [] else a.rows;
      var l := LiveSnapshot(s);
      if l.err == NoError { return l; }
      var liveRows := if !IsPartial(l.err) then [] else l.rows;
      rows := MergeRows(rows, liveRows);
      var err := Join(a.err, l.err);
      a := if rows != [] && !IsPartial(err) then Answer(rows, PartialResult(err)) else Answer(rows, err);
    }
  }

  // --------------------------------------------------------------- whole passes

  datatype Read = LiveRead(store: nat, query: Query) | DemandRead(store: nat)

  function Direct(world: World, r: Read): Answer {
    match r
    case LiveRead(s, q) => LiveDirect(world(s), q)
    case DemandRead(s) => DemandDirect(world(s))
  }

  /** The cache refines the direct reads: over any sequence of reads in a pass,
      each answer is what the direct read would have been, rows, error and
      partial marks alike, and no store is fetched twice on a tier. */
  method ServeReads(world: World, requests: seq<Read>) returns (answers: seq<Answer>, fetches: seq<Fetch>)
    requires forall s :: Exact(world(s).live)
    ensures |answers| == |requests| && forall i :: 0 <= i < |requests| ==> answers[i] == Direct(world, requests[i])
    ensures Distinct(fetches)
  {
    var cache := new Cache(world);
    answers := [];
    for i := 0 to |requests|
      invariant cache.Valid() && cache.world == world
      invariant |answers| == i && forall k :: 0 <= k < i ==> answers[k] == Direct(world, requests[k])
    {
      var a;
      match requests[i] {
        case LiveRead(s, q) => a := cache.LiveReady(s, q);
        case DemandRead(s) => a := cache.ControllerDemandReady(s);
      }
      answers := answers + [a];
    }
    fetches := cache.fetches;
  }
}
