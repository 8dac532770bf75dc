/**
 The bounded, rotating sweep that realigns control beads with the dispatcher of
 their own store scope (cmd/gc/build_desired_state.go, "route repair").

 A pass visits every row once, starting at a cursor that moves on by the write
 budget each time.  The pass is specified in closed form: the row at offset `j`
 gets a write attempt exactly when it needs one and fewer than LIMIT rows before
 it in visiting order did.
 */
module RouteRepair {
  import opened Common
  import Arithmetic
  import Rotation

  /** Durable writes a single pass may attempt. */
  const LIMIT: nat := 5
  /** The cursor is an unsigned 64-bit counter. */
  const CURSOR_MODULUS: nat := 0x1_0000_0000_0000_0000

  const CONTROL_KINDS: set<string> :=
    {"retry", "ralph", "check", "retry-eval", "fanout", "drain", "scope-check", "workflow-finalize"}

  /** The metadata of a bead that the sweep reads or writes; an absent key is None. */
  datatype Bead = Bead(id: string, kind: string, rootStoreRef: string, routedTo: Option<string>, fallback: Option<string>)

  /** Rig context ("" for the city) to the qualified name of the dispatcher configured for exactly that scope. */
  type Config = map<string, string>

  /** One durable update: the route to stamp, if any, and whether the fallback marker is blanked. */
  datatype Update = Update(row: nat, id: string, route: Option<string>, clearFallback: bool)

  /** One pass over a snapshot.  `stores[i]` is false for a nil store and
      `accepts(i)` says whether the store takes a write for row `i`. */
  datatype Pass = Pass(cfg: Config, beads: seq<Bead>, stores: seq<bool>, refs: seq<string>, accepts: nat -> bool, cursor: nat) {
    ghost predicate Aligned() {
      |beads| == |stores| == |refs|
    }
  }

  // ---------------------------------------------------------------- one row

  predicate IsControl(b: Bead) {
    b.kind in CONTROL_KINDS
  }

  /** A canonical "city:<name>" or "rig:<name>" reference with a non-empty name. */
  predicate Scoped(ref: string) {
    "city:" < ref || "rig:" < ref
  }

  function RigContext(storeRef: string): string {
    if storeRef == "" || storeRef == "city" || "city:" <= storeRef then ""
    else if "rig:" <= storeRef then storeRef[4..]
    else storeRef
  }

  function DesiredRoute(cfg: Config, storeRef: string): Option<string> {
    if RigContext(storeRef) in cfg then Some(cfg[RigContext(storeRef)]) else None
  }

  predicate InScope(b: Bead) {
    IsControl(b) && Scoped(b.rootStoreRef)
  }

  function Route(b: Bead): string {
    b.routedTo.GetOr("")
  }

  predicate Marked(b: Bead) {
    b.fallback.GetOr("") != ""
  }

  /** The row wants a durable write: its scope has a dispatcher, and the route is wrong or the marker is set. */
  predicate NeedsWrite(cfg: Config, b: Bead, storeRef: string) {
    InScope(b) && DesiredRoute(cfg, storeRef).Some? &&
    (Route(b) != DesiredRoute(cfg, storeRef).value || Marked(b))
  }

  /** A visit leaves the row settled.  A row without a dispatcher loses its
      route.  A durable write leaves the dispatcher's route and no marker.
      Without one a wrong route is hidden and all else stays, as does a row that
      is in order or out of scope. */
  ghost predicate Settled(cfg: Config, before: Bead, storeRef: string, written: bool, after: Bead) {
    && after == before.(routedTo := after.routedTo, fallback := after.fallback)
    && (if !InScope(before) then after == before
        else match DesiredRoute(cfg, storeRef)
        case None => after.routedTo == None && after.fallback == before.fallback
        case Some(route) =>
          && (Route(before) == route && !Marked(before) ==> after == before)
          && (written ==> Route(after) == route && !Marked(after))
          && (Route(before) == route ==> after.routedTo == before.routedTo) && (!Marked(before) ==> after.fallback == before.fallback)
          && (!written ==> after.fallback == before.fallback)
          && (!written ==> after.routedTo == if Route(before) == route then before.routedTo else None))
  }

  /** Whose dispatcher a row is due to: its rig's, or the city's. */
  lemma RigContexts(name: string)
    ensures RigContext("rig:" + name) == name
    ensures RigContext("city:" + name) == RigContext("city") == RigContext("") == ""
  {
    assert ("rig:" + name)[0] == 'r' && ("rig:" + name)[4..] == name;
  }

  /** The row as the demand snapshot sees it after its visit; `written` says a durable write went through. */
  function RowAfter(cfg: Config, b: Bead, storeRef: string, written: bool): Bead {
    match DesiredRoute(cfg, storeRef)
    case None => if InScope(b) then b.(routedTo := None) else b
    case Some(route) =>
      if !NeedsWrite(cfg, b, storeRef) then b
      else if !written then (if Route(b) != route then b.(routedTo := None) else b)
      else b.(routedTo := if Route(b) != route then Some(route) else b.routedTo,
              fallback := if Marked(b) then None else b.fallback)
  }

  // --------------------------------------------------------------- one pass

  /** The row visited at offset `j`. */
  function Visit(p: Pass, j: nat): (i: nat)
    requires p.beads != []
    ensures i < |p.beads|
  {
    Rotation.Visit(p.cursor, j, |p.beads|)
  }

  /** How many steps into the pass row `i` is visited. */
  function Offset(p: Pass, i: nat): nat
    requires i < |p.beads|
  {
    Rotation.Offset(p.cursor, i, |p.beads|)
  }

  predicate Wants(p: Pass, j: nat)
    requires p.Aligned() && p.beads != []
  {
    NeedsWrite(p.cfg, p.beads[Visit(p, j)], p.refs[Visit(p, j)])
  }

  /** Rows wanting a write among the first `j` visited. */
  function WantedBefore(p: Pass, j: nat): nat
    requires p.Aligned() && p.beads != []
  {
    if j == 0 then 0 else WantedBefore(p, j - 1) + (if Wants(p, j - 1) then 1 else 0)
  }

  /** The row at offset `j` is given a write attempt, that is, a slot of the budget. */
  predicate Attempted(p: Pass, j: nat)
    requires p.Aligned() && p.beads != []
  {
    Wants(p, j) && WantedBefore(p, j) < LIMIT
  }

  predicate Written(p: Pass, j: nat)
    requires p.Aligned() && p.beads != []
  {
    Attempted(p, j) && p.stores[Visit(p, j)] && p.accepts(Visit(p, j))
  }

  function UpdateFor(p: Pass, j: nat): Update
    requires p.Aligned() && p.beads != [] && Wants(p, j)
  {
    var i := Visit(p, j);
    var b, route := p.beads[i], DesiredRoute(p.cfg, p.refs[i]).value;
    Update(i, b.id, if Route(b) != route then Some(route) else None, Marked(b))
  }

  /** The durable updates issued, in order, over the first `j` visits. */
  function Issued(p: Pass, j: nat): seq<Update>
    requires p.Aligned() && p.beads != []
  {
    if j == 0 then []
    else Issued(p, j - 1) + if Attempted(p, j - 1) && p.stores[Visit(p, j - 1)] then [UpdateFor(p, j - 1)] else []
  }

  /** What a pass leaves in the row visited at offset `j`. */
  function BeadAfter(p: Pass, j: nat): Bead
    requires p.Aligned() && p.beads != []
  {
    RowAfter(p.cfg, p.beads[Visit(p, j)], p.refs[Visit(p, j)], Written(p, j))
  }

  /** The whole demand snapshot after a pass. */
  function Snapshot(p: Pass): (after: seq<Bead>)
    requires p.Aligned()
    ensures |after| == |p.beads|
  {
    seq(|p.beads|, i requires 0 <= i < |p.beads| => BeadAfter(p, Offset(p, i)))
  }

  // ------------------------------------------------------------------ safety

  /** However many rows want a write, at most LIMIT updates are issued. */
  lemma {:induction false} IssuedBounded(p: Pass, j: nat)
    requires p.Aligned() && p.beads != []
    ensures |Issued(p, j)| <= WantedBefore(p, j) && |Issued(p, j)| <= LIMIT
  {
    if j > 0 { IssuedBounded(p, j - 1); }
  }

  /** Demand safety of a pass, whatever the nil stores, refused writes or spent
      budget: a scoped control row ends with no route or with the route of its
      own scope's dispatcher, every other row is untouched, and a marker is
      dropped or a route introduced only on the strength of a durable write.
      And the pass does its work: a row that gets an attempt its store accepts
      ends with that route and no marker. */
  lemma PassIsDemandSafe(p: Pass, i: nat)
    requires p.Aligned() && i < |p.beads|
    ensures var before, after, ref := p.beads[i], Snapshot(p)[i], p.refs[i];
            && after == before.(routedTo := after.routedTo, fallback := after.fallback)
            && (if InScope(before)
                then after.routedTo == None || Some(Route(after)) == DesiredRoute(p.cfg, ref)
                else after == before)
            && (after.fallback != before.fallback || (after.routedTo != None && after.routedTo != before.routedTo) ==>
                p.stores[i] && p.accepts(i) && !NeedsWrite(p.cfg, after, ref))
            && (before.kind !in CONTROL_KINDS || !("city:" < before.rootStoreRef || "rig:" < before.rootStoreRef) ==> after == before)
            && Settled(p.cfg, before, ref, Attempted(p, Offset(p, i)) && p.stores[i] && p.accepts(i), after)
  {
    Rotation.VisitOffset(p.cursor, i, |p.beads|);
  }

  /** Every update issued is for a row with a wrong route or a marker, in a
      present store, and carries exactly what that row lacks. */
  lemma {:induction false} IssuedUpdatesAreLocal(p: Pass, j: nat, u: Update)
    requires p.Aligned() && p.beads != [] && j <= |p.beads| && u in Issued(p, j)
    ensures u.row < |p.beads| && u.id == p.beads[u.row].id && NeedsWrite(p.cfg, p.beads[u.row], p.refs[u.row])
    ensures u.route.Some? ==> u.route == DesiredRoute(p.cfg, p.refs[u.row])
    ensures var b := p.beads[u.row];
            && (u.route.Some? <==> Some(Route(b)) != DesiredRoute(p.cfg, p.refs[u.row]))
            && (u.clearFallback <==> Marked(b)) && (u.route.Some? || u.clearFallback)
    ensures p.stores[u.row]
  {
    if j > 0 && u in Issued(p, j - 1) {
      IssuedUpdatesAreLocal(p, j - 1, u);
    }
  }

  /** And every attempt on a present store issues one. */
  lemma {:induction false} AttemptsAreIssued(p: Pass, j: nat, k: nat)
    requires p.Aligned() && p.beads != [] && j < k && Attempted(p, j) && p.stores[Visit(p, j)]
    ensures UpdateFor(p, j) in Issued(p, k) && UpdateFor(p, j).row == Visit(p, j)
  {
    if j < k - 1 { AttemptsAreIssued(p, j, k - 1); }
  }

  // ----------------------------------------------------------- no starvation

  lemma {:induction false} WantedAtMostOffset(p: Pass, j: nat)
    requires p.Aligned() && p.beads != []
    ensures WantedBefore(p, j) <= j
  {
    if j > 0 { WantedAtMostOffset(p, j - 1); }
  }

  /** Among the first LIMIT rows visited, every row that wants a write gets an
      attempt, whatever the rows before it do with theirs. */
  lemma EarlyRowsAttempted(p: Pass, j: nat)
    requires p.Aligned() && p.beads != [] && j < LIMIT
    ensures Wants(p, j) ==> Attempted(p, j)
  {
    WantedAtMostOffset(p, j);
  }

  /** So a scoped control row among them whose store takes the write ends with
      the route of its scope's dispatcher and without a marker. */
  lemma EarlyRowsRepaired(p: Pass, i: nat, name: string)
    requires p.Aligned() && i < |p.beads| && Offset(p, i) < LIMIT
    requires p.beads[i].kind in CONTROL_KINDS && name != "" && p.beads[i].rootStoreRef in {"city:" + name, "rig:" + name}
    requires RigContext(p.refs[i]) in p.cfg && p.stores[i] && p.accepts(i)
    ensures Route(Snapshot(p)[i]) == p.cfg[RigContext(p.refs[i])] && !Marked(Snapshot(p)[i])
  {
    Rotation.VisitOffset(p.cursor, i, |p.beads|);
    EarlyRowsAttempted(p, Offset(p, i));
    assert "city:" < "city:" + name && "rig:" < "rig:" + name;
  }

  /** A run of passes by several cities: each domain owns its own cursor. */
  datatype DomainPass = DomainPass(domain: string, pass: Pass)

  function Cursor(cursors: map<string, nat>, domain: string): nat {
    if domain in cursors then cursors[domain] else 0
  }

  function Advance(cursors: map<string, nat>, domain: string): map<string, nat> {
    cursors[domain := (Cursor(cursors, domain) + LIMIT) % CURSOR_MODULUS]
  }

  /** The run is one the scheduler can produce from `cursors`. */
  ghost predicate ScheduledRun(run: seq<DomainPass>, cursors: map<string, nat>) {
    run != [] ==>
      && run[0].pass.Aligned()
      && run[0].pass.cursor == Cursor(cursors, run[0].domain)
      && ScheduledRun(run[1..], Advance(cursors, run[0].domain))
  }

  function PassesOf(run: seq<DomainPass>, domain: string): nat {
    if run == [] then 0 else (if run[0].domain == domain then 1 else 0) + PassesOf(run[1..], domain)
  }

  /** Every pass of the domain works on a backlog of `n` rows. */
  ghost predicate BacklogSize(run: seq<DomainPass>, domain: string, n: nat) {
    forall k :: 0 <= k < |run| && run[k].domain == domain ==> |run[k].pass.beads| == n
  }

  /** In some pass of the domain, row `i` is attempted if it wants a write. */
  ghost predicate Served(run: seq<DomainPass>, domain: string, i: nat) {
    exists k :: 0 <= k < |run| && ServedBy(run[k], domain, i)
  }

  ghost predicate ServedBy(dp: DomainPass, domain: string, i: nat) {
    && dp.domain == domain && dp.pass.Aligned() && i < |dp.pass.beads|
    && var j := Offset(dp.pass, i);
       j < LIMIT && Visit(dp.pass, j) == i && (Wants(dp.pass, j) ==> Attempted(dp.pass, j))
  }

  lemma BacklogTail(run: seq<DomainPass>, domain: string, n: nat)
    requires run != [] && BacklogSize(run, domain, n)
    ensures BacklogSize(run[1..], domain, n)
  {
    forall k | 0 <= k < |run[1..]| && run[1..][k].domain == domain ensures |run[1..][k].pass.beads| == n {
      assert run[1..][k] == run[k + 1];
    }
  }

  lemma ServedTail(run: seq<DomainPass>, domain: string, i: nat)
    requires run != [] && Served(run[1..], domain, i)
    ensures Served(run, domain, i)
  {
    var k :| 0 <= k < |run[1..]| && ServedBy(run[1..][k], domain, i);
    assert ServedBy(run[k + 1], domain, i);
  }

  /** A domain's cursor after `t` of its passes. */
  function CursorAfter(c: nat, t: nat): nat {
    (c + LIMIT * t) % CURSOR_MODULUS
  }

  /** Row `i` is among the first LIMIT visited in the pass number `t` from cursor `c`. */
  predicate Early(c: nat, t: nat, i: nat, n: nat)
    requires i < n
  {
    Rotation.Offset(CursorAfter(c, t), i, n) < LIMIT
  }

  ghost predicate EarlyWithin(c: nat, passes: nat, i: nat, n: nat)
    requires i < n
  {
    exists t: nat :: t < passes && Early(c, t, i, n)
  }

  lemma CursorSteps(c: nat, t: nat)
    ensures CursorAfter((c + LIMIT) % CURSOR_MODULUS, t) == CursorAfter(c, t + 1)
  {
    Arithmetic.ModPlus(c + LIMIT, LIMIT * t, CURSOR_MODULUS);
  }

  lemma EarlyWithinSteps(c: nat, passes: nat, i: nat, n: nat)
    requires i < n && c < CURSOR_MODULUS
    ensures EarlyWithin(c, passes + 1, i, n) <==>
            Rotation.Offset(c, i, n) < LIMIT || EarlyWithin((c + LIMIT) % CURSOR_MODULUS, passes, i, n)
  {
    Arithmetic.ModOnce(c, CURSOR_MODULUS);
    assert Early(c, 0, i, n) <==> Rotation.Offset(c, i, n) < LIMIT;
    var next := (c + LIMIT) % CURSOR_MODULUS;
    if EarlyWithin(next, passes, i, n) {
      var t: nat :| t < passes && Early(next, t, i, n);
      CursorSteps(c, t);
      assert Early(c, t + 1, i, n);
    }
    if EarlyWithin(c, passes + 1, i, n) && !Early(c, 0, i, n) {
      var t: nat :| t < passes + 1 && Early(c, t, i, n);
      CursorSteps(c, t - 1);
      assert Early(next, t - 1, i, n);
    }
  }

  /** What serves a row is the position of its own domain's cursor; passes of other domains do not matter. */
  lemma {:induction false} ServedIff(run: seq<DomainPass>, cursors: map<string, nat>, domain: string, i: nat, n: nat)
    requires ScheduledRun(run, cursors) && BacklogSize(run, domain, n) && i < n && Cursor(cursors, domain) < CURSOR_MODULUS
    ensures Served(run, domain, i) <==> EarlyWithin(Cursor(cursors, domain), PassesOf(run, domain), i, n)
  {
    if run != [] {
      BacklogTail(run, domain, n);
      ServedIff(run[1..], Advance(cursors, run[0].domain), domain, i, n);
      ServedHead(run, domain, i);
      if run[0].domain == domain {
        FirstPassServes(run[0], domain, i);
        EarlyWithinSteps(Cursor(cursors, domain), PassesOf(run[1..], domain), i, n);
      }
    }
  }

  lemma ServedHead(run: seq<DomainPass>, domain: string, i: nat)
    requires run != []
    ensures Served(run, domain, i) <==> ServedBy(run[0], domain, i) || Served(run[1..], domain, i)
  {
    if Served(run[1..], domain, i) { ServedTail(run, domain, i); }
    if Served(run, domain, i) {
      var k :| 0 <= k < |run| && ServedBy(run[k], domain, i);
      if k > 0 { assert run[1..][k - 1] == run[k]; }
    }
  }

  lemma FirstPassServes(dp: DomainPass, domain: string, i: nat)
    requires dp.domain == domain && dp.pass.Aligned() && i < |dp.pass.beads|
    ensures ServedBy(dp, domain, i) <==> Offset(dp.pass, i) < LIMIT
  {
    if Offset(dp.pass, i) < LIMIT {
      Rotation.VisitOffset(dp.pass.cursor, i, |dp.pass.beads|);
      EarlyRowsAttempted(dp.pass, Offset(dp.pass, i));
    }
  }

  // ------------------------------------------------- which passes reach a row

  /** Until the cursor wraps, a row comes nearer by LIMIT with each pass. */
  lemma PositionBeforeWrap(c: nat, t: nat, i: nat, n: nat)
    requires i < n && c + LIMIT * t < CURSOR_MODULUS && LIMIT * t <= Rotation.Offset(c, i, n)
    ensures Rotation.Offset(CursorAfter(c, t), i, n) == Rotation.Offset(c, i, n) - LIMIT * t
  {
    Arithmetic.ModOnce(c + LIMIT * t, CURSOR_MODULUS);
    Rotation.OffsetAdvances(c, i, n, LIMIT * t);
  }

  /** A wrap throws the cursor back by what 2^64 leaves over when divided by `n`. */
  lemma PositionAfterWrap(c: nat, t: nat, i: nat, n: nat)
    requires i < n && CURSOR_MODULUS <= c + LIMIT * t < 2 * CURSOR_MODULUS
    requires LIMIT * t <= Rotation.Offset(c, i, n) + CURSOR_MODULUS % n < LIMIT * t + n
    ensures Rotation.Offset(CursorAfter(c, t), i, n) == Rotation.Offset(c, i, n) + CURSOR_MODULUS % n - LIMIT * t
  {
    Arithmetic.ModOnce(c + LIMIT * t, CURSOR_MODULUS);
    Rotation.OffsetWraps(c, i, n, LIMIT * t, CURSOR_MODULUS);
  }

  /** Passes that cover a backlog of `n` rows: the ceiling of n / LIMIT. */
  function PassesToCover(n: nat): nat {
    (n + LIMIT - 1) / LIMIT
  }

  /** The cursor reaches the last of those passes without wrapping, or 2^64
      leaves so little over that the rows the last pass has to spare make up for it. */
  predicate Covers(c: nat, n: nat)
    requires 0 < n
  {
    c + LIMIT * (PassesToCover(n) - 1) < CURSOR_MODULUS || CURSOR_MODULUS % n <= LIMIT * PassesToCover(n) - n
  }

  lemma PassesEnough(n: nat)
    requires 0 < n
    ensures LIMIT * (PassesToCover(n) - 1) < n <= LIMIT * PassesToCover(n) < n + LIMIT
  {
  }

  /** The pass that reaches a row before the wrap. */
  lemma EarlyBeforeWrap(c: nat, i: nat, n: nat, t: nat)
    requires i < n && c + LIMIT * t < CURSOR_MODULUS && LIMIT * t <= Rotation.Offset(c, i, n) < LIMIT * t + LIMIT
    ensures Early(c, t, i, n)
  {
    PositionBeforeWrap(c, t, i, n);
  }

  /** The pass that reaches a row after the wrap. */
  lemma EarlyAfterWrap(c: nat, i: nat, n: nat, t: nat)
    requires LIMIT <= n && i < n && CURSOR_MODULUS <= c + LIMIT * t < 2 * CURSOR_MODULUS
    requires LIMIT * t <= Rotation.Offset(c, i, n) + CURSOR_MODULUS % n < LIMIT * t + LIMIT
    ensures Early(c, t, i, n)
  {
    PositionAfterWrap(c, t, i, n);
  }

  lemma CoveredRow(c: nat, i: nat, n: nat)
    requires i < n && n + LIMIT <= CURSOR_MODULUS && c < CURSOR_MODULUS && Covers(c, n)
    ensures EarlyWithin(c, PassesToCover(n), i, n)
  {
    var o, k := Rotation.Offset(c, i, n), PassesToCover(n);
    PassesEnough(n);
    var t := o / LIMIT;
    assert t < k;
    if c + LIMIT * t < CURSOR_MODULUS {
      EarlyBeforeWrap(c, i, n, t);
    } else {
      var r := CURSOR_MODULUS % n;
      assert r <= LIMIT * k - n && LIMIT <= n;
      var late := (o + r) / LIMIT;
      assert t <= late < k;
      EarlyAfterWrap(c, i, n, late);
    }
  }

  /** The first pass after the wrap. */
  function WrapPass(c: nat): nat
    requires c < CURSOR_MODULUS
  {
    (CURSOR_MODULUS - c + LIMIT - 1) / LIMIT
  }

  /** A row that all PassesToCover(n) passes leave out. */
  function MissedRow(c: nat, n: nat): nat
    requires 0 < n && c < CURSOR_MODULUS && !Covers(c, n)
  {
    (c + MissedOffset(c, n)) % n
  }

  function MissedOffset(c: nat, n: nat): (o: nat)
    requires 0 < n && c < CURSOR_MODULUS && !Covers(c, n)
    ensures LIMIT * WrapPass(c) <= o < n && LIMIT * PassesToCover(n) <= o + CURSOR_MODULUS % n
    ensures o == LIMIT * WrapPass(c) || LIMIT * PassesToCover(n) == o + CURSOR_MODULUS % n
  {
    PassesEnough(n);
    var atWrap, atEnd := LIMIT * WrapPass(c), LIMIT * PassesToCover(n) - CURSOR_MODULUS % n;
    if atWrap >= atEnd then atWrap else atEnd
  }

  lemma MissedBy(c: nat, n: nat, t: nat)
    requires 0 < n && n + LIMIT <= CURSOR_MODULUS && c < CURSOR_MODULUS && !Covers(c, n) && t < PassesToCover(n)
    ensures !Early(c, t, MissedRow(c, n), n)
  {
    var o, i := MissedOffset(c, n), MissedRow(c, n);
    Rotation.OffsetIff(c, i, n, o);
    if t < WrapPass(c) {
      PositionBeforeWrap(c, t, i, n);
    } else {
      PositionAfterWrap(c, t, i, n);
    }
  }

  lemma CoverageIff(c: nat, n: nat)
    requires 0 < n && n + LIMIT <= CURSOR_MODULUS && c < CURSOR_MODULUS
    ensures (forall i: nat :: i < n ==> EarlyWithin(c, PassesToCover(n), i, n)) <==> Covers(c, n)
  {
    if Covers(c, n) {
      forall i: nat | i < n ensures EarlyWithin(c, PassesToCover(n), i, n) { CoveredRow(c, i, n); }
    } else {
      forall t: nat | t < PassesToCover(n) ensures !Early(c, t, MissedRow(c, n), n) { MissedBy(c, n, t); }
      assert !EarlyWithin(c, PassesToCover(n), MissedRow(c, n), n);
    }
  }

  lemma RowWithinTwoSweeps(c: nat, i: nat, n: nat)
    requires i < n && n + LIMIT <= CURSOR_MODULUS && c < CURSOR_MODULUS
    ensures EarlyWithin(c, 2 * PassesToCover(n) - 1, i, n)
  {
    var w := WrapPass(c);
    if Covers(c, n) {
      CoveredRow(c, i, n);
      var t: nat :| t < PassesToCover(n) && Early(c, t, i, n);
    } else {
      var wrapped := c + LIMIT * w - CURSOR_MODULUS;
      Arithmetic.ModOnce(c + LIMIT * w, CURSOR_MODULUS);
      CoveredRow(wrapped, i, n);
      var t: nat :| t < PassesToCover(n) && Early(wrapped, t, i, n);
      Arithmetic.ModPlus(c + LIMIT * w, LIMIT * t, CURSOR_MODULUS);
      assert CursorAfter(c, w + t) == CursorAfter(wrapped, t);
      assert Early(c, w + t, i, n);
    }
  }

  // ------------------------------------------------------------------- results

  ghost predicate AllServed(run: seq<DomainPass>, domain: string, n: nat) {
    forall i: nat :: i < n ==> Served(run, domain, i)
  }

  /** Some pass of the domain gives row `i` a write attempt. */
  ghost predicate AttemptedIn(run: seq<DomainPass>, domain: string, i: nat) {
    exists k :: 0 <= k < |run| && AttemptedBy(run[k], domain, i)
  }

  ghost predicate AttemptedBy(dp: DomainPass, domain: string, i: nat) {
    dp.domain == domain && dp.pass.Aligned() && i < |dp.pass.beads| && Attempted(dp.pass, Offset(dp.pass, i))
  }

  /** Every row wants a write in every pass of the domain. */
  ghost predicate Busy(run: seq<DomainPass>, domain: string) {
    forall k :: 0 <= k < |run| && run[k].domain == domain ==> BusyPass(run[k].pass)
  }

  ghost predicate BusyPass(p: Pass) {
    p.Aligned() && p.beads != [] && forall j: nat :: j < |p.beads| ==> Wants(p, j)
  }

  lemma {:induction false} AllWanted(p: Pass, j: nat)
    requires p.Aligned() && p.beads != [] && forall k: nat :: k < j ==> Wants(p, k)
    ensures WantedBefore(p, j) == j
  {
    if j > 0 { AllWanted(p, j - 1); }
  }

  /** When every row wants a write, the rows attempted are the first LIMIT visited. */
  lemma BusyAttempts(run: seq<DomainPass>, domain: string, i: nat, n: nat)
    requires Busy(run, domain) && BacklogSize(run, domain, n) && i < n
    ensures AttemptedIn(run, domain, i) <==> Served(run, domain, i)
  {
    forall k | 0 <= k < |run| ensures AttemptedBy(run[k], domain, i) <==> ServedBy(run[k], domain, i) {
      if run[k].domain == domain {
        var j := Offset(run[k].pass, i);
        AllWanted(run[k].pass, j);
        FirstPassServes(run[k], domain, i);
      }
    }
  }

  /** The exact bound.  PassesToCover(n) passes of a city over a backlog of n
      rows bring every row among the first LIMIT visited, however many passes of
      other cities are interleaved, if and only if Covers holds of the cursor and
      the length; and when all rows want a write, that is the condition for
      every one of them to be given an attempt. */
  lemma NoStarvationIff(run: seq<DomainPass>, cursors: map<string, nat>, domain: string, n: nat)
    requires ScheduledRun(run, cursors) && BacklogSize(run, domain, n) && PassesOf(run, domain) == PassesToCover(n)
    requires 0 < n && n + LIMIT <= CURSOR_MODULUS && Cursor(cursors, domain) < CURSOR_MODULUS
    ensures AllServed(run, domain, n) <==> Covers(Cursor(cursors, domain), n)
    ensures Busy(run, domain) ==>
              ((forall i: nat :: i < n ==> AttemptedIn(run, domain, i)) <==> Covers(Cursor(cursors, domain), n))
  {
    forall i: nat | i < n
      ensures Served(run, domain, i) <==> EarlyWithin(Cursor(cursors, domain), PassesToCover(n), i, n)
      ensures Busy(run, domain) ==> (AttemptedIn(run, domain, i) <==> Served(run, domain, i))
    {
      ServedIff(run, cursors, domain, i, n);
      if Busy(run, domain) { BusyAttempts(run, domain, i, n); }
    }
    CoverageIff(Cursor(cursors, domain), n);
  }

  /** No starvation: under that condition any PassesToCover(n) passes or more
      give every row that needs one a write attempt, whatever rows fail forever. */
  lemma NoStarvation(run: seq<DomainPass>, cursors: map<string, nat>, domain: string, i: nat, n: nat)
    requires ScheduledRun(run, cursors) && BacklogSize(run, domain, n) && PassesOf(run, domain) >= PassesToCover(n)
    requires i < n && n + LIMIT <= CURSOR_MODULUS && Cursor(cursors, domain) < CURSOR_MODULUS
    requires Covers(Cursor(cursors, domain), n)
    ensures Served(run, domain, i)
  {
    ServedIff(run, cursors, domain, i, n);
    CoveredRow(Cursor(cursors, domain), i, n);
    var t: nat :| t < PassesToCover(n) && Early(Cursor(cursors, domain), t, i, n);
  }

  /** Wherever the cursor stands, fewer than twice as many passes always suffice. */
  lemma NoStarvationAcrossWrap(run: seq<DomainPass>, cursors: map<string, nat>, domain: string, i: nat, n: nat)
    requires ScheduledRun(run, cursors) && BacklogSize(run, domain, n) && PassesOf(run, domain) >= 2 * PassesToCover(n) - 1
    requires i < n && n + LIMIT <= CURSOR_MODULUS && Cursor(cursors, domain) < CURSOR_MODULUS
    ensures Served(run, domain, i)
  {
    ServedIff(run, cursors, domain, i, n);
    RowWithinTwoSweeps(Cursor(cursors, domain), i, n);
    var t: nat :| t < 2 * PassesToCover(n) - 1 && Early(Cursor(cursors, domain), t, i, n);
  }

  lemma RowZeroMissed()
    ensures !EarlyWithin(CURSOR_MODULUS - 1, 2, 0, 10)
  {
    var c := CURSOR_MODULUS - 1;
    assert CursorAfter(c, 0) == c && CursorAfter(c, 1) == 4;
    assert Rotation.Offset(c, 0, 10) == 5 && Rotation.Offset(4, 0, 10) == 6;
    assert !Early(c, 0, 0, 10) && !Early(c, 1, 0, 10);
  }

  lemma TwoPasses(domain: string, p: Pass, q: Pass)
    ensures PassesOf([DomainPass(domain, p), DomainPass(domain, q)], domain) == 2
  {
    var run := [DomainPass(domain, p), DomainPass(domain, q)];
    assert run[1..] == [DomainPass(domain, q)] && run[1..][1..] == [];
    assert PassesOf(run[1..], domain) == 1 + PassesOf([], domain);
  }

  /** An input on which the bound fails: ten rows and the counter one short of
      wrapping.  Two passes (enough for ten rows otherwise) both leave row 0 out,
      and without an attempt if all rows want one. */
  lemma WrapCanDelayARow(domain: string, p: Pass, q: Pass)
    requires |p.beads| == |q.beads| == 10
    requires ScheduledRun([DomainPass(domain, p), DomainPass(domain, q)], map[domain := CURSOR_MODULUS - 1])
    ensures var run := [DomainPass(domain, p), DomainPass(domain, q)];
            && PassesOf(run, domain) == PassesToCover(10) && !Served(run, domain, 0)
            && (Busy(run, domain) ==> !AttemptedIn(run, domain, 0))
  {
    var run := [DomainPass(domain, p), DomainPass(domain, q)];
    TwoPasses(domain, p, q);
    RowZeroMissed();
    ServedIff(run, map[domain := CURSOR_MODULUS - 1], domain, 0, 10);
    if Busy(run, domain) { BusyAttempts(run, domain, 0, 10); }
  }

  // ----------------------------------------------------------- the sweep itself

  /** Per-pass state: cached scope lookups, scopes already reported and the remaining budget. */
  class Sweep {
    const cfg: Config
    var routeByScope: map<string, Option<string>>
    var reported: set<string>
    var writesRemaining: int
    var updates: seq<Update>

    ghost predicate Valid()
      reads this
    {
      forall c :: c in routeByScope ==> routeByScope[c] == if c in cfg then Some(cfg[c]) else None
    }

    constructor (cfg: Config)
      ensures Valid() && this.cfg == cfg && writesRemaining == LIMIT && updates == []
    {
      this.cfg := cfg;
      routeByScope, reported, writesRemaining, updates := map[], {}, LIMIT, [];
    }

    /** The route of the row's own scope, looked up once per scope. */
    method Desired(storeRef: string) returns (route: Option<string>)
      requires Valid()
      modifies this`routeByScope, this`reported
      ensures Valid() && route == DesiredRoute(cfg, storeRef)
    {
      var scope := RigContext(storeRef);
      if scope !in routeByScope {
        routeByScope := routeByScope[scope := if scope in cfg then Some(cfg[scope]) else None];
      }
      route := routeByScope[scope];
      if route.None? { reported := reported + {scope}; }
    }

    /** Visits row `i`.  The budget is spent the moment a repair is attempted. */
    method RepairBead(beads: array<Bead>, i: nat, store: bool, storeRef: string, accepts: nat -> bool)
      requires Valid() && i < beads.Length
      modifies this, beads
      ensures Valid()
      ensures var b := old(beads[i]);
              var attempt := NeedsWrite(cfg, b, storeRef) && old(writesRemaining) > 0;
              && beads[i] == RowAfter(cfg, b, storeRef, attempt && store && accepts(i))
              && Settled(cfg, b, storeRef, attempt && store && accepts(i), beads[i])
              && writesRemaining == old(writesRemaining) - (if attempt then 1 else 0)
              && updates == old(updates) +
                 if attempt && store
                 then var route := DesiredRoute(cfg, storeRef).value;
                      [Update(i, b.id, if Route(b) != route then Some(route) else None, Marked(b))]
                 else []
      ensures forall k :: 0 <= k < beads.Length && k != i ==> beads[k] == old(beads[k])
    {
      var b := beads[i];
      if !IsControl(b) || !Scoped(b.rootStoreRef) { return; }
      var desired := Desired(storeRef);
      if desired.None? {
        beads[i] := b.(routedTo := None);
        return;
      }
      var wrongRoute, marked := Route(b) != desired.value, Marked(b);
      if !wrongRoute && !marked { return; }
      var written := false;
      if writesRemaining > 0 {
        writesRemaining := writesRemaining - 1;
        if store {
          updates := updates + [Update(i, b.id, if wrongRoute then Some(desired.value) else None, marked)];
          written := accepts(i);
        }
      }
      if written {
        beads[i] := b.(routedTo := if wrongRoute then desired else b.routedTo, fallback := if marked then None else b.fallback);
      } else if wrongRoute {
        beads[i] := b.(routedTo := None);
      }
    }
  }

  /** Misaligned inputs: no control row may keep a route. */
  method SuppressRoutes(beads: array<Bead>)
    modifies beads
    ensures forall i :: 0 <= i < beads.Length ==>
              beads[i] == if IsControl(old(beads[i])) then old(beads[i]).(routedTo := None) else old(beads[i])
  {
    for i := 0 to beads.Length
      invariant forall k :: 0 <= k < i ==>
                  beads[k] == if IsControl(old(beads[k])) then old(beads[k]).(routedTo := None) else old(beads[k])
      invariant forall k :: i <= k < beads.Length ==> beads[k] == old(beads[k])
    {
      if IsControl(beads[i]) { beads[i] := beads[i].(routedTo := None); }
    }
  }

  /** The rotating loop over the snapshot, edited in place. */
  method SweepRows(p: Pass, beads: array<Bead>) returns (updates: seq<Update>)
    requires p.Aligned() && p.beads != [] && beads[..] == p.beads
    modifies beads
    ensures beads[..] == Snapshot(p) && updates == Issued(p, |p.beads|)
  {
    var n := beads.Length;
    var sweep := new Sweep(p.cfg);
    var start := p.cursor % n;
    for offset := 0 to n
      invariant sweep.Valid() && sweep.cfg == p.cfg
      invariant sweep.writesRemaining == if WantedBefore(p, offset) < LIMIT then LIMIT - WantedBefore(p, offset) else 0
      invariant sweep.updates == Issued(p, offset)
      invariant forall j :: 0 <= j < offset ==> beads[Visit(p, j)] == BeadAfter(p, j)
      invariant forall j :: offset <= j < n ==> beads[Visit(p, j)] == p.beads[Visit(p, j)]
    {
      var i := (start + offset) % n;
      assert i == Visit(p, offset);
      forall j | 0 <= j < n && j != offset ensures Visit(p, j) != i { Rotation.VisitInjective(p.cursor, j, offset, n); }
      sweep.RepairBead(beads, i, p.stores[i], p.refs[i], p.accepts);
    }
    forall i | 0 <= i < n ensures beads[i] == Snapshot(p)[i] { Rotation.VisitOffset(p.cursor, i, n); }
    updates := sweep.updates;
  }

  /** Process-wide cursors, one per repair domain. */
  class Scheduler {
    var cursors: map<string, nat>

    constructor ()
      ensures cursors == map[]
    {
      cursors := map[];
    }

    /** One pass of a city over its assigned-work snapshot. */
    method RepairRoutes(domain: string, cfg: Option<Config>, beads: array<Bead>, stores: seq<bool>, refs: seq<string>,
                        accepts: nat -> bool)
      returns (updates: seq<Update>)
      modifies this, beads
      ensures cfg.None? || beads.Length == 0 ==> beads[..] == old(beads[..]) && cursors == old(cursors) && updates == []
      ensures cfg.Some? && !(beads.Length == |stores| == |refs|) ==>
                && cursors == old(cursors) && updates == []
                && forall i :: 0 <= i < beads.Length ==>
                     beads[i] == if IsControl(old(beads[i])) then old(beads[i]).(routedTo := None) else old(beads[i])
      ensures cfg.Some? && 0 < beads.Length == |stores| == |refs| ==>
                var p := Pass(cfg.value, old(beads[..]), stores, refs, accepts, Cursor(old(cursors), domain));
                && beads[..] == Snapshot(p)
                && updates == Issued(p, beads.Length)
                && cursors == Advance(old(cursors), domain)
    {
      updates := [];
      if cfg.None? || beads.Length == 0 { return; }
      if beads.Length != |stores| || beads.Length != |refs| {
        SuppressRoutes(beads);
        return;
      }
      var p := Pass(cfg.value, beads[..], stores, refs, accepts, Cursor(cursors, domain));
      cursors := Advance(cursors, domain);
      updates := SweepRows(p, beads);
    }
  }
}
