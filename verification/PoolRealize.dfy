/**
 Realizing a pool's desired sessions: plan every request serially, create the
 planned sessions in parallel, then finalize in request order
 (realizePoolDesiredSessions and selectOrPlanPoolSessionBead in
 cmd/gc/build_desired_state.go).
 */
module PoolRealize {
  import opened Common
  import opened PoolSlots
  import B = CreateBudget

  // ------------------------------------------------------------------- inputs

  /** A session of the snapshot.  `canonical` says it identifies as the
      singleton's canonical session, `stuck` that collapsing it to that identity
      would fail. */
  datatype Session = Session(id: string, identity: Identity, named: bool, failedCreate: bool, manual: bool,
                             canonical: bool, stuck: bool)

  /** `resumes` says the request resumes work assigned to exactly that session. */
  datatype Request = Request(sessionId: string, resumes: bool)

  /** `reusable` are the sessions that pass the static reuse tests, oldest first;
      `blocked` says fresh creates are off (partial demand read or unhealthy provider). */
  datatype Pool = Pool(agent: Agent, template: string, byId: map<string, Session>, reusable: seq<Session>, blocked: bool)

  /** Sessions and slots taken so far, and the create budget (None for unlimited). */
  datatype State = State(used: set<string>, slots: set<int>, budget: Option<B.Budget>)

  datatype Item = Skipped | Reused(id: string, slot: int) | Planned(slot: int)

  datatype Step = Step(item: Item, state: State)

  // ------------------------------------------------------------------- phase A

  /** A session without any persisted identity. */
  const NO_IDENTITY := Identity("", "", "", "", false, false)

  /** The session is free and, on an expanding agent, can have a slot. */
  predicate CanReuse(p: Pool, st: State, s: Session, canonicalOnly: bool) {
    && s.id !in st.used && s.identity.sessionName != "" && (canonicalOnly ==> s.canonical)
    && (IsSingleton(p.agent) || ClaimDesired(p.agent, s.identity, st.slots).slot != 0)
  }

  /** The oldest session from index `k` on that can be reused; None only if there is none. */
  function FirstReusable(p: Pool, st: State, k: nat, canonicalOnly: bool): (r: Option<Session>)
    requires k <= |p.reusable|
    ensures match r
            case None => forall i :: k <= i < |p.reusable| ==> !CanReuse(p, st, p.reusable[i], canonicalOnly)
            case Some(s) =>
              CanReuse(p, st, s, canonicalOnly) &&
              exists i :: k <= i < |p.reusable| && s == p.reusable[i] && NoneReusable(p, st, k, i, canonicalOnly)
    decreases |p.reusable| - k
  {
    if k == |p.reusable| then None
    else if CanReuse(p, st, p.reusable[k], canonicalOnly) then
      assert NoneReusable(p, st, k, k, canonicalOnly);
      Some(p.reusable[k])
    else
      var r := FirstReusable(p, st, k + 1, canonicalOnly);
      assert r.Some? ==> exists i :: k <= i < |p.reusable| && r.value == p.reusable[i] && NoneReusable(p, st, k, i, canonicalOnly) by {
        if r.Some? {
          var i :| k + 1 <= i < |p.reusable| && r.value == p.reusable[i] && NoneReusable(p, st, k + 1, i, canonicalOnly);
          assert NoneReusable(p, st, k, i, canonicalOnly);
        }
      }
      r
  }

  ghost predicate NoneReusable(p: Pool, st: State, from: int, to: int, canonicalOnly: bool)
    requires 0 <= from <= to <= |p.reusable|
  {
    forall i :: from <= i < to ==> !CanReuse(p, st, p.reusable[i], canonicalOnly)
  }

  /** Reuses `s` with the slot claimed for it, unless its singleton identity cannot be normalized. */
  function Reuse(p: Pool, st: State, s: Session, c: Claim): Step {
    if IsSingleton(p.agent) && s.stuck && !s.manual then Step(Skipped, st.(slots := c.used))
    else if s.id in st.used then Step(Skipped, st.(slots := c.used))
    else Step(Reused(s.id, c.slot), st.(used := st.used + {s.id}, slots := c.used))
  }

  /** Reserves a slot and a budget token for a fresh session; a refusal gives the slot back. */
  function PlanFresh(p: Pool, st: State): Step {
    var c := ClaimDesired(p.agent, NO_IDENTITY, st.slots);
    var refused := Step(Skipped, st.(slots := c.used - {c.slot}));
    if p.blocked then refused
    else match st.budget
    case None => Step(Planned(c.slot), st.(slots := c.used))
    case Some(b) =>
      var claimed := B.TryClaim(b, p.template);
      if claimed.ok then Step(Planned(c.slot), State(st.used, c.used, Some(claimed.budget))) else refused
  }

  function Preferred(p: Pool, r: Request): Option<Session> {
    if r.sessionId != "" && r.sessionId in p.byId then Some(p.byId[r.sessionId]) else None
  }

  /** Resumes the preferred session, or fails when its concrete slot is taken. */
  function Resume(p: Pool, st: State, r: Request, s: Session): Step {
    var c := ClaimPreferred(p.agent, s.identity, r.resumes, st.slots);
    if c.slot == 0 && !IsSingleton(p.agent) then Step(Skipped, st.(slots := c.used)) else Reuse(p, st, s, c)
  }

  /** Reuses a free session, the singleton's canonical one first, else plans a fresh one. */
  function ReuseOrPlan(p: Pool, st: State): Step {
    var canonical := if IsSingleton(p.agent) then FirstReusable(p, st, 0, true) else None;
    var candidate := if canonical.Some? then canonical else FirstReusable(p, st, 0, false);
    match candidate
    case Some(s) => Reuse(p, st, s, ClaimDesired(p.agent, s.identity, st.slots))
    case None => PlanFresh(p, st)
  }

  /** One request: resume the preferred session, else reuse one, else plan a fresh one. */
  function PlanRequest(p: Pool, st: State, r: Request): Step {
    var prefer := Preferred(p, r);
    if prefer.Some? && prefer.value.named then Step(Skipped, st)
    else if prefer.Some? && prefer.value.id != "" && prefer.value.id !in st.used && !prefer.value.failedCreate then
      Resume(p, st, r, prefer.value)
    else ReuseOrPlan(p, st)
  }

  datatype Plan = Plan(items: seq<Item>, state: State)

  /** Phase A over the first `n` requests. */
  function PlanRequests(p: Pool, budget: Option<B.Budget>, requests: seq<Request>, n: nat): (plan: Plan)
    requires n <= |requests|
    ensures |plan.items| == n
  {
    if n == 0 then Plan([], State({}, {}, budget))
    else
      var before := PlanRequests(p, budget, requests, n - 1);
      Extend(before, PlanRequest(p, before.state, requests[n - 1]))
  }

  function Extend(before: Plan, step: Step): Plan {
    Plan(before.items + [step.item], step.state)
  }

  // ---------------------------------------------------- what phase A guarantees

  function SlotsOf(items: seq<Item>): set<int> {
    set i | 0 <= i < |items| && !items[i].Skipped? :: items[i].slot
  }

  function IdsOf(items: seq<Item>): set<string> {
    set i | 0 <= i < |items| && items[i].Reused? :: items[i].id
  }

  function PlannedCount(items: seq<Item>): nat {
    if items == [] then 0 else PlannedCount(items[..|items| - 1]) + if items[|items| - 1].Planned? then 1 else 0
  }

  /** Nobody shares a slot or a session. */
  ghost predicate NoSharing(items: seq<Item>) {
    && (forall i, j :: 0 <= i < j < |items| && !items[i].Skipped? && !items[j].Skipped? ==> items[i].slot != items[j].slot)
    && (forall i, j :: 0 <= i < j < |items| && items[i].Reused? && items[j].Reused? ==> items[i].id != items[j].id)
  }

  /** A plan for an expanding agent: the tables record exactly what the items
      hold, nothing is held twice, and a fresh slot is at most its request's number. */
  ghost predicate SoundPlan(plan: Plan) {
    && NoSharing(plan.items)
    && plan.state.slots == SlotsOf(plan.items) && plan.state.used == IdsOf(plan.items)
    && |plan.state.slots| <= |plan.items| && SlotsBounded(plan.items)
  }

  /** What one request may do to the tables of an expanding agent. */
  ghost predicate SoundStep(st: State, step: Step) {
    match step.item
    case Skipped => step.state.used == st.used && step.state.slots == st.slots
    case Reused(id, slot) =>
      id !in st.used && slot > 0 && slot !in st.slots && step.state.used == st.used + {id} && step.state.slots == st.slots + {slot}
    case Planned(slot) =>
      0 < slot <= |st.slots| + 1 && slot !in st.slots && step.state.used == st.used && step.state.slots == st.slots + {slot}
  }

  lemma PlanFreshSound(p: Pool, st: State)
    requires !IsSingleton(p.agent)
    ensures SoundStep(st, PlanFresh(p, st))
  {
    assert ExistingSlot(p.agent, NO_IDENTITY) <= 0;
    ClaimsAreSound(p.agent, NO_IDENTITY, false, st.slots);
  }

  lemma ResumeSound(p: Pool, st: State, r: Request, s: Session)
    requires !IsSingleton(p.agent) && s.id !in st.used
    ensures SoundStep(st, Resume(p, st, r, s))
  {
    ClaimsAreSound(p.agent, s.identity, r.resumes, st.slots);
  }

  lemma ReuseOrPlanSound(p: Pool, st: State)
    requires !IsSingleton(p.agent)
    ensures SoundStep(st, ReuseOrPlan(p, st))
  {
    var s := FirstReusable(p, st, 0, false);
    if s.Some? { ClaimsAreSound(p.agent, s.value.identity, false, st.slots); } else { PlanFreshSound(p, st); }
  }

  lemma PlanRequestSound(p: Pool, st: State, r: Request)
    requires !IsSingleton(p.agent)
    ensures SoundStep(st, PlanRequest(p, st, r))
  {
    var prefer := Preferred(p, r);
    ReuseOrPlanSound(p, st);
    if prefer.Some? && prefer.value.id !in st.used { ResumeSound(p, st, r, prefer.value); }
  }

  // ------------------------------------------------- how a request is served

  /** The session carries a slot of its own and another one holds it. */
  predicate SlotTaken(p: Pool, st: State, s: Session, resumes: bool) {
    var due := DueSlot(p.agent, s.identity, resumes);
    !IsSingleton(p.agent) && due > 0 && due in st.slots
  }

  /** The session cannot be collapsed to the singleton's canonical identity. */
  predicate Stuck(p: Pool, s: Session) {
    IsSingleton(p.agent) && s.stuck && !s.manual
  }

  /** The slot the session is given: none on a singleton, its own, else the least free one. */
  ghost predicate SlotGiven(p: Pool, st: State, id: Identity, resumes: bool, slot: int) {
    var due := DueSlot(p.agent, id, resumes);
    if IsSingleton(p.agent) then slot == 0 else if due > 0 then slot == due else IsLeastFree(st.slots, 1, slot)
  }

  /** Reused, unless its slot is taken or it is stuck. */
  ghost predicate ServedBy(p: Pool, st: State, s: Session, resumes: bool, item: Item) {
    if SlotTaken(p, st, s, resumes) || Stuck(p, s) then item.Skipped?
    else item.Reused? && item.id == s.id && SlotGiven(p, st, s.identity, resumes, item.slot)
  }

  /** Nobody uses the session, it has a name and its slot is not taken. */
  predicate Free(p: Pool, st: State, s: Session) {
    s.id !in st.used && s.identity.sessionName != "" && !SlotTaken(p, st, s, false)
  }

  ghost predicate CanonicalFree(p: Pool, st: State) {
    IsSingleton(p.agent) && exists k: nat :: k < |p.reusable| && Free(p, st, p.reusable[k]) && p.reusable[k].canonical
  }

  /** The session at `i` is the one to reuse: the oldest free one, of the canonical ones if the singleton has any. */
  ghost predicate Oldest(p: Pool, st: State, i: nat) {
    && i < |p.reusable| && Free(p, st, p.reusable[i]) && (CanonicalFree(p, st) ==> p.reusable[i].canonical)
    && forall k: nat :: k < i && Free(p, st, p.reusable[k]) ==> CanonicalFree(p, st) && !p.reusable[k].canonical
  }

  /** No fresh session may be created: creates are off, or no token is left for the template. */
  ghost predicate CreateRefused(p: Pool, st: State) {
    || p.blocked
    || (st.budget.Some? && var b := st.budget.value;
        b.remaining <= 0 || (b.shares.Some? && !B.HasShare(b, p.template) && b.spare <= 0))
  }

  /** The request prefers a session of the snapshot. */
  predicate Prefers(p: Pool, r: Request, s: Session) {
    r.sessionId != "" && r.sessionId in p.byId && p.byId[r.sessionId] == s
  }

  /** The session can be resumed. */
  predicate Resumable(st: State, s: Session) {
    !s.named && s.id != "" && s.id !in st.used && !s.failedCreate
  }

  /** How a request is due to be served, told from the request, the snapshot and
      the tables: a named session is left alone, a resumable one is resumed,
      else the oldest free one is reused, and only without one a fresh one is
      planned on the least free slot. */
  ghost predicate Due(p: Pool, st: State, r: Request, item: Item) {
    && (forall s :: Prefers(p, r, s) && s.named ==> item.Skipped?)
    && (forall s :: Prefers(p, r, s) && Resumable(st, s) ==> ServedBy(p, st, s, r.resumes, item))
    && ((forall s :: Prefers(p, r, s) ==> !s.named && !Resumable(st, s)) ==> DueWithout(p, st, item))
  }

  /** The same, for a request without a session to resume. */
  ghost predicate DueWithout(p: Pool, st: State, item: Item) {
    && (forall i: nat :: Oldest(p, st, i) ==> ServedBy(p, st, p.reusable[i], false, item))
    && ((forall i: nat :: i < |p.reusable| ==> !Free(p, st, p.reusable[i])) ==>
          if CreateRefused(p, st) then item.Skipped? else item.Planned? && SlotGiven(p, st, NO_IDENTITY, false, item.slot))
  }

  lemma ReuseServes(p: Pool, st: State, s: Session, resumes: bool, c: Claim)
    requires s.id !in st.used && Yields(p.agent, DueSlot(p.agent, s.identity, resumes), st.slots, c)
    ensures !SlotTaken(p, st, s, resumes) ==> ServedBy(p, st, s, resumes, Reuse(p, st, s, c).item)
    ensures SlotTaken(p, st, s, resumes) <==> c.slot == 0 && !IsSingleton(p.agent)
  {
  }

  lemma CanReuseIff(p: Pool, st: State, s: Session, canonicalOnly: bool)
    ensures CanReuse(p, st, s, canonicalOnly) <==> Free(p, st, s) && (canonicalOnly ==> s.canonical)
  {
    ClaimsYield(p.agent, s.identity, false, st.slots);
  }

  lemma FreshServes(p: Pool, st: State)
    ensures var item := PlanFresh(p, st).item;
            if CreateRefused(p, st) then item.Skipped? else item.Planned? && SlotGiven(p, st, NO_IDENTITY, false, item.slot)
  {
    ClaimsYield(p.agent, NO_IDENTITY, false, st.slots);
    if st.budget.Some? { B.ClaimDraws(st.budget.value, p.template); }
  }

  /** The candidate is the oldest free session, whichever index it is found at. */
  lemma CandidateIsOldest(p: Pool, st: State, i: nat)
    requires Oldest(p, st, i)
    ensures var canonical := if IsSingleton(p.agent) then FirstReusable(p, st, 0, true) else None;
            (if canonical.Some? then canonical else FirstReusable(p, st, 0, false)) == Some(p.reusable[i])
  {
    forall s, canonicalOnly { CanReuseIff(p, st, s, canonicalOnly); }
    var canonicalOnly := CanonicalFree(p, st);
    var first := FirstReusable(p, st, 0, canonicalOnly);
    assert CanReuse(p, st, p.reusable[i], canonicalOnly);
    var k :| 0 <= k < |p.reusable| && first.value == p.reusable[k] && NoneReusable(p, st, 0, k, canonicalOnly);
    assert k == i;
  }

  lemma ReuseOrPlanServes(p: Pool, st: State)
    ensures DueWithout(p, st, ReuseOrPlan(p, st).item)
  {
    var item := ReuseOrPlan(p, st).item;
    forall s, canonicalOnly { CanReuseIff(p, st, s, canonicalOnly); }
    forall i: nat | Oldest(p, st, i) ensures ServedBy(p, st, p.reusable[i], false, item) {
      CandidateIsOldest(p, st, i);
      ClaimsYield(p.agent, p.reusable[i].identity, false, st.slots);
      ReuseServes(p, st, p.reusable[i], false, ClaimDesired(p.agent, p.reusable[i].identity, st.slots));
    }
    FreshServes(p, st);
  }

  /** Every request is served as it is due, on every agent. */
  lemma RequestServed(p: Pool, st: State, r: Request)
    ensures Due(p, st, r, PlanRequest(p, st, r).item)
  {
    var prefer := Preferred(p, r);
    if prefer.Some? && Resumable(st, prefer.value) {
      var s := prefer.value;
      ClaimsYield(p.agent, s.identity, r.resumes, st.slots);
      ReuseServes(p, st, s, r.resumes, ClaimPreferred(p.agent, s.identity, r.resumes, st.slots));
    } else {
      ReuseOrPlanServes(p, st);
    }
  }

  /** Some session is the oldest free one, unless none is free: the cases of `DueWithout` are all there are. */
  lemma SomeOldest(p: Pool, st: State) returns (i: nat)
    requires exists k: nat :: k < |p.reusable| && Free(p, st, p.reusable[k])
    ensures Oldest(p, st, i)
  {
    forall s, canonicalOnly { CanReuseIff(p, st, s, canonicalOnly); }
    var first := FirstReusable(p, st, 0, CanonicalFree(p, st));
    i :| i < |p.reusable| && first.value == p.reusable[i] && NoneReusable(p, st, 0, i, CanonicalFree(p, st));
  }

  /** A singleton takes no slots; the session table grows by exactly the session reused. */
  lemma SingletonTables(p: Pool, st: State, r: Request)
    requires IsSingleton(p.agent) && 0 !in st.slots
    ensures var step := PlanRequest(p, st, r);
            step.state.slots == st.slots && step.state.used == st.used + if step.item.Reused? then {step.item.id} else {}
  {
  }

  /** Each of the first `n` items serves its request as it was due when its turn came. */
  ghost predicate DueSoFar(p: Pool, budget: Option<B.Budget>, requests: seq<Request>, n: nat, items: seq<Item>) {
    && n == |items| <= |requests|
    && forall i: nat :: i < n ==> Due(p, PlanRequests(p, budget, requests, i).state, requests[i], items[i])
  }

  ghost predicate DueAfter(p: Pool, budget: Option<B.Budget>, requests: seq<Request>, n: nat) {
    n <= |requests| ==> DueSoFar(p, budget, requests, n, PlanRequests(p, budget, requests, n).items)
  }

  lemma DueExtends(p: Pool, budget: Option<B.Budget>, requests: seq<Request>, n: nat, items: seq<Item>, item: Item)
    requires n < |requests| && DueSoFar(p, budget, requests, n, items)
    requires Due(p, PlanRequests(p, budget, requests, n).state, requests[n], item)
    ensures DueSoFar(p, budget, requests, n + 1, items + [item])
  {
  }

  lemma PlanStepServes(p: Pool, budget: Option<B.Budget>, requests: seq<Request>, n: nat)
    requires DueAfter(p, budget, requests, n)
    ensures DueAfter(p, budget, requests, n + 1)
  {
    if n < |requests| {
      var before := PlanRequests(p, budget, requests, n);
      RequestServed(p, before.state, requests[n]);
      DueExtends(p, budget, requests, n, before.items, PlanRequest(p, before.state, requests[n]).item);
    }
  }

  /** So is every request of the plan, when its turn comes. */
  lemma PlanServes(p: Pool, budget: Option<B.Budget>, requests: seq<Request>)
    ensures DueSoFar(p, budget, requests, |requests|, PlanRequests(p, budget, requests, |requests|).items)
  {
    forall k: nat | DueAfter(p, budget, requests, k) ensures DueAfter(p, budget, requests, k + 1) {
      PlanStepServes(p, budget, requests, k);
    }
    Induction((k: nat) => DueAfter(p, budget, requests, k), |requests|);
    assert DueAfter(p, budget, requests, |requests|);
  }

  // --------------------------------------------------------- the plan is sound

  lemma ItemsGrow(items: seq<Item>, item: Item)
    ensures SlotsOf(items + [item]) == SlotsOf(items) + if item.Skipped? then {} else {item.slot}
    ensures IdsOf(items + [item]) == IdsOf(items) + if item.Reused? then {item.id} else {}
  {
    var all := items + [item];
    assert forall i :: 0 <= i < |items| ==> all[i] == items[i];
    assert forall x :: x in SlotsOf(items) ==> x in SlotsOf(all) by {
      forall x | x in SlotsOf(items) ensures x in SlotsOf(all) {
        var i :| 0 <= i < |items| && !items[i].Skipped? && items[i].slot == x;
        assert !all[i].Skipped? && all[i].slot == x;
      }
    }
    assert forall x :: x in IdsOf(items) ==> x in IdsOf(all) by {
      forall x | x in IdsOf(items) ensures x in IdsOf(all) {
        var i :| 0 <= i < |items| && items[i].Reused? && items[i].id == x;
        assert all[i].Reused? && all[i].id == x;
      }
    }
    assert all[|items|] == item;
  }

  lemma NoSharingExtends(items: seq<Item>, item: Item)
    requires NoSharing(items)
    requires item.Skipped? || item.slot !in SlotsOf(items)
    requires item.Reused? ==> item.id !in IdsOf(items)
    ensures NoSharing(items + [item])
  {
    var all := items + [item];
    forall i, j | 0 <= i < j < |all| && !all[i].Skipped? && !all[j].Skipped? ensures all[i].slot != all[j].slot {
      assert all[i] == items[i] && items[i].slot in SlotsOf(items);
      if j < |items| { assert all[j] == items[j]; }
    }
    forall i, j | 0 <= i < j < |all| && all[i].Reused? && all[j].Reused? ensures all[i].id != all[j].id {
      assert all[i] == items[i] && items[i].id in IdsOf(items);
      if j < |items| { assert all[j] == items[j]; }
    }
  }

  /** Slots are positive, and a fresh one is at most its request's number. */
  ghost predicate SlotsBounded(items: seq<Item>) {
    && (forall i :: 0 <= i < |items| && !items[i].Skipped? ==> items[i].slot > 0)
    && (forall i :: 0 <= i < |items| && items[i].Planned? ==> items[i].slot <= i + 1)
  }

  lemma SlotsBoundedExtends(items: seq<Item>, item: Item)
    requires SlotsBounded(items) && (!item.Skipped? ==> item.slot > 0) && (item.Planned? ==> item.slot <= |items| + 1)
    ensures SlotsBounded(items + [item])
  {
  }

  lemma TablesExtend(before: Plan, step: Step)
    requires before.state.slots == SlotsOf(before.items) && before.state.used == IdsOf(before.items)
    requires |before.state.slots| <= |before.items| && SoundStep(before.state, step)
    ensures var plan := Extend(before, step);
            && plan.state.slots == SlotsOf(plan.items) && plan.state.used == IdsOf(plan.items)
            && |plan.state.slots| <= |plan.items|
  {
    ItemsGrow(before.items, step.item);
  }

  lemma SoundExtends(before: Plan, step: Step)
    requires SoundPlan(before) && SoundStep(before.state, step)
    ensures SoundPlan(Extend(before, step))
  {
    TablesExtend(before, step);
    NoSharingExtends(before.items, step.item);
    SlotsBoundedExtends(before.items, step.item);
  }

  ghost predicate SoundAfter(p: Pool, budget: Option<B.Budget>, requests: seq<Request>, n: nat) {
    n <= |requests| ==> SoundPlan(PlanRequests(p, budget, requests, n))
  }

  lemma PlanStepSound(p: Pool, budget: Option<B.Budget>, requests: seq<Request>, n: nat)
    requires !IsSingleton(p.agent) && SoundAfter(p, budget, requests, n)
    ensures SoundAfter(p, budget, requests, n + 1)
  {
    if n < |requests| {
      var before := PlanRequests(p, budget, requests, n);
      PlanRequestSound(p, before.state, requests[n]);
      SoundExtends(before, PlanRequest(p, before.state, requests[n]));
    }
  }

  lemma EmptyPlanSound(p: Pool, budget: Option<B.Budget>, requests: seq<Request>)
    ensures SoundAfter(p, budget, requests, 0)
  {
    assert SlotsOf([]) == {} && IdsOf([]) == {};
  }

  /** Phase A is sound for every list of requests, every snapshot and every budget. */
  lemma PlanIsSound(p: Pool, budget: Option<B.Budget>, requests: seq<Request>, n: nat)
    requires !IsSingleton(p.agent) && n <= |requests|
    ensures SoundPlan(PlanRequests(p, budget, requests, n))
  {
    EmptyPlanSound(p, budget, requests);
    forall k: nat | SoundAfter(p, budget, requests, k) ensures SoundAfter(p, budget, requests, k + 1) {
      PlanStepSound(p, budget, requests, k);
    }
    Induction((k: nat) => SoundAfter(p, budget, requests, k), n);
    assert SoundAfter(p, budget, requests, n);
  }

  // --------------------------------------------------------------- the budget

  /** Tokens left, counting an unlimited budget as whatever it was. */
  ghost predicate Spent(before: Option<B.Budget>, after: Option<B.Budget>, tokens: int) {
    && (before.None? <==> after.None?)
    && (before.Some? ==> after.value.remaining == before.value.remaining - tokens)
  }

  ghost predicate Balanced(b: Option<B.Budget>) {
    b.Some? ==> B.Balanced(b.value)
  }

  lemma PlanRequestSpends(p: Pool, st: State, r: Request)
    ensures Spent(st.budget, PlanRequest(p, st, r).state.budget, if PlanRequest(p, st, r).item.Planned? then 1 else 0)
    ensures Balanced(st.budget) ==> Balanced(PlanRequest(p, st, r).state.budget)
  {
    if st.budget.Some? && B.Balanced(st.budget.value) { B.BudgetStep(st.budget.value, p.template); }
  }

  /** Phase A takes one token per planned create, on every agent. */
  lemma {:induction false} PlanSpends(p: Pool, budget: Option<B.Budget>, requests: seq<Request>, n: nat)
    requires n <= |requests|
    ensures var plan := PlanRequests(p, budget, requests, n);
            Spent(budget, plan.state.budget, PlannedCount(plan.items)) && (Balanced(budget) ==> Balanced(plan.state.budget))
  {
    if n > 0 {
      PlanSpends(p, budget, requests, n - 1);
      var before := PlanRequests(p, budget, requests, n - 1);
      PlanRequestSpends(p, before.state, requests[n - 1]);
      var items := PlanRequests(p, budget, requests, n).items;
      assert items[..|items| - 1] == before.items;
    }
  }

  // ------------------------------------------------------------------- phase B

  /** What the store answers to the create planned by item `i`: the id of the new session, or None on failure. */
  type Outcomes = nat -> Option<string>

  /** The result per item, for the creates that ran. */
  type Results = map<nat, Option<string>>

  /** The creates completed so far, in whatever order the workers finish them. */
  datatype Batch = Batch(results: Results, budget: Option<B.Budget>)

  /** One worker finishes create `i`; a failure refunds its token. */
  function Complete(b: Batch, i: nat, outcomes: Outcomes): Batch {
    Batch(b.results[i := outcomes(i)],
          if outcomes(i).None? && b.budget.Some? then Some(B.Release(b.budget.value)) else b.budget)
  }

  function RunCreates(order: seq<nat>, outcomes: Outcomes, budget: Option<B.Budget>): Batch {
    if order == [] then Batch(map[], budget)
    else Complete(RunCreates(order[..|order| - 1], outcomes, budget), order[|order| - 1], outcomes)
  }

  function Pending(items: seq<Item>): set<nat> {
    set i: nat | i < |items| && items[i].Planned?
  }

  /** `order` is a completion order of the pending creates. */
  ghost predicate CompletionOrder(order: seq<nat>, items: seq<Item>) {
    Distinct(order) && Elements(order) == Pending(items)
  }

  function Refund(b: B.Budget, tokens: nat): B.Budget {
    if tokens == 0 then b else B.Release(Refund(b, tokens - 1))
  }

  ghost function Failures(s: set<nat>, outcomes: Outcomes): set<nat> {
    set i | i in s && outcomes(i).None?
  }

  lemma LastElement(order: seq<nat>)
    requires order != [] && Distinct(order)
    ensures var init, i := order[..|order| - 1], order[|order| - 1];
            Elements(order) == Elements(init) + {i} && i !in Elements(init) && Distinct(init)
  {
    var init, i := order[..|order| - 1], order[|order| - 1];
    assert order == init + [i];
    assert forall x :: x in order <==> x in init || x == i;
  }

  lemma {:induction false} ResultsOfBatch(order: seq<nat>, outcomes: Outcomes, budget: Option<B.Budget>)
    requires Distinct(order)
    ensures RunCreates(order, outcomes, budget).results == map i | i in Elements(order) :: outcomes(i)
  {
    if order != [] {
      LastElement(order);
      ResultsOfBatch(order[..|order| - 1], outcomes, budget);
    }
  }

  function RefundAll(b: Option<B.Budget>, tokens: nat): Option<B.Budget> {
    if b.None? then None else Some(Refund(b.value, tokens))
  }

  lemma FailuresGrow(s: set<nat>, i: nat, outcomes: Outcomes)
    requires i !in s
    ensures |Failures(s + {i}, outcomes)| == |Failures(s, outcomes)| + if outcomes(i).None? then 1 else 0
  {
    assert Failures(s + {i}, outcomes) == Failures(s, outcomes) + if outcomes(i).None? then {i} else {};
  }

  lemma {:induction false} BudgetOfBatch(order: seq<nat>, outcomes: Outcomes, budget: Option<B.Budget>)
    requires Distinct(order)
    ensures RunCreates(order, outcomes, budget).budget == RefundAll(budget, |Failures(Elements(order), outcomes)|)
  {
    if order == [] {
      assert Failures(Elements(order), outcomes) == {};
    } else {
      var init, i := order[..|order| - 1], order[|order| - 1];
      LastElement(order);
      BudgetOfBatch(init, outcomes, budget);
      FailuresGrow(Elements(init), i, outcomes);
    }
  }

  /** Whatever the order in which the parallel creates finish, phase B ends in the same batch. */
  lemma CompletionOrderIrrelevant(items: seq<Item>, order: seq<nat>, outcomes: Outcomes, budget: Option<B.Budget>)
    requires CompletionOrder(order, items)
    ensures RunCreates(order, outcomes, budget) ==
            Batch(map i | i in Pending(items) :: outcomes(i), RefundAll(budget, |Failures(Pending(items), outcomes)|))
  {
    ResultsOfBatch(order, outcomes, budget);
    BudgetOfBatch(order, outcomes, budget);
  }

  lemma {:induction false} RefundCounts(b: B.Budget, tokens: nat)
    ensures Refund(b, tokens).remaining == b.remaining + tokens
    ensures B.Balanced(b) ==> B.Balanced(Refund(b, tokens))
  {
    if tokens > 0 {
      RefundCounts(b, tokens - 1);
      if B.Balanced(b) { B.BudgetStep(Refund(b, tokens - 1), ""); }
    }
  }

  // ------------------------------------------------------------------- phase C

  /** A session the build ends up desiring, for request number `request`. */
  datatype Desired = Desired(request: nat, id: string, slot: int)

  datatype Final = Final(desired: seq<Desired>, used: set<string>, slots: set<int>)

  /** What phase B left for item `i`; a create that never ran would read as a session without an id. */
  function ResultOf(results: Results, i: nat): Option<string> {
    if i in results then results[i] else Some("")
  }

  /** Finalizes item `i`: a failed create frees its slot, a session already taken is dropped. */
  function Finalize(f: Final, i: nat, item: Item, results: Results): Final {
    match item
    case Skipped => f
    case Reused(id, slot) => f.(desired := f.desired + [Desired(i, id, slot)])
    case Planned(slot) =>
      match ResultOf(results, i)
      case None => f.(slots := f.slots - {slot})
      case Some(id) => if id in f.used then f else Final(f.desired + [Desired(i, id, slot)], f.used + {id}, f.slots)
  }

  function FinalizeItems(plan: Plan, results: Results, n: nat): Final
    requires n <= |plan.items|
  {
    if n == 0 then Final([], plan.state.used, plan.state.slots)
    else Finalize(FinalizeItems(plan, results, n - 1), n - 1, plan.items[n - 1], results)
  }

  /** No two desired sessions share an id or a slot. */
  ghost predicate Exclusive(ds: seq<Desired>) {
    forall i, j :: 0 <= i < j < |ds| ==> ds[i].id != ds[j].id && ds[i].slot != ds[j].slot
  }

  /** Progress of phase C through the first `n` items of a sound plan. */
  ghost predicate FinalSoFar(plan: Plan, n: nat, f: Final) {
    && n <= |plan.items| && plan.state.used <= f.used
    && Exclusive(f.desired)
    && (forall d :: d in f.desired ==> Justified(plan, n, f, d))
  }

  /** A desired session comes from a request already finalized, with that item's
      slot, and with its session or one nobody reuses. */
  ghost predicate Justified(plan: Plan, n: nat, f: Final, d: Desired) {
    && d.request < n <= |plan.items| && d.id in f.used && !plan.items[d.request].Skipped?
    && d.slot == plan.items[d.request].slot
    && (if plan.items[d.request].Reused? then d.id == plan.items[d.request].id else d.id !in plan.state.used)
  }

  lemma DesiredAdded(plan: Plan, n: nat, f: Final, d: Desired, used: set<string>, slots: set<int>)
    requires SoundPlan(plan) && n < |plan.items| && FinalSoFar(plan, n, f) && f.used <= used
    requires d.request == n && Justified(plan, n + 1, f.(used := used), d)
    requires plan.items[n].Planned? ==> d.id !in f.used
    ensures FinalSoFar(plan, n + 1, Final(f.desired + [d], used, slots))
  {
    var all := f.desired + [d];
    forall e | e in f.desired ensures e.id != d.id && e.slot != d.slot {
      assert Justified(plan, n, f, e);
    }
    forall i, j | 0 <= i < j < |all| ensures all[i].id != all[j].id && all[i].slot != all[j].slot {
      assert all[i] == f.desired[i] && all[i] in f.desired;
    }
    forall e | e in all ensures Justified(plan, n + 1, Final(all, used, slots), e) {
      assert e in f.desired ==> Justified(plan, n, f, e);
    }
  }

  lemma FinalizeStep(plan: Plan, results: Results, n: nat, f: Final)
    requires SoundPlan(plan) && n < |plan.items| && FinalSoFar(plan, n, f)
    ensures FinalSoFar(plan, n + 1, Finalize(f, n, plan.items[n], results))
  {
    var item, f' := plan.items[n], Finalize(f, n, plan.items[n], results);
    if f'.desired != f.desired {
      if item.Reused? { assert item.id in IdsOf(plan.items); }
      DesiredAdded(plan, n, f, f'.desired[|f.desired|], f'.used, f'.slots);
    } else {
      forall e | e in f.desired ensures Justified(plan, n + 1, f', e) { assert Justified(plan, n, f, e); }
    }
  }

  lemma {:induction false} FinalizeSound(plan: Plan, results: Results, n: nat)
    requires SoundPlan(plan) && n <= |plan.items|
    ensures FinalSoFar(plan, n, FinalizeItems(plan, results, n))
  {
    if n > 0 {
      FinalizeSound(plan, results, n - 1);
      FinalizeStep(plan, results, n - 1, FinalizeItems(plan, results, n - 1));
    }
  }

  /** Slots given back because their create failed. */
  ghost function FailedSlots(items: seq<Item>, results: Results, n: nat): set<int>
    requires n <= |items|
  {
    set i: nat | i < n && items[i].Planned? && ResultOf(results, i).None? :: items[i].slot
  }

  lemma {:induction false} FinalSlots(plan: Plan, results: Results, n: nat)
    requires n <= |plan.items|
    ensures FinalizeItems(plan, results, n).slots == plan.state.slots - FailedSlots(plan.items, results, n)
  {
    if n > 0 {
      FinalSlots(plan, results, n - 1);
      var item := plan.items[n - 1];
      assert FailedSlots(plan.items, results, n) ==
             FailedSlots(plan.items, results, n - 1) + if item.Planned? && ResultOf(results, n - 1).None? then {item.slot} else {};
    }
  }

  lemma {:induction false} PlannedArePending(items: seq<Item>)
    ensures PlannedCount(items) == |Pending(items)|
  {
    if items != [] {
      var init, last := items[..|items| - 1], items[|items| - 1];
      PlannedArePending(init);
      assert Pending(items) == Pending(init) + if last.Planned? then {|items| - 1} else {};
    }
  }

  // ------------------------------------------------------------ the whole build

  datatype Realized = Realized(final: Final, budget: Option<B.Budget>)

  /** The three phases, for one completion order of the parallel creates. */
  function Realize(p: Pool, budget: Option<B.Budget>, requests: seq<Request>, order: seq<nat>, outcomes: Outcomes): Realized {
    var plan := PlanRequests(p, budget, requests, |requests|);
    var batch := RunCreates(order, outcomes, plan.state.budget);
    Realized(FinalizeItems(plan, batch.results, |requests|), batch.budget)
  }

  /** The whole build does not depend on the order in which the creates finish. */
  lemma RealizeOrderIrrelevant(p: Pool, budget: Option<B.Budget>, requests: seq<Request>, order: seq<nat>, order': seq<nat>,
                               outcomes: Outcomes)
    requires var items := PlanRequests(p, budget, requests, |requests|).items; CompletionOrder(order, items) && CompletionOrder(order', items)
    ensures Realize(p, budget, requests, order, outcomes) == Realize(p, budget, requests, order', outcomes)
  {
    var plan := PlanRequests(p, budget, requests, |requests|);
    CompletionOrderIrrelevant(plan.items, order, outcomes, plan.state.budget);
    CompletionOrderIrrelevant(plan.items, order', outcomes, plan.state.budget);
  }

  /** Creates that went through. */
  ghost function Successes(items: seq<Item>, outcomes: Outcomes): set<nat> {
    Pending(items) - Failures(Pending(items), outcomes)
  }

  /** Conservation: on every agent, in every completion order, the tokens taken
      and not refunded are exactly the successful creates. */
  lemma BudgetIsConserved(p: Pool, budget: Option<B.Budget>, requests: seq<Request>, order: seq<nat>, outcomes: Outcomes)
    requires CompletionOrder(order, PlanRequests(p, budget, requests, |requests|).items)
    ensures var items := PlanRequests(p, budget, requests, |requests|).items;
            var after := Realize(p, budget, requests, order, outcomes).budget;
            Spent(budget, after, |Successes(items, outcomes)|) && (Balanced(budget) ==> Balanced(after))
  {
    var plan := PlanRequests(p, budget, requests, |requests|);
    PlanSpends(p, budget, requests, |requests|);
    PlannedArePending(plan.items);
    BudgetOfBatch(order, outcomes, plan.state.budget);
    var failed := Failures(Pending(plan.items), outcomes);
    assert |Successes(plan.items, outcomes)| == |Pending(plan.items)| - |failed|;
    if budget.Some? { RefundCounts(plan.state.budget.value, |failed|); }
  }

  /** Slots planned for creates that fail. */
  ghost function LostSlots(items: seq<Item>, outcomes: Outcomes): set<int> {
    set i: nat | i < |items| && items[i].Planned? && outcomes(i).None? :: items[i].slot
  }

  /** The request ends in a session: its item reuses one, or its create succeeds
      with an id that no item reuses and no earlier create returned. */
  ghost predicate Earns(items: seq<Item>, outcomes: Outcomes, i: nat)
    requires i < |items|
  {
    || items[i].Reused?
    || (&& items[i].Planned? && outcomes(i).Some? && outcomes(i).value !in IdsOf(items)
        && forall k: nat :: k < i && items[k].Planned? ==> outcomes(k) != outcomes(i))
  }

  /** Ids in use once the first `n` items are finalized: those reused and those the creates so far returned. */
  ghost function UsedAfter(plan: Plan, results: Results, n: nat): set<string>
    requires n <= |plan.items|
  {
    plan.state.used + set i: nat | i < n && plan.items[i].Planned? && ResultOf(results, i).Some? :: ResultOf(results, i).value
  }

  lemma {:induction false} FinalUsed(plan: Plan, results: Results, n: nat)
    requires n <= |plan.items|
    ensures FinalizeItems(plan, results, n).used == UsedAfter(plan, results, n)
  {
    if n > 0 {
      FinalUsed(plan, results, n - 1);
      var item, result := plan.items[n - 1], ResultOf(results, n - 1);
      assert UsedAfter(plan, results, n) ==
             UsedAfter(plan, results, n - 1) + if item.Planned? && result.Some? then {result.value} else {};
    }
  }

  lemma {:induction false} EarnersServed(plan: Plan, results: Results, n: nat, i: nat)
    requires i < n <= |plan.items| && !plan.items[i].Skipped?
    requires plan.items[i].Planned? ==> ResultOf(results, i).Some? && ResultOf(results, i).value !in UsedAfter(plan, results, i)
    ensures exists d :: d in FinalizeItems(plan, results, n).desired && d.request == i
  {
    var before, after := FinalizeItems(plan, results, n - 1), FinalizeItems(plan, results, n);
    if i == n - 1 {
      FinalUsed(plan, results, i);
      assert after.desired[|before.desired|].request == i;
    } else {
      EarnersServed(plan, results, n - 1, i);
      var d :| d in before.desired && d.request == i;
      assert d in after.desired;
    }
  }

  /** A desired session has its item's slot, and the
      item's session or the one its create returned, which nobody had before. */
  lemma {:induction false} DesiredTraced(plan: Plan, results: Results, n: nat, d: Desired)
    requires n <= |plan.items| && d in FinalizeItems(plan, results, n).desired
    ensures d.request < n && !plan.items[d.request].Skipped? && d.slot == plan.items[d.request].slot
    ensures plan.items[d.request].Reused? ==> d.id == plan.items[d.request].id
    ensures plan.items[d.request].Planned? ==>
              ResultOf(results, d.request) == Some(d.id) && d.id !in UsedAfter(plan, results, d.request)
  {
    if d in FinalizeItems(plan, results, n - 1).desired {
      DesiredTraced(plan, results, n - 1, d);
    } else {
      FinalUsed(plan, results, n - 1);
    }
  }

  /** The desired session is what its request earned. */
  ghost predicate Earned(items: seq<Item>, outcomes: Outcomes, d: Desired) {
    && d.request < |items| && Earns(items, outcomes, d.request) && d.slot == items[d.request].slot
    && (if items[d.request].Reused? then d.id == items[d.request].id else outcomes(d.request) == Some(d.id))
  }

  lemma DesiredEarned(plan: Plan, outcomes: Outcomes, results: Results, d: Desired)
    requires plan.state.used == IdsOf(plan.items) && results == map i | i in Pending(plan.items) :: outcomes(i)
    requires d in FinalizeItems(plan, results, |plan.items|).desired
    ensures Earned(plan.items, outcomes, d)
  {
    BatchResults(plan.items, outcomes, results);
    DesiredTraced(plan, results, |plan.items|, d);
  }

  /** What the finished build holds, told from the plan and the outcomes of its creates. */
  ghost predicate Sound(items: seq<Item>, outcomes: Outcomes, final: Final) {
    && Exclusive(final.desired)
    && (forall d :: d in final.desired ==> Earned(items, outcomes, d))
    && (forall d :: d in final.desired ==>
          d.request < |items| && d.slot > 0 && (items[d.request].Planned? ==> d.slot <= d.request + 1))
    && (forall i: nat :: i < |items| && Earns(items, outcomes, i) ==> exists d :: d in final.desired && d.request == i)
    && final.slots == SlotsOf(items) - LostSlots(items, outcomes)
  }

  lemma BatchResults(items: seq<Item>, outcomes: Outcomes, results: Results)
    requires results == map i | i in Pending(items) :: outcomes(i)
    ensures forall i: nat :: i < |items| && items[i].Planned? ==> ResultOf(results, i) == outcomes(i)
    ensures FailedSlots(items, results, |items|) == LostSlots(items, outcomes)
  {
  }

  lemma EarnersDesired(plan: Plan, outcomes: Outcomes, results: Results, i: nat)
    requires plan.state.used == IdsOf(plan.items) && results == map i | i in Pending(plan.items) :: outcomes(i)
    requires i < |plan.items| && Earns(plan.items, outcomes, i)
    ensures exists d :: d in FinalizeItems(plan, results, |plan.items|).desired && d.request == i
  {
    BatchResults(plan.items, outcomes, results);
    EarnersServed(plan, results, |plan.items|, i);
  }

  /** The allocator is sound on an expanding agent, for all requests, snapshots,
      budgets, create outcomes and completion orders: every request is planned as
      it is due, no session and no slot is desired twice, every slot is positive,
      a fresh one is at most its request's number, exactly the requests that
      earned a session have one, and the slot table ends as exactly the planned
      slots minus those of failed creates. */
  lemma RealizeIsSound(p: Pool, budget: Option<B.Budget>, requests: seq<Request>, order: seq<nat>, outcomes: Outcomes)
    requires !IsSingleton(p.agent) && CompletionOrder(order, PlanRequests(p, budget, requests, |requests|).items)
    ensures Sound(PlanRequests(p, budget, requests, |requests|).items, outcomes, Realize(p, budget, requests, order, outcomes).final)
    ensures DueSoFar(p, budget, requests, |requests|, PlanRequests(p, budget, requests, |requests|).items)
  {
    PlanServes(p, budget, requests);
    var plan := PlanRequests(p, budget, requests, |requests|);
    PlanIsSound(p, budget, requests, |requests|);
    CompletionOrderIrrelevant(plan.items, order, outcomes, plan.state.budget);
    FinalIsSound(plan, outcomes, RunCreates(order, outcomes, plan.state.budget).results);
  }

  lemma FinalIsSound(plan: Plan, outcomes: Outcomes, results: Results)
    requires SoundPlan(plan) && results == map i | i in Pending(plan.items) :: outcomes(i)
    ensures Sound(plan.items, outcomes, FinalizeItems(plan, results, |plan.items|))
  {
    var n, final := |plan.items|, FinalizeItems(plan, results, |plan.items|);
    FinalizeSound(plan, results, n);
    FinalSlots(plan, results, n);
    BatchResults(plan.items, outcomes, results);
    forall d | d in final.desired ensures Earned(plan.items, outcomes, d) { DesiredEarned(plan, outcomes, results, d); }
    forall d | d in final.desired
      ensures d.request < n && d.slot > 0 && (plan.items[d.request].Planned? ==> d.slot <= d.request + 1)
    {
      assert Justified(plan, n, final, d);
    }
    forall i: nat | i < n && Earns(plan.items, outcomes, i) ensures exists d :: d in final.desired && d.request == i {
      EarnersDesired(plan, outcomes, results, i);
    }
  }

  // -------------------------------------------------------- the tables in place

  /** The tables one build threads through its phases. */
  class Build {
    const table: SlotTable
    var used: set<string>
    var budget: Option<B.Budget>

    function Contents(): State
      reads this, table
    {
      State(used, table.used, budget)
    }

    constructor (budget: Option<B.Budget>)
      ensures fresh(table) && Contents() == State({}, {}, budget)
    {
      table := new SlotTable();
      used, this.budget := {}, budget;
    }

    /** Reuses a session whose slot has just been claimed. */
    method Take(p: Pool, s: Session, slot: int) returns (item: Item)
      modifies this
      ensures Step(item, Contents()) == Reuse(p, old(Contents()), s, Claim(slot, old(table.used)))
    {
      if (IsSingleton(p.agent) && s.stuck && !s.manual) || s.id in used { return Skipped; }
      used := used + {s.id};
      item := Reused(s.id, slot);
    }

    method Fresh(p: Pool) returns (item: Item)
      modifies this, table
      ensures Step(item, Contents()) == PlanFresh(p, old(Contents()))
    {
      var slot := 0;
      if !IsSingleton(p.agent) { slot := table.ClaimFor(p.agent, NO_IDENTITY); }
      item := Planned(slot);
      if p.blocked {
        item := Skipped;
      } else if budget.Some? {
        var claimed := B.TryClaim(budget.value, p.template);
        if claimed.ok { budget := Some(claimed.budget); } else { item := Skipped; }
      }
      if item.Skipped? { table.used := table.used - {slot}; }
    }

    /** Serves one request. */
    method PlanOne(p: Pool, r: Request) returns (item: Item)
      modifies this, table
      ensures Step(item, Contents()) == PlanRequest(p, old(Contents()), r)
      ensures Due(p, old(Contents()), r, item)
    {
      RequestServed(p, Contents(), r);
      var prefer := Preferred(p, r);
      if prefer.Some? && prefer.value.named { return Skipped; }
      if prefer.Some? && prefer.value.id != "" && prefer.value.id !in used && !prefer.value.failedCreate {
        var slot := table.ClaimPreferredFor(p.agent, prefer.value.identity, r.resumes);
        if slot == 0 && !IsSingleton(p.agent) { return Skipped; }
        item := Take(p, prefer.value, slot);
        return;
      }
      var candidate := if IsSingleton(p.agent) then FirstReusable(p, Contents(), 0, true) else None;
      if candidate.None? { candidate := FirstReusable(p, Contents(), 0, false); }
      if candidate.Some? {
        var slot := 0;
        if !IsSingleton(p.agent) { slot := table.ClaimFor(p.agent, candidate.value.identity); }
        item := Take(p, candidate.value, slot);
      } else {
        item := Fresh(p);
      }
    }

    /** Phase A. */
    method PlanAll(p: Pool, requests: seq<Request>) returns (items: seq<Item>)
      requires Contents() == State({}, {}, budget)
      modifies this, table
      ensures Plan(items, Contents()) == PlanRequests(p, old(budget), requests, |requests|)
    {
      items := [];
      for i := 0 to |requests|
        invariant Plan(items, Contents()) == PlanRequests(p, old(budget), requests, i)
      {
        var item := PlanOne(p, requests[i]);
        items := items + [item];
      }
    }

    /** One worker's turn. */
    method CreateOne(results: Results, i: nat, outcomes: Outcomes) returns (after: Results)
      modifies this`budget
      ensures Batch(after, budget) == Complete(Batch(results, old(budget)), i, outcomes)
    {
      if outcomes(i).None? && budget.Some? { budget := Some(B.Release(budget.value)); }
      after := results[i := outcomes(i)];
    }

    /** Phase B: the workers finish the pending creates in some order; a failure refunds its token. */
    method CreateAll(items: seq<Item>, outcomes: Outcomes) returns (results: Results, ghost order: seq<nat>)
      modifies this`budget
      ensures CompletionOrder(order, items) && Batch(results, budget) == RunCreates(order, outcomes, old(budget))
    {
      var pending := Pending(items);
      results, order := map[], [];
      ghost var done: set<nat> := {};
      while pending != {}
        invariant done !! pending && done + pending == Pending(items) && Distinct(order) && Elements(order) == done
        invariant Batch(results, budget) == RunCreates(order, outcomes, old(budget))
        decreases |pending|
      {
        var i :| i in pending;
        results := CreateOne(results, i, outcomes);
        OneMoreDone(order, i, outcomes, old(budget));
        order, done, pending := order + [i], done + {i}, pending - {i};
      }
    }

    /** Phase C, over the results phase B left. */
    method FinalizeAll(items: seq<Item>, results: Results) returns (desired: seq<Desired>)
      modifies this, table
      ensures Final(desired, used, table.used) == FinalizeItems(Plan(items, old(Contents())), results, |items|)
      ensures budget == old(budget)
    {
      desired := [];
      for i := 0 to |items|
        invariant Final(desired, used, table.used) == FinalizeItems(Plan(items, old(Contents())), results, i)
        invariant budget == old(budget)
      {
        match items[i]
        case Skipped =>
        case Reused(id, slot) => desired := desired + [Desired(i, id, slot)];
        case Planned(slot) =>
          var result := if i in results then results[i] else Some("");
          if result.None? {
            table.used := table.used - {slot};
          } else if result.value !in used {
            used := used + {result.value};
            desired := desired + [Desired(i, result.value, slot)];
          }
      }
    }

    /** realizePoolDesiredSessions. */
    method RealizePool(p: Pool, requests: seq<Request>, outcomes: Outcomes) returns (desired: seq<Desired>, ghost order: seq<nat>)
      requires Contents() == State({}, {}, budget)
      modifies this, table
      ensures CompletionOrder(order, PlanRequests(p, old(budget), requests, |requests|).items)
      ensures Realized(Final(desired, used, table.used), budget) == Realize(p, old(budget), requests, order, outcomes)
    {
      var items := PlanAll(p, requests);
      ghost var plan := Plan(items, Contents());
      var results;
      results, order := CreateAll(items, outcomes);
      FinalizeIgnoresBudget(plan, budget, results, |items|);
      desired := FinalizeAll(items, results);
    }
  }

  lemma OneMoreDone(order: seq<nat>, i: nat, outcomes: Outcomes, budget: Option<B.Budget>)
    requires Distinct(order) && i !in Elements(order)
    ensures Distinct(order + [i]) && Elements(order + [i]) == Elements(order) + {i}
    ensures RunCreates(order + [i], outcomes, budget) == Complete(RunCreates(order, outcomes, budget), i, outcomes)
  {
    assert (order + [i])[..|order|] == order;
    assert forall x :: x in order + [i] <==> x in order || x == i;
  }

  lemma {:induction false} FinalizeIgnoresBudget(plan: Plan, budget: Option<B.Budget>, results: Results, n: nat)
    requires n <= |plan.items|
    ensures FinalizeItems(plan.(state := plan.state.(budget := budget)), results, n) == FinalizeItems(plan, results, n)
  {
    if n > 0 { FinalizeIgnoresBudget(plan, budget, results, n - 1); }
  }
}
