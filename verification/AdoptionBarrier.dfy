/**
 The adoption barrier: every running session ends up with an open session bead
 (runAdoptionBarrier in cmd/gc/adoption_barrier.go).
 */
module AdoptionBarrier {
  import opened Common
  import opened Decimal

  // ----------------------------------------------------------- session names

  /** Length of the run of digits at the end of `s`. */
  function TrailingDigits(s: string): (n: nat)
    ensures n <= |s| && AllDigits(s[|s| - n..])
  {
    if s != "" && '0' <= s[|s| - 1] <= '9' then
      var n := TrailingDigits(s[..|s| - 1]);
      assert s[|s| - (n + 1)..] == s[..|s| - 1][|s| - 1 - n..] + [s[|s| - 1]];
      n + 1
    else 0
  }

  /** The digits of a final "-<digits>", or "". */
  function SlotDigits(s: string): (d: string)
    ensures AllDigits(d) && (d != "" ==> |s| > |d| && s == s[..|s| - |d| - 1] + "-" + d)
  {
    var n := TrailingDigits(s);
    if n > 0 && n < |s| && s[|s| - n - 1] == '-' then s[|s| - n..] else ""
  }

  /** parsePoolSlot: 0 when there is no such suffix or it does not fit an int. */
  function ParseSlot(s: string): (slot: nat) {
    if SlotDigits(s) == "" || Value(SlotDigits(s)) > MAX_INT then 0 else Value(SlotDigits(s))
  }

  /** The name with as many characters cut off as "-<slot>" prints to. */
  function BaseName(s: string): string
    requires ParseSlot(s) > 0
  {
    ShortForm(SlotDigits(s));
    s[..|s| - |Itoa(ParseSlot(s))| - 1]
  }

  lemma {:induction false} PrintsBack(d: string)
    requires d != "" && AllDigits(d) && d[0] != '0'
    ensures Value(d) > 0 && Itoa(Value(d)) == d
  {
    var init := d[..|d| - 1];
    if |d| > 1 {
      PrintsBack(init);
      assert Value(d) / 10 == Value(init);
      assert d == init + [d[|d| - 1]];
    } else {
      assert Value(init) == 0;
    }
  }

  lemma {:induction false} DropZero(d: string)
    requires |d| > 1 && AllDigits(d) && d[0] == '0'
    ensures AllDigits(d[1..]) && Value(d) == Value(d[1..])
  {
    var init := d[..|d| - 1];
    assert d[1..][..|d| - 2] == init[1..];
    if |d| > 2 {
      DropZero(init);
    } else {
      assert init == "0" && init[..0] == "" && Value(init) == 0;
    }
  }

  /** `short` is no longer than `d`, and just as long, and the same, only if `d` has no leading zero. */
  predicate Shortens(d: string, short: string) {
    d != "" && |short| <= |d| && (|short| == |d| <==> d[0] != '0') && (|short| == |d| ==> short == d)
  }

  /** A positive number never prints longer than it is written, and just as long only without leading zeros. */
  lemma {:induction false} ShortForm(d: string)
    requires AllDigits(d)
    ensures d != "" && Value(d) > 0 ==> Shortens(d, Itoa(Value(d)))
    decreases |d|
  {
    if d != "" {
      if d[0] != '0' {
        PrintsBack(d);
      } else if |d| > 1 {
        DropZero(d);
        ShortForm(d[1..]);
      } else {
        assert d[..0] == "" && Value(d) == 0;
      }
    }
  }

  /** Cutting off the slot undoes appending it exactly when the suffix is
      written without leading zeros ("worker-03" is cut to "worker-"). */
  lemma BaseNameIff(s: string)
    requires ParseSlot(s) > 0
    ensures s == BaseName(s) + "-" + Itoa(ParseSlot(s)) <==> SlotDigits(s)[0] != '0'
  {
    PrintedSlot(s);
    CutIff(s, SlotDigits(s), Itoa(ParseSlot(s)), BaseName(s));
  }

  /** `s` ends in a dash and the digits `d`. */
  ghost predicate EndsIn(s: string, d: string) {
    AllDigits(d) && |s| > |d| && s == s[..|s| - |d| - 1] + "-" + d
  }

  /** `base` is what is left of such a name when one character more than `short` has is cut off. */
  ghost predicate Cuts(s: string, d: string, short: string, base: string) {
    EndsIn(s, d) && Shortens(d, short) && base == s[..|s| - |short| - 1]
  }

  lemma SlotOfDigits(s: string)
    requires ParseSlot(s) > 0
    ensures EndsIn(s, SlotDigits(s)) && SlotDigits(s) != "" && ParseSlot(s) == Value(SlotDigits(s))
  {
  }

  lemma PrintedShortens(d: string, slot: nat)
    requires AllDigits(d) && d != "" && slot == Value(d) > 0
    ensures Shortens(d, Itoa(slot))
  {
    ShortForm(d);
  }

  lemma PrintedSlot(s: string)
    requires ParseSlot(s) > 0
    ensures Cuts(s, SlotDigits(s), Itoa(ParseSlot(s)), BaseName(s))
  {
    SlotOfDigits(s);
    PrintedShortens(SlotDigits(s), ParseSlot(s));
  }

  lemma ValueOfZeroThree()
    ensures AllDigits("03") && Value("03") == 3
  {
    assert "03"[..1] == "0" && "0"[..0] == "";
    assert Value("0") == 0;
  }

  lemma DigitsOfWorker()
    ensures SlotDigits("worker-03") == "03"
  {
    ValueOfZeroThree();
    SlotDigitsOf("worker", "03");
    assert "worker" + "-" + "03" == "worker-03";
  }

  /** An input: the name "worker-03" is slot 3, and cutting the slot off leaves "worker-". */
  lemma LeadingZeroExample()
    ensures ParseSlot("worker-03") == 3 && BaseName("worker-03") == "worker-"
  {
    ValueOfZeroThree();
    DigitsOfWorker();
    CutWorker(3);
  }

  lemma CutWorker(slot: nat)
    requires slot == 3
    ensures |Itoa(slot)| == 1 && "worker-03"[..|"worker-03"| - |Itoa(slot)| - 1] == "worker-"
  {
    assert Itoa(slot) == "3";
  }

  /** If fewer characters than the digits are cut off, a digit stands where the dash should. */
  lemma CutIff(s: string, d: string, short: string, base: string)
    requires Cuts(s, d, short, base)
    ensures s == base + "-" + short <==> d[0] != '0'
  {
    var k := |s| - |short| - 1;
    if |short| < |d| { assert s[k] == d[k - (|s| - |d|)]; }
  }

  lemma {:induction false} TrailingDigitsOf(head: string, d: string)
    requires AllDigits(d)
    ensures TrailingDigits(head + "-" + d) == |d|
  {
    var s := head + "-" + d;
    if d != "" {
      TrailingDigitsOf(head, d[..|d| - 1]);
      assert s[..|s| - 1] == head + "-" + d[..|d| - 1];
    }
  }

  lemma SlotDigitsOf(head: string, d: string)
    requires d != "" && AllDigits(d)
    ensures SlotDigits(head + "-" + d) == d
  {
    var s := head + "-" + d;
    TrailingDigitsOf(head, d);
    assert s[|s| - |d| - 1] == '-' && s[|s| - |d|..] == d;
  }

  /** A pool session's name yields its slot and its base. */
  lemma PoolNameRoundTrips(base: string, slot: nat)
    requires 1 <= slot <= MAX_INT
    ensures ParseSlot(base + "-" + Itoa(slot)) == slot && BaseName(base + "-" + Itoa(slot)) == base
  {
    ValueOfItoa(slot);
    SlotDigitsOf(base, Itoa(slot));
  }

  lemma DigitsFound(s: string, d: string)
    requires EndsIn(s, d) && d != ""
    ensures SlotDigits(s) == d
  {
    SlotDigitsOf(s[..|s| - |d| - 1], d);
  }

  /** A name is slot `n` exactly when it ends in a dash and digits of that value, which has to fit an int. */
  lemma ParseSlotIff(s: string, n: nat)
    requires n > 0
    ensures ParseSlot(s) == n <==> n <= MAX_INT && exists d :: EndsIn(s, d) && d != "" && Value(d) == n
  {
    if ParseSlot(s) == n { SlotOfDigits(s); }
    if d :| EndsIn(s, d) && d != "" && Value(d) == n { DigitsFound(s, d); }
  }

  // ------------------------------------------------------------ the agent behind

  /** A configured agent with the session name its template maps to. */
  datatype Agent = Agent(name: string, session: string, expands: bool, singleton: bool, max: Option<int>)

  /** The last agent configured for this session name. */
  function ByExactName(agents: seq<Agent>, session: string): Option<Agent> {
    if agents == [] then None
    else if agents[|agents| - 1].session == session then Some(agents[|agents| - 1])
    else ByExactName(agents[..|agents| - 1], session)
  }

  /** The first match while the runtime ranges over the agents in `order`. */
  function FirstBase(order: seq<Agent>, base: string, singleton: bool): Option<Agent> {
    if order == [] then None
    else if order[0].session == base && (if singleton then order[0].singleton else order[0].expands) then Some(order[0])
    else FirstBase(order[1..], base, singleton)
  }

  /** What the session is adopted as. */
  datatype Adoption = Adoption(agent: string, slot: nat, outOfBounds: bool)

  function Identify(agents: seq<Agent>, order: seq<Agent>, session: string): Adoption {
    var slot := ParseSlot(session);
    var exact := ByExactName(agents, session);
    var stale := if exact.None? && slot > 0 then FirstBase(order, BaseName(session), true) else None;
    var pool := if exact.None? && stale.None? && slot > 0 then FirstBase(order, BaseName(session), false) else None;
    if exact.Some? then Numbered(exact.value, exact.value.name, slot)
    else if stale.Some? then Adoption(stale.value.name, 0, false)
    else if pool.Some? then Numbered(pool.value, pool.value.name + "-" + Itoa(slot), slot)
    else Adoption(session, 0, false)
  }

  function Numbered(a: Agent, name: string, slot: nat): Adoption {
    if slot > 0 && a.expands then Adoption(name, slot, a.max.Some? && 0 <= a.max.value < slot) else Adoption(name, 0, false)
  }

  /** The agent at `i` is the last one configured for the session name. */
  ghost predicate LastNamed(agents: seq<Agent>, session: string, i: nat) {
    i < |agents| && agents[i].session == session && forall j :: i < j < |agents| ==> agents[j].session != session
  }

  lemma {:induction false} ByExactNameIff(agents: seq<Agent>, session: string, i: nat)
    ensures LastNamed(agents, session, i) ==> ByExactName(agents, session) == Some(agents[i])
    ensures ByExactName(agents, session) == None <==> forall j: nat :: j < |agents| ==> agents[j].session != session
  {
    if agents != [] {
      var init := agents[..|agents| - 1];
      ByExactNameIff(init, session, i);
      assert forall j: nat :: j < |init| ==> init[j] == agents[j];
      if LastNamed(agents, session, i) && i < |init| { assert LastNamed(init, session, i); }
    }
  }

  /** The agent answers to the base, as a singleton or as a pool. */
  predicate AnswersBase(a: Agent, base: string, singleton: bool) {
    a.session == base && (singleton ==> a.singleton) && (!singleton ==> a.expands)
  }

  /** The agent at `i` is the first of the order that does. */
  ghost predicate FirstAnswers(order: seq<Agent>, base: string, singleton: bool, i: nat) {
    i < |order| && AnswersBase(order[i], base, singleton) && forall j: nat :: j < i ==> !AnswersBase(order[j], base, singleton)
  }

  lemma {:induction false} FirstBaseIff(order: seq<Agent>, base: string, singleton: bool, i: nat)
    ensures FirstAnswers(order, base, singleton, i) ==> FirstBase(order, base, singleton) == Some(order[i])
    ensures FirstBase(order, base, singleton) == None <==> forall j: nat :: j < |order| ==> !AnswersBase(order[j], base, singleton)
  {
    if order != [] {
      var rest := order[1..];
      assert forall j: nat :: 0 < j < |order| ==> order[j] == rest[j - 1];
      if i > 0 { FirstBaseIff(rest, base, singleton, i - 1); } else { FirstBaseIff(rest, base, singleton, 0); }
      if FirstAnswers(order, base, singleton, i) && i > 0 { assert FirstAnswers(rest, base, singleton, i - 1); }
    }
  }

  /** No agent is configured for the session's own name. */
  ghost predicate Unnamed(agents: seq<Agent>, session: string) {
    forall j: nat :: j < |agents| ==> agents[j].session != session
  }

  ghost predicate NoBase(order: seq<Agent>, base: string, singleton: bool) {
    forall j: nat :: j < |order| ==> !AnswersBase(order[j], base, singleton)
  }

  /** An agent under its own name: with the slot of the session if it is a pool, which may exceed its maximum. */
  ghost predicate AdoptedAs(r: Adoption, a: Agent, name: string, slot: nat) {
    && r.agent == name && (a.expands ==> r.slot == slot) && (!a.expands ==> r.slot == 0)
    && (r.outOfBounds <==> a.expands && slot > 0 && a.max.Some? && 0 <= a.max.value < slot)
  }

  /** What a session is adopted as, agent by agent: the last one configured for
      its very name; else the first singleton its base belongs to, whose stale
      suffix is dropped; else the first pool its base belongs to, as that
      instance; else itself. */
  lemma IdentifyTells(agents: seq<Agent>, order: seq<Agent>, session: string, i: nat)
    ensures var r, slot := Identify(agents, order, session), ParseSlot(session);
            && (LastNamed(agents, session, i) ==> AdoptedAs(r, agents[i], agents[i].name, slot))
            && (Unnamed(agents, session) && slot == 0 ==> r == Adoption(session, 0, false))
            && (Unnamed(agents, session) && slot > 0 && FirstAnswers(order, BaseName(session), true, i) ==>
                  r == Adoption(order[i].name, 0, false))
            && (Unnamed(agents, session) && slot > 0 && NoBase(order, BaseName(session), true) ==>
                  && (FirstAnswers(order, BaseName(session), false, i) ==>
                        AdoptedAs(r, order[i], order[i].name + "-" + Itoa(slot), slot))
                  && (NoBase(order, BaseName(session), false) ==> r == Adoption(session, 0, false)))
  {
    ByExactNameIff(agents, session, i);
    if ParseSlot(session) > 0 {
      FirstBaseIff(order, BaseName(session), true, i);
      FirstBaseIff(order, BaseName(session), false, i);
    }
  }

  lemma {:induction false} FirstBaseUnique(order: seq<Agent>, a: Agent)
    requires a in order && a.expands && forall b :: b in order && b.session == a.session ==> b == a
    ensures FirstBase(order, a.session, false) == Some(a)
    ensures !a.singleton ==> FirstBase(order, a.session, true) == None
  {
    if order[0] != a { FirstBaseUnique(order[1..], a); } else if !a.singleton { NoSingleton(order, a); }
  }

  lemma {:induction false} NoSingleton(order: seq<Agent>, a: Agent)
    requires !a.singleton && forall b :: b in order && b.session == a.session ==> b == a
    ensures FirstBase(order, a.session, true) == None
  {
    if order != [] { NoSingleton(order[1..], a); }
  }

  lemma {:induction false} NoExactName(agents: seq<Agent>, session: string)
    requires forall b :: b in agents ==> b.session != session
    ensures ByExactName(agents, session) == None
  {
    if agents != [] { NoExactName(agents[..|agents| - 1], session); }
  }

  /** Instance number `slot` of a pool, flagged when it exceeds the pool's maximum. */
  function Instance(a: Agent, slot: nat): Adoption {
    Adoption(a.name + "-" + Itoa(slot), slot, a.max.Some? && 0 <= a.max.value < slot)
  }

  /** The N-th instance of a pool is adopted as instance N of that pool, in every
      iteration order, when no other agent maps to its base or its own name. */
  lemma PoolInstanceRecovered(agents: seq<Agent>, order: seq<Agent>, a: Agent, slot: nat)
    requires a in agents && (forall b :: b in order <==> b in agents) && a.expands && !a.singleton && 1 <= slot <= MAX_INT
    requires forall b :: b in agents && b.session == a.session ==> b == a
    requires forall b :: b in agents ==> b.session != a.session + "-" + Itoa(slot)
    ensures Identify(agents, order, a.session + "-" + Itoa(slot)) == Instance(a, slot)
  {
    PoolNameRoundTrips(a.session, slot);
    NoExactName(agents, a.session + "-" + Itoa(slot));
    FirstBaseUnique(order, a);
  }

  // -------------------------------------------------------------------- a pass

  /** One run of the barrier as its environment plays out: the sessions listed
      as running (possibly a partial list), the names the bead listing shows
      open, and per session what it would be adopted as, whether it is alive and
      whether the probe under the lock and the create succeed. */
  datatype Env = Env(running: seq<string>, partial: bool, listed: set<string>, identify: (nat, string) -> Adoption,
                     alive: nat -> bool, probes: nat -> bool, creates: nat -> bool, dryRun: bool)

  /** One entry of the report; a session covered by the listing is not identified. */
  datatype Detail = Detail(session: string, adoption: Option<Adoption>, hasBead: bool)

  /** Counters and details; `open` are the open session beads by session name. */
  datatype State = State(total: int, adopted: nat, already: nat, skipped: nat, details: seq<Detail>, open: multiset<string>)

  function Start(env: Env, open: multiset<string>): State {
    State(|env.running|, 0, 0, 0, [], open)
  }

  function Step(env: Env, st: State, i: nat): State
    requires i < |env.running|
  {
    var name := env.running[i];
    if !env.alive(i) then st.(total := st.total - 1)
    else if name in env.listed then st.(already := st.already + 1, details := st.details + [Detail(name, None, true)])
    else if env.dryRun then st.(adopted := st.adopted + 1, details := st.details + [Identified(env, i, false)])
    else if !env.probes(i) then st.(skipped := st.skipped + 1)
    else if name in st.open then st.(already := st.already + 1, details := st.details + [Identified(env, i, true)])
    else if !env.creates(i) then st.(skipped := st.skipped + 1)
    else st.(adopted := st.adopted + 1, details := st.details + [Identified(env, i, false)], open := st.open + multiset{name})
  }

  function Identified(env: Env, i: nat, hasBead: bool): Detail
    requires i < |env.running|
  {
    Detail(env.running[i], Some(env.identify(i, env.running[i])), hasBead)
  }

  /** The state after the first `n` sessions. */
  function After(env: Env, open: multiset<string>, n: nat): State
    requires n <= |env.running|
  {
    if n == 0 then Start(env, open) else Step(env, After(env, open, n - 1), n - 1)
  }

  predicate Passed(env: Env, st: State) {
    st.skipped == 0 && !env.partial
  }

  /** Session `i` must be dealt with and cannot be: its probe or the create it needs fails. */
  ghost predicate Fails(env: Env, open: multiset<string>, i: nat)
    requires i < |env.running|
  {
    && !env.dryRun && env.alive(i) && env.running[i] !in env.listed
    && (!env.probes(i) || (env.running[i] !in After(env, open, i).open && !env.creates(i)))
  }

  lemma {:induction false} SkippedIff(env: Env, open: multiset<string>, n: nat)
    requires n <= |env.running|
    ensures After(env, open, n).skipped == 0 <==> forall i: nat :: i < n ==> !Fails(env, open, i)
  {
    if n > 0 {
      SkippedIff(env, open, n - 1);
      assert After(env, open, n).skipped == After(env, open, n - 1).skipped + if Fails(env, open, n - 1) then 1 else 0;
    }
  }

  /** The barrier passes exactly when the sessions were listed in full and none of them fails. */
  lemma PassesIff(env: Env, open: multiset<string>)
    ensures Passed(env, After(env, open, |env.running|)) <==>
            !env.partial && forall i: nat :: i < |env.running| ==> !Fails(env, open, i)
  {
    SkippedIff(env, open, |env.running|);
  }

  // --------------------------------------------------------------- conservation

  lemma {:induction false} CountsInProgress(env: Env, open: multiset<string>, n: nat)
    requires n <= |env.running|
    ensures var st := After(env, open, n); st.total - (|env.running| - n) == st.adopted + st.already + st.skipped
    ensures |After(env, open, n).details| == After(env, open, n).adopted + After(env, open, n).already
  {
    if n > 0 { CountsInProgress(env, open, n - 1); }
  }

  /** Every session still alive is counted once: Total = Adopted + AlreadyHadBead + Skipped. */
  lemma CountsAreConserved(env: Env, open: multiset<string>)
    ensures var st := After(env, open, |env.running|); st.total == st.adopted + st.already + st.skipped
  {
    CountsInProgress(env, open, |env.running|);
  }

  // -------------------------------------------------------------------- details

  /** The entry is about session `i`, identified unless the listing covered it. */
  ghost predicate IsAbout(env: Env, i: nat, d: Detail)
    requires i < |env.running|
  {
    && env.alive(i) && d.session == env.running[i]
    && if env.running[i] in env.listed then d == Detail(d.session, None, true) else d == Identified(env, i, d.hasBead)
  }

  /** A step keeps the entries and adds at most one, about its session. */
  lemma StepDetails(env: Env, st: State, i: nat, d: Detail)
    requires i < |env.running|
    ensures d in st.details ==> d in Step(env, st, i).details
    ensures d in Step(env, st, i).details ==> d in st.details || IsAbout(env, i, d)
  {
  }

  /** It adds one unless the session is dead or skipped. */
  lemma StepReports(env: Env, st: State, i: nat) returns (d: Detail)
    requires i < |env.running| && env.alive(i) && Step(env, st, i).skipped == st.skipped
    ensures d in Step(env, st, i).details && IsAbout(env, i, d)
  {
    var name := env.running[i];
    d := if name in env.listed then Detail(name, None, true) else Identified(env, i, !env.dryRun && name in st.open);
    assert Step(env, st, i).details == st.details + [d];
  }

  /** Every entry of the report is about a live session. */
  lemma {:induction false} DetailsAreAbout(env: Env, open: multiset<string>, n: nat, d: Detail)
    requires n <= |env.running| && d in After(env, open, n).details
    ensures exists i: nat :: i < n && IsAbout(env, i, d)
  {
    if n > 0 {
      var before := After(env, open, n - 1);
      StepDetails(env, before, n - 1, d);
      if d in before.details {
        DetailsAreAbout(env, open, n - 1, d);
        var i: nat :| i < n - 1 && IsAbout(env, i, d);
      } else {
        assert IsAbout(env, n - 1, d);
      }
    }
  }

  /** The session is alive and neither its probe nor its create failed. */
  predicate Handled(env: Env, open: multiset<string>, i: nat)
    requires i < |env.running|
  {
    env.alive(i) && Step(env, After(env, open, i), i).skipped == After(env, open, i).skipped
  }

  lemma HandledIsReported(env: Env, open: multiset<string>, i: nat) returns (d: Detail)
    requires i < |env.running| && Handled(env, open, i)
    ensures d in After(env, open, i + 1).details && IsAbout(env, i, d)
  {
    d := StepReports(env, After(env, open, i), i);
  }

  lemma DetailKept(env: Env, open: multiset<string>, k: nat, d: Detail)
    requires k < |env.running| && d in After(env, open, k).details
    ensures d in After(env, open, k + 1).details
  {
    StepDetails(env, After(env, open, k), k, d);
  }

  /** Every live session that is not skipped has an entry. */
  lemma {:induction false} SessionsHaveDetails(env: Env, open: multiset<string>, n: nat, i: nat) returns (d: Detail)
    requires i < n <= |env.running| && Handled(env, open, i)
    ensures d in After(env, open, n).details && IsAbout(env, i, d)
  {
    if i == n - 1 {
      d := HandledIsReported(env, open, i);
    } else {
      d := SessionsHaveDetails(env, open, n - 1, i);
      DetailKept(env, open, n - 1, d);
    }
  }

  /** Identification by the configured agents; `orders(i)` is the order in which
      the runtime ranges over them for session `i`. */
  function Identifier(agents: seq<Agent>, orders: nat -> seq<Agent>): (nat, string) -> Adoption {
    (i: nat, session: string) => Identify(agents, orders(i), session)
  }

  /** No other agent maps to the session name of `a` or of its instance number `slot`. */
  ghost predicate SoleOwner(agents: seq<Agent>, a: Agent, slot: nat) {
    && a in agents && a.expands && !a.singleton && 1 <= slot <= MAX_INT
    && (forall b :: b in agents && b.session == a.session ==> b == a)
    && (forall b :: b in agents ==> b.session != a.session + "-" + Itoa(slot))
  }

  /** What the barrier reports of instance number `slot` of a pool: unless it is
      covered by the listing or skipped, there is an entry for it, and every entry
      under its name says that it is that instance of that pool. */
  lemma PoolInstanceReported(env: Env, open: multiset<string>, i: nat, agents: seq<Agent>, orders: nat -> seq<Agent>, a: Agent, slot: nat)
    requires env.identify == Identifier(agents, orders) && forall k :: Elements(orders(k)) == Elements(agents)
    requires SoleOwner(agents, a, slot)
    requires i < |env.running| && Handled(env, open, i)
    requires env.running[i] == a.session + "-" + Itoa(slot) && env.running[i] !in env.listed
    ensures var details := After(env, open, |env.running|).details;
            && (exists d :: d in details && d.session == env.running[i])
            && (forall d :: d in details && d.session == env.running[i] ==> d.adoption == Some(Instance(a, slot)))
  {
    var n := |env.running|;
    var entry := SessionsHaveDetails(env, open, n, i);
    forall d | d in After(env, open, n).details && d.session == env.running[i] ensures d.adoption == Some(Instance(a, slot)) {
      DetailsAreAbout(env, open, n, d);
      var k: nat :| k < n && IsAbout(env, k, d);
      InstanceIdentified(agents, orders, k, a, slot);
    }
  }

  lemma InstanceIdentified(agents: seq<Agent>, orders: nat -> seq<Agent>, k: nat, a: Agent, slot: nat)
    requires Elements(orders(k)) == Elements(agents) && SoleOwner(agents, a, slot)
    ensures Identifier(agents, orders)(k, a.session + "-" + Itoa(slot)) == Instance(a, slot)
  {
    assert forall b :: (b in orders(k) <==> b in Elements(orders(k))) && (b in agents <==> b in Elements(agents));
    PoolInstanceRecovered(agents, orders(k), a, slot);
  }

  // ------------------------------------------------------------------- coverage

  /** The names of the live sessions among the first `n`. */
  ghost function LiveNames(env: Env, n: nat): set<string>
    requires n <= |env.running|
  {
    set i | 0 <= i < n && env.alive(i) :: env.running[i]
  }

  ghost function Names(open: multiset<string>): set<string> {
    set x | x in open
  }

  lemma LiveNamesGrow(env: Env, n: nat)
    requires n < |env.running|
    ensures LiveNames(env, n + 1) == LiveNames(env, n) + if env.alive(n) then {env.running[n]} else {}
  {
  }

  /** A live session the listing does not cover. */
  predicate Uncovered(env: Env, i: nat)
    requires i < |env.running|
  {
    env.alive(i) && env.running[i] !in env.listed
  }

  /** The names of the uncovered sessions among the first `n`. */
  ghost function UncoveredNames(env: Env, n: nat): set<string>
    requires n <= |env.running|
  {
    if n == 0 then {} else UncoveredNames(env, n - 1) + if Uncovered(env, n - 1) then {env.running[n - 1]} else {}
  }

  lemma {:induction false} UncoveredAreLive(env: Env, n: nat)
    requires n <= |env.running|
    ensures UncoveredNames(env, n) == LiveNames(env, n) - env.listed
  {
    if n > 0 {
      UncoveredAreLive(env, n - 1);
      LiveNamesGrow(env, n - 1);
    }
  }

  /** Beads are only added, only for live unlisted sessions without one, and at
      most one per name, even if names repeat in the list. */
  lemma {:induction false} AtMostOneBeadEach(env: Env, open: multiset<string>, n: nat, name: string)
    requires n <= |env.running|
    ensures var st := After(env, open, n);
            && open[name] <= st.open[name] <= open[name] + 1
            && (st.open[name] > open[name] ==> open[name] == 0 && name in LiveNames(env, n) - env.listed && !env.dryRun)
  {
    if n > 0 {
      AtMostOneBeadEach(env, open, n - 1, name);
      LiveNamesGrow(env, n - 1);
    }
  }

  lemma StepCovers(env: Env, st: State, i: nat)
    requires i < |env.running| && !env.dryRun && Step(env, st, i).skipped == st.skipped
    ensures Names(Step(env, st, i).open) == Names(st.open) + if Uncovered(env, i) then {env.running[i]} else {}
  {
  }

  lemma {:induction false} UnskippedCovered(env: Env, open: multiset<string>, n: nat)
    requires n <= |env.running| && !env.dryRun && After(env, open, n).skipped == 0
    ensures Names(After(env, open, n).open) == Names(open) + UncoveredNames(env, n)
  {
    if n > 0 {
      UnskippedCovered(env, open, n - 1);
      StepCovers(env, After(env, open, n - 1), n - 1);
    }
  }

  /** A pass that skips nothing leaves every live running session with an open
      bead exactly when each one it took for covered from the listing really was. */
  lemma PassedMeansCovered(env: Env, open: multiset<string>)
    requires !env.dryRun && Passed(env, After(env, open, |env.running|))
    ensures LiveNames(env, |env.running|) <= Names(After(env, open, |env.running|).open) <==>
            LiveNames(env, |env.running|) * env.listed <= Names(open)
  {
    UnskippedCovered(env, open, |env.running|);
    UncoveredAreLive(env, |env.running|);
  }

  /** An input: the listing still shows the bead of a live session, closed
      meanwhile.  The barrier passes and leaves that session without a bead. */
  lemma StaleListingExample(env: Env, name: string)
    requires env.running == [name] && env.listed == {name} && env.alive(0) && !env.partial
    ensures var st := After(env, multiset{}, 1); Passed(env, st) && name in LiveNames(env, 1) && name !in Names(st.open)
  {
    assert After(env, multiset{}, 0) == Start(env, multiset{});
  }

  // ----------------------------------------------------------------- rerunning

  /** Every live session's probe and create succeed. */
  ghost predicate Succeeds(env: Env) {
    !env.dryRun && forall i :: 0 <= i < |env.running| && env.alive(i) ==> env.probes(i) && env.creates(i)
  }

  lemma {:induction false} SuccessSkipsNothing(env: Env, open: multiset<string>, n: nat)
    requires Succeeds(env) && n <= |env.running|
    ensures After(env, open, n).skipped == 0
  {
    if n > 0 { SuccessSkipsNothing(env, open, n - 1); }
  }

  /** Live names that the listing shows as covered though they have no open bead. */
  ghost function WronglyListed(env: Env, open: multiset<string>): set<string> {
    LiveNames(env, |env.running|) * env.listed - Names(open)
  }

  /** A successful run covers all live names but the wrongly listed ones. */
  lemma SuccessCovers(env: Env, open: multiset<string>)
    requires Succeeds(env)
    ensures Names(After(env, open, |env.running|).open) ==
            Names(open) + (LiveNames(env, |env.running|) - WronglyListed(env, open))
  {
    SuccessSkipsNothing(env, open, |env.running|);
    UnskippedCovered(env, open, |env.running|);
    UncoveredAreLive(env, |env.running|);
  }

  /** A pass adds only live names. */
  lemma AddsOnlyLive(env: Env, open: multiset<string>, n: nat)
    requires n <= |env.running|
    ensures Names(open) <= Names(After(env, open, n).open) <= Names(open) + LiveNames(env, |env.running|)
  {
    var after := After(env, open, n).open;
    assert LiveNames(env, n) <= LiveNames(env, |env.running|);
    forall x ensures x in Names(open) ==> x in Names(after)
             ensures x in Names(after) ==> x in Names(open) + LiveNames(env, |env.running|)
    {
      AtMostOneBeadEach(env, open, n, x);
    }
  }

  /** Crash-safe: stop any pass, with whatever failures, after any number of
      sessions.  Whatever beads its listing misses, a rerun over the same live
      sessions whose creates succeed covers exactly the names that one
      uninterrupted successful pass would have, if and only if the two listings
      wrongly show the same live names as covered (none, when neither is stale). */
  lemma RerunReachesTheSame(first: Env, open: multiset<string>, n: nat, again: Env, straight: Env)
    requires n <= |first.running| && Succeeds(again) && Succeeds(straight)
    requires var live := LiveNames(first, |first.running|);
             live == LiveNames(again, |again.running|) == LiveNames(straight, |straight.running|)
    ensures var mid := After(first, open, n).open;
            Names(After(again, mid, |again.running|).open) == Names(After(straight, open, |straight.running|).open) <==>
            WronglyListed(again, mid) == WronglyListed(straight, open)
  {
    var mid := After(first, open, n).open;
    var live := LiveNames(first, |first.running|);
    AddsOnlyLive(first, open, n);
    SuccessCovers(again, mid);
    SuccessCovers(straight, open);
    SameCoverIff(Names(open), Names(mid), live, WronglyListed(straight, open), WronglyListed(again, mid));
  }

  lemma SameCoverIff(open: set<string>, mid: set<string>, live: set<string>, a: set<string>, b: set<string>)
    requires open <= mid <= open + live && a <= live - open && b <= live - mid
    ensures mid + (live - b) == open + (live - a) <==> b == a
  {
    var again, straight := mid + (live - b), open + (live - a);
    forall x ensures x in again <==> x in open + live && x !in b ensures x in straight <==> x in open + live && x !in a {}
    if again == straight {
      forall x ensures x in a <==> x in b { assert x in again <==> x in straight; }
    }
  }

  // --------------------------------------------------------------- dry run

  function UncoveredCount(env: Env, n: nat): nat
    requires n <= |env.running|
  {
    if n == 0 then 0 else UncoveredCount(env, n - 1) + if Uncovered(env, n - 1) then 1 else 0
  }

  ghost predicate NoRepeats(env: Env, n: nat)
    requires n <= |env.running|
  {
    forall i, j :: 0 <= i < j < n && Uncovered(env, i) && Uncovered(env, j) ==> env.running[i] != env.running[j]
  }

  lemma {:induction false} DryRunCounts(env: Env, open: multiset<string>, n: nat)
    requires n <= |env.running| && env.dryRun
    ensures After(env, open, n).adopted == UncoveredCount(env, n) && After(env, open, n).open == open
  {
    if n > 0 { DryRunCounts(env, open, n - 1); }
  }

  /** A run has adopted each uncovered name without an open bead among the first `n`, once. */
  ghost predicate AdoptedOnce(env: Env, open: multiset<string>, n: nat) {
    n <= |env.running| ==> After(env, open, n).adopted == |UncoveredNames(env, n) - Names(open)|
  }

  lemma NoneAdopted(env: Env, open: multiset<string>)
    ensures AdoptedOnce(env, open, 0)
  {
    assert UncoveredNames(env, 0) - Names(open) == {};
  }

  lemma RealRunStep(env: Env, open: multiset<string>, k: nat)
    requires Succeeds(env) && AdoptedOnce(env, open, k)
    ensures AdoptedOnce(env, open, k + 1)
  {
    if k < |env.running| {
      StepCounts(env, open, k);
      NewNamesGrow(env, k, Names(open));
    }
  }

  lemma RealRunCounts(env: Env, open: multiset<string>, n: nat)
    requires Succeeds(env)
    ensures AdoptedOnce(env, open, n)
  {
    NoneAdopted(env, open);
    forall k: nat | AdoptedOnce(env, open, k) ensures AdoptedOnce(env, open, k + 1) { RealRunStep(env, open, k); }
    Induction((k: nat) => AdoptedOnce(env, open, k), n);
  }

  /** It adopts the next session when that is uncovered, has no open bead and no earlier one had its name. */
  lemma StepCounts(env: Env, open: multiset<string>, k: nat)
    requires k < |env.running| && Succeeds(env)
    ensures After(env, open, k + 1).adopted ==
            After(env, open, k).adopted + if Uncovered(env, k) && env.running[k] !in Names(open) + UncoveredNames(env, k) then 1 else 0
  {
    SuccessSkipsNothing(env, open, k);
    UnskippedCovered(env, open, k);
    StepAdopts(env, After(env, open, k), k);
  }

  lemma NewNamesGrow(env: Env, k: nat, names: set<string>)
    requires k < |env.running|
    ensures |UncoveredNames(env, k + 1) - names| ==
            |UncoveredNames(env, k) - names| + if Uncovered(env, k) && env.running[k] !in names + UncoveredNames(env, k) then 1 else 0
  {
    SizeWith(UncoveredNames(env, k), env.running[k], names);
  }

  lemma SizeWith(s: set<string>, x: string, names: set<string>)
    ensures |s + {x} - names| == |s - names| + if x !in names + s then 1 else 0
  {
    if x in names {
      assert s + {x} - names == s - names;
    } else if x in s {
      assert s + {x} == s;
    } else {
      assert s + {x} - names == (s - names) + {x};
    }
  }

  lemma StepAdopts(env: Env, st: State, i: nat)
    requires i < |env.running| && Succeeds(env)
    ensures Step(env, st, i).adopted == st.adopted + if Uncovered(env, i) && env.running[i] !in Names(st.open) then 1 else 0
  {
  }

  lemma SizeStep(env: Env, k: nat)
    requires k < |env.running|
    ensures |UncoveredNames(env, k + 1)| ==
            |UncoveredNames(env, k)| + if Uncovered(env, k) && env.running[k] !in UncoveredNames(env, k) then 1 else 0
  {
    if Uncovered(env, k) && env.running[k] in UncoveredNames(env, k) {
      assert UncoveredNames(env, k + 1) == UncoveredNames(env, k);
    }
  }

  /** Each uncovered session brings a new name. */
  ghost predicate AllNew(env: Env, n: nat)
    requires n <= |env.running|
  {
    n == 0 || (AllNew(env, n - 1) && (Uncovered(env, n - 1) ==> env.running[n - 1] !in UncoveredNames(env, n - 1)))
  }

  lemma {:induction false} AllNewIff(env: Env, n: nat)
    requires n <= |env.running|
    ensures AllNew(env, n) <==> NoRepeats(env, n)
  {
    if n > 0 {
      AllNewIff(env, n - 1);
      RepeatHere(env, n - 1);
    }
  }

  lemma {:induction false} RepeatsShrink(env: Env, n: nat)
    requires n <= |env.running|
    ensures |UncoveredNames(env, n)| <= UncoveredCount(env, n)
    ensures |UncoveredNames(env, n)| == UncoveredCount(env, n) <==> AllNew(env, n)
  {
    if n > 0 {
      RepeatsShrink(env, n - 1);
      SizeStep(env, n - 1);
    }
  }

  lemma RepeatHere(env: Env, k: nat)
    requires k < |env.running|
    ensures NoRepeats(env, k + 1) <==> NoRepeats(env, k) && (Uncovered(env, k) ==> env.running[k] !in UncoveredNames(env, k))
  {
    UncoveredAreLive(env, k);
    if Uncovered(env, k) && env.running[k] in UncoveredNames(env, k) {
      var i :| 0 <= i < k && env.alive(i) && env.running[i] == env.running[k];
      assert Uncovered(env, i);
    }
  }

  lemma FewerWithout(s: set<string>, names: set<string>)
    ensures |s - names| <= |s| && (|s - names| == |s| <==> s !! names)
  {
    assert s == (s - names) + s * names;
    assert |s| == |s - names| + |s * names|;
  }

  /** The dry run adopts nothing and never promises fewer adoptions than a
      successful run makes; it promises exactly as many if and only if no
      uncovered name is listed twice and none has an open bead that the bead
      listing missed. */
  lemma DryRunPredictsIff(env: Env, open: multiset<string>)
    requires Succeeds(env)
    ensures var n := |env.running|;
            var dry, wet := After(env.(dryRun := true), open, n), After(env, open, n);
            && dry.open == open && dry.adopted >= wet.adopted
            && (dry.adopted == wet.adopted <==> NoRepeats(env, n) && UncoveredNames(env, n) !! Names(open))
  {
    var n := |env.running|;
    DryRunCounts(env.(dryRun := true), open, n);
    SameUncovered(env, n);
    RealRunCounts(env, open, n);
    FewerWithout(UncoveredNames(env, n), Names(open));
    RepeatsShrink(env, n);
    AllNewIff(env, n);
  }

  /** An input: a live session listed twice without a bead.  The dry run
      promises two adoptions where the real run makes one. */
  lemma RepeatedNameExample(env: Env, name: string)
    requires env.running == [name, name] && env.listed == {} && Succeeds(env) && env.alive(0) && env.alive(1)
    ensures After(env.(dryRun := true), multiset{}, 2).adopted == 2 && After(env, multiset{}, 2).adopted == 1
  {
    assert After(env, multiset{}, 0) == Start(env, multiset{});
    assert After(env, multiset{}, 1).adopted == 1 && name in After(env, multiset{}, 1).open;
    assert After(env.(dryRun := true), multiset{}, 0).adopted == 0;
    assert After(env.(dryRun := true), multiset{}, 1).adopted == 1;
  }

  /** Another input: the bead listing misses the open bead of a live session.
      The dry run promises one adoption where the real run makes none. */
  lemma MissedBeadExample(env: Env, name: string)
    requires env.running == [name] && env.listed == {} && Succeeds(env) && env.alive(0)
    ensures NoRepeats(env, 1)
    ensures After(env.(dryRun := true), multiset{name}, 1).adopted == 1 && After(env, multiset{name}, 1).adopted == 0
  {
    assert After(env, multiset{name}, 0) == Start(env, multiset{name});
    assert After(env.(dryRun := true), multiset{name}, 0).adopted == 0;
  }

  lemma {:induction false} SameUncovered(env: Env, n: nat)
    requires n <= |env.running|
    ensures UncoveredCount(env.(dryRun := true), n) == UncoveredCount(env, n)
  {
    if n > 0 { SameUncovered(env, n - 1); }
  }

  // ------------------------------------------------------------ the barrier itself

  /** What the run reports, and whether the barrier passed. */
  datatype Result = Result(total: int, adopted: nat, already: nat, skipped: nat, details: seq<Detail>)

  /** The session store behind the typed front door. */
  class SessionStore {
    var open: multiset<string>

    constructor (open: multiset<string>)
      ensures this.open == open
    {
      this.open := open;
    }

    /** Probe and create under the identifier locks. */
    method Adopt(name: string, probes: bool, creates: bool) returns (had: bool, ok: bool)
      modifies this
      ensures had <==> probes && name in old(open)
      ensures ok <==> probes && (name in old(open) || creates)
      ensures open == old(open) + if probes && name !in old(open) && creates then multiset{name} else multiset{}
    {
      if !probes { return false, false; }
      if name in open { return true, true; }
      if creates { open := open + multiset{name}; }
      had, ok := false, creates;
    }

    /** The loop over the running sessions. */
    method AdoptAll(env: Env) returns (result: Result)
      modifies this
      ensures var st := After(env, old(open), |env.running|);
              result == Result(st.total, st.adopted, st.already, st.skipped, st.details) && open == st.open
    {
      var total, adopted: nat, already: nat, skipped: nat, details: seq<Detail> := |env.running|, 0, 0, 0, [];
      for i := 0 to |env.running|
        invariant State(total, adopted, already, skipped, details, open) == After(env, old(open), i)
      {
        var name := env.running[i];
        if !env.alive(i) {
          total := total - 1;
        } else if name in env.listed {
          already, details := already + 1, details + [Detail(name, None, true)];
        } else {
          var adoption := env.identify(i, name);
          var had, ok := false, true;
          if !env.dryRun { had, ok := Adopt(name, env.probes(i), env.creates(i)); }
          if had {
            already, details := already + 1, details + [Detail(name, Some(adoption), true)];
          } else if !ok {
            skipped := skipped + 1;
          } else {
            adopted, details := adopted + 1, details + [Detail(name, Some(adoption), false)];
          }
        }
      }
      result := Result(total, adopted, already, skipped, details);
    }

    /** runAdoptionBarrier.  `running` is None when listing sessions failed
        outright, `listing` when listing the beads did. */
    method Run(running: Option<seq<string>>, partial: bool, listing: Option<seq<string>>, agents: seq<Agent>, orders: nat -> seq<Agent>,
               alive: nat -> bool, probes: nat -> bool, creates: nat -> bool, dryRun: bool) returns (result: Result, passed: bool)
      modifies this
      ensures running.None? ==> result == Result(0, 0, 0, 0, []) && !passed && open == old(open)
      ensures running.Some? && running.value != [] && listing.None? ==>
                result == Result(|running.value|, 0, 0, 0, []) && !passed && open == old(open)
      ensures running.Some? && (running.value == [] || listing.Some?) ==>
                var env := Env(running.value, partial, Elements(listing.GetOr([])) - {""}, Identifier(agents, orders), alive, probes, creates, dryRun);
                var st := After(env, old(open), |running.value|);
                && result == Result(st.total, st.adopted, st.already, st.skipped, st.details)
                && open == st.open && passed == Passed(env, st)
      ensures partial ==> !passed
    {
      if running.None? { return Result(0, 0, 0, 0, []), false; }
      if running.value == [] { return Result(0, 0, 0, 0, []), !partial; }
      if listing.None? { return Result(|running.value|, 0, 0, 0, []), false; }
      var listed := set s | s in listing.value && s != "";
      assert listed == Elements(listing.value) - {""};
      result := AdoptAll(Env(running.value, partial, listed, Identifier(agents, orders), alive, probes, creates, dryRun));
      passed := result.skipped == 0 && !partial;
    }
  }
}
