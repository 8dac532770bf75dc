/**
 Selecting the rows a continuation nudge may consider, fail closed
 (selectReadyContinuationClaimCandidates in cmd/gc/build_desired_state.go).
 */
module ContinuationClaims {
  import opened Common

  /** Status and type after trimming and case folding. */
  datatype Status = Open | InProgress | OtherStatus
  datatype Kind = Task | OtherKind

  /** A bead with the metadata the selection reads ("" when absent). */
  datatype Bead = Bead(id: string, status: Status, kind: Kind, assignee: string, group: string, affinity: string,
                       rootId: string, rootStoreRef: string, contract: string, role: string, sessionName: string)

  /** One aligned row: the bead, its store (None for nil) and the store reference as recorded. */
  datatype Row = Row(bead: Bead, store: Option<nat>, storeRef: string)

  /** The city's name, what a store answers to a root read (None on an error),
      and the (recorded reference, id) pairs known ready and assigned. */
  datatype World = World(city: string, get: (nat, string) -> Option<Bead>, ready: set<(string, string)>)

  datatype Key = Key(storeRef: string, id: string)

  datatype Candidate = Candidate(work: string, root: string, storeRef: string, assignee: string, store: nat)

  /** Equal up to the store handle. */
  predicate Same(a: Candidate, b: Candidate) {
    a == b.(store := a.store)
  }

  /** Rows read through different handles of one store do not contradict each other. */
  lemma SameIff(a: Candidate, b: Candidate, handle: nat)
    ensures Same(a, b) <==> a.work == b.work && a.root == b.root && a.storeRef == b.storeRef && a.assignee == b.assignee
    ensures Same(a, a.(store := handle))
  {
  }

  datatype Resolution = Absent | Hold | Valid(candidate: Candidate)

  // -------------------------------------------------------------- single rows

  /** canonicalContinuationClaimStoreRef. */
  function CanonicalRef(city: string, ref: string): Option<string> {
    if ref == "" then (if city == "" then None else Some("city:" + city))
    else if "city:" <= ref then (if city == "" || ref != "city:" + city then None else Some(ref))
    else if "rig:" <= ref then (if ref == "rig:" then None else Some(ref))
    else if ':' in ref then None
    else Some("rig:" + ref)
  }

  /** Canonical references are fixed points, so two spellings of a scope meet in one key. */
  lemma CanonicalIsStable(city: string, ref: string)
    requires CanonicalRef(city, ref).Some?
    ensures CanonicalRef(city, CanonicalRef(city, ref).value) == CanonicalRef(city, ref)
  {
    assert "city:" <= "city:" + city && "rig:" <= "rig:" + ref;
    assert ("rig:" + ref)[0] == 'r' && "city:"[0] == 'c' && |"rig:" + ref| == 4 + |ref|;
  }

  /** Which references name a scope: none at all this city, "city:" only its own
      name, "rig:" any rig, and a bare name the rig of that name; nothing else. */
  lemma CanonicalRefs(city: string, name: string)
    ensures CanonicalRef(city, "") == if city == "" then None else Some("city:" + city)
    ensures CanonicalRef(city, "city:" + name) == if name == city && city != "" then Some("city:" + city) else None
    ensures CanonicalRef(city, "rig:" + name) == if name == "" then None else Some("rig:" + name)
    ensures name != "" && ':' !in name ==> CanonicalRef(city, name) == Some("rig:" + name)
    ensures ':' in name && !("city:" <= name) && !("rig:" <= name) ==> CanonicalRef(city, name) == None
  {
    assert ("rig:" + name)[0] == 'r';
    assert ("city:" + name)[5..] == name && ("city:" + city)[5..] == city;
    assert "city:" <= name ==> name[4] == ':';
    assert "rig:" <= name ==> name[3] == ':';
    assert "rig:" + name == "rig:" ==> |name| == 0;
  }

  /** The row's group, unless it has no id or its store reference cannot be resolved. */
  function KeyOf(w: World, r: Row): Option<Key> {
    if r.bead.id == "" then None
    else match CanonicalRef(w.city, r.storeRef)
    case None => None
    case Some(ref) => Some(Key(ref, r.bead.id))
  }

  predicate CouldBeCandidate(w: World, r: Row) {
    var b := r.bead;
    b.id != "" && b.status == Open && b.kind == Task && b.assignee != "" && (r.storeRef, b.id) in w.ready &&
    b.group != "" && b.affinity == "require"
  }

  /** The root read proves a live graph-v2 workflow root in exactly that store, owned by the row's assignee. */
  predicate ProvesRoot(root: Bead, b: Bead, ref: string) {
    root.id == b.rootId && root.status == InProgress && root.kind == Task && root.rootStoreRef == ref &&
    root.contract == "graph.v2" && root.role == "workflow" && root.sessionName == b.assignee
  }

  /** evaluateReadyContinuationClaimCandidate. */
  function Evaluate(w: World, r: Row, ref: string): Resolution {
    var b := r.bead;
    if !CouldBeCandidate(w, r) || b.rootId == "" || b.rootStoreRef == "" || b.rootStoreRef != ref then Absent
    else if r.store.None? then Hold
    else match w.get(r.store.value, b.rootId)
    case None => Hold
    case Some(root) => if ProvesRoot(root, b, ref) then Valid(Candidate(b.id, b.rootId, ref, b.assignee, r.store.value)) else Absent
  }

  /** A row belongs to the group of its id in the scope its reference names; without an id it belongs to none. */
  lemma KeyOfIff(w: World, r: Row, ref: string, id: string)
    ensures KeyOf(w, r) == Some(Key(ref, id)) <==> id != "" && r.bead.id == id && CanonicalRef(w.city, r.storeRef) == Some(ref)
  {
  }

  /** An open task, assigned and known ready, in a group it must continue, and
      bound to a root in the store it was read from. */
  ghost predicate Claims(w: World, r: Row, ref: string) {
    var b := r.bead;
    && b.id != "" && b.status == Open && b.kind == Task && b.assignee != "" && (r.storeRef, b.id) in w.ready
    && b.group != "" && b.affinity == "require" && b.rootId != "" && b.rootStoreRef == ref && ref != ""
  }

  /** What a row has to show for its candidate: the claim, and a root that the
      row's own store holds, a live graph-v2 workflow of the same store run by
      the row's assignee. */
  ghost predicate Proven(w: World, r: Row, ref: string, c: Candidate) {
    && Claims(w, r, ref) && r.store == Some(c.store)
    && c.work == r.bead.id && c.root == r.bead.rootId && c.storeRef == ref && c.assignee == r.bead.assignee
    && exists root :: && w.get(c.store, c.root) == Some(root) && root.id == c.root && root.status == InProgress && root.kind == Task
                      && root.rootStoreRef == ref && root.contract == "graph.v2" && root.role == "workflow"
                      && root.sessionName == c.assignee
  }

  /** A row is valid exactly when it is proven, and held exactly when it claims
      but its store or its root cannot be read. */
  lemma RowResolvedIff(w: World, r: Row, ref: string, c: Candidate)
    ensures Evaluate(w, r, ref) == Valid(c) <==> Proven(w, r, ref, c)
    ensures Evaluate(w, r, ref) == Hold <==> Claims(w, r, ref) && (r.store.None? || w.get(r.store.value, r.bead.rootId).None?)
  {
  }

  // ------------------------------------------------------------------- groups

  ghost predicate InGroup(w: World, rows: seq<Row>, key: Key, r: Row) {
    r in rows && KeyOf(w, r) == Some(key)
  }

  /** The group speaks with one voice: it has rows, and all of them are valid and identical. */
  ghost predicate Unanimous(w: World, rows: seq<Row>, key: Key) {
    && (exists r :: InGroup(w, rows, key, r))
    && (forall r :: InGroup(w, rows, key, r) ==> Evaluate(w, r, key.storeRef).Valid?)
    && (forall r, s :: InGroup(w, rows, key, r) && InGroup(w, rows, key, s) ==>
          Same(Evaluate(w, r, key.storeRef).candidate, Evaluate(w, s, key.storeRef).candidate))
  }

  /** Some row of the group cannot be decided, or two rows contradict each other. */
  ghost predicate Unsettled(w: World, rows: seq<Row>, key: Key) {
    || (exists r :: InGroup(w, rows, key, r) && Evaluate(w, r, key.storeRef).Hold?)
    || (exists r, s :: InGroup(w, rows, key, r) && InGroup(w, rows, key, s) &&
          Contradict(Evaluate(w, r, key.storeRef), Evaluate(w, s, key.storeRef)))
  }

  predicate Contradict(a: Resolution, b: Resolution) {
    a.Valid? && (b.Absent? || (b.Valid? && !Same(a.candidate, b.candidate)))
  }

  /** A possible candidate whose store reference names no scope. */
  ghost predicate Unresolvable(w: World, rows: seq<Row>) {
    exists r :: r in rows && CanonicalRef(w.city, r.storeRef).None? && CouldBeCandidate(w, r)
  }

  ghost predicate IsPartial(w: World, rows: seq<Row>) {
    Unresolvable(w, rows) || exists key :: Unsettled(w, rows, key)
  }

  /** A non-empty group is unanimous, unsettled, or wholly absent: one of the three. */
  lemma GroupTrichotomy(w: World, rows: seq<Row>, key: Key, r: Row)
    requires InGroup(w, rows, key, r)
    ensures Unanimous(w, rows, key) ==> !Unsettled(w, rows, key)
    ensures !Unanimous(w, rows, key) && !Unsettled(w, rows, key) <==>
            forall s :: InGroup(w, rows, key, s) ==> Evaluate(w, s, key.storeRef).Absent?
  {
    if !Unsettled(w, rows, key) && Evaluate(w, r, key.storeRef).Valid? {
      forall s | InGroup(w, rows, key, s)
        ensures Evaluate(w, s, key.storeRef).Valid? &&
                Same(Evaluate(w, r, key.storeRef).candidate, Evaluate(w, s, key.storeRef).candidate)
      {
        assert !Contradict(Evaluate(w, r, key.storeRef), Evaluate(w, s, key.storeRef));
      }
    }
  }

  // ---------------------------------------------------------------- selection

  datatype Verdict = Emit(candidate: Candidate) | Omit | Disagree

  /** Whether all candidates equal the first up to the store handle. */
  method AllSame(valid: seq<Candidate>) returns (same: bool)
    requires valid != []
    ensures same <==> forall c :: c in valid ==> Same(valid[0], c)
  {
    for i := 1 to |valid|
      invariant forall k :: 0 <= k < i ==> Same(valid[0], valid[k])
    {
      if !Same(valid[0], valid[i]) { return false; }
    }
    same := true;
  }

  /** A verdict on the resolutions of one group's rows, in order. */
  ghost predicate IsVerdict(rs: seq<Resolution>, v: Verdict) {
    match v
    case Emit(c) => rs != [] && rs[0] == Valid(c) && forall k :: 0 <= k < |rs| ==> rs[k].Valid? && Same(c, rs[k].candidate)
    case Omit => forall k :: 0 <= k < |rs| ==> rs[k].Absent?
    case Disagree => (exists k :: 0 <= k < |rs| && rs[k].Hold?) || (exists j, k :: 0 <= j < |rs| && 0 <= k < |rs| && Contradict(rs[j], rs[k]))
  }

  method Judge(rs: seq<Resolution>) returns (v: Verdict)
    ensures IsVerdict(rs, v)
  {
    var valid: seq<Candidate>, absent, hold := [], false, false;
    ghost var firstValid, firstAbsent := 0, 0;
    for i := 0 to |rs|
      invariant hold <==> exists k :: 0 <= k < i && rs[k].Hold?
      invariant if absent then 0 <= firstAbsent < i && rs[firstAbsent].Absent? else forall k :: 0 <= k < i ==> !rs[k].Absent?
      invariant if valid != [] then 0 <= firstValid < i && rs[firstValid].Valid? else forall k :: 0 <= k < i ==> !rs[k].Valid?
      invariant !absent && !hold ==> |valid| == i && forall k :: 0 <= k < i ==> rs[k] == Valid(valid[k])
    {
      match rs[i]
      case Absent => absent, firstAbsent := true, i;
      case Hold => hold := true;
      case Valid(c) => valid, firstValid := valid + [c], i;
    }
    if hold { return Disagree; }
    if valid == [] { return Omit; }
    if absent {
      assert Contradict(rs[firstValid], rs[firstAbsent]);
      return Disagree;
    }
    var same := AllSame(valid);
    if same { return Emit(valid[0]); }
    var c :| c in valid && !Same(valid[0], c);
    assert exists k :: 0 <= k < |rs| && Contradict(rs[0], rs[k]);
    v := Disagree;
  }

  method Resolve(w: World, rows: seq<Row>, ref: string) returns (rs: seq<Resolution>)
    ensures |rs| == |rows| && forall k :: 0 <= k < |rows| ==> rs[k] == Evaluate(w, rows[k], ref)
  {
    rs := [];
    for i := 0 to |rows|
      invariant |rs| == i && forall k :: 0 <= k < i ==> rs[k] == Evaluate(w, rows[k], ref)
    {
      rs := rs + [Evaluate(w, rows[i], ref)];
    }
  }

  /** Some row has key `a`, and no row up to it has key `b`. */
  ghost predicate AppearsBefore(w: World, rows: seq<Row>, a: Key, b: Key) {
    exists n :: 0 <= n < |rows| && FirstOf(w, rows, n, a, b)
  }

  ghost predicate FirstOf(w: World, rows: seq<Row>, n: nat, a: Key, b: Key)
    requires n < |rows|
  {
    KeyOf(w, rows[n]) == Some(a) && forall m :: 0 <= m <= n ==> KeyOf(w, rows[m]) != Some(b)
  }

  /** The keys in order of first appearance. */
  ghost predicate InOrder(w: World, rows: seq<Row>, order: seq<Key>) {
    forall i, j :: 0 <= i < j < |order| ==> AppearsBefore(w, rows, order[i], order[j])
  }

  lemma StaysBefore(w: World, rows: seq<Row>, r: Row, a: Key, b: Key)
    requires AppearsBefore(w, rows, a, b)
    ensures AppearsBefore(w, rows + [r], a, b)
  {
    var n :| 0 <= n < |rows| && FirstOf(w, rows, n, a, b);
    assert FirstOf(w, rows + [r], n, a, b);
  }

  lemma NewKeyIsLast(w: World, rows: seq<Row>, r: Row, a: Key, b: Key)
    requires (exists s :: InGroup(w, rows, a, s)) && !exists s :: InGroup(w, rows, b, s)
    ensures AppearsBefore(w, rows + [r], a, b)
  {
    var s :| InGroup(w, rows, a, s);
    var n :| 0 <= n < |rows| && rows[n] == s;
    forall m | 0 <= m <= n ensures KeyOf(w, rows[m]) != Some(b) { assert !InGroup(w, rows, b, rows[m]); }
    assert FirstOf(w, rows + [r], n, a, b);
  }

  lemma OrderGrows(w: World, rows: seq<Row>, order: seq<Key>, groups: map<Key, seq<Row>>, r: Row)
    requires AreGroups(w, rows, order, groups) && InOrder(w, rows, order)
    ensures InOrder(w, rows + [r], order)
    ensures forall k :: k !in groups ==> InOrder(w, rows + [r], order + [k])
  {
    forall i, j | 0 <= i < j < |order| ensures AppearsBefore(w, rows + [r], order[i], order[j]) {
      StaysBefore(w, rows, r, order[i], order[j]);
    }
    forall k, i | k !in groups && 0 <= i < |order| ensures AppearsBefore(w, rows + [r], order[i], k) {
      assert order[i] in groups && InGroup(w, rows, order[i], groups[order[i]][0]);
      NewKeyIsLast(w, rows, r, order[i], k);
    }
  }

  /** The rows split by key, each key once. */
  ghost predicate AreGroups(w: World, rows: seq<Row>, order: seq<Key>, groups: map<Key, seq<Row>>) {
    && Distinct(order) && (forall k :: k in order <==> k in groups)
    && (forall k, r :: InGroup(w, rows, k, r) ==> k in groups)
    && (forall k :: k in groups ==> groups[k] != [] && forall r :: r in groups[k] <==> InGroup(w, rows, k, r))
  }

  lemma GroupsGrow(w: World, rows: seq<Row>, order: seq<Key>, groups: map<Key, seq<Row>>, r: Row)
    requires AreGroups(w, rows, order, groups)
    ensures match KeyOf(w, r)
            case None => AreGroups(w, rows + [r], order, groups)
            case Some(k) =>
              AreGroups(w, rows + [r], if k in groups then order else order + [k],
                        groups[k := (if k in groups then groups[k] else []) + [r]])
  {
    forall k, s ensures InGroup(w, rows + [r], k, s) <==> InGroup(w, rows, k, s) || (s == r && KeyOf(w, r) == Some(k)) {
      assert s in rows + [r] <==> s in rows || s == r;
    }
  }

  method GroupRows(w: World, rows: seq<Row>) returns (order: seq<Key>, groups: map<Key, seq<Row>>, partial: bool)
    ensures AreGroups(w, rows, order, groups) && InOrder(w, rows, order) && (partial <==> Unresolvable(w, rows))
  {
    order, groups, partial := [], map[], false;
    for i := 0 to |rows|
      invariant AreGroups(w, rows[..i], order, groups) && InOrder(w, rows[..i], order)
      invariant partial <==> Unresolvable(w, rows[..i])
    {
      var r := rows[i];
      assert rows[..i + 1] == rows[..i] + [r];
      GroupsGrow(w, rows[..i], order, groups, r);
      OrderGrows(w, rows[..i], order, groups, r);
      UnresolvableGrows(w, rows[..i], r);
      var key := KeyOf(w, r);
      if key.Some? {
        if key.value !in groups { order := order + [key.value]; }
        groups := groups[key.value := (if key.value in groups then groups[key.value] else []) + [r]];
      } else if r.bead.id != "" && CouldBeCandidate(w, r) {
        partial := true;
      }
    }
    assert rows[..|rows|] == rows;
  }

  lemma UnresolvableGrows(w: World, rows: seq<Row>, r: Row)
    ensures Unresolvable(w, rows + [r]) <==>
            Unresolvable(w, rows) || (CanonicalRef(w.city, r.storeRef).None? && CouldBeCandidate(w, r))
  {
    assert forall s :: s in rows + [r] <==> s in rows || s == r;
  }

  function KeyOfCandidate(c: Candidate): Key {
    Key(c.storeRef, c.work)
  }

  /** The selection's result: unanimous keys, each exactly once, each with what its rows say. */
  ghost predicate Selected(w: World, rows: seq<Row>, keys: set<Key>, result: seq<Candidate>) {
    && (forall i, j :: 0 <= i < j < |result| ==> KeyOfCandidate(result[i]) != KeyOfCandidate(result[j]))
    && (forall c :: c in result ==> KeyOfCandidate(c) in keys && Unanimous(w, rows, KeyOfCandidate(c)) && SpokenFor(w, rows, c))
    && (forall k :: k in keys && Unanimous(w, rows, k) ==> exists c :: c in result && KeyOfCandidate(c) == k)
  }

  /** Some row of the candidate's group says exactly it. */
  ghost predicate SpokenFor(w: World, rows: seq<Row>, c: Candidate) {
    exists r :: InGroup(w, rows, KeyOfCandidate(c), r) && Evaluate(w, r, c.storeRef) == Valid(c)
  }

  lemma VerdictMeaning(w: World, rows: seq<Row>, key: Key, group: seq<Row>, rs: seq<Resolution>, v: Verdict)
    requires group != [] && forall r :: r in group <==> InGroup(w, rows, key, r)
    requires |rs| == |group| && (forall k :: 0 <= k < |group| ==> rs[k] == Evaluate(w, group[k], key.storeRef)) && IsVerdict(rs, v)
    ensures v.Emit? <==> Unanimous(w, rows, key)
    ensures v.Disagree? <==> Unsettled(w, rows, key)
    ensures v.Emit? ==> KeyOfCandidate(v.candidate) == key && SpokenFor(w, rows, v.candidate)
  {
    assert forall k :: 0 <= k < |group| ==> InGroup(w, rows, key, group[k]);
    GroupTrichotomy(w, rows, key, group[0]);
    match v {
      case Emit(c) =>
        forall r | InGroup(w, rows, key, r)
          ensures Evaluate(w, r, key.storeRef).Valid? && Same(c, Evaluate(w, r, key.storeRef).candidate)
        {
          var k :| 0 <= k < |group| && group[k] == r;
        }
      case Omit =>
        forall r | InGroup(w, rows, key, r) ensures Evaluate(w, r, key.storeRef).Absent? {
          var k :| 0 <= k < |group| && group[k] == r;
        }
      case Disagree =>
        if k :| 0 <= k < |rs| && rs[k].Hold? {
          assert InGroup(w, rows, key, group[k]);
        } else {
          var j, k :| 0 <= j < |rs| && 0 <= k < |rs| && Contradict(rs[j], rs[k]);
          assert InGroup(w, rows, key, group[j]) && InGroup(w, rows, key, group[k]);
        }
    }
  }

  /** With aligned inputs a (store, bead) key is emitted once, and exactly when
      every row of its group is valid and identical; the snapshot is partial
      exactly when a group holds or contradicts itself, or a possible candidate's
      store cannot be resolved.  Misaligned inputs select nothing and are partial. */
  method SelectCandidates(w: World, work: seq<Bead>, stores: seq<Option<nat>>, refs: seq<string>)
    returns (result: seq<Candidate>, partial: bool)
    ensures !(|work| == |stores| == |refs|) ==> result == [] && partial
    ensures |work| == |stores| == |refs| ==>
              var rows := seq(|work|, i requires 0 <= i < |work| => Row(work[i], stores[i], refs[i]));
              && (forall c :: c in result ==> SpokenFor(w, rows, c))
              && (forall i, j :: 0 <= i < j < |result| ==> KeyOfCandidate(result[i]) != KeyOfCandidate(result[j]))
              && (forall k :: Unanimous(w, rows, k) <==> exists c :: c in result && KeyOfCandidate(c) == k)
              && (partial <==> IsPartial(w, rows))
  {
    if |work| != |stores| || |work| != |refs| { return [], true; }
    var rows := seq(|work|, i requires 0 <= i < |work| => Row(work[i], stores[i], refs[i]));
    result, partial := SelectRows(w, rows);
  }

  method SelectRows(w: World, rows: seq<Row>) returns (result: seq<Candidate>, partial: bool)
    ensures forall c :: c in result ==> SpokenFor(w, rows, c)
    ensures forall i, j :: 0 <= i < j < |result| ==> KeyOfCandidate(result[i]) != KeyOfCandidate(result[j])
    ensures forall k :: Unanimous(w, rows, k) <==> exists c :: c in result && KeyOfCandidate(c) == k
    ensures partial <==> IsPartial(w, rows)
  {
    var order, groups, unresolved := GroupRows(w, rows);
    result, partial := [], unresolved;
    ghost var done: set<Key> := {};
    for i := 0 to |order|
      invariant done == Elements(order[..i]) && Selected(w, rows, done, result)
      invariant partial <==> Unresolvable(w, rows) || exists k :: k in done && Unsettled(w, rows, k)
    {
      var key := order[i];
      var rs := Resolve(w, groups[key], key.storeRef);
      var v := Judge(rs);
      VerdictMeaning(w, rows, key, groups[key], rs, v);
      NextKey(order, i);
      match v {
        case Emit(c) =>
          SelectedAdds(w, rows, done, result, c);
          result := result + [c];
        case Omit => SelectedSkips(w, rows, done, result, key);
        case Disagree =>
          GroupTrichotomy(w, rows, key, groups[key][0]);
          SelectedSkips(w, rows, done, result, key);
          partial := true;
      }
      done := done + {key};
    }
    assert order[..|order|] == order;
    forall k | Unanimous(w, rows, k) ensures k in done { var r :| InGroup(w, rows, k, r); }
    forall k | Unsettled(w, rows, k) ensures k in done { var r :| InGroup(w, rows, k, r); }
  }

  lemma NextKey(order: seq<Key>, i: nat)
    requires Distinct(order) && i < |order|
    ensures order[i] !in Elements(order[..i]) && Elements(order[..i + 1]) == Elements(order[..i]) + {order[i]}
  {
    assert order[..i + 1] == order[..i] + [order[i]];
  }

  lemma SelectedSkips(w: World, rows: seq<Row>, keys: set<Key>, result: seq<Candidate>, key: Key)
    requires Selected(w, rows, keys, result) && !Unanimous(w, rows, key)
    ensures Selected(w, rows, keys + {key}, result)
  {
  }

  lemma SelectedAdds(w: World, rows: seq<Row>, keys: set<Key>, result: seq<Candidate>, c: Candidate)
    requires Selected(w, rows, keys, result) && KeyOfCandidate(c) !in keys
    requires Unanimous(w, rows, KeyOfCandidate(c)) && SpokenFor(w, rows, c)
    ensures Selected(w, rows, keys + {KeyOfCandidate(c)}, result + [c])
  {
    var all := result + [c];
    assert forall x :: x in all <==> x in result || x == c;
    forall i, j | 0 <= i < j < |all| ensures KeyOfCandidate(all[i]) != KeyOfCandidate(all[j]) {
      assert all[i] == result[i] && all[i] in result;
    }
  }

  // --------------------------------------------------------- order of the rows

  /** Up to order and store handle the selection does not depend on the order
      (or multiplicity) of the rows. */
  lemma RowOrderIrrelevant(w: World, rows: seq<Row>, rows': seq<Row>, key: Key)
    requires Elements(rows) == Elements(rows')
    ensures Unanimous(w, rows, key) <==> Unanimous(w, rows', key)
    ensures IsPartial(w, rows) <==> IsPartial(w, rows')
    ensures Unanimous(w, rows, key) ==>
              forall c, c' | SpokenFor(w, rows, c) && SpokenFor(w, rows', c') && KeyOfCandidate(c) == key == KeyOfCandidate(c') :: Same(c, c')
  {
    assert forall r :: r in rows <==> r in Elements(rows);
    assert forall r :: r in rows' <==> r in Elements(rows');
    forall k, r ensures InGroup(w, rows, k, r) <==> InGroup(w, rows', k, r) {}
    forall k ensures Unsettled(w, rows, k) <==> Unsettled(w, rows', k) {}
  }
}
