/**
 Pool slots: recovering a session's slot from its persisted identity, printing a
 slot as an instance name, and claiming slots
 (cmd/gc/build_desired_state.go and build_desired_state_pool_info.go).
 */
module PoolSlots {
  import opened Common
  import opened Decimal

  /** `namepool` says a name pool is configured; `names` are the themed names loaded from it. */
  datatype Agent = Agent(name: string, binding: string, dir: string, namepool: bool, names: seq<string>, max: Option<int>)

  /** The persisted identity of a session.  `templateMatches` says its stored
      template is the pool's, `ownsSessionName` that its session name derives
      from its own bead id. */
  datatype Identity = Identity(agentName: string, alias: string, sessionName: string, poolSlot: string,
                               templateMatches: bool, ownsSessionName: bool)

  // ------------------------------------------------------------------- names

  function BindingQualified(a: Agent, name: string): string {
    if a.binding == "" then name else a.binding + "." + name
  }

  /** The agent's identity with `name` in the place of its own: QualifiedName and QualifiedInstanceName. */
  function Qualified(a: Agent, name: string): string {
    if a.dir == "" then BindingQualified(a, name) else a.dir + "/" + BindingQualified(a, name)
  }

  /** A pool of exactly one session without themed names: it carries no slot. */
  predicate IsSingleton(a: Agent) {
    !a.namepool && a.names == [] && a.max == Some(1)
  }

  function NumberedName(a: Agent, slot: nat): string {
    a.name + "-" + Itoa(slot)
  }

  function InstanceName(a: Agent, slot: int): string
    requires slot >= 0
  {
    if 1 <= slot <= |a.names| then a.names[slot - 1] else NumberedName(a, slot)
  }

  /** What a slot is printed as. */
  function QualifiedInstance(a: Agent, slot: int): string
    requires slot >= 0
  {
    Qualified(a, InstanceName(a, slot))
  }

  /** "<template>-<n>" or the older "<template>-gc-<n>"; the latter ignores a parse error. */
  function NumberedSlot(name: string, template: string): int {
    if !(template + "-" <= name) then 0
    else
      var suffix := name[|template| + 1..];
      if Atoi(suffix).ok then Atoi(suffix).value
      else if "gc-" <= suffix then Atoi(suffix[3..]).value
      else 0
  }

  /** The first positive reading of `name` as a numbered instance, or 0. */
  function Numbered(a: Agent, local: bool, name: string): int {
    if NumberedSlot(name, Qualified(a, a.name)) > 0 then NumberedSlot(name, Qualified(a, a.name))
    else if a.binding != "" && NumberedSlot(name, BindingQualified(a, a.name)) > 0 then
      NumberedSlot(name, BindingQualified(a, a.name))
    else if a.binding == "" && local && NumberedSlot(name, a.name) > 0 then NumberedSlot(name, a.name)
    else 0
  }

  predicate IsThemed(a: Agent, themed: string, name: string) {
    themed != "" && (themed == name || Qualified(a, themed) == name)
  }

  /** The slot of the first themed name, from index `i` on, that spells `name`. */
  function ThemedSlot(a: Agent, name: string, i: nat): int
    requires i <= |a.names|
    decreases |a.names| - i
  {
    if i == |a.names| then 0
    else if IsThemed(a, a.names[i], name) then i + 1
    else ThemedSlot(a, name, i + 1)
  }

  /** resolvePersistedPoolIdentitySlot on one candidate. */
  function ResolveSlot(a: Agent, local: bool, name: string): int {
    if name == "" then 0
    else if Numbered(a, local, name) > 0 then Numbered(a, local, name)
    else ThemedSlot(a, name, 0)
  }

  // ------------------------------------------------------------------ bounds

  predicate HasBound(a: Agent) {
    a.names != [] || a.max.Some?
  }

  predicate InBounds(a: Agent, slot: int) {
    slot > 0 && HasBound(a) && (a.names != [] ==> slot <= |a.names|) && (a.max.Some? && a.max.value > 0 ==> slot <= a.max.value)
  }

  predicate Usable(a: Agent, slot: int) {
    slot > 0 && (HasBound(a) ==> InBounds(a, slot))
  }

  /** A slot is usable if it exceeds none of the configured limits, and within
      bounds if there are any; a limit of 0 or less is none. */
  lemma BoundsIff(a: Agent, slot: int)
    ensures Usable(a, slot) <==>
            slot > 0 && (a.names != [] ==> slot <= |a.names|) && (a.max.Some? && a.max.value > 0 ==> slot <= a.max.value)
    ensures InBounds(a, slot) <==> Usable(a, slot) && (a.names != [] || a.max.Some?)
  {
  }

  // ---------------------------------------------------------------- recovery

  /** existingPoolSlotWithConfigInfo.  Whatever the metadata says, the slot
      recovered is 0 or usable under the configured bounds. */
  function ExistingSlot(a: Agent, id: Identity): (slot: int)
    ensures slot == 0 || Usable(a, slot)
    ensures IsSingleton(a) ==> slot == 0
  {
    if IsSingleton(a) then 0
    else
      var agentSlot := ResolveSlot(a, id.templateMatches, id.agentName);
      var aliasSlot := ResolveSlot(a, id.templateMatches, id.alias);
      var nameSlot := if id.templateMatches && id.alias == "" && !id.ownsSessionName then ResolveSlot(a, true, id.sessionName) else 0;
      var stamped := Atoi(id.poolSlot);
      if id.poolSlot != "" && stamped.ok && stamped.value > 0 then
        if agentSlot > 0 && agentSlot != stamped.value && Usable(a, agentSlot) then agentSlot
        else if !id.templateMatches && agentSlot == 0 && aliasSlot == 0 then 0
        else if InBounds(a, stamped.value) then stamped.value
        else if Usable(a, agentSlot) then agentSlot
        else if Usable(a, aliasSlot) then aliasSlot
        else if Usable(a, nameSlot) then nameSlot
        else if HasBound(a) then 0
        else stamped.value
      else
        var agentSlot' := if HasBound(a) && !Usable(a, agentSlot) then 0 else agentSlot;
        var aliasSlot' := if HasBound(a) && !Usable(a, aliasSlot) then 0 else aliasSlot;
        var nameSlot' := if HasBound(a) && !Usable(a, nameSlot) then 0 else nameSlot;
        if agentSlot' > 0 then agentSlot' else if aliasSlot' > 0 then aliasSlot' else if nameSlot' > 0 then nameSlot' else 0
  }

  /** preferredPoolSlotAboveCapacityInfo: a concrete identity that exceeds only max_active_sessions. */
  function AboveCapacitySlot(a: Agent, id: Identity): (slot: int)
    ensures slot == 0 || (a.max.Some? && 0 < a.max.value < slot && (a.names != [] ==> slot <= |a.names|))
    ensures slot == 0 || !InBounds(a, slot)
  {
    if IsSingleton(a) || !id.templateMatches || a.max.None? || a.max.value <= 0 then 0
    else
      var byAgent := ResolveSlot(a, true, id.agentName);
      var byAlias := if byAgent != 0 then byAgent else ResolveSlot(a, true, id.alias);
      var slot := if byAlias == 0 && id.alias == "" && !id.ownsSessionName then ResolveSlot(a, true, id.sessionName) else byAlias;
      if slot <= a.max.value || (a.names != [] && slot > |a.names|) then 0 else slot
  }

  // -------------------------------------------------------- printing and parsing

  lemma QualifiedSuffix(a: Agent, name: string, tail: string)
    ensures Qualified(a, name + tail) == Qualified(a, name) + tail
  {
    assert a.binding + "." + (name + tail) == (a.binding + "." + name) + tail;
    assert a.dir + "/" + (BindingQualified(a, name) + tail) == (a.dir + "/" + BindingQualified(a, name)) + tail;
  }

  lemma QualifiedInjective(a: Agent, s: string, t: string)
    requires Qualified(a, s) == Qualified(a, t)
    ensures s == t
  {
    var k := (if a.dir == "" then 0 else |a.dir| + 1) + (if a.binding == "" then 0 else |a.binding| + 1);
    assert Qualified(a, s)[k..] == s;
    assert Qualified(a, t)[k..] == t;
  }

  lemma SuffixRead(template: string, suffix: string)
    ensures NumberedSlot(template + "-" + suffix, template) ==
            if Atoi(suffix).ok then Atoi(suffix).value else if "gc-" <= suffix then Atoi(suffix[3..]).value else 0
  {
    assert (template + "-" + suffix)[|template| + 1..] == suffix;
  }

  lemma OlderSuffixRead(template: string, digits: string)
    ensures NumberedSlot(template + "-gc-" + digits, template) == Atoi(digits).value
  {
    var gc := "gc-" + digits;
    assert gc[0] == 'g' && gc[3..] == digits;
    assert template + "-gc-" + digits == template + "-" + gc;
    SuffixRead(template, gc);
  }

  /** How a numbered name reads against a template: by its number, also in the
      older form, and not at all if it is of another template or has none. */
  lemma NumberedSlotTells(template: string, n: nat, name: string)
    requires 1 <= n <= MAX_INT
    ensures NumberedSlot(template + "-" + Itoa(n), template) == n && NumberedSlot(template + "-gc-" + Itoa(n), template) == n
    ensures !(template + "-" <= name) ==> NumberedSlot(name, template) == 0
    ensures !Atoi(name).ok && !("gc-" <= name) ==> NumberedSlot(template + "-" + name, template) == 0
  {
    AtoiOfItoa(n);
    SuffixRead(template, Itoa(n));
    OlderSuffixRead(template, Itoa(n));
    SuffixRead(template, name);
  }

  /** The names under which an instance of the agent may be numbered: the
      qualified one, the one without its directory if it has a binding, and the
      bare one if it has none and the session is of this pool. */
  ghost function Forms(a: Agent, local: bool): set<string> {
    {Qualified(a, a.name)} + (if a.binding != "" then {BindingQualified(a, a.name)} else {}) +
    (if a.binding == "" && local then {a.name} else {})
  }

  /** A name reads as a numbered instance exactly when it does under one of these. */
  lemma NumberedIff(a: Agent, local: bool, name: string)
    ensures Numbered(a, local, name) > 0 <==> exists form :: form in Forms(a, local) && NumberedSlot(name, form) > 0
    ensures Numbered(a, local, name) > 0 ==> exists form :: form in Forms(a, local) && NumberedSlot(name, form) == Numbered(a, local, name)
    ensures Numbered(a, local, name) >= 0
  {
    if Numbered(a, local, name) > 0 {
      var form := if NumberedSlot(name, Qualified(a, a.name)) > 0 then Qualified(a, a.name)
                  else if a.binding != "" then BindingQualified(a, a.name) else a.name;
      assert form in Forms(a, local) && NumberedSlot(name, form) == Numbered(a, local, name);
    }
  }

  lemma PrintedNumber(a: Agent, slot: nat)
    requires |a.names| < slot
    ensures QualifiedInstance(a, slot) == Qualified(a, a.name) + "-" + Itoa(slot)
  {
    var suffix := "-" + Itoa(slot);
    QualifiedSuffix(a, a.name, suffix);
    assert a.name + "-" + Itoa(slot) == a.name + suffix;
    assert Qualified(a, a.name) + "-" + Itoa(slot) == Qualified(a, a.name) + suffix;
  }

  /** A numbered instance name parses back to its slot. */
  lemma NumberedNameRoundTrips(a: Agent, local: bool, slot: nat)
    requires |a.names| < slot <= MAX_INT
    ensures ResolveSlot(a, local, QualifiedInstance(a, slot)) == slot
  {
    PrintedNumber(a, slot);
    NumberedSlotTells(Qualified(a, a.name), slot, "");
  }

  lemma {:induction false} ThemedSlotFirst(a: Agent, name: string, i: nat, k: nat)
    requires i <= k < |a.names|
    ensures ThemedSlot(a, name, i) == k + 1 <==>
            IsThemed(a, a.names[k], name) && forall j :: i <= j < k ==> !IsThemed(a, a.names[j], name)
    decreases |a.names| - i
  {
    if i < k && !IsThemed(a, a.names[i], name) {
      ThemedSlotFirst(a, name, i + 1, k);
    } else if i == k && !IsThemed(a, a.names[i], name) {
      ThemedSlotLater(a, name, i + 1);
    }
  }

  lemma {:induction false} ThemedSlotLater(a: Agent, name: string, i: nat)
    requires i <= |a.names|
    ensures ThemedSlot(a, name, i) == 0 || ThemedSlot(a, name, i) > i
    decreases |a.names| - i
  {
    if i < |a.names| { ThemedSlotLater(a, name, i + 1); }
  }

  /** A themed instance name parses back to its slot exactly when it does not
      read as some other numbered instance, and it is not blank and no earlier
      themed name is the same or happens to spell its qualified form. */
  lemma ThemedNameRoundTrips(a: Agent, local: bool, slot: nat)
    requires 1 <= slot <= |a.names|
    ensures var name, printed := a.names[slot - 1], QualifiedInstance(a, slot);
            ResolveSlot(a, local, printed) == slot <==>
            printed != "" &&
            if Numbered(a, local, printed) > 0 then Numbered(a, local, printed) == slot
            else name != "" && forall j :: 0 <= j < slot - 1 ==> a.names[j] != name && (a.names[j] != "" ==> a.names[j] != printed)
  {
    var printed := QualifiedInstance(a, slot);
    ThemedSlotFirst(a, printed, 0, slot - 1);
    forall j | 0 <= j < slot
      ensures IsThemed(a, a.names[j], printed) <==>
              a.names[j] != "" && (a.names[j] == a.names[slot - 1] || a.names[j] == printed)
    {
      if Qualified(a, a.names[j]) == printed { QualifiedInjective(a, a.names[j], a.names[slot - 1]); }
    }
  }

  /** Themed names under which every slot can be told from its printed name:
      distinct, not blank, none reading as a numbered instance, and none
      spelling the qualified form of a later one. */
  ghost predicate WellNamed(a: Agent, local: bool) {
    && Distinct(a.names)
    && forall i :: 0 <= i < |a.names| ==>
         && a.names[i] != "" && Numbered(a, local, Qualified(a, a.names[i])) == 0
         && forall j :: 0 <= j < i ==> a.names[j] != Qualified(a, a.names[i])
  }

  /** Every slot of such a pool parses back from its printed name, themed or numbered. */
  lemma SlotsRoundTrip(a: Agent, local: bool, slot: nat)
    requires WellNamed(a, local) && 1 <= slot <= MAX_INT
    ensures ResolveSlot(a, local, QualifiedInstance(a, slot)) == slot
  {
    if slot <= |a.names| {
      var printed := QualifiedInstance(a, slot);
      assert printed == Qualified(a, a.names[slot - 1]);
      assert |printed| >= |a.names[slot - 1]|;
      ThemedNameRoundTrips(a, local, slot);
    } else {
      NumberedNameRoundTrips(a, local, slot);
    }
  }

  /** All slots print differently if and only if no themed name occurs twice and
      none is the numbered name of a slot beyond the pool. */
  lemma PrintedSlotsDistinct(a: Agent)
    ensures (forall s: nat, t: nat :: 1 <= s < t ==> QualifiedInstance(a, s) != QualifiedInstance(a, t)) <==>
            Distinct(a.names) && forall i, t: nat :: 0 <= i < |a.names| < t ==> a.names[i] != NumberedName(a, t)
  {
    if Distinct(a.names) && forall i, t: nat :: 0 <= i < |a.names| < t ==> a.names[i] != NumberedName(a, t) {
      forall s: nat, t: nat | 1 <= s < t ensures QualifiedInstance(a, s) != QualifiedInstance(a, t) {
        InstancesDiffer(a, s, t);
        if QualifiedInstance(a, s) == QualifiedInstance(a, t) { QualifiedInjective(a, InstanceName(a, s), InstanceName(a, t)); }
      }
    }
    if forall s: nat, t: nat :: 1 <= s < t ==> QualifiedInstance(a, s) != QualifiedInstance(a, t) {
      forall i, j | 0 <= i < j < |a.names| ensures a.names[i] != a.names[j] {
        assert QualifiedInstance(a, i + 1) != QualifiedInstance(a, j + 1);
      }
      forall i, t: nat | 0 <= i < |a.names| < t ensures a.names[i] != NumberedName(a, t) {
        assert QualifiedInstance(a, i + 1) != QualifiedInstance(a, t);
      }
    }
  }

  lemma InstancesDiffer(a: Agent, s: nat, t: nat)
    requires Distinct(a.names) && forall i, t: nat :: 0 <= i < |a.names| < t ==> a.names[i] != NumberedName(a, t)
    requires 1 <= s < t
    ensures InstanceName(a, s) != InstanceName(a, t)
  {
    if s > |a.names| && NumberedName(a, s) == NumberedName(a, t) {
      assert NumberedName(a, s)[|a.name| + 1..] == Itoa(s) && NumberedName(a, t)[|a.name| + 1..] == Itoa(t);
      ItoaInjective(s, t);
    } else if t > |a.names| >= s {
      assert a.names[s - 1] != NumberedName(a, t);
    }
  }

  // ---------------------------------------------------------------- claiming

  ghost predicate IsLeastFree(used: set<int>, from: int, slot: int) {
    slot >= from && slot !in used && forall k :: from <= k < slot ==> k in used
  }

  /** The least free slot from `from` on; at most |used| slots are passed over. */
  function LeastFree(used: set<int>, from: int): (slot: int)
    ensures IsLeastFree(used, from, slot) && slot <= from + |used|
    decreases |used|
  {
    if from !in used then from
    else
      var slot := LeastFree(used - {from}, from + 1);
      LeastFreeStep(used, from, slot);
      slot
  }

  lemma LeastFreeStep(used: set<int>, from: int, slot: int)
    requires from in used && IsLeastFree(used - {from}, from + 1, slot)
    ensures IsLeastFree(used, from, slot)
  {
    forall k | from <= k < slot ensures k in used {
      assert k == from || k in used - {from};
    }
  }

  /** What claiming yields: the slot (0 for none) and the slots then in use. */
  datatype Claim = Claim(slot: int, used: set<int>)

  function TakeSlot(slot: int, used: set<int>): Claim {
    if slot in used then Claim(0, used) else Claim(slot, used + {slot})
  }

  /** claimPoolSlotWithConfigInfo. */
  function ClaimSlot(a: Agent, id: Identity, used: set<int>): Claim {
    if ExistingSlot(a, id) > 0 then TakeSlot(ExistingSlot(a, id), used)
    else TakeSlot(LeastFree(used, 1), used)
  }

  /** claimPreferredPoolSlotWithConfigInfo; `resumes` says the request resumes work assigned to the session. */
  function ClaimPreferred(a: Agent, id: Identity, resumes: bool, used: set<int>): Claim {
    if IsSingleton(a) then Claim(0, used)
    else if resumes && AboveCapacitySlot(a, id) > 0 then TakeSlot(AboveCapacitySlot(a, id), used)
    else ClaimSlot(a, id, used)
  }

  /** claimDesiredPoolSlotInfo. */
  function ClaimDesired(a: Agent, id: Identity, used: set<int>): Claim {
    if IsSingleton(a) then Claim(0, used) else ClaimSlot(a, id, used)
  }

  /** A claim hands out a slot nobody holds and records exactly it, or nothing. */
  ghost predicate SoundClaim(c: Claim, used: set<int>) {
    (c.slot == 0 && c.used == used) || (c.slot > 0 && c.slot !in used && c.used == used + {c.slot})
  }

  lemma ClaimsAreSound(a: Agent, id: Identity, resumes: bool, used: set<int>)
    ensures SoundClaim(ClaimSlot(a, id, used), used)
    ensures SoundClaim(ClaimPreferred(a, id, resumes, used), used)
    ensures SoundClaim(ClaimDesired(a, id, used), used)
    // Without a recoverable identity the claim always succeeds, within |used| + 1.
    ensures !IsSingleton(a) && ExistingSlot(a, id) <= 0 ==>
              1 <= ClaimSlot(a, id, used).slot <= |used| + 1 && IsLeastFree(used, 1, ClaimSlot(a, id, used).slot)
  {
  }

  /** The slot a session's identity entitles it to: above capacity only when it
      resumes its work, 0 for none in particular. */
  function DueSlot(a: Agent, id: Identity, resumes: bool): int {
    if resumes && AboveCapacitySlot(a, id) > 0 then AboveCapacitySlot(a, id) else ExistingSlot(a, id)
  }

  /** What a claim yields: nothing on a singleton, the due slot unless it is taken, and without one the least free slot. */
  ghost predicate Yields(a: Agent, due: int, used: set<int>, c: Claim) {
    if IsSingleton(a) then c == Claim(0, used)
    else if due > 0 then c == if due in used then Claim(0, used) else Claim(due, used + {due})
    else IsLeastFree(used, 1, c.slot) && c.used == used + {c.slot}
  }

  lemma ClaimsYield(a: Agent, id: Identity, resumes: bool, used: set<int>)
    ensures Yields(a, DueSlot(a, id, resumes), used, ClaimPreferred(a, id, resumes, used))
    ensures Yields(a, DueSlot(a, id, false), used, ClaimDesired(a, id, used))
  {
  }

  /** The name a session's persisted identity goes by: its agent name, else its
      alias, else a session name that is not derived from its own bead. */
  predicate GoesBy(id: Identity, name: string) {
    || id.agentName == name
    || (id.agentName == "" && (id.alias == name || (id.alias == "" && !id.ownsSessionName && id.sessionName == name)))
  }

  /** Capacity shrink does not rename a session carrying assigned work.  If it
      goes by the printed name of slot `k`, which now exceeds
      max_active_sessions and no other bound, resuming it claims `k` itself, so
      that its slot prints as its name again; or nothing, exactly when `k` is taken. */
  lemma ResumeKeepsSlot(a: Agent, id: Identity, k: nat, used: set<int>)
    requires !IsSingleton(a) && WellNamed(a, true) && id.templateMatches && GoesBy(id, QualifiedInstance(a, k))
    requires a.max.Some? && 0 < a.max.value < k <= MAX_INT && (a.names != [] ==> k <= |a.names|)
    ensures var c := ClaimPreferred(a, id, true, used);
            && (c.slot == 0 <==> k in used)
            && (c.slot != 0 ==> c.slot > 0 && QualifiedInstance(a, c.slot) == QualifiedInstance(a, k) && c.used == used + {k})
  {
    SlotsRoundTrip(a, true, k);
    assert QualifiedInstance(a, k) != "";
    assert ResolveSlot(a, true, "") == 0;
    assert AboveCapacitySlot(a, id) == k;
  }

  /** A session that goes by the printed name of a slot within the bounds
      recovers that slot, unless the name is not its agent name and another slot
      within the bounds is stamped on it: then the stamp wins. */
  lemma ExistingKeepsSlot(a: Agent, id: Identity, k: nat)
    requires !IsSingleton(a) && WellNamed(a, true) && id.templateMatches && GoesBy(id, QualifiedInstance(a, k))
    requires 1 <= k <= MAX_INT && Usable(a, k)
    ensures var stamp := Atoi(id.poolSlot);
            if id.agentName == "" && id.poolSlot != "" && stamp.ok && InBounds(a, stamp.value) then ExistingSlot(a, id) == stamp.value
            else ExistingSlot(a, id) == k
  {
    SlotsRoundTrip(a, true, k);
    assert QualifiedInstance(a, k) != "";
    assert ResolveSlot(a, true, "") == 0;
  }

  /** The session name says something about the slot: the session is of this
      pool, has no alias, and its name is not derived from its own bead. */
  predicate NameCounts(id: Identity) {
    id.templateMatches && id.alias == "" && !id.ownsSessionName
  }

  /** A session none of whose names reads as an instance has the slot stamped on
      it, if it is of this pool and the stamp exceeds no limit; else none. */
  lemma StampAlone(a: Agent, id: Identity)
    requires !IsSingleton(a) && ResolveSlot(a, id.templateMatches, id.agentName) == ResolveSlot(a, id.templateMatches, id.alias) == 0
    requires NameCounts(id) ==> ResolveSlot(a, true, id.sessionName) == 0
    ensures var stamp := Atoi(id.poolSlot);
            ExistingSlot(a, id) == if id.templateMatches && id.poolSlot != "" && stamp.ok && Usable(a, stamp.value) then stamp.value else 0
  {
  }

  /** A pool hands out slots unless it is for exactly one session and has no themed names. */
  lemma SlotsHandedOutIff(a: Agent)
    ensures (exists id, used :: ClaimDesired(a, id, used).slot != 0) <==> a.namepool || a.names != [] || a.max != Some(1)
  {
    var blank := Identity("", "", "", "", false, false);
    assert ExistingSlot(a, blank) == 0;
    assert a.namepool || a.names != [] || a.max != Some(1) ==> ClaimDesired(a, blank, {}).slot == LeastFree({}, 1) == 1;
  }

  /** The shared table of slots in use during one build. */
  class SlotTable {
    var used: set<int>

    constructor ()
      ensures used == {}
    {
      used := {};
    }

    method Take(slot: int) returns (claimed: int)
      modifies this
      ensures Claim(claimed, used) == TakeSlot(slot, old(used))
    {
      if slot in used { return 0; }
      used := used + {slot};
      claimed := slot;
    }

    /** The unbounded search of claimPoolSlotWithConfigInfo. */
    method ClaimFor(a: Agent, id: Identity) returns (claimed: int)
      modifies this
      ensures Claim(claimed, used) == ClaimSlot(a, id, old(used))
    {
      var existing := ExistingSlot(a, id);
      if existing > 0 {
        claimed := Take(existing);
        return;
      }
      var slot := 1;
      ghost var ahead := used;
      while slot in used
        invariant used == old(used) && ahead <= used && slot >= 1
        invariant forall k :: 1 <= k < slot ==> k in used && k !in ahead
        invariant forall k :: k in used && k >= slot ==> k in ahead
        decreases |ahead|
      {
        ahead := ahead - {slot};
        slot := slot + 1;
      }
      LeastFreeUnique(used, slot);
      claimed := Take(slot);
    }

    method ClaimPreferredFor(a: Agent, id: Identity, resumes: bool) returns (claimed: int)
      modifies this
      ensures Claim(claimed, used) == ClaimPreferred(a, id, resumes, old(used))
    {
      if IsSingleton(a) { return 0; }
      if resumes && AboveCapacitySlot(a, id) > 0 {
        claimed := Take(AboveCapacitySlot(a, id));
      } else {
        claimed := ClaimFor(a, id);
      }
    }
  }

  lemma LeastFreeUnique(used: set<int>, slot: int)
    requires IsLeastFree(used, 1, slot)
    ensures slot == LeastFree(used, 1)
  {
    var s := LeastFree(used, 1);
    assert s < slot ==> s in used;
    assert slot < s ==> slot in used;
  }
}
