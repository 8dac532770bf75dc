/**
 Provider health checks and recovery: one operation per city at a time, and a
 cooldown between managed recoveries (healthBeadsProviderContext and
 acquireProviderSemaphore in cmd/gc/beads_provider_lifecycle.go).

 Every access to the shared maps is a step of its own, so that the check of the
 last recovery time and its update can be separated by steps of other
 operations.  Clock readings are arbitrary: the clock may step back.
 */
module RecoveryThrottle {
  import opened Common
  import Arithmetic

  /** Where a health check stands.  Waiting and Done are outside the slot. */
  datatype Phase =
    | Waiting
    | Probing               // holds the slot, runs the health operation
    | Unhealthy             // the probe failed and a recovery is wanted
    | Cleared(now: int)     // the cooldown check at clock reading `now` let it through
    | Recovering            // recovery time recorded, the recover operation runs
    | Finishing             // about to release the slot
    | Done

  datatype Op = Op(city: string, phase: Phase)

  /** `holder` are the occupied semaphores, `last` the recovery times on record. */
  datatype State = State(ops: map<nat, Op>, holder: map<string, nat>, last: map<string, int>)

  /** Cities whose provider follows the managed bd contract, and the cooldown. */
  datatype World = World(managed: set<string>, cooldown: int)

  datatype Probe = Healthy | Leave | Recover

  /** `Leave` is an unhealthy answer that must not be recovered: the lifecycle is
      not owned here, or the circuit breaker is open. */
  datatype Event =
    | Start(op: nat, city: string)
    | Acquire(op: nat)
    | GiveUp(op: nat)
    | Probed(op: nat, answer: Probe)
    | CheckCooldown(op: nat, now: int)
    | RecordRecovery(op: nat)
    | Recovered(op: nat)
    | Release(op: nat)

  predicate Holds(p: Phase) {
    !p.Waiting? && !p.Done?
  }

  function Move(s: State, op: nat, phase: Phase): State
    requires op in s.ops
  {
    s.(ops := s.ops[op := s.ops[op].(phase := phase)])
  }

  /** One step; an event that is not enabled changes nothing. */
  function Step(w: World, s: State, e: Event): State {
    if e.Start? then (if e.op in s.ops then s else s.(ops := s.ops[e.op := Op(e.city, Waiting)]))
    else if e.op !in s.ops then s
    else
      var city := s.ops[e.op].city;
      match (e, s.ops[e.op].phase)
      case (Acquire(op), Waiting) => if city in s.holder then s else Move(s, op, Probing).(holder := s.holder[city := op])
      case (GiveUp(op), Waiting) => Move(s, op, Done)
      case (Probed(op, answer), Probing) =>
        if answer != Recover then Move(s, op, Finishing)
        else if city in w.managed then Move(s, op, Unhealthy)
        else Move(s, op, Recovering)
      case (CheckCooldown(op, now), Unhealthy) =>
        if city in s.last && now - s.last[city] < w.cooldown then Move(s, op, Finishing) else Move(s, op, Cleared(now))
      case (RecordRecovery(op), Cleared(now)) =>
        Move(s, op, Recovering).(last := s.last[city := now])
      case (Recovered(op), Recovering) => Move(s, op, Finishing)
      case (Release(op), Finishing) => Move(s, op, Done).(holder := s.holder - {city})
      case _ => s
  }

  const INITIAL := State(map[], map[], map[])

  /** The state after the first `n` events. */
  function Run(w: World, events: seq<Event>, n: nat): State
    requires n <= |events|
  {
    if n == 0 then INITIAL else Step(w, Run(w, events, n - 1), events[n - 1])
  }

  // ---------------------------------------- what an observer of the run can see

  /** Event `i` takes an operation of the city into its recover operation. */
  predicate Begins(w: World, events: seq<Event>, i: nat, city: string)
    requires i < |events|
  {
    var before, after, op := Run(w, events, i).ops, Run(w, events, i + 1).ops, events[i].op;
    && op in after && after[op].city == city && after[op].phase.Recovering?
    && !(op in before && before[op].phase.Recovering?)
  }

  /** Event `i` is the cooldown check of `op`, taken while it wants a recovery. */
  predicate Checks(w: World, events: seq<Event>, i: nat, op: nat)
    requires i < |events|
  {
    events[i].CheckCooldown? && events[i].op == op && op in Run(w, events, i).ops && Run(w, events, i).ops[op].phase.Unhealthy?
  }

  /** The clock reading of the latest cooldown check of `op` among the first `n` events. */
  function Reading(w: World, events: seq<Event>, n: nat, op: nat): Option<int>
    requires n <= |events|
  {
    if n == 0 then None
    else if Checks(w, events, n - 1, op) then Some(events[n - 1].now)
    else Reading(w, events, n - 1, op)
  }

  /** The reading at which the operation that begins to recover at event `i` was checked. */
  function ReadingAt(w: World, events: seq<Event>, i: nat): Option<int>
    requires i < |events|
  {
    Reading(w, events, i, events[i].op)
  }

  /** The readings of all recoveries of the city that begin among the first `n` events. */
  function Readings(w: World, events: seq<Event>, n: nat, city: string): seq<int>
    requires n <= |events|
  {
    if n == 0 then []
    else Readings(w, events, n - 1, city) +
         if Begins(w, events, n - 1, city) && ReadingAt(w, events, n - 1).Some? then [ReadingAt(w, events, n - 1).value] else []
  }

  // ------------------------------------------------------------------ invariant

  /** Consecutive readings lie at least a cooldown apart. */
  ghost predicate Spaced(times: seq<int>, cooldown: int) {
    forall i, j :: 0 <= i && j == i + 1 && j < |times| ==> times[j] - times[i] >= cooldown
  }

  /** Whoever is past the semaphore is its holder. */
  ghost predicate Exclusive(s: State) {
    forall op :: op in s.ops && Holds(s.ops[op].phase) ==> s.ops[op].city in s.holder && s.holder[s.ops[op].city] == op
  }

  /** An occupied semaphore has a holder that is past it. */
  ghost predicate Occupied(s: State) {
    forall c :: c in s.holder ==> s.holder[c] in s.ops && s.ops[s.holder[c]].city == c && Holds(s.ops[s.holder[c]].phase)
  }

  /** Only managed recoveries go through the cooldown check. */
  ghost predicate Gated(w: World, s: State) {
    forall op :: op in s.ops && (s.ops[op].phase.Unhealthy? || s.ops[op].phase.Cleared?) ==> s.ops[op].city in w.managed
  }

  /** An operation let through by the cooldown check is still a cooldown away from the time on record. */
  ghost predicate StillClear(w: World, s: State) {
    forall op :: op in s.ops && s.ops[op].phase.Cleared? && s.ops[op].city in s.last ==>
      s.ops[op].phase.now - s.last[s.ops[op].city] >= w.cooldown
  }

  /** An operation let through remembers the reading of its check. */
  ghost predicate Remembers(w: World, events: seq<Event>, n: nat)
    requires n <= |events|
  {
    var ops := Run(w, events, n).ops;
    forall op :: op in ops && ops[op].phase.Cleared? ==> Reading(w, events, n, op) == Some(ops[op].phase.now)
  }

  lemma StepExclusive(w: World, s: State, e: Event)
    requires Exclusive(s)
    ensures Exclusive(Step(w, s, e))
  {
  }

  lemma StepOccupied(w: World, s: State, e: Event)
    requires Exclusive(s) && Occupied(s)
    ensures Occupied(Step(w, s, e))
  {
  }

  lemma StepGated(w: World, s: State, e: Event)
    requires Gated(w, s)
    ensures Gated(w, Step(w, s, e))
  {
  }

  /** Here mutual exclusion matters: the record cannot change between the check and the update. */
  lemma StepStillClear(w: World, s: State, e: Event)
    requires Exclusive(s) && StillClear(w, s)
    ensures StillClear(w, Step(w, s, e))
  {
    var s' := Step(w, s, e);
    forall op | op in s'.ops && s'.ops[op].phase.Cleared? && s'.ops[op].city in s'.last
      ensures s'.ops[op].phase.now - s'.last[s'.ops[op].city] >= w.cooldown
    {
      if op != e.op {
        assert s'.ops[op] == s.ops[op] && Holds(s.ops[op].phase);
        assert e.op in s.ops && Holds(s.ops[e.op].phase) ==> s.ops[e.op].city != s.ops[op].city;
      }
    }
  }

  lemma NextRemembers(w: World, events: seq<Event>, n: nat)
    requires n < |events| && Remembers(w, events, n)
    ensures Remembers(w, events, n + 1)
  {
    var s, s' := Run(w, events, n), Run(w, events, n + 1);
    forall op | op in s'.ops && s'.ops[op].phase.Cleared?
      ensures Reading(w, events, n + 1, op) == Some(s'.ops[op].phase.now)
    {
      assert Checks(w, events, n, op) || (op in s.ops && s'.ops[op] == s.ops[op]);
    }
  }

  /** The invariants hold in every state of every interleaving. */
  lemma {:induction false} ReachableInvariant(w: World, events: seq<Event>, n: nat)
    requires n <= |events|
    ensures var s := Run(w, events, n); Exclusive(s) && Occupied(s) && Gated(w, s) && StillClear(w, s)
    ensures Remembers(w, events, n)
  {
    if n > 0 {
      ReachableInvariant(w, events, n - 1);
      StepExclusive(w, Run(w, events, n - 1), events[n - 1]);
      StepOccupied(w, Run(w, events, n - 1), events[n - 1]);
      StepGated(w, Run(w, events, n - 1), events[n - 1]);
      StepStillClear(w, Run(w, events, n - 1), events[n - 1]);
      NextRemembers(w, events, n - 1);
    }
  }

  /** The recovery time on record for the city. */
  function Record(w: World, events: seq<Event>, n: nat, city: string): Option<int>
    requires n <= |events|
  {
    var last := Run(w, events, n).last;
    if city in last then Some(last[city]) else None
  }

  /** A recovery begins with a reading at least a cooldown past the record, and
      that reading becomes the record; nothing else touches the record. */
  predicate Advances(before: Option<int>, after: Option<int>, begins: bool, reading: Option<int>, cooldown: int) {
    if begins then reading.Some? && after == reading && (before.Some? ==> reading.value - before.value >= cooldown)
    else after == before
  }

  lemma RecordAdvances(w: World, events: seq<Event>, i: nat, city: string)
    requires i < |events| && city in w.managed
    ensures Advances(Record(w, events, i, city), Record(w, events, i + 1, city), Begins(w, events, i, city),
                     ReadingAt(w, events, i), w.cooldown)
  {
    ReachableInvariant(w, events, i);
  }

  /** The readings end in the time on record. */
  predicate Ends(times: seq<int>, record: Option<int>) {
    if record.Some? then times != [] && times[|times| - 1] == record.value else times == []
  }

  lemma {:induction false} ReadingsRecorded(w: World, events: seq<Event>, n: nat, city: string)
    requires n <= |events| && city in w.managed
    ensures Ends(Readings(w, events, n, city), Record(w, events, n, city)) && Spaced(Readings(w, events, n, city), w.cooldown)
  {
    if n > 0 {
      ReadingsRecorded(w, events, n - 1, city);
      RecordAdvances(w, events, n - 1, city);
    }
  }

  predicate AtOrPast(record: Option<int>, reading: Option<int>) {
    record.Some? && reading.Some? && reading.value <= record.value
  }

  /** The record is at or past the reading of every recovery so far. */
  lemma {:induction false} RecordIsLatest(w: World, events: seq<Event>, n: nat, city: string, i: nat)
    requires i < n <= |events| && w.cooldown > 0 && city in w.managed && Begins(w, events, i, city)
    ensures AtOrPast(Record(w, events, n, city), ReadingAt(w, events, i))
  {
    RecordAdvances(w, events, n - 1, city);
    if i < n - 1 { RecordIsLatest(w, events, n - 1, city, i); }
  }

  /** And it is the reading of one of them. */
  lemma {:induction false} RecordIsReading(w: World, events: seq<Event>, n: nat, city: string) returns (i: nat)
    requires n <= |events| && city in w.managed && Record(w, events, n, city).Some?
    ensures i < n && Begins(w, events, i, city) && ReadingAt(w, events, i) == Record(w, events, n, city)
  {
    RecordAdvances(w, events, n - 1, city);
    if Begins(w, events, n - 1, city) {
      i := n - 1;
    } else {
      i := RecordIsReading(w, events, n - 1, city);
    }
  }

  // ------------------------------------------------------------------- results

  /** In every interleaving at most one operation per city is past the semaphore. */
  lemma MutualExclusion(w: World, events: seq<Event>, a: nat, b: nat)
    requires var ops := Run(w, events, |events|).ops;
             a in ops && b in ops && ops[a].city == ops[b].city && Holds(ops[a].phase) && Holds(ops[b].phase)
    ensures a == b
  {
    ReachableInvariant(w, events, |events|);
  }

  /** A waiting operation that asks for the slot gets it exactly when no operation of its city is past the semaphore. */
  lemma SlotGrantedIff(w: World, events: seq<Event>, i: nat, op: nat)
    requires i < |events| && events[i] == Acquire(op) && op in Run(w, events, i).ops && Run(w, events, i).ops[op].phase.Waiting?
    ensures var ops, after := Run(w, events, i).ops, Run(w, events, i + 1).ops;
            && op in after && after[op].city == ops[op].city
            && (Holds(after[op].phase) <==> forall b :: b in ops && ops[b].city == ops[op].city ==> !Holds(ops[b].phase))
  {
    ReachableInvariant(w, events, i);
  }

  /** The clock may step back and operations may interleave in any way: a
      managed recovery never begins without a cooldown check, and the readings
      of the checks behind two recoveries of one city lie a cooldown apart. */
  lemma RecoveriesAreApart(w: World, events: seq<Event>, city: string, i: nat, j: nat)
    requires w.cooldown > 0 && city in w.managed && i < j < |events|
    requires Begins(w, events, i, city) && Begins(w, events, j, city)
    ensures ReadingAt(w, events, i).Some? && ReadingAt(w, events, j).Some?
    ensures ReadingAt(w, events, j).value - ReadingAt(w, events, i).value >= w.cooldown
  {
    RecordIsLatest(w, events, j, city, i);
    RecordAdvances(w, events, j, city);
  }

  /** The cooldown check reads no more into the record than that: it lets an
      operation through exactly when its reading lies a cooldown past the
      reading of every earlier recovery of the city. */
  lemma CheckPassesIff(w: World, events: seq<Event>, i: nat, op: nat)
    requires w.cooldown > 0 && i < |events| && Checks(w, events, i, op)
    ensures var city, after := Run(w, events, i).ops[op].city, Run(w, events, i + 1).ops;
            && op in after && (after[op].phase.Cleared? || after[op].phase.Finishing?)
            && (after[op].phase.Cleared? <==>
                forall k: nat :: k < i && Begins(w, events, k, city) ==>
                  ReadingAt(w, events, k).Some? && events[i].now - ReadingAt(w, events, k).value >= w.cooldown)
  {
    var s := Run(w, events, i);
    var city := s.ops[op].city;
    ReachableInvariant(w, events, i);
    if city in s.last && events[i].now - s.last[city] < w.cooldown {
      var k := RecordIsReading(w, events, i, city);
    } else {
      forall k: nat | k < i && Begins(w, events, k, city)
        ensures ReadingAt(w, events, k).Some? && events[i].now - ReadingAt(w, events, k).value >= w.cooldown
      {
        RecordIsLatest(w, events, i, city, k);
      }
    }
  }

  /** An operation let through begins to recover when it records the attempt. */
  lemma ClearedRecovers(w: World, events: seq<Event>, i: nat, op: nat)
    requires i < |events| && events[i] == RecordRecovery(op)
    requires op in Run(w, events, i).ops && Run(w, events, i).ops[op].phase.Cleared?
    ensures Begins(w, events, i, Run(w, events, i).ops[op].city)
  {
  }

  /** Readings between `from` and `to`. */
  function CountWithin(times: seq<int>, from: int, to: int): nat {
    if times == [] then 0
    else CountWithin(times[..|times| - 1], from, to) + if from <= times[|times| - 1] <= to then 1 else 0
  }

  lemma {:induction false} SpacedBelow(times: seq<int>, cooldown: int, i: nat)
    requires Spaced(times, cooldown) && cooldown > 0 && i < |times| - 1
    ensures times[i] <= times[|times| - 1] - cooldown
    decreases |times| - i
  {
    if i + 1 < |times| - 1 { SpacedBelow(times, cooldown, i + 1); }
    assert times[i + 1] - times[i] >= cooldown;
  }

  lemma {:induction false} CountClipped(times: seq<int>, from: int, to: int, to': int)
    requires to' <= to && forall i :: 0 <= i < |times| ==> times[i] <= to'
    ensures CountWithin(times, from, to) == CountWithin(times, from, to')
  {
    if times != [] { CountClipped(times[..|times| - 1], from, to, to'); }
  }

  lemma {:induction false} CountNothing(times: seq<int>, from: int, to: int)
    requires forall i :: 0 <= i < |times| ==> times[i] < from
    ensures CountWithin(times, from, to) == 0
  {
    if times != [] { CountNothing(times[..|times| - 1], from, to); }
  }

  /** The readings within a window, less one, take up at most its length. */
  lemma {:induction false} WindowGaps(times: seq<int>, cooldown: int, from: int, length: nat)
    requires Spaced(times, cooldown) && cooldown > 0
    ensures cooldown * (CountWithin(times, from, from + length) - 1) <= length
  {
    if times != [] {
      var init, last := times[..|times| - 1], times[|times| - 1];
      assert Spaced(init, cooldown);
      WindowGaps(init, cooldown, from, length);
      if from <= last <= from + length {
        forall i | 0 <= i < |init| ensures init[i] <= last - cooldown { SpacedBelow(times, cooldown, i); }
        if last - cooldown < from {
          CountNothing(init, from, from + length);
        } else {
          CountClipped(init, from, from + length, last - cooldown);
          WindowGaps(init, cooldown, from, last - cooldown - from);
          Arithmetic.OneMore(cooldown, CountWithin(init, from, last - cooldown), last - from);
        }
      }
    }
  }

  /** Spaced readings fill a window of length L at most L / cooldown + 1 times. */
  lemma WindowBound(times: seq<int>, cooldown: int, from: int, length: nat)
    requires Spaced(times, cooldown) && cooldown > 0
    ensures CountWithin(times, from, from + length) <= length / cooldown + 1
  {
    WindowGaps(times, cooldown, from, length);
    Arithmetic.DivideAtLeast(length, cooldown, CountWithin(times, from, from + length) - 1);
  }

  /** In every interleaving of health checks of any number of callers and
      cities, the managed recoveries of a city are at least a cooldown apart by
      the clock they read, even when that clock steps back, so a window of
      length L holds at most L / cooldown + 1 of them. */
  lemma RecoveriesAreThrottled(w: World, events: seq<Event>, city: string, from: int, length: nat)
    requires w.cooldown > 0 && city in w.managed
    ensures Spaced(Readings(w, events, |events|, city), w.cooldown)
    ensures CountWithin(Readings(w, events, |events|, city), from, from + length) <= length / w.cooldown + 1
  {
    ReadingsRecorded(w, events, |events|, city);
    WindowBound(Readings(w, events, |events|, city), w.cooldown, from, length);
  }

  // --------------------------------------------------------- the maps in place

  function Entered(w: World, s: State, op: nat, city: string): State {
    Step(w, Step(w, Step(w, s, Start(op, city)), Acquire(op)), GiveUp(op))
  }

  function Decided(w: World, s: State, op: nat, answer: Probe, now: int): State {
    Step(w, Step(w, Step(w, s, Probed(op, answer)), CheckCooldown(op, now)), RecordRecovery(op))
  }

  function Finished(w: World, s: State, op: nat): State {
    Step(w, Step(w, s, Recovered(op)), Release(op))
  }

  /** One health check whose steps no other operation interrupts; a step that its branch skips is not enabled. */
  function Uninterrupted(w: World, s: State, op: nat, city: string, answer: Probe, now: int): State {
    Finished(w, Decided(w, Entered(w, s, op, city), op, answer, now), op)
  }

  lemma DoneStays(w: World, s: State, op: nat, answer: Probe, now: int)
    requires op in s.ops && s.ops[op].phase.Done?
    ensures Decided(w, s, op, answer, now) == s && Finished(w, s, op) == s
  {
  }

  lemma SlotPutBack(holder: map<string, nat>, city: string, op: nat)
    requires city !in holder
    ensures holder[city := op] - {city} == holder
  {
  }

  lemma LastPhaseStays(ops: map<nat, Op>, op: nat, a: Op, b: Op)
    ensures ops[op := a][op := b] == ops[op := b]
  {
  }

  /** The process-wide maps, and the health checks that update them. */
  class Provider {
    var ops: map<nat, Op>
    var holder: map<string, nat>
    var last: map<string, int>

    function Contents(): State
      reads this
    {
      State(ops, holder, last)
    }

    constructor ()
      ensures Contents() == INITIAL
    {
      ops, holder, last := map[], map[], map[];
    }

    method Enter(op: nat, phase: Phase)
      requires op in ops
      modifies this`ops
      ensures Contents() == Move(old(Contents()), op, phase)
    {
      ops := ops[op := ops[op].(phase := phase)];
    }

    /** Takes the city's slot, or gives up when the context ends while it is taken. */
    method TakeSlot(w: World, op: nat, city: string) returns (ok: bool)
      requires op !in ops
      modifies this
      ensures Contents() == Entered(w, old(Contents()), op, city)
      ensures ok <==> city !in old(holder)
      ensures holder == if ok then old(holder)[city := op] else old(holder)
      ensures last == old(last) && ops == old(ops)[op := Op(city, if ok then Probing else Done)]
    {
      ops := ops[op := Op(city, Waiting)];
      ok := city !in holder;
      if ok {
        Enter(op, Probing);
        holder := holder[city := op];
      } else {
        Enter(op, Done);
      }
    }

    /** The cooldown gate of a managed provider: the check, then the record of the attempt. */
    method PassGate(w: World, op: nat, now: int) returns (ok: bool)
      requires op in ops && ops[op].phase.Unhealthy?
      modifies this
      ensures Contents() == Step(w, Step(w, old(Contents()), CheckCooldown(op, now)), RecordRecovery(op))
      ensures ops == old(ops)[op := Op(old(ops[op].city), if ok then Recovering else Finishing)]
      ensures ok <==> !(ops[op].city in old(last) && now - old(last)[ops[op].city] < w.cooldown)
      ensures last == if ok then old(last)[ops[op].city := now] else old(last)
      ensures holder == old(holder)
    {
      var city := ops[op].city;
      if city in last && now - last[city] < w.cooldown {
        Enter(op, Finishing);
        return false;
      }
      last := last[city := now];
      Enter(op, Recovering);
      ok := true;
    }

    /** What to do about the probe's answer: a recovery of a managed provider has to pass the gate. */
    method DecideRecovery(w: World, op: nat, answer: Probe, now: int) returns (recovers: bool)
      requires op in ops && ops[op].phase.Probing?
      modifies this
      ensures Contents() == Decided(w, old(Contents()), op, answer, now)
      ensures ops == old(ops)[op := Op(old(ops[op].city), if recovers then Recovering else Finishing)]
      ensures recovers <==> && answer == Recover
                            && (ops[op].city in w.managed ==> !(ops[op].city in old(last) && now - old(last)[ops[op].city] < w.cooldown))
      ensures last == if recovers && ops[op].city in w.managed then old(last)[ops[op].city := now] else old(last)
      ensures holder == old(holder)
    {
      recovers := answer == Recover;
      if recovers && ops[op].city in w.managed {
        Enter(op, Unhealthy);
        recovers := PassGate(w, op, now);
      } else {
        Enter(op, if recovers then Recovering else Finishing);
      }
    }

    /** Gives the slot back, after the recover operation if there was one. */
    method Finish(w: World, op: nat)
      requires op in ops && (ops[op].phase.Recovering? || ops[op].phase.Finishing?)
      modifies this
      ensures Contents() == Finished(w, old(Contents()), op)
      ensures last == old(last) && holder == old(holder) - {old(ops[op].city)}
      ensures ops == old(ops)[op := Op(old(ops[op].city), Done)]
    {
      var city := ops[op].city;
      Enter(op, Done);
      holder := holder - {city};
    }

    /** What an operation that holds the slot does, up to giving it back. */
    method Operate(w: World, op: nat, answer: Probe, now: int) returns (recovers: bool)
      requires op in ops && ops[op].phase.Probing?
      modifies this
      ensures Contents() == Finished(w, Decided(w, old(Contents()), op, answer, now), op)
      ensures recovers <==> && answer == Recover
                            && (ops[op].city in w.managed ==> !(ops[op].city in old(last) && now - old(last)[ops[op].city] < w.cooldown))
      ensures last == if recovers && ops[op].city in w.managed then old(last)[ops[op].city := now] else old(last)
      ensures holder == old(holder) - {old(ops[op].city)} && ops == old(ops)[op := Op(old(ops[op].city), Done)]
    {
      recovers := DecideRecovery(w, op, answer, now);
      Finish(w, op);
    }

    /** One health check from start to end, with the answer its probe gets and
        the clock it would read; says whether it ran the recover operation. */
    method CheckHealth(w: World, op: nat, city: string, answer: Probe, now: int) returns (recovers: bool)
      requires op !in ops
      modifies this
      ensures Contents() == Uninterrupted(w, old(Contents()), op, city, answer, now)
      ensures recovers <==> && answer == Recover && city !in old(holder)
                            && (city in w.managed ==> !(city in old(last) && now - old(last)[city] < w.cooldown))
      ensures last == if recovers && city in w.managed then old(last)[city := now] else old(last)
      ensures holder == old(holder) && ops == old(ops)[op := Op(city, Done)]
    {
      var acquired := TakeSlot(w, op, city);
      if !acquired {
        DoneStays(w, Contents(), op, answer, now);
        return false;
      }
      SlotPutBack(old(holder), city, op);
      LastPhaseStays(old(ops), op, Op(city, Probing), Op(city, Done));
      recovers := Operate(w, op, answer, now);
    }
  }
}
