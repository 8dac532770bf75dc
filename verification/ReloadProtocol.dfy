/**
 Config mutations against runtime reloads (updateFromRuntime, mutateAndPoke and
 the mutation snapshot in cmd/gc/api_state.go), with every operation one atomic step.
 */
module ReloadProtocol {
  import opened Common

  /** Rig name to its bound path ("" for an unbound rig), and everything else. */
  datatype Config = Config(rigs: map<string, string>, rest: string)

  type Disk = map<string, string>

  datatype Loaded = Loaded(cfg: Config, revision: string)

  /** How a disk loads (None on an error), which paths a mutation snapshot
      captures, and which paths belong to the agent scaffolds. */
  datatype World = World(load: Disk -> Option<Loaded>, captured: Disk -> set<string>, inAgents: string -> bool)

  datatype State = State(cityPath: string, cfg: Option<Config>, pending: bool, pendingRev: string, disk: Disk)

  // ------------------------------------------------------------------ reloads

  /** The revision on disk; a state without a city path has the revision "". */
  function CurrentRevision(w: World, s: State): Option<string> {
    if s.cityPath == "" then Some("")
    else match w.load(s.disk)
    case None => None
    case Some(loaded) => Some(loaded.revision)
  }

  /** A rig bound to a path in `current` is missing or unbound in `next`. */
  predicate DropsBoundRigs(current: Option<Config>, next: Config) {
    current.Some? &&
    exists r :: r in current.value.rigs && current.value.rigs[r] != "" && (r !in next.rigs || next.rigs[r] == "")
  }

  function Install(s: State, next: Config): State {
    s.(cfg := Some(next), pending := false, pendingRev := "")
  }

  /** Whether updateFromRuntime goes through with the reload. */
  predicate Accepts(w: World, s: State, next: Config, revision: string) {
    if s.pending then
      s.pendingRev != "" && revision != "" &&
      (if revision == s.pendingRev then !DropsBoundRigs(s.cfg, next) else CurrentRevision(w, s) == Some(revision))
    else
      revision == "" || CurrentRevision(w, s) == Some(revision)
  }

  function Reload(w: World, s: State, next: Config, revision: string): State {
    if Accepts(w, s, next, revision) then Install(s, next) else s
  }

  /** The disk loads with this revision; without a city path there is nothing to load, and only "" agrees. */
  ghost predicate OnDisk(w: World, s: State, revision: string) {
    if s.cityPath == "" then revision == "" else exists cfg :: w.load(s.disk) == Some(Loaded(cfg, revision))
  }

  /** Every rig bound now is bound by `next` too. */
  ghost predicate KeepsBoundRigs(current: Option<Config>, next: Config) {
    current.Some? ==> forall r :: r in current.value.rigs && current.value.rigs[r] != "" ==> r in next.rigs && next.rigs[r] != ""
  }

  /** When a reload is installed, and what the state is then.  With nothing
      pending: when it carries the revision on disk or none.  With a mutation
      pending, a reload or a mutation without a revision gets nowhere; one with
      the pending revision is installed unless it drops a bound rig, even if it
      is the one on disk; any other must be the one on disk. */
  lemma ReloadInstalledIff(w: World, s: State, next: Config, revision: string)
    ensures var installed := if !s.pending then revision == "" || OnDisk(w, s, revision)
                             else s.pendingRev != "" && revision != "" &&
                                  if revision == s.pendingRev then KeepsBoundRigs(s.cfg, next) else OnDisk(w, s, revision);
            Reload(w, s, next, revision) == if installed then State(s.cityPath, Some(next), false, "", s.disk) else s
  {
    if s.cityPath != "" && w.load(s.disk).Some? {
      var loaded := w.load(s.disk).value;
      assert loaded == Loaded(loaded.cfg, loaded.revision);
    }
    assert KeepsBoundRigs(s.cfg, next) <==> !DropsBoundRigs(s.cfg, next);
  }

  // ---------------------------------------------------------------- mutations

  /** One mutation as its environment plays out: whether the snapshot could be
      taken, what the edit leaves on disk and whether it reports success, what a
      failed restore of the agent tree leaves there, and which captured files
      could not be written back. */
  datatype Mutation = Mutation(captures: bool, edited: Disk, edits: bool, debris: Option<Disk>, unwritten: set<string>)

  datatype Outcome = Rejected | EditFailed | Reverted(complete: bool) | Applied(revision: string)

  datatype Mutated = Mutated(state: State, outcome: Outcome)

  function RestoreTree(w: World, disk: Disk, source: Disk): Disk {
    map p | p in disk.Keys + source.Keys && (if w.inAgents(p) then p in source else p in disk) ::
      if w.inAgents(p) then source[p] else disk[p]
  }

  /** Writes back, or removes, the files of `paths` as `before` had them. */
  function RestoreFiles(disk: Disk, before: Disk, paths: set<string>): Disk {
    map p | p in disk.Keys + before.Keys && (if p in paths then p in before else p in disk) ::
      if p in paths then before[p] else disk[p]
  }

  function Restore(w: World, disk: Disk, before: Disk, m: Mutation): Disk {
    var tree := RestoreTree(w, disk, m.debris.GetOr(before));
    RestoreFiles(tree, before, w.captured(before) - m.unwritten)
  }

  predicate RestoreSucceeds(w: World, before: Disk, m: Mutation) {
    m.debris.None? && w.captured(before) !! m.unwritten
  }

  /** refreshConfigSnapshot: None on failure, else the new config (None to keep the old one) and the revision. */
  function Refresh(w: World, s: State): Option<(Option<Config>, string)> {
    if s.cityPath == "" || s.cfg.None? then Some((None, ""))
    else match w.load(s.disk)
    case None => None
    case Some(loaded) => if loaded.revision == "" then None else Some((Some(loaded.cfg), loaded.revision))
  }

  function Mutate(w: World, s: State, m: Mutation): Mutated {
    if s.cityPath != "" && !m.captures then Mutated(s, Rejected)
    else
      var s1 := s.(disk := m.edited);
      if !m.edits then Mutated(s1, EditFailed)
      else match Refresh(w, s1)
      case None => Mutated(s1.(disk := Restore(w, m.edited, s.disk, m)), Reverted(RestoreSucceeds(w, s.disk, m)))
      case Some((next, revision)) =>
        Mutated(s1.(cfg := if next.Some? then next else s.cfg, pending := true, pendingRev := revision), Applied(revision))
  }

  /** Whether a mutation goes through, and what it then leaves: the config and
      the revision its disk loads are in place and the revision is pending.  A
      snapshot that cannot be taken stops it before the edit; a failed edit
      leaves its disk and nothing else. */
  lemma MutationAppliedIff(w: World, s: State, m: Mutation)
    ensures var done := Mutate(w, s, m);
            var loads := s.cityPath == "" || s.cfg.None? || (w.load(m.edited).Some? && w.load(m.edited).value.revision != "");
            var starts := s.cityPath == "" || m.captures;
            && (done.outcome.Applied? <==> starts && m.edits && loads)
            && (done.outcome.Applied? && s.cityPath != "" && s.cfg.Some? ==>
                  done.state == State(s.cityPath, Some(w.load(m.edited).value.cfg), true, w.load(m.edited).value.revision, m.edited))
            && (done.outcome.Applied? && (s.cityPath == "" || s.cfg.None?) ==> done.state == State(s.cityPath, s.cfg, true, "", m.edited))
            && (!starts <==> done.outcome == Rejected) && (!starts ==> done.state == s)
            && (starts && !m.edits <==> done.outcome == EditFailed) && (starts && !m.edits ==> done.state == s.(disk := m.edited))
  {
  }

  /** A mutation whose refresh fails leaves the config and the pending state as
      they were and, if everything captured could be restored, the agent
      scaffolds and every captured file too. */
  lemma FailedRefreshRollsBack(w: World, s: State, m: Mutation)
    requires Mutate(w, s, m).outcome.Reverted?
    ensures var after := Mutate(w, s, m).state;
            && after == s.(disk := after.disk)
            && (Mutate(w, s, m).outcome.complete ==>
                  forall p :: w.inAgents(p) || p in w.captured(s.disk) ==>
                    (p in after.disk <==> p in s.disk) && (p in s.disk ==> after.disk[p] == s.disk[p]))
            && (forall p :: !w.inAgents(p) && p !in w.captured(s.disk) ==>
                    (p in after.disk <==> p in m.edited) && (p in m.edited ==> after.disk[p] == m.edited[p]))
  {
  }

  // --------------------------------------------------------------------- runs

  datatype Event = Reloaded(next: Config, revision: string) | Mutating(mutation: Mutation) | DiskChanged(disk: Disk)

  function Step(w: World, s: State, e: Event): State {
    match e
    case Reloaded(next, revision) => Reload(w, s, next, revision)
    case Mutating(m) => Mutate(w, s, m).state
    case DiskChanged(disk) => s.(disk := disk)
  }

  function Run(w: World, s: State, events: seq<Event>): State {
    if events == [] then s else Step(w, Run(w, s, events[..|events| - 1]), events[|events| - 1])
  }

  /** The states a run passes through, before its i-th event. */
  function Before(w: World, s: State, events: seq<Event>, i: nat): State
    requires i <= |events|
  {
    Run(w, s, events[..i])
  }

  ghost predicate Installs(w: World, s: State, e: Event) {
    e.Reloaded? && Accepts(w, s, e.next, e.revision)
  }

  ghost predicate Applies(w: World, s: State, e: Event) {
    e.Mutating? && Mutate(w, s, e.mutation).outcome.Applied?
  }

  /** A reload that may replace the config: it carries the pending mutation's
      revision or the one on disk at that moment (or, with nothing pending, none). */
  ghost predicate Fresh(w: World, s: State, revision: string) {
    || (s.pending && revision == s.pendingRev != "")
    || CurrentRevision(w, s) == Some(revision)
    || (!s.pending && revision == "")
  }

  /** Event `i` installs a reload or applies a mutation. */
  ghost predicate ChangesAt(w: World, s: State, events: seq<Event>, i: nat)
    requires i < |events|
  {
    Installs(w, Before(w, s, events, i), events[i]) || Applies(w, Before(w, s, events, i), events[i])
  }

  /** No event from `i` on does. */
  ghost predicate QuietFrom(w: World, s: State, events: seq<Event>, i: nat) {
    forall j: nat :: i <= j < |events| ==> !ChangesAt(w, s, events, j)
  }

  ghost predicate SameConfig(a: State, b: State) {
    a.cfg == b.cfg && a.pending == b.pending && a.pendingRev == b.pendingRev
  }

  lemma BeforeNext(w: World, s: State, events: seq<Event>, i: nat)
    requires i < |events|
    ensures Before(w, s, events, i + 1) == Step(w, Before(w, s, events, i), events[i])
  {
    assert events[..i + 1][..i] == events[..i];
  }

  /** A mutation is not lost: whatever stale reloads, failed mutations and disk
      edits follow, the config and the pending mark stay until a reload is
      installed or a mutation applied. */
  lemma {:induction false} MutationSurvives(w: World, s: State, events: seq<Event>, i: nat)
    requires i <= |events| && QuietFrom(w, s, events, i)
    ensures SameConfig(Run(w, s, events), Before(w, s, events, i))
    decreases |events| - i
  {
    if i < |events| {
      BeforeNext(w, s, events, i);
      assert !ChangesAt(w, s, events, i);
      MutationSurvives(w, s, events, i + 1);
    } else {
      assert events[..i] == events;
    }
  }

  /** The last of the first `n` events that changed the config, if any did. */
  ghost function LastChange(w: World, s: State, events: seq<Event>, n: nat): (k: Option<nat>)
    requires n <= |events|
    ensures match k
            case None => forall j: nat :: j < n ==> !ChangesAt(w, s, events, j)
            case Some(i) => i < n && ChangesAt(w, s, events, i) && forall j: nat :: i < j < n ==> !ChangesAt(w, s, events, j)
  {
    if n == 0 then None
    else if ChangesAt(w, s, events, n - 1) then Some(n - 1)
    else LastChange(w, s, events, n - 1)
  }

  /** Event `k` applied a mutation, and nothing installed or applied since. */
  ghost predicate MutatedLastAt(w: World, s: State, events: seq<Event>, k: nat) {
    k < |events| && Applies(w, Before(w, s, events, k), events[k]) && QuietFrom(w, s, events, k + 1)
  }

  /** Event `k` installed a reload, and nothing installed or applied since. */
  ghost predicate InstalledLastAt(w: World, s: State, events: seq<Event>, k: nat) {
    k < |events| && Installs(w, Before(w, s, events, k), events[k]) && QuietFrom(w, s, events, k + 1)
  }

  /** `end` holds what the disk that event `k` edited loads: its config and its
      revision.  Without a city path or a config there was nothing to load, and
      the config is the one before. */
  ghost predicate HoldsMutation(w: World, s: State, events: seq<Event>, k: nat, end: State)
    requires k < |events| && events[k].Mutating?
  {
    if end.pendingRev != "" then end.cfg.Some? && w.load(events[k].mutation.edited) == Some(Loaded(end.cfg.value, end.pendingRev))
    else end.cfg == Before(w, s, events, k).cfg && (s.cityPath == "" || end.cfg.None?)
  }

  /** Where the config of a running controller comes from, in every run that
      starts with nothing pending.  While a mutation is pending, config and
      pending revision are exactly what the disk loaded right after some applied
      mutation, and no reload or mutation has come through since.  Otherwise the
      config is the initial one, or that of a reload whose revision was the
      pending one or the one on disk when it was installed. */
  lemma ConfigProvenance(w: World, s: State, events: seq<Event>)
    requires !s.pending
    ensures var end := Run(w, s, events);
            if end.pending then exists k: nat :: MutatedLastAt(w, s, events, k) && HoldsMutation(w, s, events, k, end)
            else || (QuietFrom(w, s, events, 0) && end.cfg == s.cfg)
                 || exists k: nat :: && InstalledLastAt(w, s, events, k) && end.cfg == Some(events[k].next)
                                     && Fresh(w, Before(w, s, events, k), events[k].revision)
  {
    assert events[..0] == [];
    match LastChange(w, s, events, |events|)
    case None =>
      MutationSurvives(w, s, events, 0);
    case Some(k) =>
      MutationSurvives(w, s, events, k + 1);
      BeforeNext(w, s, events, k);
      ReachableConsistent(w, s, events[..k]);
      var st, end := Before(w, s, events, k), Run(w, s, events);
      if Applies(w, st, events[k]) {
        assert MutatedLastAt(w, s, events, k) && HoldsMutation(w, s, events, k, end);
      } else {
        assert InstalledLastAt(w, s, events, k);
      }
  }

  /** A reload that gets past a pending mutation carries the revision that the
      mutation's own disk loaded and drops no rig bound there, or it carries the
      revision on disk now; so a reload read before the mutation never undoes it. */
  lemma InstallAfterMutation(w: World, s: State, events: seq<Event>, e: Event)
    requires !s.pending && Run(w, s, events).pending && Installs(w, Run(w, s, events), e)
    ensures exists k: nat ::
              && MutatedLastAt(w, s, events, k)
              && var loaded := w.load(events[k].mutation.edited);
                 && loaded.Some?
                 && (|| (loaded.value.revision == e.revision && !DropsBoundRigs(Some(loaded.value.cfg), e.next))
                     || CurrentRevision(w, Run(w, s, events)) == Some(e.revision))
  {
    ConfigProvenance(w, s, events);
    var k: nat :| MutatedLastAt(w, s, events, k) && HoldsMutation(w, s, events, k, Run(w, s, events));
  }

  // ------------------------------------------------------------------ progress

  /** A mutation is pending that carries no revision. */
  predicate Blocked(s: State) {
    s.pending && s.pendingRev == ""
  }

  /** Only a state without a city path or a config can get there. */
  ghost predicate Consistent(s: State) {
    Blocked(s) ==> s.cityPath == "" || s.cfg.None?
  }

  /** From a state nothing is pending in, every reachable state is consistent. */
  lemma {:induction false} ReachableConsistent(w: World, s: State, events: seq<Event>)
    requires Consistent(s)
    ensures Consistent(Run(w, s, events)) && Run(w, s, events).cityPath == s.cityPath
  {
    if events != [] { ReachableConsistent(w, s, events[..|events| - 1]); }
  }

  /** Some reload would be installed exactly when the state is not blocked. */
  lemma ReloadPossibleIff(w: World, s: State)
    ensures (exists next, revision :: Accepts(w, s, next, revision)) <==> !Blocked(s)
  {
    if !Blocked(s) {
      var next := if s.cfg.Some? then s.cfg.value else Config(map[], "");
      assert Accepts(w, s, next, if s.pending then s.pendingRev else "");
    }
  }

  /** A blocked state stays blocked: no later reload, with whatever revision, is ever installed. */
  lemma {:induction false} BlockedForever(w: World, s: State, events: seq<Event>)
    requires Consistent(s) && Blocked(s)
    ensures Blocked(Run(w, s, events)) && Run(w, s, events).cfg == s.cfg
  {
    if events != [] {
      BlockedForever(w, s, events[..|events| - 1]);
      ReachableConsistent(w, s, events[..|events| - 1]);
    }
  }

  /** Such a state is one mutation away whenever there is no city path. */
  lemma MutationWithoutPathBlocks(w: World, s: State, m: Mutation)
    requires s.cityPath == "" && m.edits
    ensures Blocked(Mutate(w, s, m).state)
  {
  }

  // ------------------------------------------------------- the controller itself

  /** The controller's config state; `disk` stands for the city directory. */
  class Controller {
    const cityPath: string
    var cfg: Option<Config>
    var pending: bool
    var pendingRev: string
    var disk: Disk

    function Contents(): State
      reads this
    {
      State(cityPath, cfg, pending, pendingRev, disk)
    }

    constructor (cityPath: string, cfg: Option<Config>, disk: Disk)
      ensures Contents() == State(cityPath, cfg, false, "", disk)
    {
      this.cityPath, this.cfg, this.disk := cityPath, cfg, disk;
      pending, pendingRev := false, "";
    }

    /** runtimeUpdateStatusForPendingMutation. */
    method PendingStatus(w: World, revision: string) returns (matches: bool, stale: bool)
      ensures matches <==> pendingRev != "" && revision == pendingRev
      ensures stale <==> pendingRev == "" || revision == "" || (!matches && CurrentRevision(w, Contents()) != Some(revision))
    {
      if pendingRev == "" || revision == "" { return false, true; }
      if revision == pendingRev { return true, false; }
      stale := CurrentRevision(w, Contents()) != Some(revision);
      matches := false;
    }

    /** updateFromRuntime; both ways of installing (reusing the stores or reopening them) set the same config. */
    method UpdateFromRuntime(w: World, next: Config, revision: string)
      modifies this
      ensures Contents() == Reload(w, old(Contents()), next, revision)
    {
      if pending {
        var matches, stale := PendingStatus(w, revision);
        if stale { return; }
        if matches && DropsBoundRigs(cfg, next) { return; }
      } else if revision != "" && CurrentRevision(w, Contents()) != Some(revision) {
        return;
      }
      cfg, pending, pendingRev := Some(next), false, "";
    }

    /** The loop that writes captured files back, in whatever order the runtime ranges over them. */
    method RestoreCaptured(before: Disk, captured: set<string>, unwritten: set<string>) returns (ok: bool)
      modifies this`disk
      ensures disk == RestoreFiles(old(disk), before, captured - unwritten)
      ensures ok <==> captured !! unwritten
    {
      var rest := captured;
      ok := true;
      assert disk == RestoreFiles(disk, before, {});
      while rest != {}
        invariant rest <= captured
        invariant disk == RestoreFiles(old(disk), before, captured - rest - unwritten)
        invariant ok <==> (captured - rest) !! unwritten
        decreases rest
      {
        var p :| p in rest;
        if p in unwritten {
          ok := false;
          assert p in (captured - (rest - {p})) * unwritten;
          assert captured - (rest - {p}) - unwritten == captured - rest - unwritten;
        } else {
          assert captured - (rest - {p}) - unwritten == (captured - rest - unwritten) + {p};
          disk := if p in before then disk[p := before[p]] else disk - {p};
        }
        rest := rest - {p};
      }
      assert captured - rest == captured;
    }

    /** mutateAndPoke. */
    method MutateAndPoke(w: World, m: Mutation) returns (outcome: Outcome)
      modifies this
      ensures Mutated(Contents(), outcome) == Mutate(w, old(Contents()), m)
    {
      if cityPath != "" && !m.captures { return Rejected; }
      var before := disk;
      disk := m.edited;
      if !m.edits { return EditFailed; }
      var refreshed := Refresh(w, Contents());
      if refreshed.None? {
        disk := RestoreTree(w, disk, m.debris.GetOr(before));
        var ok := RestoreCaptured(before, w.captured(before), m.unwritten);
        return Reverted(ok && m.debris.None?);
      }
      if refreshed.value.0.Some? { cfg := refreshed.value.0; }
      pending, pendingRev := true, refreshed.value.1;
      outcome := Applied(pendingRev);
    }
  }
}
