/**
 Reaping the worktrees of closed beads: discover candidates, scan once for
 borrowers, then gate each candidate on liveness and git state, failing closed
 (cmd/gc/bead_worktree_reaper.go and bead_worktree_liveness.go).
 */
module WorktreeReaper {
  import opened Common
  import opened Paths

  // ------------------------------------------------------------------- inputs

  /** A bead with its recorded work directories (None when blank). */
  datatype Bead = Bead(id: string, status: string, workDir: Option<Path>, legacyWorkDir: Option<Path>)

  /** Git's view of a worktree; None for a failed probe. */
  datatype GitState = GitState(uncommitted: bool, unreachable: Option<bool>, stashes: Option<bool>)

  /** The process scan: canonical working directories, and whether it took place. */
  datatype Live = Live(cwds: seq<Path>, scanned: bool)

  /** A rig with what its repository, store and file system answer during the
      pass.  A nil store, a missing root or a failed listing is None. */
  datatype Rig = Rig(name: string, dir: Path, worktrees: Option<seq<Path>>, status: string -> Option<string>,
                     beads: Option<seq<Bead>>, age: Path -> Option<int>, git: Path -> GitState, removable: Path -> bool)

  /** Path normalization, what reads as a bead id, the city's worktree root, the
      agents' home names, the quarantine and the active sessions' directories. */
  datatype World = World(norm: Path -> Path, looksLikeBead: string -> bool, root: Path, homes: set<string>,
                         minAge: int, live: Live, sessionDirs: seq<Option<Path>>)

  /** Normalization resolves to a fixed point without climbing segments. */
  ghost predicate Sane(w: World) {
    && (forall p :: Clean(w.norm(p)) && w.norm(w.norm(p)) == w.norm(p))
    && (forall c :: c in w.live.cwds ==> Clean(c))
  }

  predicate IsTerminal(status: string) {
    status == "closed" || status == "tombstone"
  }

  // ------------------------------------------------------------------ liveness

  /** A live process or an active session works in the tree or somewhere beneath it. */
  ghost predicate InUse(w: World, p: Path) {
    || (exists c :: c in w.live.cwds && w.norm(p) <= c)
    || (exists d :: d in w.sessionDirs && d.Some? && w.norm(p) <= w.norm(d.value))
  }

  /** worktreeIsLive finds exactly the trees in use. */
  method WorktreeIsLive(w: World, p: Path) returns (live: bool)
    requires Sane(w)
    ensures live <==> InUse(w, p)
  {
    var wt := w.norm(p);
    for i := 0 to |w.live.cwds|
      invariant forall k :: 0 <= k < i ==> !(wt <= w.live.cwds[k])
    {
      assert w.live.cwds[i] in w.live.cwds;
      AtOrUnderIsContainment(wt, w.live.cwds[i]);
      if AtOrUnder(wt, w.live.cwds[i]) { return true; }
    }
    for i := 0 to |w.sessionDirs|
      invariant forall k :: 0 <= k < i && w.sessionDirs[k].Some? ==> !(wt <= w.norm(w.sessionDirs[k].value))
    {
      if w.sessionDirs[i].Some? {
        AtOrUnderIsContainment(wt, w.norm(w.sessionDirs[i].value));
        if AtOrUnder(wt, w.norm(w.sessionDirs[i].value)) {
          assert w.sessionDirs[i] in w.sessionDirs;
          return true;
        }
      }
    }
    live := false;
  }

  /** One entry of the process table; the link is None when it cannot be read. */
  datatype Proc = Proc(isProcess: bool, link: Option<Path>, deleted: bool)

  /** The working directories of the readable processes. */
  ghost function Cwds(w: World, procs: seq<Proc>): set<Path> {
    set p | p in procs && p.isProcess && p.link.Some? && !p.deleted :: w.norm(p.link.value)
  }

  /** collectLiveWorktreeState: every working directory, once each; without a process table the fallback decides. */
  method CollectLive(w: World, procs: Option<seq<Proc>>, fallback: Live) returns (live: Live)
    ensures procs.None? ==> live == fallback
    ensures procs.Some? ==> live.scanned && Distinct(live.cwds) && Elements(live.cwds) == Cwds(w, procs.value)
  {
    if procs.None? { return fallback; }
    var cwds: seq<Path>, seen: set<Path> := [], {};
    for i := 0 to |procs.value|
      invariant Distinct(cwds) && seen == Elements(cwds) == Cwds(w, procs.value[..i])
    {
      var p := procs.value[i];
      assert procs.value[..i + 1] == procs.value[..i] + [p];
      assert forall x :: x in procs.value[..i + 1] <==> x in procs.value[..i] || x == p;
      if p.isProcess && p.link.Some? && !p.deleted {
        var cwd := w.norm(p.link.value);
        if cwd !in seen {
          assert forall x :: x in cwds + [cwd] <==> x in cwds || x == cwd;
          seen, cwds := seen + {cwd}, cwds + [cwd];
        }
      }
    }
    assert procs.value[..|procs.value|] == procs.value;
    live := Live(cwds, true);
  }

  // ------------------------------------------------- pass 1: who is a candidate

  function SplitDash(s: string): (parts: seq<string>)
    ensures parts != []
  {
    if s == [] then [""]
    else
      var rest := SplitDash(s[1..]);
      if s[0] == '-' then [""] + rest else [[s[0]] + rest[0]] + rest[1..]
  }

  /** The parts with a dash between each two. */
  function JoinDash(parts: seq<string>): string
    requires parts != []
  {
    if |parts| == 1 then parts[0] else parts[0] + "-" + JoinDash(parts[1..])
  }

  /** The parts are the dash-separated parts of the name. */
  ghost predicate PartsOf(name: string, parts: seq<string>) {
    parts != [] && JoinDash(parts) == name && forall i: nat :: i < |parts| ==> '-' !in parts[i]
  }

  lemma {:induction false} SplitDashParts(s: string)
    ensures PartsOf(s, SplitDash(s))
  {
    if s != [] {
      var rest, parts := SplitDash(s[1..]), SplitDash(s);
      SplitDashParts(s[1..]);
      if s[0] == '-' {
        assert parts[1..] == rest;
        assert JoinDash(parts) == "" + "-" + JoinDash(rest) == s;
        forall i: nat | i < |parts| ensures '-' !in parts[i] { assert i > 0 ==> parts[i] == rest[i - 1]; }
      } else {
        assert parts[1..] == rest[1..];
        forall i: nat | i < |parts| ensures '-' !in parts[i] { assert i > 0 ==> parts[i] == rest[i]; }
        if |rest| == 1 {
          assert JoinDash(parts) == [s[0]] + rest[0] == s;
        } else {
          assert JoinDash(parts) == [s[0]] + rest[0] + "-" + JoinDash(rest[1..]) == [s[0]] + JoinDash(rest) == s;
        }
      }
    }
  }

  /** The name's first dash is at `n`, or it has none and `n` is its length. */
  ghost predicate FirstDash(name: string, n: nat) {
    n <= |name| && (forall k: nat :: k < n ==> name[k] != '-') && (n < |name| ==> name[n] == '-')
  }

  lemma OneFirstDash(name: string, m: nat, n: nat)
    requires FirstDash(name, m) && FirstDash(name, n)
    ensures m == n
  {
  }

  /** A name without its first part and dash. */
  lemma FirstPart(name: string, parts: seq<string>)
    requires PartsOf(name, parts)
    ensures parts[0] <= name && FirstDash(name, |parts[0]|) && (|parts| == 1 <==> name == parts[0])
    ensures |parts| > 1 ==> PartsOf(name[|parts[0]| + 1..], parts[1..])
  {
    if |parts| > 1 {
      var tail := parts[1..];
      assert name == parts[0] + ("-" + JoinDash(tail));
      assert name[|parts[0]| + 1..] == JoinDash(tail);
      forall i: nat | i < |tail| ensures '-' !in tail[i] { assert tail[i] == parts[i + 1]; }
    }
  }

  /** A name splits in one way only. */
  lemma {:induction false} OneSplit(name: string, a: seq<string>, b: seq<string>)
    requires PartsOf(name, a) && PartsOf(name, b)
    ensures a == b
    decreases |a|
  {
    FirstPart(name, a);
    FirstPart(name, b);
    var x, y := a[0], b[0];
    OneFirstDash(name, |x|, |y|);
    assert x == name[..|x|] == y;
    if |a| > 1 && |b| > 1 { OneSplit(name[|x| + 1..], a[1..], b[1..]); }
    assert |a| > 1 ==> a == [x] + a[1..] && b == [x] + b[1..];
  }

  function Pair(parts: seq<string>, i: nat): string
    requires i + 1 < |parts|
  {
    parts[i] + "-" + parts[i + 1]
  }

  /** Pair `i` reads as a bead id and no earlier pair does. */
  ghost predicate ReadsFirst(w: World, parts: seq<string>, i: nat) {
    && i + 1 < |parts| && w.looksLikeBead(Pair(parts, i))
    && forall j: nat :: j < i ==> !w.looksLikeBead(Pair(parts, j))
  }

  /** The first adjacent pair of dash-separated parts that reads as a bead id; "" only if none does. */
  function FirstBead(w: World, parts: seq<string>): (id: string)
    ensures id == "" ==> forall i: nat :: i + 1 < |parts| ==> !w.looksLikeBead(Pair(parts, i))
    ensures id != "" ==> exists i: nat :: ReadsFirst(w, parts, i) && id == Pair(parts, i)
  {
    if |parts| < 2 then ""
    else if w.looksLikeBead(Pair(parts, 0)) then
      assert ReadsFirst(w, parts, 0);
      Pair(parts, 0)
    else
      assert forall i: nat :: i + 2 < |parts| ==> Pair(parts[1..], i) == Pair(parts, i + 1);
      var id := FirstBead(w, parts[1..]);
      FirstBeadStep(w, parts, id);
      id
  }

  lemma FirstBeadStep(w: World, parts: seq<string>, id: string)
    requires |parts| >= 2 && !w.looksLikeBead(Pair(parts, 0))
    ensures (exists i: nat :: ReadsFirst(w, parts[1..], i) && id == Pair(parts[1..], i)) ==>
            exists i: nat :: ReadsFirst(w, parts, i) && id == Pair(parts, i)
    ensures (forall i: nat :: i + 1 < |parts[1..]| ==> !w.looksLikeBead(Pair(parts[1..], i))) ==>
            forall i: nat :: i + 1 < |parts| ==> !w.looksLikeBead(Pair(parts, i))
  {
    assert forall i: nat :: 0 < i && i + 1 < |parts| ==> Pair(parts, i) == Pair(parts[1..], i - 1);
    if i: nat :| ReadsFirst(w, parts[1..], i) && id == Pair(parts[1..], i) {
      assert ReadsFirst(w, parts, i + 1) && id == Pair(parts, i + 1);
    }
  }

  function Base(p: Path): string {
    if p == [] then "/" else p[|p| - 1]
  }

  function Parent(p: Path): Path {
    if p == [] then [] else p[..|p| - 1]
  }

  /** The directory name reads as this bead: the first adjacent pair of its dash-separated parts that can. */
  ghost predicate Names(w: World, name: string, bead: string) {
    exists parts, i: nat :: PartsOf(name, parts) && ReadsFirst(w, parts, i) && bead == Pair(parts, i)
  }

  lemma FirstBeadIff(w: World, name: string, bead: string)
    ensures Names(w, name, bead) <==> bead != "" && FirstBead(w, SplitDash(name)) == bead
  {
    var parts := SplitDash(name);
    SplitDashParts(name);
    if other, i: nat :| PartsOf(name, other) && ReadsFirst(w, other, i) && bead == Pair(other, i) {
      OneSplit(name, parts, other);
      assert FirstBead(w, parts) != "";
      var j: nat :| ReadsFirst(w, parts, j) && FirstBead(w, parts) == Pair(parts, j);
      assert i == j;
    }
  }

  /** The worktree is the bead's: its leaf reads as the bead, or its leaf reads
      as none and its parent, strictly inside the rig's tree, does. */
  ghost predicate Belongs(w: World, rigDir: Path, p: Path, bead: string) {
    && p != [] && var leaf, parent := p[|p| - 1], p[..|p| - 1];
       || Names(w, leaf, bead)
       || (&& (forall other :: !Names(w, leaf, other))
           && w.norm(rigDir) < w.norm(parent) && !(".." <= w.norm(parent)[|w.norm(rigDir)|])
           && parent != [] && Names(w, parent[|parent| - 1], bead))
  }

  /** The bead a worktree belongs to: named by its leaf or, failing that, by its parent inside the rig's tree. */
  function BeadOf(w: World, rigDir: Path, p: Path): string {
    var byLeaf := FirstBead(w, SplitDash(Base(p)));
    if byLeaf != "" then byLeaf
    else if StrictlyUnder(w.norm(rigDir), w.norm(Parent(p))) then FirstBead(w, SplitDash(Base(Parent(p))))
    else ""
  }

  lemma RootNamesNothing(w: World, bead: string)
    ensures !Names(w, "/", bead)
  {
    if Names(w, "/", bead) {
      var parts, i: nat :| PartsOf("/", parts) && ReadsFirst(w, parts, i);
      assert PartsOf("/", ["/"]);
      OneSplit("/", parts, ["/"]);
    }
  }

  lemma BeadOfIff(w: World, rigDir: Path, p: Path, bead: string)
    ensures Belongs(w, rigDir, p, bead) <==> bead != "" && BeadOf(w, rigDir, p) == bead
  {
    forall b { FirstBeadIff(w, Base(p), b); }
    FirstBeadIff(w, Base(Parent(p)), bead);
    forall b { RootNamesNothing(w, b); }
    StrictlyUnderIff(w.norm(rigDir), w.norm(Parent(p)));
    var byLeaf := FirstBead(w, SplitDash(Base(p)));
    assert byLeaf != "" ==> Names(w, Base(p), byLeaf);
  }

  /** A per-bead worktree of this rig, not a session's home. */
  predicate InScope(w: World, rig: Rig, p: Path) {
    && AtOrUnder(w.norm(rig.dir), w.norm(p)) && w.norm(rig.dir) != w.norm(p)
    && StrictlyUnder(w.norm(w.root), w.norm(p))
    && Base(p) !in w.homes
  }

  datatype Reason = AgeUnknown | TooYoung | ScanFailed | Borrowed | LivenessUnknown | InLiveUse | GitProbeFailed | UnsafeGit

  datatype First = Ignored | Quarantined(bead: string, reason: Reason) | Eligible(bead: string)

  function Classify(w: World, rig: Rig, p: Path): First {
    var bead := BeadOf(w, rig.dir, p);
    if !InScope(w, rig, p) || bead == "" || rig.status(bead) != Some("closed") then Ignored
    else match rig.age(p)
    case None => Quarantined(bead, AgeUnknown)
    case Some(age) => if w.minAge > 0 && age < w.minAge then Quarantined(bead, TooYoung) else Eligible(bead)
  }

  /** A worktree inside the rig's tree and the city's, no session's home, that belongs to a closed bead. */
  ghost predicate OfClosedBead(w: World, rig: Rig, p: Path, bead: string) {
    && w.norm(rig.dir) < w.norm(p) && w.norm(w.root) < w.norm(p) && !(".." <= w.norm(p)[|w.norm(w.root)|])
    && Belongs(w, rig.dir, p, bead) && p[|p| - 1] !in w.homes && rig.status(bead) == Some("closed")
  }

  /** What the first pass makes of a worktree: the three outcomes, each exactly when it is due. */
  lemma ClassifyIff(w: World, rig: Rig, p: Path, bead: string)
    requires Sane(w)
    ensures var c, due, age := Classify(w, rig, p), OfClosedBead(w, rig, p, bead), rig.age(p);
            && (c == Eligible(bead) <==> due && age.Some? && (w.minAge > 0 ==> age.value >= w.minAge))
            && (c == Quarantined(bead, AgeUnknown) <==> due && age.None?)
            && (c == Quarantined(bead, TooYoung) <==> due && age.Some? && w.minAge > 0 && age.value < w.minAge)
  {
    AtOrUnderIsContainment(w.norm(rig.dir), w.norm(p));
    StrictlyUnderIff(w.norm(w.root), w.norm(p));
    BeadOfIff(w, rig.dir, p, bead);
  }

  /** And it is silent about a worktree only if that belongs to no closed bead. */
  lemma IgnoredIff(w: World, rig: Rig, p: Path)
    requires Sane(w)
    ensures Classify(w, rig, p).Ignored? <==> forall bead :: !OfClosedBead(w, rig, p, bead)
  {
    forall bead { ClassifyIff(w, rig, p, bead); }
    var c := Classify(w, rig, p);
    if !c.Ignored? { assert OfClosedBead(w, rig, p, c.bead); }
  }

  // ------------------------------------------------------ the borrow-veto scan

  datatype Candidate = Candidate(bead: string, path: Path)

  /** Normalized form to the candidate's own path; a later candidate replaces an earlier one. */
  function ByNorm(w: World, cs: seq<Candidate>): map<Path, Path> {
    if cs == [] then map[] else ByNorm(w, cs[..|cs| - 1])[w.norm(cs[|cs| - 1].path) := cs[|cs| - 1].path]
  }

  /** The candidate a bead's first matching key vetoes. */
  function Hit(w: World, byNorm: map<Path, Path>, b: Bead): Option<Path> {
    if IsTerminal(b.status) then None
    else if b.workDir.Some? && w.norm(b.workDir.value) in byNorm then Some(byNorm[w.norm(b.workDir.value)])
    else if b.legacyWorkDir.Some? && w.norm(b.legacyWorkDir.value) in byNorm then Some(byNorm[w.norm(b.legacyWorkDir.value)])
    else None
  }

  /** The beads that veto `p`, in order. */
  function Vetoes(w: World, byNorm: map<Path, Path>, beads: seq<Bead>, p: Path): seq<string> {
    if beads == [] then []
    else Vetoes(w, byNorm, beads[..|beads| - 1], p) + if Hit(w, byNorm, beads[|beads| - 1]) == Some(p) then [beads[|beads| - 1].id] else []
  }

  /** The batched scan: one pass over the candidates, one over the beads. */
  method ScanVetoes(w: World, cs: seq<Candidate>, beads: seq<Bead>) returns (refs: map<Path, seq<string>>)
    ensures forall p :: (if p in refs then refs[p] else []) == Vetoes(w, ByNorm(w, cs), beads, p)
  {
    var byNorm: map<Path, Path> := map[];
    for i := 0 to |cs|
      invariant byNorm == ByNorm(w, cs[..i])
    {
      assert cs[..i + 1][..i] == cs[..i];
      byNorm := byNorm[w.norm(cs[i].path) := cs[i].path];
    }
    assert cs[..|cs|] == cs;
    refs := map[];
    for i := 0 to |beads|
      invariant forall p :: (if p in refs then refs[p] else []) == Vetoes(w, byNorm, beads[..i], p)
    {
      assert beads[..i + 1][..i] == beads[..i];
      var hit := Hit(w, byNorm, beads[i]);
      if hit.Some? {
        refs := refs[hit.value := (if hit.value in refs then refs[hit.value] else []) + [beads[i].id]];
      }
    }
    assert beads[..|beads|] == beads;
  }

  /** The bead still points at `p` under one of its two keys. */
  predicate PointsAt(w: World, b: Bead, p: Path) {
    b.status !in {"closed", "tombstone"} &&
    ((b.workDir.Some? && w.norm(b.workDir.value) == w.norm(p)) || (b.legacyWorkDir.Some? && w.norm(b.legacyWorkDir.value) == w.norm(p)))
  }

  /** The per-candidate check the batched scan stands for. */
  ghost predicate Referenced(w: World, beads: seq<Bead>, p: Path) {
    exists b :: b in beads && PointsAt(w, b, p)
  }

  ghost predicate Vetoed(w: World, cs: seq<Candidate>, beads: seq<Bead>, p: Path) {
    Vetoes(w, ByNorm(w, cs), beads, p) != []
  }

  lemma {:induction false} VetoesNonEmpty(w: World, byNorm: map<Path, Path>, beads: seq<Bead>, p: Path)
    ensures Vetoes(w, byNorm, beads, p) != [] <==> exists b :: b in beads && Hit(w, byNorm, b) == Some(p)
  {
    if beads != [] {
      var init, last := beads[..|beads| - 1], beads[|beads| - 1];
      VetoesNonEmpty(w, byNorm, init, p);
      assert beads == init + [last];
      assert forall b :: b in beads <==> b in init || b == last;
    }
  }

  lemma {:induction false} ByNormEntries(w: World, cs: seq<Candidate>)
    ensures forall n :: n in ByNorm(w, cs) ==> w.norm(ByNorm(w, cs)[n]) == n && exists c :: c in cs && c.path == ByNorm(w, cs)[n]
    ensures forall c :: c in cs ==> w.norm(c.path) in ByNorm(w, cs)
  {
    if cs != [] {
      ByNormEntries(w, cs[..|cs| - 1]);
      assert cs == cs[..|cs| - 1] + [cs[|cs| - 1]];
    }
  }

  /** Another candidate with the same normalized path, listed later, took its place in the scan. */
  predicate Replaced(w: World, cs: seq<Candidate>, p: Path) {
    var byNorm := ByNorm(w, cs);
    w.norm(p) !in byNorm || byNorm[w.norm(p)] != p
  }

  /** Every bead pointing at `p` names another candidate first. */
  ghost predicate Eclipsed(w: World, cs: seq<Candidate>, beads: seq<Bead>, p: Path) {
    forall b :: b in beads && PointsAt(w, b, p) ==> NamesAnotherFirst(w, cs, b, p)
  }

  predicate NamesAnotherFirst(w: World, cs: seq<Candidate>, b: Bead, p: Path) {
    b.workDir.Some? && w.norm(b.workDir.value) != w.norm(p) && w.norm(b.workDir.value) in ByNorm(w, cs)
  }

  /** The batched scan vetoes a candidate exactly when the per-candidate check
      would, except for a candidate replaced by a twin or one that every
      borrower names only after another candidate: those it lets through. */
  lemma BatchedVetoIff(w: World, cs: seq<Candidate>, beads: seq<Bead>, c: Candidate)
    requires c in cs
    ensures Vetoed(w, cs, beads, c.path) <==>
            Referenced(w, beads, c.path) && !Replaced(w, cs, c.path) && !Eclipsed(w, cs, beads, c.path)
  {
    var byNorm, p := ByNorm(w, cs), c.path;
    ByNormEntries(w, cs);
    VetoesNonEmpty(w, byNorm, beads, p);
    if b :| b in beads && Hit(w, byNorm, b) == Some(p) {
      assert PointsAt(w, b, p) && !NamesAnotherFirst(w, cs, b, p);
    }
    if Referenced(w, beads, p) && !Replaced(w, cs, p) && !Eclipsed(w, cs, beads, p) {
      var b :| b in beads && PointsAt(w, b, p) && !NamesAnotherFirst(w, cs, b, p);
      assert Hit(w, byNorm, b) == Some(p);
    }
  }

  /** The bead's two keys name different candidates. */
  predicate NamesTwo(w: World, cs: seq<Candidate>, b: Bead) {
    && !IsTerminal(b.status) && b.workDir.Some? && b.legacyWorkDir.Some?
    && w.norm(b.workDir.value) != w.norm(b.legacyWorkDir.value)
    && w.norm(b.workDir.value) in ByNorm(w, cs) && w.norm(b.legacyWorkDir.value) in ByNorm(w, cs)
  }

  /** So the two checks agree when normalized paths are distinct and no bead's two keys name different candidates. */
  lemma BatchedVetoExact(w: World, cs: seq<Candidate>, beads: seq<Bead>, c: Candidate)
    requires c in cs
    requires forall x, y :: x in cs && y in cs && w.norm(x.path) == w.norm(y.path) ==> x.path == y.path
    requires forall b :: b in beads ==> !NamesTwo(w, cs, b)
    ensures Vetoed(w, cs, beads, c.path) <==> Referenced(w, beads, c.path)
  {
    BatchedVetoIff(w, cs, beads, c);
    ByNormEntries(w, cs);
    if Referenced(w, beads, c.path) {
      var b :| b in beads && PointsAt(w, b, c.path);
      assert !NamesAnotherFirst(w, cs, b, c.path);
    }
  }

  /** A bead that keeps two candidates under its two keys protects only the first. */
  lemma TwoKeysProtectOne(w: World, a: Candidate, c: Candidate, id: string)
    requires w.norm(a.path) != w.norm(c.path)
    ensures var b := Bead(id, "open", Some(a.path), Some(c.path));
            Referenced(w, [b], c.path) && !Vetoed(w, [a, c], [b], c.path) && Vetoed(w, [a, c], [b], a.path)
  {
    var b := Bead(id, "open", Some(a.path), Some(c.path));
    assert PointsAt(w, b, a.path) && PointsAt(w, b, c.path) && b in [b];
    ByNormEntries(w, [a, c]);
    assert [a, c][..1] == [a] && [a][..0] == [];
    assert ByNorm(w, [a, c]) == map[w.norm(a.path) := a.path][w.norm(c.path) := c.path];
    BatchedVetoIff(w, [a, c], [b], c);
    BatchedVetoIff(w, [a, c], [b], a);
  }

  /** Of two candidates with one normalized path only the later is protected, even by a bead that names the earlier as it is written. */
  lemma TwinUnprotected(w: World, a: Candidate, c: Candidate, id: string)
    requires w.norm(a.path) == w.norm(c.path) && a.path != c.path
    ensures var b := Bead(id, "open", Some(a.path), None);
            Referenced(w, [b], a.path) && !Vetoed(w, [a, c], [b], a.path) && Vetoed(w, [a, c], [b], c.path)
  {
    var b := Bead(id, "open", Some(a.path), None);
    assert PointsAt(w, b, a.path) && PointsAt(w, b, c.path) && b in [b];
    assert [a, c][..1] == [a] && [a, c][1] == c;
    assert ByNorm(w, [a, c]) == ByNorm(w, [a])[w.norm(c.path) := c.path];
    ByNormEntries(w, [a]);
    BatchedVetoIff(w, [a, c], [b], c);
    BatchedVetoIff(w, [a, c], [b], a);
  }

  // ------------------------------------------------------- pass 2 and the report

  datatype Decision = Decision(rig: string, bead: string, path: Path)

  /** What a pass reports: trees protected (with the reason) and reaped; `removed`
      and `failed` are the removals git carried out or refused. */
  datatype Report = Report(protected: seq<(Decision, Reason)>, reaped: seq<Decision>, removed: seq<Path>, failed: seq<Decision>)

  const NOTHING := Report([], [], [], [])

  ghost function GitReason(g: GitState): Option<Reason> {
    if g.unreachable.None? || g.stashes.None? then Some(GitProbeFailed)
    else if g.uncommitted || g.unreachable.value || g.stashes.value then Some(UnsafeGit)
    else None
  }

  /** Why a candidate must stay, if it must. */
  ghost function Verdict(w: World, rig: Rig, cs: seq<Candidate>, beads: seq<Bead>, p: Path): Option<Reason> {
    if Vetoed(w, cs, beads, p) then Some(Borrowed)
    else if !w.live.scanned then Some(LivenessUnknown)
    else if InUse(w, p) then Some(InLiveUse)
    else GitReason(rig.git(p))
  }

  /** Enters a decision in the report. */
  function Conclude(r: Report, d: Decision, verdict: Option<Reason>, dryRun: bool, removable: bool): Report {
    match verdict
    case Some(reason) => r.(protected := r.protected + [(d, reason)])
    case None =>
      if dryRun then r.(reaped := r.reaped + [d])
      else if removable then r.(reaped := r.reaped + [d], removed := r.removed + [d.path])
      else r.(failed := r.failed + [d])
  }

  /** What pass 1 makes of one more worktree: a candidate, or a protected tree, or nothing. */
  function AddCandidate(w: World, rig: Rig, p: Path, cs: seq<Candidate>): seq<Candidate> {
    match Classify(w, rig, p)
    case Eligible(bead) => cs + [Candidate(bead, p)]
    case _ => cs
  }

  function AddQuarantined(w: World, rig: Rig, p: Path, ps: seq<(Decision, Reason)>): seq<(Decision, Reason)> {
    match Classify(w, rig, p)
    case Quarantined(bead, reason) => ps + [(Decision(rig.name, bead, p), reason)]
    case _ => ps
  }

  /** The candidates among the worktrees, in order. */
  function Candidates(w: World, rig: Rig, trees: seq<Path>): seq<Candidate> {
    if trees == [] then [] else AddCandidate(w, rig, trees[|trees| - 1], Candidates(w, rig, trees[..|trees| - 1]))
  }

  /** The trees pass 1 protects. */
  function Quarantine(w: World, rig: Rig, trees: seq<Path>): seq<(Decision, Reason)> {
    if trees == [] then [] else AddQuarantined(w, rig, trees[|trees| - 1], Quarantine(w, rig, trees[..|trees| - 1]))
  }

  /** The verdict on a candidate; without the borrow scan every one of them stays. */
  ghost function CandidateVerdict(w: World, rig: Rig, cs: seq<Candidate>, p: Path): Option<Reason> {
    if rig.beads.None? then Some(ScanFailed) else Verdict(w, rig, cs, rig.beads.value, p)
  }

  /** Pass 2 over the candidates `cs[..n]`. */
  ghost function Gate(w: World, rig: Rig, cs: seq<Candidate>, n: nat, dryRun: bool, r: Report): Report
    requires n <= |cs|
  {
    if n == 0 then r
    else
      var c := cs[n - 1];
      Conclude(Gate(w, rig, cs, n - 1, dryRun, r), Decision(rig.name, c.bead, c.path), CandidateVerdict(w, rig, cs, c.path),
               dryRun, rig.removable(c.path))
  }

  /** The report after one more rig. */
  ghost function AfterRig(w: World, rig: Rig, dryRun: bool, r: Report): Report {
    match rig.worktrees
    case None => r
    case Some(trees) =>
      var cs := Candidates(w, rig, trees);
      Gate(w, rig, cs, |cs|, dryRun, r.(protected := r.protected + Quarantine(w, rig, trees)))
  }

  /** The whole pass, for one order of the rigs. */
  ghost function Pass(w: World, rigs: seq<Rig>, dryRun: bool): Report {
    if rigs == [] then NOTHING else AfterRig(w, rigs[|rigs| - 1], dryRun, Pass(w, rigs[..|rigs| - 1], dryRun))
  }

  // ------------------------------------------------------------------- safety

  /** Everything that must hold of a tree before it may go. */
  ghost predicate MayReap(w: World, rig: Rig, d: Decision) {
    && d.rig == rig.name && rig.worktrees.Some? && d.path in rig.worktrees.value
    && OfClosedBead(w, rig, d.path, d.bead)
    && rig.age(d.path).Some? && (w.minAge > 0 ==> rig.age(d.path).value >= w.minAge)
    && rig.beads.Some?
    && w.live.scanned && !InUse(w, d.path)
    && rig.git(d.path) == GitState(false, Some(false), Some(false))
    && BorrowChecked(w, Candidates(w, rig, rig.worktrees.value), rig.beads.value, d.path)
  }

  /** No live bead points at the path, or the batched scan could not see that one does. */
  ghost predicate BorrowChecked(w: World, cs: seq<Candidate>, beads: seq<Bead>, p: Path) {
    Referenced(w, beads, p) ==> Replaced(w, cs, p) || Eclipsed(w, cs, beads, p)
  }

  lemma {:induction false} CandidateFacts(w: World, rig: Rig, trees: seq<Path>, c: Candidate)
    requires c in Candidates(w, rig, trees)
    ensures c.path in trees && Classify(w, rig, c.path) == Eligible(c.bead)
  {
    var init := trees[..|trees| - 1];
    if c in Candidates(w, rig, init) { CandidateFacts(w, rig, init, c); }
  }

  /** A tree the pass decided to reap, whether git then carried it out or not. */
  ghost predicate Chosen(r: Report, d: Decision) {
    d in r.reaped || d in r.failed
  }

  lemma ConcludeChooses(r: Report, d: Decision, verdict: Option<Reason>, dryRun: bool, removable: bool, x: Decision)
    ensures Chosen(Conclude(r, d, verdict, dryRun, removable), x) <==> Chosen(r, x) || (x == d && verdict.None?)
  {
  }

  lemma ClearedGates(w: World, rig: Rig, cs: seq<Candidate>, c: Candidate)
    requires c in cs
    ensures CandidateVerdict(w, rig, cs, c.path).None? <==>
            && rig.beads.Some? && w.live.scanned && !InUse(w, c.path) && rig.git(c.path) == GitState(false, Some(false), Some(false))
            && BorrowChecked(w, cs, rig.beads.value, c.path)
  {
    if rig.beads.Some? { BatchedVetoIff(w, cs, rig.beads.value, c); }
  }

  /** A rig chooses exactly the trees that may go. */
  lemma ChoosesIff(w: World, rig: Rig, d: Decision)
    requires Sane(w)
    ensures Chooses(w, rig, d) <==> MayReap(w, rig, d)
  {
    if rig.worktrees.Some? {
      var trees, c := rig.worktrees.value, Candidate(d.bead, d.path);
      ClassifyIff(w, rig, d.path, d.bead);
      if c in Candidates(w, rig, trees) {
        CandidateFacts(w, rig, trees, c);
        ClearedGates(w, rig, Candidates(w, rig, trees), c);
      } else if MayReap(w, rig, d) {
        CandidateListed(w, rig, trees, d.path);
      }
    }
  }

  lemma {:induction false} GateChooses(w: World, rig: Rig, cs: seq<Candidate>, n: nat, dryRun: bool, r: Report, d: Decision)
    requires n <= |cs|
    ensures Chosen(Gate(w, rig, cs, n, dryRun, r), d) <==>
            || Chosen(r, d)
            || (d.rig == rig.name && Candidate(d.bead, d.path) in cs[..n] && CandidateVerdict(w, rig, cs, d.path).None?)
  {
    if n > 0 {
      var c := cs[n - 1];
      GateChooses(w, rig, cs, n - 1, dryRun, r, d);
      ConcludeChooses(Gate(w, rig, cs, n - 1, dryRun, r), Decision(rig.name, c.bead, c.path), CandidateVerdict(w, rig, cs, c.path),
                      dryRun, rig.removable(c.path), d);
      assert cs[..n] == cs[..n - 1] + [c];
    }
  }

  /** One rig adds to the choice exactly its candidates that pass every gate. */
  lemma RigChooses(w: World, rig: Rig, dryRun: bool, r: Report, d: Decision)
    ensures Chosen(AfterRig(w, rig, dryRun, r), d) <==>
            Chosen(r, d) || Chooses(w, rig, d)
  {
    if rig.worktrees.Some? {
      var trees := rig.worktrees.value;
      var cs := Candidates(w, rig, trees);
      GateChooses(w, rig, cs, |cs|, dryRun, r.(protected := r.protected + Quarantine(w, rig, trees)), d);
      assert cs[..|cs|] == cs;
    }
  }

  /** Safety of every pass, over any rigs in any order, dry or not: whatever is
      chosen for reaping belongs to a closed bead by its own name or its parent's,
      is past quarantine, lies inside its rig's tree, is borrowed by no bead the scan can see, has no live process or session in or beneath
      it, and is clean in git. */
  lemma {:induction false} ReapedOnlyIfSafe(w: World, rigs: seq<Rig>, dryRun: bool, d: Decision)
    requires Sane(w) && Chosen(Pass(w, rigs, dryRun), d)
    ensures exists rig :: rig in rigs && MayReap(w, rig, d)
  {
    if rigs != [] {
      var init, rig := rigs[..|rigs| - 1], rigs[|rigs| - 1];
      if Chosen(Pass(w, init, dryRun), d) {
        ReapedOnlyIfSafe(w, init, dryRun, d);
        var other :| other in init && MayReap(w, other, d);
        assert other in rigs;
      } else {
        RigChooses(w, rig, dryRun, Pass(w, init, dryRun), d);
        ChoosesIff(w, rig, d);
      }
    }
  }

  lemma {:induction false} CandidateListed(w: World, rig: Rig, trees: seq<Path>, p: Path)
    requires p in trees && Classify(w, rig, p).Eligible?
    ensures Candidate(Classify(w, rig, p).bead, p) in Candidates(w, rig, trees)
  {
    var init := trees[..|trees| - 1];
    assert trees == init + [trees[|trees| - 1]];
    if p in init { CandidateListed(w, rig, init, p); }
  }

  /** The rig adds the decision to the choice. */
  ghost predicate Chooses(w: World, rig: Rig, d: Decision) {
    && rig.worktrees.Some? && d.rig == rig.name
    && Candidate(d.bead, d.path) in Candidates(w, rig, rig.worktrees.value)
    && CandidateVerdict(w, rig, Candidates(w, rig, rig.worktrees.value), d.path).None?
  }

  lemma PassChooses(w: World, rigs: seq<Rig>, dryRun: bool, d: Decision)
    requires rigs != []
    ensures Chosen(Pass(w, rigs, dryRun), d) <==> Chosen(Pass(w, rigs[..|rigs| - 1], dryRun), d) || Chooses(w, rigs[|rigs| - 1], d)
  {
    RigChooses(w, rigs[|rigs| - 1], dryRun, Pass(w, rigs[..|rigs| - 1], dryRun), d);
  }

  lemma {:induction false} EveryChoiceChosen(w: World, rigs: seq<Rig>, dryRun: bool, i: nat, d: Decision)
    requires i < |rigs| && Chooses(w, rigs[i], d)
    ensures Chosen(Pass(w, rigs, dryRun), d)
  {
    PassChooses(w, rigs, dryRun, d);
    if i < |rigs| - 1 { EveryChoiceChosen(w, rigs[..|rigs| - 1], dryRun, i, d); }
  }

  /** And the other way round: a tree of any rig that may go is chosen, so the pass is not vacuously safe. */
  lemma EveryClearTreeChosen(w: World, rigs: seq<Rig>, dryRun: bool, rig: Rig, d: Decision)
    requires Sane(w) && rig in rigs && MayReap(w, rig, d)
    ensures Chosen(Pass(w, rigs, dryRun), d)
  {
    var i :| 0 <= i < |rigs| && rigs[i] == rig;
    ChoosesIff(w, rig, d);
    EveryChoiceChosen(w, rigs, dryRun, i, d);
  }

  lemma OneBead(w: World, name: string, a: string, b: string)
    requires Names(w, name, a) && Names(w, name, b)
    ensures a == b
  {
    FirstBeadIff(w, name, a);
    FirstBeadIff(w, name, b);
  }

  /** A tree whose own name reads as a bead that no rig knows as closed stays, whatever its parent is called. */
  lemma OpenLeafStays(w: World, rigs: seq<Rig>, dryRun: bool, d: Decision, bead: string)
    requires Sane(w) && d.path != [] && Names(w, d.path[|d.path| - 1], bead)
    requires forall rig :: rig in rigs ==> rig.status(bead) != Some("closed")
    ensures !Chosen(Pass(w, rigs, dryRun), d)
  {
    if Chosen(Pass(w, rigs, dryRun), d) {
      ReapedOnlyIfSafe(w, rigs, dryRun, d);
      var rig :| rig in rigs && MayReap(w, rig, d);
      OneBead(w, d.path[|d.path| - 1], bead, d.bead);
    }
  }

  /** Without a process scan nothing is reaped, anywhere. */
  lemma NoScanNoReaping(w: World, rigs: seq<Rig>, dryRun: bool)
    requires Sane(w) && !w.live.scanned
    ensures Pass(w, rigs, dryRun).reaped == [] && Pass(w, rigs, dryRun).failed == []
  {
    var r := Pass(w, rigs, dryRun);
    forall d ensures !Chosen(r, d) {
      if Chosen(r, d) { ReapedOnlyIfSafe(w, rigs, dryRun, d); }
    }
    assert r.reaped != [] ==> Chosen(r, r.reaped[0]);
    assert r.failed != [] ==> Chosen(r, r.failed[0]);
  }

  // ------------------------------------------------------------- conservation

  function ProtectedCount(ps: seq<(Decision, Reason)>, p: Path): nat {
    if ps == [] then 0 else ProtectedCount(ps[..|ps| - 1], p) + if ps[|ps| - 1].0.path == p then 1 else 0
  }

  function DecisionCount(ds: seq<Decision>, p: Path): nat {
    if ds == [] then 0 else DecisionCount(ds[..|ds| - 1], p) + if ds[|ds| - 1].path == p then 1 else 0
  }

  /** How often the report accounts for `p`. */
  function Accounted(r: Report, p: Path): nat {
    ProtectedCount(r.protected, p) + DecisionCount(r.reaped, p) + DecisionCount(r.failed, p)
  }

  /** How many of the first `n` candidates have the path. */
  function CandidateCount(cs: seq<Candidate>, n: nat, p: Path): nat
    requires n <= |cs|
  {
    if n == 0 then 0 else CandidateCount(cs, n - 1, p) + if cs[n - 1].path == p then 1 else 0
  }

  /** How often `p` is listed as the worktree of a closed bead. */
  function ClosedTrees(w: World, rig: Rig, trees: seq<Path>, p: Path): nat {
    if trees == [] then 0
    else
      var t := trees[|trees| - 1];
      ClosedTrees(w, rig, trees[..|trees| - 1], p) + if t == p && !Classify(w, rig, t).Ignored? then 1 else 0
  }

  function ClosedTreesOf(w: World, rigs: seq<Rig>, p: Path): nat {
    if rigs == [] then 0
    else ClosedTreesOf(w, rigs[..|rigs| - 1], p) + ClosedTrees(w, rigs[|rigs| - 1], rigs[|rigs| - 1].worktrees.GetOr([]), p)
  }

  lemma ProtectedSnoc(ps: seq<(Decision, Reason)>, x: (Decision, Reason), p: Path)
    ensures ProtectedCount(ps + [x], p) == ProtectedCount(ps, p) + if x.0.path == p then 1 else 0
  {
    assert (ps + [x])[..|ps|] == ps;
  }

  lemma {:induction false} CandidatePrefix(cs: seq<Candidate>, c: Candidate, n: nat, p: Path)
    requires n <= |cs|
    ensures CandidateCount(cs + [c], n, p) == CandidateCount(cs, n, p)
  {
    if n > 0 { CandidatePrefix(cs, c, n - 1, p); }
  }

  lemma CandidateSnoc(cs: seq<Candidate>, c: Candidate, p: Path)
    ensures CandidateCount(cs + [c], |cs| + 1, p) == CandidateCount(cs, |cs|, p) + if c.path == p then 1 else 0
  {
    CandidatePrefix(cs, c, |cs|, p);
  }

  /** How one listed tree is split: protected by pass 1, a candidate, or neither. */
  lemma SplitTree(w: World, rig: Rig, t: Path, quarantine: seq<(Decision, Reason)>, cs: seq<Candidate>, p: Path)
    ensures var after := AddCandidate(w, rig, t, cs);
            ProtectedCount(AddQuarantined(w, rig, t, quarantine), p) + CandidateCount(after, |after|, p) ==
            ProtectedCount(quarantine, p) + CandidateCount(cs, |cs|, p) + if t == p && !Classify(w, rig, t).Ignored? then 1 else 0
  {
    match Classify(w, rig, t) {
      case Ignored =>
      case Quarantined(bead, reason) => ProtectedSnoc(quarantine, (Decision(rig.name, bead, t), reason), p);
      case Eligible(bead) => CandidateSnoc(cs, Candidate(bead, t), p);
    }
  }

  lemma {:induction false} SplitTrees(w: World, rig: Rig, trees: seq<Path>, p: Path)
    ensures ClosedTrees(w, rig, trees, p) ==
            ProtectedCount(Quarantine(w, rig, trees), p) + CandidateCount(Candidates(w, rig, trees), |Candidates(w, rig, trees)|, p)
  {
    if trees != [] {
      var init, t := trees[..|trees| - 1], trees[|trees| - 1];
      SplitTrees(w, rig, init, p);
      SplitTree(w, rig, t, Quarantine(w, rig, init), Candidates(w, rig, init), p);
    }
  }

  lemma {:induction false} ProtectedConcat(a: seq<(Decision, Reason)>, b: seq<(Decision, Reason)>, p: Path)
    ensures ProtectedCount(a + b, p) == ProtectedCount(a, p) + ProtectedCount(b, p)
  {
    if b == [] {
      assert a + b == a;
    } else {
      ProtectedConcat(a, b[..|b| - 1], p);
      assert (a + b)[..|a + b| - 1] == a + b[..|b| - 1];
    }
  }

  lemma ConcludeAccounts(r: Report, d: Decision, verdict: Option<Reason>, dryRun: bool, removable: bool, p: Path)
    ensures Accounted(Conclude(r, d, verdict, dryRun, removable), p) == Accounted(r, p) + if d.path == p then 1 else 0
  {
    var r' := Conclude(r, d, verdict, dryRun, removable);
    if verdict.Some? {
      assert r'.protected[..|r'.protected| - 1] == r.protected;
    } else if dryRun || removable {
      assert r'.reaped[..|r'.reaped| - 1] == r.reaped;
    } else {
      assert r'.failed[..|r'.failed| - 1] == r.failed;
    }
  }

  /** Pass 2 over the first `n` candidates has added one entry for each. */
  ghost predicate GateAccounted(w: World, rig: Rig, cs: seq<Candidate>, n: nat, dryRun: bool, r: Report, p: Path) {
    n <= |cs| ==> Accounted(Gate(w, rig, cs, n, dryRun, r), p) == Accounted(r, p) + CandidateCount(cs, n, p)
  }

  lemma GateStepAccounts(w: World, rig: Rig, cs: seq<Candidate>, n: nat, dryRun: bool, r: Report, p: Path)
    requires GateAccounted(w, rig, cs, n, dryRun, r, p)
    ensures GateAccounted(w, rig, cs, n + 1, dryRun, r, p)
  {
    if n < |cs| {
      var c := cs[n];
      ConcludeAccounts(Gate(w, rig, cs, n, dryRun, r), Decision(rig.name, c.bead, c.path), CandidateVerdict(w, rig, cs, c.path),
                       dryRun, rig.removable(c.path), p);
    }
  }

  lemma GateAccounts(w: World, rig: Rig, cs: seq<Candidate>, n: nat, dryRun: bool, r: Report, p: Path)
    ensures GateAccounted(w, rig, cs, n, dryRun, r, p)
  {
    assert GateAccounted(w, rig, cs, 0, dryRun, r, p);
    forall k: nat | GateAccounted(w, rig, cs, k, dryRun, r, p) ensures GateAccounted(w, rig, cs, k + 1, dryRun, r, p) {
      GateStepAccounts(w, rig, cs, k, dryRun, r, p);
    }
    Induction((k: nat) => GateAccounted(w, rig, cs, k, dryRun, r, p), n);
  }

  lemma RigAccounts(w: World, rig: Rig, dryRun: bool, r: Report, p: Path)
    ensures Accounted(AfterRig(w, rig, dryRun, r), p) == Accounted(r, p) + ClosedTrees(w, rig, rig.worktrees.GetOr([]), p)
  {
    if rig.worktrees.Some? {
      var trees := rig.worktrees.value;
      var cs := Candidates(w, rig, trees);
      ProtectedConcat(r.protected, Quarantine(w, rig, trees), p);
      SplitTrees(w, rig, trees, p);
      GateAccounts(w, rig, cs, |cs|, dryRun, r.(protected := r.protected + Quarantine(w, rig, trees)), p);
    }
  }

  /** Every worktree of a closed bead ends in exactly one outcome, protected,
      reaped or refused by git, once per listing; no other path is reported. */
  lemma {:induction false} EveryTreeAccounted(w: World, rigs: seq<Rig>, dryRun: bool, p: Path)
    ensures Accounted(Pass(w, rigs, dryRun), p) == ClosedTreesOf(w, rigs, p)
  {
    if rigs != [] {
      EveryTreeAccounted(w, rigs[..|rigs| - 1], dryRun, p);
      RigAccounts(w, rigs[|rigs| - 1], dryRun, Pass(w, rigs[..|rigs| - 1], dryRun), p);
    }
  }

  /** What a dry run reports beside the real run: the same protected trees, no
      removals, and as reaped exactly what the real run decided to reap, each as
      often, whether git then removed it or refused; in the same order if git
      refused nothing. */
  ghost predicate Predicts(dry: Report, actual: Report) {
    && dry.protected == actual.protected && dry.removed == [] && dry.failed == []
    && multiset(dry.reaped) == multiset(actual.reaped) + multiset(actual.failed)
    && (actual.failed == [] ==> dry.reaped == actual.reaped)
  }

  lemma ConcludePredicts(dry: Report, actual: Report, d: Decision, verdict: Option<Reason>, removable: bool)
    requires Predicts(dry, actual)
    ensures Predicts(Conclude(dry, d, verdict, true, removable), Conclude(actual, d, verdict, false, removable))
  {
  }

  lemma {:induction false} GatePredicts(w: World, rig: Rig, cs: seq<Candidate>, n: nat, dry: Report, actual: Report)
    requires n <= |cs| && Predicts(dry, actual)
    ensures Predicts(Gate(w, rig, cs, n, true, dry), Gate(w, rig, cs, n, false, actual))
  {
    if n > 0 {
      var c := cs[n - 1];
      GatePredicts(w, rig, cs, n - 1, dry, actual);
      ConcludePredicts(Gate(w, rig, cs, n - 1, true, dry), Gate(w, rig, cs, n - 1, false, actual),
                       Decision(rig.name, c.bead, c.path), CandidateVerdict(w, rig, cs, c.path), rig.removable(c.path));
    }
  }

  /** A dry run predicts the real one, whatever git refuses to remove. */
  lemma {:induction false} DryRunPredicts(w: World, rigs: seq<Rig>)
    ensures Predicts(Pass(w, rigs, true), Pass(w, rigs, false))
  {
    if rigs != [] {
      var init, rig := rigs[..|rigs| - 1], rigs[|rigs| - 1];
      DryRunPredicts(w, init);
      if rig.worktrees.Some? {
        var trees := rig.worktrees.value;
        var dry, actual := Pass(w, init, true), Pass(w, init, false);
        var cs := Candidates(w, rig, trees);
        GatePredicts(w, rig, cs, |cs|, dry.(protected := dry.protected + Quarantine(w, rig, trees)),
                     actual.(protected := actual.protected + Quarantine(w, rig, trees)));
      }
    }
  }

  /** The removed trees are the reaped ones, in order. */
  ghost predicate RemovesReaped(r: Report) {
    |r.removed| == |r.reaped| && forall i: nat :: i < |r.reaped| ==> r.removed[i] == r.reaped[i].path
  }

  /** After a real run over `cs[..n]`: what was reaped git removed, what failed it refused. */
  lemma {:induction false} GateRemoves(w: World, rig: Rig, cs: seq<Candidate>, n: nat, r: Report, d: Decision)
    requires n <= |cs| && RemovesReaped(r)
    ensures RemovesReaped(Gate(w, rig, cs, n, false, r))
    ensures d in Gate(w, rig, cs, n, false, r).reaped && d !in r.reaped ==> d.rig == rig.name && rig.removable(d.path)
    ensures d in Gate(w, rig, cs, n, false, r).failed && d !in r.failed ==> d.rig == rig.name && !rig.removable(d.path)
  {
    if n > 0 { GateRemoves(w, rig, cs, n - 1, r, d); }
  }

  /** Git removed exactly the trees a real run reports as reaped; those it refused are reported as failed. */
  lemma {:induction false} RealRunRemoves(w: World, rigs: seq<Rig>, d: Decision)
    ensures RemovesReaped(Pass(w, rigs, false))
    ensures d in Pass(w, rigs, false).reaped ==> exists rig :: rig in rigs && d.rig == rig.name && rig.removable(d.path)
    ensures d in Pass(w, rigs, false).failed ==> exists rig :: rig in rigs && d.rig == rig.name && !rig.removable(d.path)
  {
    if rigs != [] {
      var init, rig := rigs[..|rigs| - 1], rigs[|rigs| - 1];
      RealRunRemoves(w, init, d);
      assert rigs == init + [rig];
      if rig.worktrees.Some? {
        var cs, r := Candidates(w, rig, rig.worktrees.value), Pass(w, init, false);
        GateRemoves(w, rig, cs, |cs|, r.(protected := r.protected + Quarantine(w, rig, rig.worktrees.value)), d);
      }
    }
  }

  // ----------------------------------------------------------------- the sweep

  /** The report under construction. */
  class Sweep {
    var report: Report

    constructor ()
      ensures report == NOTHING
    {
      report := NOTHING;
    }

    /** Pass 1 over one rig. */
    method Discover(w: World, rig: Rig, trees: seq<Path>) returns (cs: seq<Candidate>)
      modifies this
      ensures cs == Candidates(w, rig, trees)
      ensures report == old(report).(protected := old(report).protected + Quarantine(w, rig, trees))
    {
      cs := [];
      for i := 0 to |trees|
        invariant cs == Candidates(w, rig, trees[..i])
        invariant report == old(report).(protected := old(report).protected + Quarantine(w, rig, trees[..i]))
      {
        assert trees[..i + 1][..i] == trees[..i];
        match Classify(w, rig, trees[i])
        case Ignored =>
        case Quarantined(bead, reason) =>
          report := report.(protected := report.protected + [(Decision(rig.name, bead, trees[i]), reason)]);
        case Eligible(bead) => cs := cs + [Candidate(bead, trees[i])];
      }
      assert trees[..|trees|] == trees;
    }

    /** The gates of pass 2 on one candidate, borrowers first. */
    method Inspect(w: World, rig: Rig, ghost cs: seq<Candidate>, beads: seq<Bead>, refs: map<Path, seq<string>>, p: Path)
      returns (verdict: Option<Reason>)
      requires Sane(w) && forall q :: (if q in refs then refs[q] else []) == Vetoes(w, ByNorm(w, cs), beads, q)
      ensures verdict == Verdict(w, rig, cs, beads, p)
    {
      if p in refs && refs[p] != [] { return Some(Borrowed); }
      if !w.live.scanned { return Some(LivenessUnknown); }
      var live := WorktreeIsLive(w, p);
      if live { return Some(InLiveUse); }
      var git := rig.git(p);
      if git.unreachable.None? || git.stashes.None? { return Some(GitProbeFailed); }
      if git.uncommitted || git.unreachable.value || git.stashes.value { return Some(UnsafeGit); }
      verdict := None;
    }

    method SweepRig(w: World, rig: Rig, dryRun: bool)
      requires Sane(w)
      modifies this
      ensures report == AfterRig(w, rig, dryRun, old(report))
    {
      if rig.worktrees.None? { return; }
      var cs := Discover(w, rig, rig.worktrees.value);
      ghost var start := report;
      var refs: map<Path, seq<string>> := map[];
      if rig.beads.Some? { refs := ScanVetoes(w, cs, rig.beads.value); }
      for i := 0 to |cs|
        invariant report == Gate(w, rig, cs, i, dryRun, start)
      {
        var verdict := Some(ScanFailed);
        if rig.beads.Some? { verdict := Inspect(w, rig, cs, rig.beads.value, refs, cs[i].path); }
        report := Conclude(report, Decision(rig.name, cs[i].bead, cs[i].path), verdict, dryRun, rig.removable(cs[i].path));
      }
    }

    /** reapClosedBeadWorktrees. */
    method SweepAll(w: World, rigs: seq<Rig>, dryRun: bool)
      requires Sane(w) && report == NOTHING
      modifies this
      ensures report == Pass(w, rigs, dryRun)
    {
      for i := 0 to |rigs|
        invariant report == Pass(w, rigs[..i], dryRun)
      {
        assert rigs[..i + 1][..i] == rigs[..i];
        SweepRig(w, rigs[i], dryRun);
      }
      assert rigs[..|rigs|] == rigs;
    }
  }
}
