/**
 Paths as sequences of segments, and the two containment tests of the worktree
 code (pathAtOrUnder in cmd/gc/bead_worktree_liveness.go, isStrictlyUnderDir in
 cmd/gc/bead_worktree_reaper.go).
 */
module Paths {

  /** An absolute, cleaned path. */
  type Path = seq<string>

  ghost predicate Clean(p: Path) {
    forall i :: 0 <= i < |p| ==> p[i] != ".."
  }

  function Climb(n: nat): Path {
    if n == 0 then [] else [".."] + Climb(n - 1)
  }

  /** filepath.Rel; the empty sequence stands for ".". */
  function Rel(root: Path, target: Path): Path {
    if root != [] && target != [] && root[0] == target[0] then Rel(root[1..], target[1..])
    else Climb(|root|) + target
  }

  /** Equal, or a relative path that does not climb. */
  predicate AtOrUnder(root: Path, p: Path) {
    root == p || (var rel := Rel(root, p); rel == [] || rel[0] != "..")
  }

  /** As written: refuses every relative path whose text starts with two dots. */
  predicate StrictlyUnder(dir: Path, p: Path) {
    var rel := Rel(dir, p);
    rel != [] && !(".." <= rel[0])
  }

  lemma {:induction false} RelOfChild(root: Path, p: Path)
    requires root <= p
    ensures Rel(root, p) == p[|root|..]
  {
    if root != [] {
      RelOfChild(root[1..], p[1..]);
      assert p[1..][|root[1..]|..] == p[|root|..];
    }
  }

  lemma {:induction false} RelOfStranger(root: Path, p: Path)
    requires !(root <= p)
    ensures Rel(root, p) != [] && Rel(root, p)[0] == ".."
  {
    if root != [] && p != [] && root[0] == p[0] {
      assert root == [root[0]] + root[1..] && p == [p[0]] + p[1..];
      RelOfStranger(root[1..], p[1..]);
    }
  }

  /** The liveness test is exactly containment: `p` is `root` or lies beneath it. */
  lemma AtOrUnderIsContainment(root: Path, p: Path)
    requires Clean(p)
    ensures AtOrUnder(root, p) <==> root <= p
  {
    if root <= p { RelOfChild(root, p); } else { RelOfStranger(root, p); }
  }

  /** The strict test is containment except for a child whose own name starts
      with two dots, which it takes for an escape. */
  lemma StrictlyUnderIff(dir: Path, p: Path)
    ensures StrictlyUnder(dir, p) <==> dir < p && !(".." <= p[|dir|])
  {
    if dir <= p { RelOfChild(dir, p); } else { RelOfStranger(dir, p); }
  }

  /** An input: "..cache" inside "rigs" is taken for an escape. */
  lemma TwoDotChildExample()
    ensures ["rigs"] < ["rigs", "..cache"] && !StrictlyUnder(["rigs"], ["rigs", "..cache"])
  {
    StrictlyUnderIff(["rigs"], ["rigs", "..cache"]);
    assert "..cache"[..2] == "..";
  }
}
