/**
 The walk that offers a session floor to the dependencies of every root
 template (realizeDependencyFloors in cmd/gc/build_desired_state.go).
 */
module DependencyFloors {
  import opened Common

  /** `deps` maps every template that names a configured agent to that agent's
      depends_on list; `live` are the templates whose agent is neither suspended
      nor in a suspended rig. */
  datatype Graph = Graph(deps: map<string, seq<string>>, live: set<string>) {
    ghost predicate Valid() {
      live <= deps.Keys && "" !in deps
    }
  }

  /** A live edge: `t` is a live dependency of the configured template `s`. */
  ghost predicate Edge(g: Graph, s: string, t: string) {
    s in g.deps && t in g.deps[s] && t in g.live
  }

  /** A path of live edges from a root. */
  ghost predicate IsPath(g: Graph, roots: set<string>, p: seq<string>) {
    && p != [] && p[0] in roots
    && forall i :: 0 <= i < |p| - 1 ==> Edge(g, p[i], p[i + 1])
  }

  ghost predicate Reached(g: Graph, roots: set<string>, t: string) {
    exists p :: IsPath(g, roots, p) && p[|p| - 1] == t
  }

  /** `t` is a live dependency reachable from a root through live edges. */
  ghost predicate Owed(g: Graph, roots: set<string>, t: string) {
    exists s :: Reached(g, roots, s) && Edge(g, s, t)
  }

  lemma RootReached(g: Graph, roots: set<string>, t: string)
    requires t in roots
    ensures Reached(g, roots, t)
  {
    assert IsPath(g, roots, [t]);
  }

  lemma EdgeReached(g: Graph, roots: set<string>, s: string, t: string)
    requires Reached(g, roots, s) && Edge(g, s, t)
    ensures Reached(g, roots, t) && Owed(g, roots, t)
  {
    var p :| IsPath(g, roots, p) && p[|p| - 1] == s;
    var q := p + [t];
    assert forall i :: 0 <= i < |q| - 1 ==> q[i] == p[i];
    assert IsPath(g, roots, q) && q[|q| - 1] == t;
  }

  /** Every live dependency of `s` has been visited and offered a floor. */
  ghost predicate Settled(g: Graph, s: string, visited: set<string>, offered: set<string>) {
    forall t :: Edge(g, s, t) ==> t in visited && t in offered
  }

  /** A visited set that holds the roots and is settled throughout holds every path. */
  lemma {:induction false} ClosedHoldsPaths(g: Graph, roots: set<string>, visited: set<string>, offered: set<string>, p: seq<string>)
    requires g.Valid() && IsPath(g, roots, p) && roots - {""} <= visited
    requires forall s :: s in visited ==> Settled(g, s, visited, offered)
    ensures p[|p| - 1] in visited || p[|p| - 1] == ""
  {
    if |p| > 1 {
      var q := p[..|p| - 1];
      assert forall i :: 0 <= i < |q| ==> q[i] == p[i];
      assert IsPath(g, roots, q);
      ClosedHoldsPaths(g, roots, visited, offered, q);
      assert Edge(g, p[|p| - 2], p[|p| - 1]);
    }
  }

  lemma ClosedOffersOwed(g: Graph, roots: set<string>, visited: set<string>, offered: set<string>, t: string)
    requires g.Valid() && roots - {""} <= visited && Owed(g, roots, t)
    requires forall s :: s in visited ==> Settled(g, s, visited, offered)
    ensures t in offered
  {
    var s :| Reached(g, roots, s) && Edge(g, s, t);
    var p :| IsPath(g, roots, p) && p[|p| - 1] == s;
    ClosedHoldsPaths(g, roots, visited, offered, p);
  }

  /** The walk's state: templates visited, and templates offered a floor. */
  class Walk {
    const g: Graph
    var visited: set<string>
    var offered: set<string>

    constructor (g: Graph)
      ensures this.g == g && visited == {} && offered == {}
    {
      this.g := g;
      visited, offered := {}, {};
    }

    /** Only reached templates are visited, and only owed ones offered. */
    ghost predicate Justified(roots: set<string>)
      reads this
    {
      && (forall s :: s in visited ==> Reached(g, roots, s))
      && (forall t :: t in offered ==> Owed(g, roots, t))
    }

    /** What a (sub)walk leaves behind: everything it visited is settled. */
    twostate predicate Walked(roots: set<string>)
      reads this
    {
      && Justified(roots) && old(visited) <= visited && old(offered) <= offered
      && forall s :: s in visited && s !in old(visited) ==> Settled(g, s, visited, offered)
    }

    method Visit(template: string, ghost roots: set<string>)
      requires g.Valid() && Reached(g, roots, template) && Justified(roots)
      modifies this
      ensures Walked(roots) && (template == "" || template in visited)
      decreases |g.deps.Keys - visited|, 1
    {
      if template == "" || template in visited { return; }
      visited := visited + {template};
      if template in g.deps {
        SmallerSet(g.deps.Keys - visited, g.deps.Keys - old(visited));
        VisitDeps(template, roots);
      }
    }

    method VisitDeps(template: string, ghost roots: set<string>)
      requires g.Valid() && template in g.deps && Reached(g, roots, template) && Justified(roots)
      modifies this
      ensures Walked(roots) && Settled(g, template, visited, offered)
      decreases |g.deps.Keys - visited|, 2
    {
      var deps := g.deps[template];
      for i := 0 to |deps|
        invariant Walked(roots)
        invariant forall k :: 0 <= k < i && deps[k] in g.live ==> deps[k] in visited && deps[k] in offered
      {
        if deps[i] in g.live {
          EdgeReached(g, roots, template, deps[i]);
          offered := offered + {deps[i]};
          SubsetSize(g.deps.Keys - visited, g.deps.Keys - old(visited));
          Visit(deps[i], roots);
        }
      }
    }
  }

  lemma SmallerSet(a: set<string>, b: set<string>)
    requires a < b
    ensures |a| < |b|
  {
    assert |b - a| == |b| - |a|;
    var x :| x in b - a;
  }

  lemma SubsetSize(a: set<string>, b: set<string>)
    requires a <= b
    ensures |a| <= |b|
  {
    assert |b - a| == |b| - |a|;
  }

  /** For every graph, cycles included, and every order of the roots, the walk
      terminates having offered a floor to exactly the live dependencies
      reachable from the roots through live edges. */
  method RealizeFloors(g: Graph, roots: set<string>) returns (offered: set<string>)
    requires g.Valid()
    ensures forall t :: t in offered <==> Owed(g, roots, t)
  {
    var walk := new Walk(g);
    var rest := roots;
    while rest != {}
      invariant rest <= roots && walk.g == g && walk.Justified(roots)
      invariant roots - rest - {""} <= walk.visited
      invariant forall s :: s in walk.visited ==> Settled(g, s, walk.visited, walk.offered)
      decreases rest
    {
      var root :| root in rest;
      RootReached(g, roots, root);
      walk.Visit(root, roots);
      rest := rest - {root};
    }
    offered := walk.offered;
    forall t | Owed(g, roots, t) ensures t in offered {
      ClosedOffersOwed(g, roots, walk.visited, offered, t);
    }
  }
}
