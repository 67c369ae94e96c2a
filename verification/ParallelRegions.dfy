/** The last check of `validateV3GraphConstraints` (packages/workflow/src/index.ts): no remote node
    between a parallel fork and its join. Two depth-first searches compute the regions. */
module ParallelRegions {
  import opened Common
  import opened WorkflowGraph

  /** The ends of the edges at `n`: targets of outgoing ones, or sources of incoming ones. */
  function Neighbours(g: Graph, n: Id, back: bool): (r: seq<Id>)
    ensures |r| == if back then |Incoming(g.edges, n)| else |Outgoing(g.edges, n)|
    ensures forall i :: 0 <= i < |r| ==> r[i] == if back then Incoming(g.edges, n)[i].from else Outgoing(g.edges, n)[i].to
  {
    if back then
      var inc := Incoming(g.edges, n);
      seq(|inc|, i requires 0 <= i < |inc| => inc[i].from)
    else
      var out := Outgoing(g.edges, n);
      seq(|out|, i requires 0 <= i < |out| => out[i].to)
  }

  ghost predicate Linked(g: Graph, a: Id, b: Id, back: bool) {
    exists e :: e in g.edges && (if back then e.to == a && e.from == b else e.from == a && e.to == b)
  }

  lemma NeighboursAreLinked(g: Graph, a: Id, b: Id, back: bool)
    ensures b in Neighbours(g, a, back) <==> Linked(g, a, b, back)
  {
    var r := Neighbours(g, a, back);
    if b in r {
      var i :| 0 <= i < |r| && r[i] == b;
      if back { assert Incoming(g.edges, a)[i] in Incoming(g.edges, a); } else { assert Outgoing(g.edges, a)[i] in Outgoing(g.edges, a); }
    }
    if Linked(g, a, b, back) {
      var e :| e in g.edges && (if back then e.to == a && e.from == b else e.from == a && e.to == b);
      if back {
        var i :| 0 <= i < |Incoming(g.edges, a)| && Incoming(g.edges, a)[i] == e;
        assert r[i] == b;
      } else {
        var i :| 0 <= i < |Outgoing(g.edges, a)| && Outgoing(g.edges, a)[i] == e;
        assert r[i] == b;
      }
    }
  }

  /** A sequence of nodes along edges, or against them. */
  ghost predicate Path(g: Graph, p: seq<Id>, back: bool) {
    |p| > 0 && forall i :: 0 <= i < |p| - 1 ==> Linked(g, p[i], p[i + 1], back)
  }

  ghost predicate Connects(g: Graph, p: seq<Id>, a: Id, b: Id, back: bool) {
    Path(g, p, back) && |p| > 1 && p[0] == a && p[|p| - 1] == b
  }

  /** There is a path of at least one edge. */
  ghost predicate Reaches(g: Graph, a: Id, b: Id, back: bool) {
    exists p :: Connects(g, p, a, b, back)
  }

  lemma ReachOne(g: Graph, a: Id, b: Id, back: bool)
    requires Linked(g, a, b, back)
    ensures Reaches(g, a, b, back)
  {
    assert Connects(g, [a, b], a, b, back);
  }

  lemma ReachMore(g: Graph, a: Id, b: Id, c: Id, back: bool)
    requires Reaches(g, a, b, back) && Linked(g, b, c, back)
    ensures Reaches(g, a, c, back)
  {
    var p :| Connects(g, p, a, b, back);
    var q := p + [c];
    forall i | 0 <= i < |q| - 1
      ensures Linked(g, q[i], q[i + 1], back)
    {
      if i < |p| - 1 { assert Linked(g, p[i], p[i + 1], back); }
    }
    assert Connects(g, q, a, c, back);
  }

  /** Walking back from `b` one finds exactly the nodes from which one gets to `b`. */
  lemma BackIsForth(g: Graph, a: Id, b: Id, back: bool)
    requires Reaches(g, a, b, back)
    ensures Reaches(g, b, a, !back)
  {
    var p :| Connects(g, p, a, b, back);
    var q := seq(|p|, i requires 0 <= i < |p| => p[|p| - 1 - i]);
    forall i | 0 <= i < |q| - 1
      ensures Linked(g, q[i], q[i + 1], !back)
    {
      var k := |p| - 2 - i;
      assert Linked(g, p[k], p[k + 1], back);
      var e :| e in g.edges && (if back then e.to == p[k] && e.from == p[k + 1] else e.from == p[k] && e.to == p[k + 1]);
      assert Linked(g, p[k + 1], p[k], !back);
    }
    assert Connects(g, q, b, a, !back);
  }

  // ---------------------------------------------------------------- the search

  /** A set that holds the neighbours of `start` and of its own members holds everything reachable. */
  ghost predicate ClosedFrom(g: Graph, start: Id, seen: set<Id>, back: bool) {
    forall x, y :: (x == start || x in seen) && Linked(g, x, y, back) ==> y in seen
  }

  lemma {:induction false} ClosedHoldsPath(g: Graph, start: Id, seen: set<Id>, p: seq<Id>, back: bool, k: nat)
    requires ClosedFrom(g, start, seen, back) && Path(g, p, back) && p[0] == start && 0 < k < |p|
    ensures p[k] in seen
  {
    if k > 1 { ClosedHoldsPath(g, start, seen, p, back, k - 1); }
    assert Linked(g, p[k - 1], p[k], back);
  }

  ghost predicate SearchInv(g: Graph, start: Id, seen: set<Id>, stack: seq<Id>, back: bool) {
    && seen <= g.types.Keys
    && (forall n :: n in seen ==> Reaches(g, start, n, back))
    && (forall n :: n in stack ==> n == start || n in seen)
    && (forall x, y :: (x == start || x in seen) && x !in stack && Linked(g, x, y, back) ==> y in seen)
  }

  /** Depth-first search with a stack: the nodes reachable from `start` over at least one edge. */
  method Search(g: Graph, start: Id, back: bool) returns (seen: set<Id>)
    requires Connected(g)
    ensures forall n :: n in seen <==> Reaches(g, start, n, back)
  {
    hide Reaches;
    hide Linked;
    seen := {};
    var stack := [start];
    while |stack| > 0
      invariant SearchInv(g, start, seen, stack, back)
      decreases g.types.Keys - seen, |stack|
    {
      var current := stack[|stack| - 1];
      var rest := stack[..|stack| - 1];
      assert current in stack;
      seen, stack := Visit(g, start, current, rest, seen, back);
    }
    forall n | Reaches(g, start, n, back)
      ensures n in seen
    {
      SeenIsAll(g, start, seen, n, back);
    }
  }

  lemma SeenIsAll(g: Graph, start: Id, seen: set<Id>, n: Id, back: bool)
    requires SearchInv(g, start, seen, [], back) && Reaches(g, start, n, back)
    ensures n in seen
  {
    hide Linked;
    var p :| Connects(g, p, start, n, back);
    ClosedHoldsPath(g, start, seen, p, back, |p| - 1);
  }

  /** Expanding the node taken off the stack: its unseen neighbours are marked and pushed. */
  method Visit(g: Graph, start: Id, current: Id, rest: seq<Id>, seen0: set<Id>, back: bool)
    returns (seen: set<Id>, stack: seq<Id>)
    requires Connected(g) && SearchInv(g, start, seen0, rest + [current], back)
    ensures SearchInv(g, start, seen, stack, back)
    ensures seen0 <= seen && (seen == seen0 ==> stack == rest)
  {
    hide Reaches;
    hide Linked;
    seen, stack := seen0, rest;
    var ns := Neighbours(g, current, back);
    assert current in rest + [current];
    for i := 0 to |ns|
      invariant seen <= g.types.Keys && seen0 <= seen && (seen == seen0 ==> stack == rest) && rest <= stack
      invariant forall n :: n in seen ==> Reaches(g, start, n, back)
      invariant forall n :: n in stack ==> n == start || n in seen
      invariant forall n :: n in seen && n !in seen0 ==> n in stack
      invariant forall j :: 0 <= j < i ==> ns[j] in seen
    {
      var next := ns[i];
      if next !in seen {
        assert next in ns;
        NeighbourIsReached(g, start, current, next, seen0, rest, back);
        seen := seen + {next};
        stack := stack + [next];
      }
    }
    assert forall n :: n in rest ==> n in stack;
    forall x, y | (x == start || x in seen) && x !in stack && Linked(g, x, y, back)
      ensures y in seen
    {
      if x == current {
        NeighboursAreLinked(g, x, y, back);
      } else {
        assert x !in rest + [current];
      }
    }
  }

  lemma NeighbourIsReached(g: Graph, start: Id, current: Id, next: Id, seen: set<Id>, rest: seq<Id>, back: bool)
    requires Connected(g) && SearchInv(g, start, seen, rest + [current], back) && next in Neighbours(g, current, back)
    ensures next in g.types && Reaches(g, start, next, back)
  {
    hide Reaches;
    NeighboursAreLinked(g, current, next, back);
    assert current in rest + [current];
    if current == start { ReachOne(g, start, next, back); } else { ReachMore(g, start, current, next, back); }
  }

  // ---------------------------------------------------------------- remote nodes in parallel regions

  function AlwaysEdges(out: seq<Edge>): (r: seq<Edge>)
    ensures forall e :: e in r <==> e in out && e.kind == Always
  {
    if out == [] then []
    else
      var rest, last := AlwaysEdges(out[..|out| - 1]), out[|out| - 1];
      if last.kind == Always then rest + [last] else rest
  }

  predicate IsRemote(g: Graph, n: Id) {
    n in g.types && g.types[n].Task? && g.types[n].remote
  }

  /** `n` lies on a branch that leaves the fork `root` by an always-edge and leads to the join. */
  ghost predicate InRegion(g: Graph, join: Id, root: Id, e: Edge, n: Id) {
    && join in g.types && g.types[join].Join?
    && Reaches(g, root, join, false) && e in AlwaysEdges(Outgoing(g.edges, root)) && |AlwaysEdges(Outgoing(g.edges, root))| >= 2
    && (n == e.to || Reaches(g, e.to, n, false)) && n != join && Reaches(g, n, join, false)
  }

  ghost predicate RemoteInParallel(g: Graph) {
    exists join, root, e, n :: InRegion(g, join, root, e, n) && IsRemote(g, n)
  }

  ghost predicate RemoteAtFork(g: Graph, join: Id, root: Id) {
    exists e, n :: InRegion(g, join, root, e, n) && IsRemote(g, n)
  }

  /** The branches of one fork towards one join. */
  method CheckFork(g: Graph, join: Id, root: Id, canReach: set<Id>) returns (found: bool)
    requires Record(g) && Connected(g) && join in g.types && g.types[join].Join? && root in canReach
    requires forall n :: n in canReach <==> Reaches(g, n, join, false)
    ensures found <==> RemoteAtFork(g, join, root)
  {
    hide Reaches;
    hide AlwaysEdges;
    var always := AlwaysEdges(Outgoing(g.edges, root));
    if |always| < 2 {
      return false;
    }
    for i := 0 to |always|
      invariant forall k, n :: 0 <= k < i ==> !(InRegion(g, join, root, always[k], n) && IsRemote(g, n))
    {
      var e := always[i];
      assert e in always;
      var reach := Search(g, e.to, false);
      var branch := reach + {e.to};
      var bad := set n | n in branch && n != join && n in canReach && IsRemote(g, n);
      if bad != {} {
        var n :| n in bad;
        assert InRegion(g, join, root, e, n);
        return true;
      }
      forall n | InRegion(g, join, root, e, n)
        ensures !IsRemote(g, n)
      {
        assert n !in bad;
      }
    }
    forall e, n | InRegion(g, join, root, e, n)
      ensures !IsRemote(g, n)
    {
      var k :| 0 <= k < |always| && always[k] == e;
    }
    return false;
  }

  /** All forks towards one join. */
  method CheckJoin(g: Graph, join: Id) returns (found: bool)
    requires Record(g) && Connected(g) && join in g.types && g.types[join].Join?
    ensures found <==> exists root :: RemoteAtFork(g, join, root)
  {
    hide Reaches;
    var canReach := Search(g, join, true);
    forall n
      ensures n in canReach <==> Reaches(g, n, join, false)
    {
      if Reaches(g, n, join, false) { BackIsForth(g, n, join, false); }
      if Reaches(g, join, n, true) { BackIsForth(g, join, n, true); }
    }
    var roots := canReach;
    while roots != {}
      invariant roots <= canReach && forall r :: r in canReach - roots ==> !RemoteAtFork(g, join, r)
      decreases roots
    {
      var root :| root in roots;
      var bad := CheckFork(g, join, root, canReach);
      if bad {
        return true;
      }
      roots := roots - {root};
    }
    forall r
      ensures !RemoteAtFork(g, join, r)
    {
      if r in canReach { assert r in canReach - roots; }
    }
    return false;
  }

  method CheckParallel(g: Graph) returns (found: bool)
    requires Record(g) && Connected(g)
    ensures found <==> RemoteInParallel(g)
  {
    hide Reaches;
    for i := 0 to |g.ids|
      invariant forall k, root :: 0 <= k < i ==> !RemoteAtFork(g, g.ids[k], root)
    {
      var id := g.ids[i];
      if g.types[id].Join? {
        found := CheckJoin(g, id);
        if found {
          ghost var root :| RemoteAtFork(g, id, root);
          return;
        }
      }
    }
    forall join, root, e, n | InRegion(g, join, root, e, n)
      ensures !IsRemote(g, n)
    {
      assert join in g.ids;
      var k :| 0 <= k < |g.ids| && g.ids[k] == join;
      assert !RemoteAtFork(g, join, root);
    }
    found := false;
  }

  /** The whole validation: it accepts exactly the structured graphs without a remote node in a parallel
      region, and otherwise names the first check that fails. */
  method ValidateV3GraphConstraints(g: Graph) returns (issue: Option<Issue>)
    requires Record(g)
    ensures issue.None? <==> Structured(g) && !RemoteInParallel(g)
    ensures issue == Some(ParallelRemoteNotSupported) <==> Structured(g) && RemoteInParallel(g)
    ensures issue == Some(GraphCycleDetected) ==> !Acyclic(g)
  {
    hide RemoteInParallel;
    issue := ValidateStructure(g);
    if issue.Some? {
      return;
    }
    var found := CheckParallel(g);
    return if found then Some(ParallelRemoteNotSupported) else None;
  }
}
