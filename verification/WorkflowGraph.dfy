/** The v3 workflow graph and its validation (packages/workflow/src/index.ts): existing end points,
    condition fan-out, and Kahn's algorithm as the cycle check. */
module WorkflowGraph {
  import opened Common

  datatype Id = Id(name: string)

  datatype EdgeKind = Always | CondTrue | CondFalse

  datatype Edge = Edge(id: string, from: Id, to: Id, kind: EdgeKind)

  /** A task node says whether its execution mode is remote. */
  datatype NodeType = Condition | Join | Task(name: string, remote: bool)

  /** `ids` are the keys of the node record in their order, `types` gives each node's type. */
  datatype Graph = Graph(ids: seq<Id>, types: map<Id, NodeType>, edges: seq<Edge>)

  /** What holds of every parsed graph: the keys of a record are distinct and each has a node. */
  ghost predicate Record(g: Graph) {
    && (forall i, j :: 0 <= i < j < |g.ids| ==> g.ids[i] != g.ids[j])
    && (forall n :: n in g.ids <==> n in g.types)
  }

  datatype Issue =
    | GraphNodeMissing | GraphEdgeInvalid | GraphCycleDetected | ConditionEdgeConstraints | ParallelRemoteNotSupported

  // ---------------------------------------------------------------- edges by end point

  function Outgoing(edges: seq<Edge>, n: Id): (out: seq<Edge>)
    ensures forall e :: e in out <==> e in edges && e.from == n
  {
    if edges == [] then []
    else
      var rest := Outgoing(edges[..|edges| - 1], n);
      if edges[|edges| - 1].from == n then rest + [edges[|edges| - 1]] else rest
  }

  function Incoming(edges: seq<Edge>, n: Id): (inc: seq<Edge>)
    ensures forall e :: e in inc <==> e in edges && e.to == n
  {
    if edges == [] then []
    else
      var rest := Incoming(edges[..|edges| - 1], n);
      if edges[|edges| - 1].to == n then rest + [edges[|edges| - 1]] else rest
  }

  /** How many of the edges lead to `n` from outside `done`. */
  function CountIn(edges: seq<Edge>, done: set<Id>, n: Id): nat {
    if edges == [] then 0
    else
      var last := edges[|edges| - 1];
      CountIn(edges[..|edges| - 1], done, n) + (if last.to == n && last.from !in done then 1 else 0)
  }

  lemma {:induction false} CountZero(edges: seq<Edge>, done: set<Id>, n: Id)
    ensures CountIn(edges, done, n) == 0 <==> forall e :: e in edges && e.to == n ==> e.from in done
  {
    if edges != [] {
      CountZero(edges[..|edges| - 1], done, n);
      assert edges == edges[..|edges| - 1] + [edges[|edges| - 1]];
    }
  }

  lemma {:induction false} CountAfter(edges: seq<Edge>, done: set<Id>, id: Id, n: Id)
    requires id !in done
    ensures CountIn(edges, done, n) == CountIn(edges, done + {id}, n) + CountIn(Outgoing(edges, id), {}, n)
  {
    if edges != [] {
      var rest := edges[..|edges| - 1];
      CountAfter(rest, done, id, n);
      var last := edges[|edges| - 1];
      if last.from == id {
        assert (Outgoing(rest, id) + [last])[..|Outgoing(rest, id)|] == Outgoing(rest, id);
      }
    }
  }

  lemma {:induction false} CountPrefix(out: seq<Edge>, j: nat, n: Id)
    requires j <= |out|
    ensures CountIn(out[..j], {}, n) <= CountIn(out, {}, n)
  {
    if j < |out| {
      CountPrefix(out[..|out| - 1], j, n);
      assert out[..|out| - 1][..j] == out[..j];
    } else {
      assert out[..j] == out;
    }
  }

  lemma {:induction false} CountSnoc(out: seq<Edge>, j: nat, n: Id)
    requires j < |out|
    ensures CountIn(out[..j + 1], {}, n) == CountIn(out[..j], {}, n) + (if n == out[j].to then 1 else 0)
  {
    assert out[..j + 1][..j] == out[..j];
  }

  // ---------------------------------------------------------------- the specification

  ghost predicate Connected(g: Graph) {
    && (forall e :: e in g.edges ==> e.from in g.types && e.to in g.types)
    && (forall i, j :: 0 <= i < j < |g.edges| ==> g.edges[i].id != g.edges[j].id)
  }

  /** Exactly two outgoing edges, one for each result. */
  ghost predicate TwoWay(out: seq<Edge>) {
    |out| == 2 && {out[0].kind, out[1].kind} == {CondTrue, CondFalse}
  }

  ghost predicate ConditionsTwoWay(g: Graph) {
    forall n :: n in g.types && g.types[n].Condition? ==> TwoWay(Outgoing(g.edges, n))
  }

  /** A numbering of the nodes that increases along every edge. */
  ghost predicate Ranking(g: Graph, rank: map<Id, nat>) {
    forall e :: e in g.edges ==> e.from in rank && e.to in rank && rank[e.from] < rank[e.to]
  }

  ghost predicate Acyclic(g: Graph) {
    exists rank :: Ranking(g, rank)
  }

  ghost predicate Walk(g: Graph, path: seq<Edge>) {
    && (forall i :: 0 <= i < |path| ==> path[i] in g.edges)
    && (forall i :: 0 < i < |path| ==> path[i - 1].to == path[i].from)
  }

  /** With a ranking, no walk returns to where it started. */
  lemma {:induction false} RankedWalk(g: Graph, rank: map<Id, nat>, path: seq<Edge>)
    requires Ranking(g, rank) && Walk(g, path) && |path| > 0
    ensures path[0].from in rank && path[|path| - 1].to in rank && rank[path[0].from] < rank[path[|path| - 1].to]
  {
    var n := |path| - 1;
    assert path[n] in g.edges && path[0] in g.edges;
    if n > 0 {
      RankedWalk(g, rank, path[..n]);
    }
  }

  ghost predicate HasPredecessorIn(g: Graph, n: Id, s: set<Id>) {
    exists e :: e in g.edges && e.to == n && e.from in s
  }

  /** A set of nodes each of which has a predecessor in the set. */
  ghost predicate Trapped(g: Graph, s: set<Id>) {
    s != {} && forall n :: n in s ==> HasPredecessorIn(g, n, s)
  }

  lemma {:induction false} LeastRanked(s: set<Id>, rank: map<Id, nat>) returns (n: Id)
    requires s != {} && s <= rank.Keys
    ensures n in s && forall m :: m in s ==> rank[n] <= rank[m]
    decreases |s|
  {
    n :| n in s;
    if s != {n} {
      assert |s - {n}| < |s|;
      var m := LeastRanked(s - {n}, rank);
      if rank[m] < rank[n] { n := m; }
    } else {
      assert forall m :: m in s ==> m == n;
    }
  }

  lemma PredecessorIn(g: Graph, n: Id, s: set<Id>) returns (e: Edge)
    requires HasPredecessorIn(g, n, s)
    ensures e in g.edges && e.to == n && e.from in s
  {
    e :| e in g.edges && e.to == n && e.from in s;
  }

  lemma TrappedIsCyclic(g: Graph, s: set<Id>)
    requires Trapped(g, s)
    ensures !Acyclic(g)
  {
    forall rank | Ranking(g, rank)
      ensures false
    {
      TrappedHasNoRanking(g, s, rank);
    }
  }

  lemma TrappedHasNoRanking(g: Graph, s: set<Id>, rank: map<Id, nat>)
    requires Trapped(g, s)
    ensures !Ranking(g, rank)
  {
    hide HasPredecessorIn;
    if s <= rank.Keys {
      var n := LeastRanked(s, rank);
      var e := PredecessorIn(g, n, s);
      assert !(rank[e.from] < rank[e.to]);
    } else {
      var n :| n in s && n !in rank;
      var e := PredecessorIn(g, n, s);
    }
  }

  // ---------------------------------------------------------------- Kahn's algorithm

  ghost predicate Distinct(s: seq<Id>) {
    forall i, j :: 0 <= i < j < |s| ==> s[i] != s[j]
  }

  /** The queue holds, once each, the nodes of in-degree zero that are not yet settled. */
  ghost predicate QueueOk(inDegree: map<Id, nat>, queue: seq<Id>, settled: set<Id>) {
    && Distinct(queue)
    && (forall n :: n in queue ==> n in inDegree && n !in settled)
    && (forall n :: n in inDegree ==> (inDegree[n] == 0 <==> n in settled || n in queue))
  }

  /** In-degrees count the edges from nodes outside `done`, less those of `relaxed`. */
  ghost predicate DegreesOk(g: Graph, inDegree: map<Id, nat>, done: set<Id>, relaxed: seq<Edge>) {
    inDegree.Keys == g.types.Keys &&
    forall n :: n in inDegree ==> inDegree[n] + CountIn(relaxed, {}, n) == CountIn(g.edges, done, n)
  }

  /** The visiting order puts every predecessor of a visited node before it. */
  ghost predicate Topological(g: Graph, order: seq<Id>) {
    && Distinct(order)
    && forall e, j :: e in g.edges && 0 <= j < |order| && order[j] == e.to ==> e.from in order[..j]
  }

  lemma {:induction false} DistinctSize(s: seq<Id>, t: set<Id>)
    requires Distinct(s) && forall n :: n in t <==> n in s
    ensures |t| == |s|
  {
    if s == [] {
      assert t == {};
    } else {
      var n := |s| - 1;
      forall x | x in t - {s[n]}
        ensures x in s[..n]
      {
      }
      DistinctSize(s[..n], t - {s[n]});
    }
  }

  /** Relaxing one more edge out of `id` lowers one in-degree, which was positive. */
  lemma {:induction false} RelaxDegrees(g: Graph, id: Id, out: seq<Edge>, j: nat, inDegree: map<Id, nat>, done: set<Id>)
    requires Connected(g) && id !in done && out == Outgoing(g.edges, id) && j < |out|
    requires DegreesOk(g, inDegree, done, out[..j])
    ensures var next := out[j].to;
      next in inDegree && inDegree[next] > 0 && DegreesOk(g, inDegree[next := inDegree[next] - 1], done, out[..j + 1])
  {
    hide CountIn;
    var next := out[j].to;
    assert out[j] in out;
    assert out[j] in g.edges;
    CountSnoc(out, j, next);
    CountPrefix(out, j + 1, next);
    CountAfter(g.edges, done, id, next);
    forall n | n in inDegree
      ensures CountIn(out[..j + 1], {}, n) == CountIn(out[..j], {}, n) + (if n == next then 1 else 0)
    {
      CountSnoc(out, j, n);
    }
  }

  lemma RelaxQueue(inDegree: map<Id, nat>, queue: seq<Id>, settled: set<Id>, next: Id)
    requires QueueOk(inDegree, queue, settled) && next in inDegree && inDegree[next] > 0
    ensures QueueOk(inDegree[next := inDegree[next] - 1], if inDegree[next] == 1 then queue + [next] else queue, settled)
  {
    assert next !in queue;
    var queue' := queue + [next];
    assert forall n :: n in queue' <==> n in queue || n == next;
  }

  /** One iteration's worth of decrements: the edges out of the node just taken off the queue. */
  method RelaxEdges(g: Graph, id: Id, inDegree0: map<Id, nat>, queue0: seq<Id>, ghost done: set<Id>)
    returns (inDegree: map<Id, nat>, queue: seq<Id>)
    requires Connected(g) && id !in done
    requires DegreesOk(g, inDegree0, done, []) && QueueOk(inDegree0, queue0, done + {id})
    ensures DegreesOk(g, inDegree, done + {id}, []) && QueueOk(inDegree, queue, done + {id})
  {
    hide QueueOk;
    hide Outgoing;
    inDegree, queue := inDegree0, queue0;
    var out := Outgoing(g.edges, id);
    assert out[..0] == [];
    for j := 0 to |out|
      invariant DegreesOk(g, inDegree, done, out[..j]) && QueueOk(inDegree, queue, done + {id})
    {
      var next := out[j].to;
      RelaxDegrees(g, id, out, j, inDegree, done);
      RelaxQueue(inDegree, queue, done + {id}, next);
      var deg := inDegree[next] - 1;
      inDegree := inDegree[next := deg];
      if deg == 0 {
        queue := queue + [next];
      }
    }
    assert out[..|out|] == out;
    forall n | n in inDegree
      ensures inDegree[n] == CountIn(g.edges, done + {id}, n)
    {
      CountAfter(g.edges, done, id, n);
    }
  }

  function InitialDegrees(g: Graph): (inDegree: map<Id, nat>)
    ensures DegreesOk(g, inDegree, {}, [])
  {
    map n | n in g.types :: CountIn(g.edges, {}, n)
  }

  method InitialQueue(g: Graph, inDegree: map<Id, nat>) returns (queue: seq<Id>)
    requires Record(g) && DegreesOk(g, inDegree, {}, [])
    ensures QueueOk(inDegree, queue, {})
  {
    queue := [];
    for i := 0 to |g.ids|
      invariant Distinct(queue)
      invariant forall n :: n in queue <==> n in g.ids[..i] && inDegree[n] == 0
    {
      var id := g.ids[i];
      assert g.ids[..i + 1] == g.ids[..i] + [id];
      if inDegree[id] == 0 {
        queue := queue + [id];
      }
    }
    assert g.ids[..|g.ids|] == g.ids;
  }

  /** A node of in-degree zero may be visited next. */
  lemma VisitNext(g: Graph, inDegree: map<Id, nat>, queue: seq<Id>, order: seq<Id>, done: set<Id>)
    requires DegreesOk(g, inDegree, done, []) && QueueOk(inDegree, queue, done) && |queue| > 0
    requires Topological(g, order) && (forall n :: n in done <==> n in order)
    ensures queue[0] in g.types.Keys && queue[0] !in done
    ensures Topological(g, order + [queue[0]])
    ensures QueueOk(inDegree, queue[1..], done + {queue[0]})
  {
    var id := queue[0];
    assert id in queue;
    assert queue == [id] + queue[1..];
    CountZero(g.edges, done, id);
    var order' := order + [id];
    forall e, j | e in g.edges && 0 <= j < |order'| && order'[j] == e.to
      ensures e.from in order'[..j]
    {
      if j < |order| { assert order'[..j] == order[..j]; } else { assert order'[..j] == order; }
    }
  }

  /** The cycle check accepts exactly the acyclic graphs. */
  method IsDag(g: Graph) returns (ok: bool)
    requires Record(g) && Connected(g)
    ensures ok <==> Acyclic(g)
  {
    hide Topological;
    hide Acyclic;
    hide QueueOk;
    hide DegreesOk;
    hide Connected;
    hide InitialDegrees;
    var inDegree := InitialDegrees(g);
    var queue := InitialQueue(g, inDegree);
    var visited := 0;
    ghost var order: seq<Id> := [];
    ghost var done: set<Id> := {};
    EmptyOrder(g);
    while |queue| > 0
      invariant DegreesOk(g, inDegree, done, []) && QueueOk(inDegree, queue, done)
      invariant Topological(g, order) && (forall n :: n in done <==> n in order)
      invariant visited == |done| && done <= g.types.Keys
      decreases g.types.Keys - done
    {
      var id := queue[0];
      VisitNext(g, inDegree, queue, order, done);
      queue := queue[1..];
      visited := visited + 1;
      inDegree, queue := RelaxEdges(g, id, inDegree, queue, done);
      order := order + [id];
      done := done + {id};
    }
    DistinctSize(g.ids, g.types.Keys);
    ok := visited == |g.ids|;
    if ok {
      SubsetEqual(done, g.types.Keys);
      TopologicalRanks(g, order);
    } else {
      assert |g.types.Keys - done| == |g.types.Keys| - |done|;
      RestIsTrapped(g, inDegree, done);
      TrappedIsCyclic(g, g.types.Keys - done);
    }
  }

  lemma EmptyOrder(g: Graph)
    ensures Topological(g, [])
  {
  }

  lemma RestIsTrapped(g: Graph, inDegree: map<Id, nat>, done: set<Id>)
    requires Connected(g) && DegreesOk(g, inDegree, done, []) && QueueOk(inDegree, [], done)
    requires g.types.Keys - done != {}
    ensures Trapped(g, g.types.Keys - done)
  {
    var rest := g.types.Keys - done;
    forall n | n in rest
      ensures HasPredecessorIn(g, n, rest)
    {
      CountZero(g.edges, done, n);
    }
  }

  lemma {:induction false} SubsetSize(a: set<Id>, b: set<Id>)
    requires a <= b
    ensures |a| <= |b|
    decreases |a|
  {
    if a != {} {
      var x :| x in a;
      SubsetSize(a - {x}, b - {x});
    }
  }

  lemma SubsetEqual(a: set<Id>, b: set<Id>)
    requires a <= b && |a| == |b|
    ensures a == b
  {
    if b - a != {} {
      var x :| x in b - a;
      SubsetSize(a, b - {x});
    }
  }

  function Position(order: seq<Id>, n: Id): (i: nat)
    requires n in order
    ensures i < |order| && order[i] == n
  {
    if order[|order| - 1] == n then |order| - 1 else Position(order[..|order| - 1], n)
  }

  lemma TopologicalRanks(g: Graph, order: seq<Id>)
    requires Topological(g, order) && Connected(g) && forall n :: n in g.types ==> n in order
    ensures Acyclic(g)
  {
    var rank: map<Id, nat> := map n | n in g.types :: Position(order, n);
    forall e | e in g.edges
      ensures e.from in rank && e.to in rank && rank[e.from] < rank[e.to]
    {
      var j := rank[e.to];
      assert e.from in order[..j];
      var i :| 0 <= i < j && order[..j][i] == e.from;
      assert order[i] == e.from;
    }
    assert Ranking(g, rank);
  }

  // ---------------------------------------------------------------- rankings and cycles

  /** A walk that ends where it starts. */
  ghost predicate Cycle(g: Graph, path: seq<Edge>) {
    Walk(g, path) && |path| > 0 && path[0].from == path[|path| - 1].to
  }

  /** A walk of any length through a trapped set, found backwards. */
  lemma {:induction false} TrappedWalk(g: Graph, s: set<Id>, n: Id, len: nat) returns (path: seq<Edge>)
    requires Trapped(g, s) && n in s
    ensures Walk(g, path) && |path| == len && forall i :: 0 <= i < len ==> path[i].from in s
    ensures len > 0 ==> path[len - 1].to == n
    decreases len
  {
    hide HasPredecessorIn;
    path := [];
    if len > 0 {
      var e := PredecessorIn(g, n, s);
      var before := TrappedWalk(g, s, e.from, len - 1);
      path := before + [e];
    }
  }

  function Froms(path: seq<Edge>): (ids: seq<Id>)
    ensures |ids| == |path| && forall i :: 0 <= i < |path| ==> ids[i] == path[i].from
  {
    seq(|path|, i requires 0 <= i < |path| => path[i].from)
  }

  /** More places than nodes: one node occurs twice. */
  lemma SomeRepeats(ids: seq<Id>, s: set<Id>) returns (i: nat, j: nat)
    requires |ids| > |s| && forall k :: 0 <= k < |ids| ==> ids[k] in s
    ensures i < j < |ids| && ids[i] == ids[j]
  {
    if Distinct(ids) {
      var all := set n | n in ids;
      DistinctSize(ids, all);
      SubsetSize(all, s);
    }
    i, j :| 0 <= i < j < |ids| && ids[i] == ids[j];
  }

  lemma TrappedHasCycle(g: Graph, s: set<Id>) returns (path: seq<Edge>)
    requires Trapped(g, s)
    ensures Cycle(g, path)
  {
    hide HasPredecessorIn;
    var n :| n in s;
    var walk := TrappedWalk(g, s, n, |s| + 1);
    var i, j := SomeRepeats(Froms(walk), s);
    path := walk[i..j];
    assert path[|path| - 1] == walk[j - 1] && walk[j - 1].to == walk[j].from;
  }

  /** Visiting nodes without unvisited predecessors gets through, or gets stuck at a trapped set. */
  lemma {:induction false} OrderOrTrap(g: Graph, order: seq<Id>, rest: set<Id>) returns (s: set<Id>)
    requires Connected(g) && Topological(g, order) && rest == set n | n in g.types && n !in order
    ensures s == {} ==> Acyclic(g)
    ensures s != {} ==> Trapped(g, s)
    decreases |rest|
  {
    if rest == {} {
      forall n | n in g.types
        ensures n in order
      {
        assert n !in rest;
      }
      TopologicalRanks(g, order);
      return {};
    }
    if forall n :: n in rest ==> HasPredecessorIn(g, n, rest) {
      return rest;
    }
    var n :| n in rest && !HasPredecessorIn(g, n, rest);
    OrderGrows(g, order, rest, n);
    assert rest - {n} == set m | m in g.types && m !in order + [n];
    assert |rest - {n}| < |rest|;
    s := OrderOrTrap(g, order + [n], rest - {n});
  }

  lemma OrderGrows(g: Graph, order: seq<Id>, rest: set<Id>, n: Id)
    requires Connected(g) && Topological(g, order) && rest == set n | n in g.types && n !in order
    requires n in rest && !HasPredecessorIn(g, n, rest)
    ensures Topological(g, order + [n])
  {
    var longer := order + [n];
    forall e, j | e in g.edges && 0 <= j < |longer| && longer[j] == e.to
      ensures e.from in longer[..j]
    {
      if j < |order| { assert longer[..j] == order[..j]; } else { assert longer[..j] == order; }
    }
  }

  /** To have a ranking is to have no cycle. */
  lemma AcyclicIff(g: Graph)
    requires Connected(g)
    ensures Acyclic(g) <==> forall path :: !Cycle(g, path)
  {
    hide Connected;
    hide Trapped;
    hide Walk;
    if Acyclic(g) {
      var rank :| Ranking(g, rank);
      forall path | Cycle(g, path)
        ensures false
      {
        RankedWalk(g, rank, path);
      }
    } else {
      EmptyOrder(g);
      var s := OrderOrTrap(g, [], set n | n in g.types && n !in []);
      var path := TrappedHasCycle(g, s);
    }
  }

  // ---------------------------------------------------------------- the structural validation

  method CheckEdges(g: Graph) returns (ok: bool)
    requires Record(g)
    ensures ok <==> Connected(g)
  {
    var seen: set<string> := {};
    for i := 0 to |g.edges|
      invariant forall s :: s in seen <==> exists j :: 0 <= j < i && g.edges[j].id == s
      invariant forall j :: 0 <= j < i ==> g.edges[j].from in g.types && g.edges[j].to in g.types
      invariant forall j, k :: 0 <= j < k < i ==> g.edges[j].id != g.edges[k].id
    {
      var e := g.edges[i];
      if e.id in seen {
        return false;
      }
      seen := seen + {e.id};
      if e.from !in g.types || e.to !in g.types {
        return false;
      }
    }
    return true;
  }

  function CountKind(out: seq<Edge>, k: EdgeKind): nat {
    if out == [] then 0 else (if out[0].kind == k then 1 else 0) + CountKind(out[1..], k)
  }

  lemma {:induction false} TwoWayCounts(out: seq<Edge>)
    ensures TwoWay(out) <==> CountKind(out, CondTrue) == 1 && CountKind(out, CondFalse) == 1 && CountKind(out, Always) == 0 && |out| == 2
  {
    if |out| == 2 {
      assert out[1..][1..] == [];
      assert forall k :: CountKind(out, k) == (if out[0].kind == k then 1 else 0) + CountKind(out[1..], k);
      assert forall k :: CountKind(out[1..], k) == (if out[1].kind == k then 1 else 0) + CountKind([], k);
      var a, b := out[0].kind, out[1].kind;
      assert {a, b} == {CondTrue, CondFalse} <==> (a == CondTrue && b == CondFalse) || (a == CondFalse && b == CondTrue) by {
        assert CondTrue in {CondTrue, CondFalse} && CondFalse in {CondTrue, CondFalse};
        assert a in {a, b} && b in {a, b};
      }
    }
  }

  method CheckConditions(g: Graph) returns (ok: bool)
    requires Record(g)
    ensures ok <==> ConditionsTwoWay(g)
  {
    for i := 0 to |g.ids|
      invariant forall j :: 0 <= j < i && g.types[g.ids[j]].Condition? ==> TwoWay(Outgoing(g.edges, g.ids[j]))
    {
      var id := g.ids[i];
      if g.types[id].Condition? {
        var out := Outgoing(g.edges, id);
        TwoWayCounts(out);
        if CountKind(out, CondTrue) != 1 || CountKind(out, CondFalse) != 1 || CountKind(out, Always) != 0 || |out| != 2 {
          return false;
        }
      }
    }
    return true;
  }

  ghost predicate Structured(g: Graph) {
    g.ids != [] && Connected(g) && ConditionsTwoWay(g) && Acyclic(g)
  }

  /** The checks in their order; the first that fails names the issue, and none fails exactly for the
      graphs that are non-empty, connected, with two-way conditions and acyclic. */
  method ValidateStructure(g: Graph) returns (issue: Option<Issue>)
    requires Record(g)
    ensures issue.None? <==> Structured(g)
    ensures issue != Some(ParallelRemoteNotSupported)
    ensures issue == Some(GraphNodeMissing) <==> g.ids == []
    ensures issue == Some(GraphEdgeInvalid) <==> g.ids != [] && !Connected(g)
    ensures issue == Some(ConditionEdgeConstraints) <==> g.ids != [] && Connected(g) && !ConditionsTwoWay(g)
    ensures issue == Some(GraphCycleDetected) <==> g.ids != [] && Connected(g) && ConditionsTwoWay(g) && !Acyclic(g)
  {
    if |g.ids| == 0 {
      return Some(GraphNodeMissing);
    }
    var ok := CheckEdges(g);
    if !ok {
      return Some(GraphEdgeInvalid);
    }
    ok := CheckConditions(g);
    if !ok {
      return Some(ConditionEdgeConstraints);
    }
    ok := IsDag(g);
    if !ok {
      return Some(GraphCycleDetected);
    }
    return None;
  }
}
