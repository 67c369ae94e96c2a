/** The v2 executor of apps/worker/src/main.ts, which walks a node list by a cursor, and the upgrade of
    a v2 list into a v3 graph (packages/workflow/src/index.ts), which has to keep its meaning. */
module LinearExecutor {
  import opened Common
  import opened WorkflowGraph
  import opened GraphExecutor
  import Policy

  datatype LinearNode = LinearNode(id: Id, nodeType: NodeType)

  predicate Yielding(nodes: seq<LinearNode>, res: Results, k: nat)
    requires k <= |nodes|
  {
    forall i :: 0 <= i < k ==> res(nodes[i].id).Yields?
  }

  /** The steps of the first `k` nodes, all succeeded, in order. */
  function LinearSteps(nodes: seq<LinearNode>, res: Results, k: nat): (steps: seq<Step>)
    requires k <= |nodes| && Yielding(nodes, res, k)
    ensures |steps| == k
    ensures forall i :: 0 <= i < k ==> steps[i] == Succeeded(nodes[i].id, res(nodes[i].id).output)
  {
    if k == 0 then [] else LinearSteps(nodes, res, k - 1) + [Succeeded(nodes[k - 1].id, res(nodes[k - 1].id).output)]
  }

  /** What the run row holds of a v2 run: the cursor and the recorded steps. */
  datatype Progress = Progress(cursor: nat, steps: seq<Step>)

  /** The persisted steps are exactly the first `cursor` nodes, all succeeded. */
  ghost predicate Consistent(nodes: seq<LinearNode>, res: Results, p: Progress) {
    p.cursor <= |nodes| && Yielding(nodes, res, p.cursor) && p.steps == LinearSteps(nodes, res, p.cursor)
  }

  /** One job of the cursor loop. `blocks` says which positions block, `crashAfter` how many
      checkpoints are written before the process dies, if it does. */
  datatype LinearEnv = LinearEnv(blocks: nat -> bool, crashAfter: Option<nat>)

  method RunLinearJob(nodes: seq<LinearNode>, res: Results, blocks: nat -> bool, persisted: Progress)
    returns (saved: Progress, steps: seq<Step>, outcome: Outcome)
    requires Consistent(nodes, res, persisted)
    ensures Consistent(nodes, res, saved) && persisted.cursor <= saved.cursor
    ensures outcome.Completed? ==> saved.cursor == |nodes| && steps == saved.steps
    ensures outcome.Blocked? ==> saved.cursor < |nodes| && blocks(saved.cursor) && outcome.node == nodes[saved.cursor].id
    ensures outcome.FailedAt? ==> saved.cursor < |nodes| && res(nodes[saved.cursor].id) == Fails(outcome.error)
    ensures outcome.FailedAt? ==> steps == saved.steps + [Failed(nodes[saved.cursor].id, outcome.error)]
  {
    saved := persisted;
    steps := persisted.steps;
    var index := persisted.cursor;
    while index < |nodes|
      invariant Consistent(nodes, res, saved) && persisted.cursor <= saved.cursor
      invariant saved == Progress(index, steps)
    {
      var node := nodes[index];
      if blocks(index) {
        return saved, steps, Blocked(node.id);
      }
      var result := res(node.id);
      if result.Fails? {
        steps := steps + [Failed(node.id, result.error)];
        return saved, steps, FailedAt(node.id, result.error);
      }
      steps := steps + [Succeeded(node.id, result.output)];
      index := index + 1;
      saved := Progress(index, steps);
    }
    return saved, steps, Completed;
  }

  lemma {:induction false} LinearPrefix(nodes: seq<LinearNode>, res: Results, k: nat, n: nat)
    requires k <= n <= |nodes| && Yielding(nodes, res, n)
    ensures LinearSteps(nodes, res, k) == LinearSteps(nodes, res, n)[..k]
  {
    if k < n {
      LinearPrefix(nodes, res, k, n - 1);
    }
  }

  /** An attempt over any number of jobs, blocks and crashes: a completed one has run all the nodes, in
      their order. */
  method RunLinearAttempt(nodes: seq<LinearNode>, res: Results, jobs: seq<LinearEnv>)
    returns (saved: Progress, outcome: Option<Outcome>)
    ensures Consistent(nodes, res, saved)
    ensures outcome == Some(Completed) ==> Yielding(nodes, res, |nodes|) && saved.steps == LinearSteps(nodes, res, |nodes|)
    ensures outcome.Some? && outcome.value.FailedAt? ==> !Yielding(nodes, res, |nodes|)
  {
    saved := Progress(0, []);
    for j := 0 to |jobs|
      invariant Consistent(nodes, res, saved)
    {
      var next, steps, out := RunLinearJob(nodes, res, jobs[j].blocks, saved);
      if jobs[j].crashAfter.Some? {
        var kept := Max(saved.cursor, Min(jobs[j].crashAfter.value, next.cursor));
        LinearPrefix(nodes, res, kept, next.cursor);
        saved := Progress(kept, next.steps[..kept]);
      } else {
        saved := next;
        if !out.Blocked? {
          return saved, Some(out);
        }
      }
    }
    return saved, None;
  }

  // ---------------------------------------------------------------- the upgrade to v3

  /** The one node type that is renamed. */
  const RENAMED := "connector.github.issue.create"

  function UpgradeType(t: NodeType): NodeType {
    if t.Task? && t.name == RENAMED then Task("connector.action", false) else t
  }

  /** What the upgrade does to the part of a node's configuration that the policy looks at. */
  function UpgradeSettings(name: string, settings: Policy.Settings): Policy.Settings {
    if name == RENAMED then Policy.Settings(None, false, Some("issue.create")) else settings
  }

  /** The keys of the node record, in the order of first insertion. */
  function Keys(nodes: seq<LinearNode>): (ids: seq<Id>)
    ensures forall n :: n in ids <==> exists i :: 0 <= i < |nodes| && nodes[i].id == n
    ensures forall i, j :: 0 <= i < j < |ids| ==> ids[i] != ids[j]
  {
    if nodes == [] then []
    else
      var before, last := Keys(nodes[..|nodes| - 1]), nodes[|nodes| - 1].id;
      assert forall i :: 0 <= i < |nodes| - 1 ==> nodes[..|nodes| - 1][i] == nodes[i];
      if last in before then before else before + [last]
  }

  function Types(nodes: seq<LinearNode>): (types: map<Id, NodeType>)
    ensures forall n :: n in types <==> exists i :: 0 <= i < |nodes| && nodes[i].id == n
  {
    if nodes == [] then map[]
    else
      var before, last := Types(nodes[..|nodes| - 1]), nodes[|nodes| - 1];
      assert forall i :: 0 <= i < |nodes| - 1 ==> nodes[..|nodes| - 1][i] == nodes[i];
      before[last.id := UpgradeType(last.nodeType)]
  }

  function ChainEdge(nodes: seq<LinearNode>, i: nat): Edge
    requires i + 1 < |nodes|
  {
    var a, b := nodes[i].id, nodes[i + 1].id;
    Edge("e:" + a.name + "->" + b.name, a, b, Always)
  }

  function Upgrade(nodes: seq<LinearNode>): (g: Graph)
    ensures Record(g)
    ensures g.types == Types(nodes)
    ensures |g.edges| == if nodes == [] then 0 else |nodes| - 1
    ensures forall i :: 0 <= i < |g.edges| ==> g.edges[i] == ChainEdge(nodes, i)
  {
    var n := if nodes == [] then 0 else |nodes| - 1;
    Graph(Keys(nodes), Types(nodes), seq(n, i requires 0 <= i < n => ChainEdge(nodes, i)))
  }

  ghost predicate DistinctIds(nodes: seq<LinearNode>) {
    forall i, j :: 0 <= i < j < |nodes| ==> nodes[i].id != nodes[j].id
  }

  /** Edge ids are glued from the two node ids, so different edges can collide. */
  ghost predicate DistinctEdgeIds(nodes: seq<LinearNode>) {
    forall i, j :: 0 <= i < j < |nodes| - 1 ==> ChainEdge(nodes, i).id != ChainEdge(nodes, j).id
  }

  ghost predicate NoConditions(nodes: seq<LinearNode>) {
    forall i :: 0 <= i < |nodes| ==> !nodes[i].nodeType.Condition?
  }

  lemma {:induction false} TypeOfNode(nodes: seq<LinearNode>, i: nat)
    requires DistinctIds(nodes) && i < |nodes|
    ensures Types(nodes)[nodes[i].id] == UpgradeType(nodes[i].nodeType)
  {
    if i < |nodes| - 1 {
      var before := nodes[..|nodes| - 1];
      assert before[i] == nodes[i];
      TypeOfNode(before, i);
    }
  }

  lemma ChainConnected(nodes: seq<LinearNode>)
    ensures var g := Upgrade(nodes); forall e :: e in g.edges ==> e.from in g.types && e.to in g.types && e.kind == Always
  {
  }

  /** A repeated id closes a cycle. */
  lemma RepeatIsCyclic(nodes: seq<LinearNode>, i: nat, j: nat)
    requires i < j < |nodes| && nodes[i].id == nodes[j].id
    ensures !Acyclic(Upgrade(nodes))
  {
    var g := Upgrade(nodes);
    var path := g.edges[i..j];
    assert Walk(g, path);
    forall rank | Ranking(g, rank)
      ensures false
    {
      RankedWalk(g, rank, path);
    }
  }

  function IdsOf(nodes: seq<LinearNode>): (ids: seq<Id>)
    ensures |ids| == |nodes| && forall i :: 0 <= i < |nodes| ==> ids[i] == nodes[i].id
  {
    seq(|nodes|, i requires 0 <= i < |nodes| => nodes[i].id)
  }

  /** The list itself is a topological order of its chain. */
  lemma ChainOrder(nodes: seq<LinearNode>)
    requires DistinctIds(nodes)
    ensures Topological(Upgrade(nodes), IdsOf(nodes))
  {
    hide Upgrade;
    hide IdsOf;
    var g, order := Upgrade(nodes), IdsOf(nodes);
    forall e, j | e in g.edges && 0 <= j < |order| && order[j] == e.to
      ensures e.from in order[..j]
    {
      var i :| 0 <= i < |g.edges| && g.edges[i] == e;
      assert j == i + 1 && order[..j][i] == e.from;
    }
  }

  lemma ChainRanks(nodes: seq<LinearNode>)
    requires DistinctIds(nodes) && Connected(Upgrade(nodes))
    ensures Acyclic(Upgrade(nodes))
  {
    hide Upgrade;
    hide Types;
    hide IdsOf;
    hide Topological;
    hide Acyclic;
    hide Connected;
    var g, order := Upgrade(nodes), IdsOf(nodes);
    forall n | n in g.types
      ensures n in order
    {
      var i :| 0 <= i < |nodes| && nodes[i].id == n;
      assert order[i] == n;
    }
    ChainOrder(nodes);
    TopologicalRanks(g, order);
  }

  /** Exactly which lists upgrade to a graph that passes the structural validation. */
  lemma UpgradeValidIff(nodes: seq<LinearNode>)
    ensures Structured(Upgrade(nodes)) <==>
      nodes != [] && DistinctIds(nodes) && NoConditions(nodes) && DistinctEdgeIds(nodes)
  {
    var g := Upgrade(nodes);
    ChainConnected(nodes);
    if nodes != [] { assert nodes[0].id in g.ids; }
    if !DistinctIds(nodes) {
      var i, j :| 0 <= i < j < |nodes| && nodes[i].id == nodes[j].id;
      RepeatIsCyclic(nodes, i, j);
    } else {
      assert Connected(g) <==> DistinctEdgeIds(nodes);
      if Connected(g) { ChainRanks(nodes); }
      ChainConditions(nodes);
    }
  }

  lemma ChainConditions(nodes: seq<LinearNode>)
    requires DistinctIds(nodes)
    ensures ConditionsTwoWay(Upgrade(nodes)) <==> NoConditions(nodes)
  {
    var g := Upgrade(nodes);
    ChainConnected(nodes);
    forall i | 0 <= i < |nodes|
      ensures g.types[nodes[i].id].Condition? <==> nodes[i].nodeType.Condition?
      ensures !TwoWay(Outgoing(g.edges, nodes[i].id))
    {
      TypeOfNode(nodes, i);
      AlwaysIsNotTwoWay(Outgoing(g.edges, nodes[i].id));
    }
    if !NoConditions(nodes) {
      var i :| 0 <= i < |nodes| && nodes[i].nodeType.Condition?;
      assert nodes[i].id in g.types;
    }
  }

  lemma AlwaysIsNotTwoWay(out: seq<Edge>)
    requires forall e :: e in out ==> e.kind == Always
    ensures !TwoWay(out)
  {
    if |out| == 2 {
      assert out[0] in out && out[1] in out;
      assert CondTrue !in {out[0].kind, out[1].kind} && CondTrue in {CondTrue, CondFalse};
    }
  }

  /** Edge ids do collide: for all x, y, z the list with ids `x`, `y->z`, `x->y`, `z` upgrades to a graph
      that validation rejects; and if x and z are different and there is no hyphen in the three, its nodes
      are all different. */
  lemma EdgeIdsCanCollide(x: string, y: string, z: string, nodes: seq<LinearNode>)
    requires |nodes| == 4 && nodes[0].id.name == x && nodes[1].id.name == y + "->" + z
    requires nodes[2].id.name == x + "->" + y && nodes[3].id.name == z
    ensures !DistinctEdgeIds(nodes) && !Structured(Upgrade(nodes))
    ensures x != z && '-' !in x + y + z ==> DistinctIds(nodes)
  {
    if x != z && '-' !in x + y + z { ArrowsDiffer(x, y, z, nodes); }
    hide Upgrade;
    hide Structured;
    assert ChainEdge(nodes, 0).id == "e:" + x + "->" + (y + "->" + z);
    assert ChainEdge(nodes, 2).id == "e:" + (x + "->" + y) + "->" + z;
    assert "e:" + x + "->" + (y + "->" + z) == "e:" + (x + "->" + y) + "->" + z;
    UpgradeValidIff(nodes);
  }

  lemma ArrowsDiffer(x: string, y: string, z: string, nodes: seq<LinearNode>)
    requires |nodes| == 4 && nodes[0].id.name == x && nodes[1].id.name == y + "->" + z
    requires nodes[2].id.name == x + "->" + y && nodes[3].id.name == z
    requires x != z && '-' !in x + y + z
    ensures DistinctIds(nodes)
  {
    var a, b, n := y + "->" + z, x + "->" + y, |y|;
    assert forall c :: c in x || c in y || c in z ==> c in x + y + z;
    assert a[n] == '-' && b[|x|] == '-';
    if n < |x| { assert b[n] == x[n] && x[n] in x; }
    if |x| < n { assert a[|x|] == y[|x|] && y[|x|] in y; }
    if |x| == n { assert a[..n] == y && b[..n] == x && a[n + 2..] == z && b[n + 2..] == y; }
    assert a[n] in a && b[|x|] in b;
  }

  // ---------------------------------------------------------------- the upgrade keeps the order and results of steps

  ghost predicate TasksOnly(nodes: seq<LinearNode>) {
    forall i :: 0 <= i < |nodes| ==> nodes[i].nodeType.Task?
  }

  lemma {:induction false} IndexOfLinear(nodes: seq<LinearNode>, res: Results, k: nat)
    requires k <= |nodes| && Yielding(nodes, res, k)
    ensures RanFirst(nodes, k, IndexOf(LinearSteps(nodes, res, k)))
  {
    if k > 0 {
      IndexOfLinear(nodes, res, k - 1);
      assert LinearSteps(nodes, res, k)[..k - 1] == LinearSteps(nodes, res, k - 1);
    }
  }

  /** The index of a run of the list after its first `k` nodes. */
  ghost predicate RanFirst(nodes: seq<LinearNode>, k: nat, ix: Index)
    requires k <= |nodes|
  {
    && (forall n :: n in ix <==> exists i :: 0 <= i < k && nodes[i].id == n)
    && (forall n :: n in ix ==> ix[n].Succeeded?)
  }

  lemma ReadyEdge(g: Graph, ix: Index, n: Id, e: Edge)
    requires Ready(g, ix, n) && e in g.edges && e.to == n
    ensures EdgeStatus(ix, e) == Ok && e.from in ix
  {
    assert e in Incoming(g.edges, n);
  }

  /** After the first `k` nodes the next one is ready. */
  lemma NextIsReady(nodes: seq<LinearNode>, ix: Index, k: nat)
    requires DistinctIds(nodes) && k < |nodes| && RanFirst(nodes, k, ix)
    ensures Ready(Upgrade(nodes), ix, nodes[k].id)
  {
    hide Upgrade;
    hide Incoming;
    var g, n := Upgrade(nodes), nodes[k].id;
    forall e | e in Incoming(g.edges, n)
      ensures EdgeStatus(ix, e) == Ok
    {
      var i :| 0 <= i < |g.edges| && g.edges[i] == e;
      assert nodes[i + 1].id == n && i + 1 == k;
      assert nodes[k - 1].id in ix;
    }
  }

  /** And no other one is. */
  lemma OnlyNextReady(nodes: seq<LinearNode>, ix: Index, k: nat, n: Id)
    requires DistinctIds(nodes) && k <= |nodes| && RanFirst(nodes, k, ix)
    ensures Ready(Upgrade(nodes), ix, n) ==> k < |nodes| && nodes[k].id == n
  {
    hide Upgrade;
    hide Ready;
    hide EdgeStatus;
    var g := Upgrade(nodes);
    if Ready(g, ix, n) {
      ReadyIsNode(g, ix, n);
      ReadyIsNew(g, ix, n);
      var i :| 0 <= i < |nodes| && nodes[i].id == n;
      if i > 0 {
        var e := g.edges[i - 1];
        ReadyEdge(g, ix, n, e);
        var j :| 0 <= j < k && nodes[j].id == e.from;
        assert j == i - 1;
      }
    }
  }

  /** A trace of the upgraded graph goes on exactly as the list does. */
  lemma {:induction false} StepMatches(nodes: seq<LinearNode>, res: Results, steps: seq<Step>)
    requires DistinctIds(nodes) && TasksOnly(nodes) && steps != []
    requires var k := |steps| - 1; k <= |nodes| && Yielding(nodes, res, k) && steps[..k] == LinearSteps(nodes, res, k)
    ensures var k := |steps| - 1; var last := steps[k];
      (Ready(Upgrade(nodes), IndexOf(steps[..k]), last.nodeId) && last.Succeeded?
        && Perform(Upgrade(nodes), res, IndexOf(steps[..k]), last.nodeId) == Yields(last.output)) <==>
      k < |nodes| && res(nodes[k].id).Yields? && last == Succeeded(nodes[k].id, res(nodes[k].id).output)
  {
    hide Upgrade;
    hide LinearSteps;
    hide Ready;
    var k, last := |steps| - 1, steps[|steps| - 1];
    hide RanFirst;
    var ix := IndexOf(LinearSteps(nodes, res, k));
    IndexOfLinear(nodes, res, k);
    OnlyNextReady(nodes, ix, k, last.nodeId);
    if k < |nodes| {
      NextIsReady(nodes, ix, k);
      TypeOfNode(nodes, k);
    }
  }

  /** The runs of the upgraded graph are, step by step, the runs of the list. */
  lemma {:induction false} UpgradePreservesRuns(nodes: seq<LinearNode>, res: Results, steps: seq<Step>)
    requires DistinctIds(nodes) && TasksOnly(nodes)
    ensures Trace(Upgrade(nodes), res, steps) <==>
      |steps| <= |nodes| && Yielding(nodes, res, |steps|) && steps == LinearSteps(nodes, res, |steps|)
  {
    hide Upgrade;
    hide Ready;
    hide Perform;
    if steps != [] {
      var k := |steps| - 1;
      UpgradePreservesRuns(nodes, res, steps[..k]);
      assert steps == steps[..k] + [steps[k]];
      if k <= |nodes| && Yielding(nodes, res, k) && steps[..k] == LinearSteps(nodes, res, k) {
        StepMatches(nodes, res, steps);
      } else if k < |nodes| && Yielding(nodes, res, k + 1) {
        assert LinearSteps(nodes, res, k + 1)[..k] == LinearSteps(nodes, res, k);
      }
    }
  }

  /** And they stop, with nothing ready, exactly at the end of the list. */
  lemma {:induction false} UpgradeStopsAtEnd(nodes: seq<LinearNode>, res: Results, steps: seq<Step>)
    requires DistinctIds(nodes) && TasksOnly(nodes) && Trace(Upgrade(nodes), res, steps)
    ensures NoneReady(Upgrade(nodes), IndexOf(steps)) <==> |steps| == |nodes|
  {
    hide Upgrade;
    hide Ready;
    var g := Upgrade(nodes);
    UpgradePreservesRuns(nodes, res, steps);
    hide LinearSteps;
    hide RanFirst;
    IndexOfLinear(nodes, res, |steps|);
    if |steps| < |nodes| {
      NextIsReady(nodes, IndexOf(steps), |steps|);
      assert nodes[|steps|].id in g.types;
    } else {
      forall n | n in g.types
        ensures !Ready(g, IndexOf(steps), n)
      {
        OnlyNextReady(nodes, IndexOf(steps), |steps|, n);
      }
    }
  }

  // ---------------------------------------------------------------- but not every policy decision

  /** The policy decides about a node as before the upgrade, under every list of rules, if and only if it is
      not of the renamed type. */
  lemma PolicyKeptIff(name: string, settings: Policy.Settings)
    ensures (forall rules ::
              Policy.Evaluate(rules, Policy.BuildContext(name, settings)).effect ==
              Policy.Evaluate(rules, Policy.BuildContext(UpgradeType(Task(name, false)).name, UpgradeSettings(name, settings))).effect)
            <==> name != RENAMED
  {
    if name == RENAMED { RenamedNeedsApproval([], settings); }
  }

  /** A node of that type, which no rule mentions before or after, ran freely before the upgrade and needs an
      approval after it. */
  lemma {:induction false} RenamedNeedsApproval(rules: seq<Policy.Rule>, settings: Policy.Settings)
    requires var before := Policy.BuildContext(RENAMED, settings);
      forall i :: 0 <= i < |rules| ==> !Policy.RuleMatches(rules[i], before)
    requires var after := Policy.BuildContext("connector.action", UpgradeSettings(RENAMED, settings));
      forall i :: 0 <= i < |rules| ==> !Policy.RuleMatches(rules[i], after)
    ensures Policy.Evaluate(rules, Policy.BuildContext(RENAMED, settings)).effect == Policy.Allow
    ensures Policy.Evaluate(rules, Policy.BuildContext("connector.action", UpgradeSettings(RENAMED, settings))).effect == Policy.RequireApproval
  {
    hide Policy.RuleMatches;
    hide Policy.LikelyWrite;
    Policy.FirstMatchDecides(rules, Policy.BuildContext(RENAMED, settings));
    Policy.FirstMatchDecides(rules, Policy.BuildContext("connector.action", UpgradeSettings(RENAMED, settings)));
    CreateIsWrite();
  }

  lemma CreateIsWrite()
    ensures Policy.LikelyWrite("issue.create")
  {
    var id := "issue.create";
    assert id[6..12] == "create";
    var lower := Policy.LowerAll(id[6..12]);
    assert lower == "create";
    assert Policy.WriteAt(id, 6, 12);
  }
}
