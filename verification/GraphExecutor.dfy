/** The v3 executor of apps/worker/src/main.ts: repeatedly run a ready node of the conditional graph,
    record its step, checkpoint; stop when no node is ready, or earlier on a block, a failure or a
    crash, and later resume from the persisted steps.

    Node results are a fixed function `res`: the same node yields the same output or failure whenever
    it is run to completion. Which ready node is taken is a parameter, so the results below hold for
    the source's order (by `localeCompare`) and for every other one. */
module GraphExecutor {
  import opened Common
  import opened WorkflowGraph

  datatype Output =
    | ConditionOutput(result: bool)
    | JoinOutput(required: nat, satisfied: nat, incomingFrom: seq<Id>)
    | TaskOutput(maybeResult: Option<bool>, value: string)

  datatype Result = Yields(output: Output) | Fails(error: string)

  type Results = Id -> Result

  datatype Step = Succeeded(nodeId: Id, output: Output) | Failed(nodeId: Id, error: string)

  datatype Reason = Ok | UpstreamNotSucceeded | ConditionResultMissing | ConditionNotMet

  type Index = map<Id, Step>

  /** `stepByNodeId`, rebuilt from a step list. */
  function IndexOf(steps: seq<Step>): Index {
    if steps == [] then map[]
    else IndexOf(steps[..|steps| - 1])[steps[|steps| - 1].nodeId := steps[|steps| - 1]]
  }

  predicate HasSucceeded(ix: Index, n: Id) {
    n in ix && ix[n].Succeeded?
  }

  /** The boolean `result` of an output, if it has one. */
  function ResultOf(o: Output): Option<bool> {
    match o
    case ConditionOutput(r) => Some(r)
    case TaskOutput(r, _) => r
    case JoinOutput(_, _, _) => None
  }

  function EdgeStatus(ix: Index, e: Edge): Reason {
    if !HasSucceeded(ix, e.from) then UpstreamNotSucceeded
    else if e.kind == Always then Ok
    else
      var cond := ResultOf(ix[e.from].output);
      if cond.None? then ConditionResultMissing
      else if cond.value != (e.kind == CondTrue) then ConditionNotMet
      else Ok
  }

  predicate Ready(g: Graph, ix: Index, n: Id) {
    n in g.types && n !in ix && forall e :: e in Incoming(g.edges, n) ==> EdgeStatus(ix, e) == Ok
  }

  function ReadyNodes(g: Graph, ix: Index, ids: seq<Id>): (r: seq<Id>)
    ensures forall n :: n in r <==> n in ids && Ready(g, ix, n)
  {
    if ids == [] then []
    else
      var rest := ReadyNodes(g, ix, ids[..|ids| - 1]);
      if Ready(g, ix, ids[|ids| - 1]) then rest + [ids[|ids| - 1]] else rest
  }

  function CountSatisfied(ix: Index, edges: seq<Edge>): nat {
    if edges == [] then 0
    else CountSatisfied(ix, edges[..|edges| - 1]) + (if EdgeStatus(ix, edges[|edges| - 1]) == Ok then 1 else 0)
  }

  function Sources(edges: seq<Edge>): (r: seq<Id>)
    ensures |r| == |edges| && forall i :: 0 <= i < |edges| ==> r[i] == edges[i].from
  {
    if edges == [] then [] else Sources(edges[..|edges| - 1]) + [edges[|edges| - 1].from]
  }

  /** What running node `n` to completion records; a join looks at its incoming edges itself. */
  function Perform(g: Graph, res: Results, ix: Index, n: Id): Result
    requires n in g.types
  {
    if g.types[n].Join? then
      var inc := Incoming(g.edges, n);
      Yields(JoinOutput(|inc|, CountSatisfied(ix, inc), Sources(inc)))
    else res(n)
  }

  // ---------------------------------------------------------------- step lists that a run can produce

  /** Each step is the successful run of a node that was ready after the steps before it. */
  ghost predicate Trace(g: Graph, res: Results, steps: seq<Step>) {
    steps == [] ||
    var before, last := steps[..|steps| - 1], steps[|steps| - 1];
    && Trace(g, res, before)
    && Ready(g, IndexOf(before), last.nodeId)
    && last.Succeeded? && Perform(g, res, IndexOf(before), last.nodeId) == Yields(last.output)
  }

  predicate NoneReady(g: Graph, ix: Index) {
    forall n {:trigger Ready(g, ix, n)} :: n in g.types ==> !Ready(g, ix, n)
  }

  /** The output a successful node always has, however the run went. */
  ghost function FixedOutput(g: Graph, res: Results, n: Id): Output
    requires n in g.types
  {
    var inc := Incoming(g.edges, n);
    if g.types[n].Join? then JoinOutput(|inc|, |inc|, Sources(inc))
    else if res(n).Yields? then res(n).output else TaskOutput(None, "")
  }

  lemma {:induction false} AllSatisfied(ix: Index, edges: seq<Edge>)
    requires forall e :: e in edges ==> EdgeStatus(ix, e) == Ok
    ensures CountSatisfied(ix, edges) == |edges|
  {
    if edges != [] {
      assert edges[|edges| - 1] in edges;
      AllSatisfied(ix, edges[..|edges| - 1]);
    }
  }

  /** A ready node has the output that does not depend on the run; a join finds all its incoming edges
      satisfied. */
  lemma PerformIsFixed(g: Graph, res: Results, ix: Index, n: Id)
    requires Ready(g, ix, n)
    ensures Perform(g, res, ix, n).Yields? ==> Perform(g, res, ix, n).output == FixedOutput(g, res, n)
  {
    AllSatisfied(ix, Incoming(g.edges, n));
  }

  /** The last step of a trace: a new node, with its fixed output. */
  lemma {:induction false} TraceLast(g: Graph, res: Results, steps: seq<Step>)
    requires Trace(g, res, steps) && steps != []
    ensures var before, last := steps[..|steps| - 1], steps[|steps| - 1];
      && Trace(g, res, before) && IndexOf(steps) == IndexOf(before)[last.nodeId := last]
      && last.nodeId !in IndexOf(before) && last.nodeId in g.types && last == Succeeded(last.nodeId, FixedOutput(g, res, last.nodeId))
  {
    hide FixedOutput;
    hide Perform;
    PerformIsFixed(g, res, IndexOf(steps[..|steps| - 1]), steps[|steps| - 1].nodeId);
  }

  /** In a trace each node occurs at most once, with its fixed output, so the index only grows. */
  lemma {:induction false} TraceIndex(g: Graph, res: Results, steps: seq<Step>)
    requires Trace(g, res, steps)
    ensures forall n :: n in IndexOf(steps) ==> n in g.types && IndexOf(steps)[n] == Succeeded(n, FixedOutput(g, res, n))
    ensures forall i :: 0 <= i < |steps| ==> steps[i].nodeId in IndexOf(steps)
    ensures |IndexOf(steps)| == |steps|
  {
    hide Trace;
    hide FixedOutput;
    if steps == [] {
      assert IndexOf(steps) == map[];
    } else {
      TraceLast(g, res, steps);
      hide IndexOf;
      var before, last := steps[..|steps| - 1], steps[|steps| - 1];
      TraceIndex(g, res, before);
      assert IndexOf(steps).Keys == IndexOf(before).Keys + {last.nodeId};
      forall i | 0 <= i < |steps|
        ensures steps[i].nodeId in IndexOf(steps)
      {
        if i < |before| { assert before[i] == steps[i]; }
      }
    }
  }

  lemma {:induction false} TracePrefix(g: Graph, res: Results, steps: seq<Step>, k: nat)
    requires Trace(g, res, steps) && k <= |steps|
    ensures Trace(g, res, steps[..k])
  {
    if k < |steps| {
      TracePrefix(g, res, steps[..|steps| - 1], k);
      assert steps[..|steps| - 1][..k] == steps[..k];
    } else {
      assert steps[..k] == steps;
    }
  }

  /** Where a step stands in a trace: its node was ready after the steps before it. */
  lemma {:induction false} TraceAt(g: Graph, res: Results, steps: seq<Step>, i: nat)
    requires Trace(g, res, steps) && i < |steps|
    ensures Trace(g, res, steps[..i]) && steps[i].Succeeded?
    ensures Ready(g, IndexOf(steps[..i]), steps[i].nodeId)
    ensures steps[i].nodeId in g.types && Perform(g, res, IndexOf(steps[..i]), steps[i].nodeId) == Yields(steps[i].output)
  {
    hide Ready;
    hide Perform;
    hide IndexOf;
    TracePrefix(g, res, steps, i + 1);
    var upTo := steps[..i + 1];
    assert upTo[..|upTo| - 1] == steps[..i] && upTo[|upTo| - 1] == steps[i];
    ReadyIsNode(g, IndexOf(steps[..i]), steps[i].nodeId);
  }

  lemma {:induction false} StepIsNew(g: Graph, res: Results, steps: seq<Step>, i: nat, j: nat)
    requires Trace(g, res, steps) && j < i < |steps|
    ensures steps[j].nodeId != steps[i].nodeId
  {
    hide Trace;
    hide Perform;
    hide IndexOf;
    TraceAt(g, res, steps, i);
    TraceIndex(g, res, steps[..i]);
    assert steps[..i][j] == steps[j];
  }

  /** An edge into the node of a step was satisfied when it ran, and its source has a step before it. */
  lemma {:induction false} EdgeBefore(g: Graph, res: Results, steps: seq<Step>, i: nat, e: Edge)
    requires Trace(g, res, steps) && i < |steps| && e in g.edges && e.to == steps[i].nodeId
    ensures EdgeStatus(IndexOf(steps[..i]), e) == Ok && exists j :: 0 <= j < i && steps[j].nodeId == e.from
  {
    hide Trace;
    hide Perform;
    hide IndexOf;
    TraceAt(g, res, steps, i);
    assert e in Incoming(g.edges, steps[i].nodeId);
    var j := Occurs(steps[..i], e.from);
    assert steps[j].nodeId == e.from;
  }

  lemma {:induction false} JoinIsComplete(g: Graph, res: Results, steps: seq<Step>, i: nat)
    requires Trace(g, res, steps) && i < |steps| && steps[i].nodeId in g.types && g.types[steps[i].nodeId].Join?
    ensures var inc := Incoming(g.edges, steps[i].nodeId); steps[i] == Succeeded(steps[i].nodeId, JoinOutput(|inc|, |inc|, Sources(inc)))
  {
    hide Trace;
    hide Perform;
    hide Ready;
    hide IndexOf;
    TraceAt(g, res, steps, i);
    PerformIsFixed(g, res, IndexOf(steps[..i]), steps[i].nodeId);
  }

  /** Step lists are well formed: every node at most once, each one after all its predecessors, whose
      edges were satisfied when it ran, and a join with all its incoming edges satisfied. */
  lemma {:induction false} StepsWellFormed(g: Graph, res: Results, steps: seq<Step>, i: nat)
    requires Trace(g, res, steps) && i < |steps|
    ensures steps[i].Succeeded? && steps[i].nodeId in g.types
    ensures forall j :: 0 <= j < i ==> steps[j].nodeId != steps[i].nodeId
    ensures forall e :: e in g.edges && e.to == steps[i].nodeId ==>
      EdgeStatus(IndexOf(steps[..i]), e) == Ok && exists j :: 0 <= j < i && steps[j].nodeId == e.from
    ensures g.types[steps[i].nodeId].Join? ==>
      var inc := Incoming(g.edges, steps[i].nodeId); steps[i].output == JoinOutput(|inc|, |inc|, Sources(inc))
    ensures !g.types[steps[i].nodeId].Join? ==> res(steps[i].nodeId) == Yields(steps[i].output)
  {
    TraceAt(g, res, steps, i);
    hide Trace;
    hide Perform;
    hide Ready;
    hide IndexOf;
    hide EdgeStatus;
    TraceAt(g, res, steps, i);
    forall j | 0 <= j < i
      ensures steps[j].nodeId != steps[i].nodeId
    {
      StepIsNew(g, res, steps, i, j);
    }
    forall e | e in g.edges && e.to == steps[i].nodeId
      ensures EdgeStatus(IndexOf(steps[..i]), e) == Ok && exists j :: 0 <= j < i && steps[j].nodeId == e.from
    {
      EdgeBefore(g, res, steps, i, e);
    }
    if g.types[steps[i].nodeId].Join? { JoinIsComplete(g, res, steps, i); }
  }

  lemma {:induction false} Occurs(steps: seq<Step>, n: Id) returns (j: nat)
    requires n in IndexOf(steps)
    ensures j < |steps| && steps[j].nodeId == n
  {
    if steps[|steps| - 1].nodeId == n { j := |steps| - 1; } else { j := Occurs(steps[..|steps| - 1], n); }
  }

  // ---------------------------------------------------------------- confluence

  /** The edge is satisfied once the nodes of `s` have succeeded with their fixed outputs. */
  ghost predicate Holds(g: Graph, res: Results, s: set<Id>, e: Edge) {
    && e.from in s && e.from in g.types
    && (e.kind == Always || ResultOf(FixedOutput(g, res, e.from)) == Some(e.kind == CondTrue))
  }

  ghost predicate Enabled(g: Graph, res: Results, s: set<Id>, n: Id) {
    forall e :: e in g.edges && e.to == n ==> Holds(g, res, s, e)
  }

  /** Closed under "all incoming edges satisfied". */
  ghost predicate Closed(g: Graph, res: Results, s: set<Id>) {
    forall n :: n in g.types && Enabled(g, res, s, n) ==> n in s
  }

  ghost predicate LeastClosed(g: Graph, res: Results, s: set<Id>) {
    && s <= g.types.Keys && Closed(g, res, s)
    && forall t: set<Id> :: Closed(g, res, t) ==> s <= t
  }

  /** On the index of a trace, the executor's readiness test is enabledness. */
  lemma {:induction false} ReadyIffEnabled(g: Graph, res: Results, steps: seq<Step>, n: Id)
    requires Trace(g, res, steps) && n in g.types
    ensures Ready(g, IndexOf(steps), n) <==> n !in IndexOf(steps) && Enabled(g, res, IndexOf(steps).Keys, n)
  {
    hide FixedOutput;
    hide Incoming;
    var ix := IndexOf(steps);
    TraceIndex(g, res, steps);
    forall e | e in g.edges && e.to == n
      ensures EdgeStatus(ix, e) == Ok <==> Holds(g, res, ix.Keys, e)
    {
    }
  }

  /** Everything a trace has run belongs to every closed set. */
  lemma {:induction false} TraceBelow(g: Graph, res: Results, steps: seq<Step>, t: set<Id>)
    requires Trace(g, res, steps) && Closed(g, res, t)
    ensures IndexOf(steps).Keys <= t
  {
    if steps != [] {
      var before, n := steps[..|steps| - 1], steps[|steps| - 1].nodeId;
      TraceBelow(g, res, before, t);
      EnabledIn(g, res, before, t, n);
    }
  }

  /** A node that is ready after a trace belongs to every closed set. */
  lemma {:induction false} EnabledIn(g: Graph, res: Results, steps: seq<Step>, t: set<Id>, n: Id)
    requires Trace(g, res, steps) && Closed(g, res, t) && IndexOf(steps).Keys <= t
    requires Ready(g, IndexOf(steps), n)
    ensures n in t
  {
    hide FixedOutput;
    hide Incoming;
    hide Ready;
    assert n in g.types by { ReadyIsNode(g, IndexOf(steps), n); }
    ReadyIffEnabled(g, res, steps, n);
    assert Enabled(g, res, t, n);
  }

  lemma ReadyIsNode(g: Graph, ix: Index, n: Id)
    requires Ready(g, ix, n)
    ensures n in g.types
  {
  }

  /** When the loop stops because nothing is ready, what has succeeded is the least closed set. */
  lemma {:induction false} StopsAtLeast(g: Graph, res: Results, steps: seq<Step>)
    requires Trace(g, res, steps) && NoneReady(g, IndexOf(steps))
    ensures LeastClosed(g, res, IndexOf(steps).Keys)
  {
    hide Ready;
    var s := IndexOf(steps).Keys;
    TraceIndex(g, res, steps);
    forall n | n in g.types && Enabled(g, res, s, n)
      ensures n in s
    {
      ReadyIffEnabled(g, res, steps, n);
    }
    forall t: set<Id> | Closed(g, res, t)
      ensures s <= t
    {
      TraceBelow(g, res, steps, t);
    }
  }

  /** Two stopped runs, whatever order they picked ready nodes in and wherever they were cut and
      resumed, recorded the same nodes with the same outputs. */
  lemma {:induction false} Confluence(g: Graph, res: Results, a: seq<Step>, b: seq<Step>)
    requires Trace(g, res, a) && NoneReady(g, IndexOf(a))
    requires Trace(g, res, b) && NoneReady(g, IndexOf(b))
    ensures IndexOf(a) == IndexOf(b) && |a| == |b|
  {
    hide Ready;
    hide FixedOutput;
    StopsAtLeast(g, res, a);
    StopsAtLeast(g, res, b);
    TraceIndex(g, res, a);
    TraceIndex(g, res, b);
    assert IndexOf(a).Keys == IndexOf(b).Keys;
  }

  /** A node that fails does so in every order: it belongs to the least closed set, so a run that has
      stopped successfully cannot have avoided it. */
  lemma {:induction false} FailureIsUnavoidable(g: Graph, res: Results, failing: seq<Step>, n: Id, stopped: seq<Step>)
    requires Trace(g, res, failing) && Ready(g, IndexOf(failing), n) && Perform(g, res, IndexOf(failing), n).Fails?
    requires Trace(g, res, stopped)
    ensures !NoneReady(g, IndexOf(stopped))
  {
    if NoneReady(g, IndexOf(stopped)) {
      StopsAtLeast(g, res, stopped);
      var s := IndexOf(stopped).Keys;
      TraceBelow(g, res, failing, s);
      EnabledIn(g, res, failing, s, n);
      var i := Occurs(stopped, n);
      SucceededDidNotFail(g, res, stopped, i);
      assert false;
    }
  }

  lemma {:induction false} SucceededDidNotFail(g: Graph, res: Results, steps: seq<Step>, i: nat)
    requires Trace(g, res, steps) && i < |steps|
    ensures steps[i].nodeId in g.types && (g.types[steps[i].nodeId].Join? || res(steps[i].nodeId).Yields?)
  {
    TracePrefix(g, res, steps, i + 1);
    assert steps[..i + 1][..|steps[..i + 1]| - 1] == steps[..i];
  }

  // ---------------------------------------------------------------- why a node was skipped

  datatype Blocker = Blocker(edge: Edge, reason: Reason)

  function Blockers(ix: Index, incoming: seq<Edge>): (bs: seq<Blocker>)
    ensures forall b :: b in bs <==> b.edge in incoming && b.reason == EdgeStatus(ix, b.edge) && b.reason != Ok
  {
    if incoming == [] then []
    else
      var last := incoming[|incoming| - 1];
      var rest := Blockers(ix, incoming[..|incoming| - 1]);
      if EdgeStatus(ix, last) == Ok then rest else rest + [Blocker(last, EdgeStatus(ix, last))]
  }

  function SkipBlockers(g: Graph, ix: Index, n: Id): seq<Blocker> {
    Blockers(ix, Incoming(g.edges, n))
  }

  /** Once nothing is ready, an unexecuted node always has a blocker: NOT_REACHED is never reported. */
  lemma NotReachedNever(g: Graph, ix: Index, n: Id)
    requires NoneReady(g, ix) && n in g.types && n !in ix
    ensures SkipBlockers(g, ix, n) != []
  {
    assert !Ready(g, ix, n);
    var e :| e in Incoming(g.edges, n) && EdgeStatus(ix, e) != Ok;
    assert Blocker(e, EdgeStatus(ix, e)) in SkipBlockers(g, ix, n);
  }

  /** A chain of blockers walked backwards from node `n`; only skipped nodes have blockers recorded. */
  ghost predicate BlockerChain(g: Graph, ix: Index, n: Id, chain: seq<Blocker>)
    decreases |chain|
  {
    chain == [] || (n !in ix && chain[0] in SkipBlockers(g, ix, n) && BlockerChain(g, ix, chain[0].edge.from, chain[1..]))
  }

  ghost predicate RootCause(b: Blocker) {
    b.reason == ConditionNotMet || b.reason == ConditionResultMissing
  }

  /** What the index of a trace satisfies: no step has failed. */
  ghost predicate AllSucceeded(ix: Index) {
    forall m :: m in ix ==> ix[m].Succeeded?
  }

  lemma BlockerFacts(g: Graph, ix: Index, n: Id, b: Blocker)
    requires AllSucceeded(ix) && b in SkipBlockers(g, ix, n)
    ensures b.edge in g.edges && b.edge.to == n
    ensures RootCause(b) <==> b.edge.from in ix
  {
  }

  /** From every unexecuted node of a validated graph there is a backward chain of blockers that ends
      in a condition edge whose source did run. */
  lemma {:induction false} RootCauseFrom(g: Graph, ix: Index, rank: map<Id, nat>, n: Id) returns (chain: seq<Blocker>)
    requires Connected(g) && Ranking(g, rank) && NoneReady(g, ix) && n in g.types && n !in ix
    requires AllSucceeded(ix)
    ensures BlockerChain(g, ix, n, chain) && chain != [] && RootCause(chain[|chain| - 1])
    decreases if n in rank then rank[n] else 0
  {
    hide SkipBlockers;
    hide RootCause;
    hide NoneReady;
    NotReachedNever(g, ix, n);
    var b := SkipBlockers(g, ix, n)[0];
    BlockerFacts(g, ix, n, b);
    if RootCause(b) {
      chain := [b];
    } else {
      var rest := RootCauseFrom(g, ix, rank, b.edge.from);
      chain := [b] + rest;
      assert chain[1..] == rest;
    }
  }

  /** Following blockers backwards always gets there: every chain, whichever blockers were followed,
      either already ends in a root cause or extends to one that does. */
  lemma {:induction false} EveryChainReachesRoot(g: Graph, ix: Index, n: Id, chain: seq<Blocker>) returns (more: seq<Blocker>)
    requires Structured(g) && NoneReady(g, ix) && n in g.types && n !in ix
    requires AllSucceeded(ix)
    requires BlockerChain(g, ix, n, chain)
    ensures BlockerChain(g, ix, n, chain + more) && chain + more != [] && RootCause((chain + more)[|chain + more| - 1])
    decreases |chain|
  {
    hide SkipBlockers;
    hide RootCause;
    hide NoneReady;
    hide AllSucceeded;
    hide ConditionsTwoWay;
    if chain == [] {
      var rank :| Ranking(g, rank);
      more := RootCauseFrom(g, ix, rank, n);
      assert chain + more == more;
    } else {
      var b := chain[0];
      BlockerFacts(g, ix, n, b);
      if RootCause(b) {
        more := [];
        assert chain[1..] == [];
        assert chain + more == [b];
      } else {
        more := EveryChainReachesRoot(g, ix, b.edge.from, chain[1..]);
        assert chain + more == [b] + (chain[1..] + more);
      }
    }
  }

  // ---------------------------------------------------------------- branches, from the recorded steps

  ghost predicate Executed(steps: seq<Step>, n: Id) {
    exists i :: 0 <= i < |steps| && steps[i].nodeId == n
  }

  ghost predicate Recorded(steps: seq<Step>, n: Id, o: Output) {
    exists i :: 0 <= i < |steps| && steps[i] == Succeeded(n, o)
  }

  /** The edges that lead on after a node with this output: always-edges, and those of the boolean that a
      condition, or a task with a boolean result, has recorded. */
  predicate Carries(o: Output, kind: EdgeKind) {
    match kind
    case Always => true
    case CondTrue => o == ConditionOutput(true) || (o.TaskOutput? && o.maybeResult == Some(true))
    case CondFalse => o == ConditionOutput(false) || (o.TaskOutput? && o.maybeResult == Some(false))
  }

  ghost predicate CarriedBy(steps: seq<Step>, e: Edge) {
    exists o :: Recorded(steps, e.from, o) && Carries(o, e.kind)
  }

  /** A node has been executed if and only if every edge into it leads on from an executed node. */
  ghost predicate BranchesFollowed(g: Graph, steps: seq<Step>) {
    forall n :: n in g.types ==> (Executed(steps, n) <==> forall e :: e in g.edges && e.to == n ==> CarriedBy(steps, e))
  }

  /** The index of a trace is its steps. */
  lemma {:induction false} IndexIsSteps(g: Graph, res: Results, steps: seq<Step>, n: Id)
    requires Trace(g, res, steps)
    ensures n in IndexOf(steps) <==> Executed(steps, n)
    ensures n in IndexOf(steps) ==> IndexOf(steps)[n].Succeeded? && Recorded(steps, n, IndexOf(steps)[n].output)
    ensures forall o :: Recorded(steps, n, o) ==> n in IndexOf(steps) && IndexOf(steps)[n].Succeeded? && o == IndexOf(steps)[n].output
  {
    hide FixedOutput;
    TraceIndex(g, res, steps);
    hide Perform;
    hide Ready;
    forall i | 0 <= i < |steps|
      ensures steps[i] == IndexOf(steps)[steps[i].nodeId]
    {
      TraceAt(g, res, steps, i);
      PerformIsFixed(g, res, IndexOf(steps[..i]), steps[i].nodeId);
    }
    hide Trace;
    if n in IndexOf(steps) { var j := Occurs(steps, n); }
  }

  /** The edge status of a trace, from its steps. */
  lemma {:induction false} StatusIs(g: Graph, res: Results, steps: seq<Step>, e: Edge)
    requires Trace(g, res, steps)
    ensures var status := EdgeStatus(IndexOf(steps), e);
      && (status == Ok <==> CarriedBy(steps, e))
      && (status == UpstreamNotSucceeded <==> !Executed(steps, e.from))
      && (status == ConditionNotMet <==> e.kind != Always && CarriedBy(steps, e.(kind := if e.kind == CondTrue then CondFalse else CondTrue)))
      && (status == ConditionResultMissing <==> exists o :: Recorded(steps, e.from, o) && !Carries(o, e.kind) && !Carries(o, CondTrue) && !Carries(o, CondFalse))
  {
    IndexIsSteps(g, res, steps, e.from);
    hide Trace;
    hide IndexOf;
    hide Executed;
    hide Recorded;
    var ix := IndexOf(steps);
    if e.from in ix { assert Recorded(steps, e.from, ix[e.from].output); }
  }

  /** When the loop stops because nothing is ready, exactly the branches have been followed that the recorded
      results call for. */
  lemma {:induction false} StopFollowsBranches(g: Graph, res: Results, steps: seq<Step>)
    requires Trace(g, res, steps) && NoneReady(g, IndexOf(steps))
    ensures BranchesFollowed(g, steps)
  {
    hide CarriedBy;
    hide EdgeStatus;
    hide Executed;
    forall n | n in g.types
      ensures Executed(steps, n) <==> forall e :: e in g.edges && e.to == n ==> CarriedBy(steps, e)
    {
      ExecutedIff(g, res, steps, n);
    }
  }

  lemma {:induction false} ExecutedIff(g: Graph, res: Results, steps: seq<Step>, n: Id)
    requires Trace(g, res, steps) && NoneReady(g, IndexOf(steps)) && n in g.types
    ensures Executed(steps, n) <==> forall e :: e in g.edges && e.to == n ==> CarriedBy(steps, e)
  {
    hide CarriedBy;
    hide EdgeStatus;
    hide FixedOutput;
    hide Perform;
    IndexIsSteps(g, res, steps, n);
    if Executed(steps, n) {
      var i :| 0 <= i < |steps| && steps[i].nodeId == n;
      forall e | e in g.edges && e.to == n
        ensures CarriedBy(steps, e)
      {
        EdgeBefore(g, res, steps, i, e);
        TracePrefix(g, res, steps, i);
        StatusIs(g, res, steps[..i], e);
        CarriedLater(steps, i, e);
      }
    } else {
      assert !Ready(g, IndexOf(steps), n);
      var e :| e in Incoming(g.edges, n) && EdgeStatus(IndexOf(steps), e) != Ok;
      StatusIs(g, res, steps, e);
      assert e in g.edges && e.to == n && !CarriedBy(steps, e);
    }
  }

  lemma CarriedLater(steps: seq<Step>, i: nat, e: Edge)
    requires i <= |steps| && CarriedBy(steps[..i], e)
    ensures CarriedBy(steps, e)
  {
    var o :| Recorded(steps[..i], e.from, o) && Carries(o, e.kind);
    var j :| 0 <= j < i && steps[..i][j] == Succeeded(e.from, o);
    assert steps[j] == Succeeded(e.from, o);
  }

  /** The branch of a condition: a node behind a single conditional edge has been executed if and only if the
      edge is that of the recorded boolean. */
  lemma {:induction false} BranchTaken(g: Graph, res: Results, steps: seq<Step>, e: Edge, o: Output, b: bool)
    requires Connected(g) && Trace(g, res, steps) && NoneReady(g, IndexOf(steps))
    requires e in g.edges && e.kind != Always && forall f :: f in g.edges && f.to == e.to ==> f == e
    requires Recorded(steps, e.from, o) && (o == ConditionOutput(b) || (o.TaskOutput? && o.maybeResult == Some(b)))
    ensures Executed(steps, e.to) <==> (e.kind == CondTrue) == b
  {
    ExecutedIff(g, res, steps, e.to);
    IndexIsSteps(g, res, steps, e.from);
    hide Trace;
    hide NoneReady;
    hide IndexOf;
    hide Recorded;
  }

  /** Why a node has been skipped, edge by edge: the source has not been executed; or it has recorded the
      other boolean; or it has recorded none. */
  lemma {:induction false} SkippedBecause(g: Graph, res: Results, steps: seq<Step>, n: Id, e: Edge)
    requires Trace(g, res, steps) && e in g.edges && e.to == n
    ensures var bs := SkipBlockers(g, IndexOf(steps), n);
      && (Blocker(e, UpstreamNotSucceeded) in bs <==> !Executed(steps, e.from))
      && (Blocker(e, ConditionNotMet) in bs <==>
            e.kind != Always && CarriedBy(steps, e.(kind := if e.kind == CondTrue then CondFalse else CondTrue)))
      && (Blocker(e, ConditionResultMissing) in bs <==>
            e.kind != Always && exists o :: Recorded(steps, e.from, o) && !Carries(o, CondTrue) && !Carries(o, CondFalse))
      && Blocker(e, Ok) !in bs
  {
    StatusIs(g, res, steps, e);
    hide Trace;
    hide IndexOf;
    hide EdgeStatus;
    hide Recorded;
    hide Executed;
    assert e in Incoming(g.edges, n);
  }

  // ---------------------------------------------------------------- jobs and resumption

  datatype Outcome = Completed | Blocked(node: Id) | FailedAt(node: Id, error: string)

  /** One worker job, decided by its environment: which of several ready nodes comes first, which task
      nodes block this time, and after how many recorded steps the process dies, if it does. */
  datatype JobEnv = JobEnv(choose: seq<Id> -> Id, blocks: Id -> bool, crashAfter: Option<nat>)

  ghost predicate Chooses(choose: seq<Id> -> Id) {
    forall s: seq<Id> :: |s| > 0 ==> choose(s) in s
  }

  /** What a job leaves persisted, and why it ended. */
  ghost predicate JobResult(g: Graph, res: Results, before: seq<Step>, steps: seq<Step>, saved: seq<Step>, outcome: Outcome) {
    && Trace(g, res, saved) && before <= saved
    && match outcome
       case Completed => steps == saved && NoneReady(g, IndexOf(saved))
       case Blocked(n) => steps == saved && Ready(g, IndexOf(saved), n)
       case FailedAt(n, error) =>
         && steps == saved + [Failed(n, error)]
         && Ready(g, IndexOf(saved), n) && Perform(g, res, IndexOf(saved), n) == Fails(error)
  }

  lemma {:induction false} TraceSnoc(g: Graph, res: Results, steps: seq<Step>, n: Id)
    requires Trace(g, res, steps) && Ready(g, IndexOf(steps), n) && Perform(g, res, IndexOf(steps), n).Yields?
    ensures var step := Succeeded(n, Perform(g, res, IndexOf(steps), n).output);
      Trace(g, res, steps + [step]) && IndexOf(steps + [step]) == IndexOf(steps)[n := step]
  {
    var step := Succeeded(n, Perform(g, res, IndexOf(steps), n).output);
    assert (steps + [step])[..|steps|] == steps;
  }

  /** The executor loop, from the persisted steps until nothing is ready, a node blocks or one fails.
      The number of unexecuted nodes goes down with every iteration. */
  method RunGraphJob(g: Graph, res: Results, env: JobEnv, persisted: seq<Step>)
    returns (steps: seq<Step>, saved: seq<Step>, outcome: Outcome)
    requires Record(g) && Trace(g, res, persisted) && Chooses(env.choose)
    ensures JobResult(g, res, persisted, steps, saved, outcome)
    ensures outcome.Blocked? ==> env.blocks(outcome.node)
    ensures outcome == Completed ==> BranchesFollowed(g, saved)
  {
    hide BranchesFollowed;
    hide Ready;
    hide Perform;
    hide Trace;
    steps := persisted;
    saved := persisted;
    var stepByNodeId := IndexOf(steps);
    while true
      invariant steps == saved && persisted <= steps && Trace(g, res, steps) && stepByNodeId == IndexOf(steps)
      decreases g.types.Keys - stepByNodeId.Keys
    {
      var ready := ReadyNodes(g, stepByNodeId, g.ids);
      if |ready| == 0 {
        assert NoneReady(g, stepByNodeId);
        StopFollowsBranches(g, res, steps);
        return steps, saved, Completed;
      }
      var n := env.choose(ready);
      assert n in ready && Ready(g, stepByNodeId, n);
      ReadyIsNode(g, stepByNodeId, n);
      ReadyIsNew(g, stepByNodeId, n);
      if g.types[n].Task? && env.blocks(n) {
        return steps, saved, Blocked(n);
      }
      var result := Perform(g, res, stepByNodeId, n);
      if result.Fails? {
        steps := steps + [Failed(n, result.error)];
        return steps, saved, FailedAt(n, result.error);
      }
      var step := Succeeded(n, result.output);
      TraceSnoc(g, res, steps, n);
      steps := steps + [step];
      assert n in g.types.Keys - stepByNodeId.Keys && n !in g.types.Keys - stepByNodeId[n := step].Keys;
      stepByNodeId := stepByNodeId[n := step];
      saved := steps;
    }
  }

  lemma ReadyIsNew(g: Graph, ix: Index, n: Id)
    requires Ready(g, ix, n)
    ensures n !in ix
  {
  }

  /** An attempt: job after job, each one resuming from what the one before it left persisted, until
      one completes, one fails, or there are no more jobs. A crash loses the steps recorded after it.
      However the attempt was cut, completing means having run exactly the least closed set, with the
      same outputs as any uninterrupted run in any order; and failing means that every run fails. */
  method RunAttempt(g: Graph, res: Results, jobs: seq<JobEnv>) returns (saved: seq<Step>, outcome: Option<Outcome>)
    requires Record(g) && forall i :: 0 <= i < |jobs| ==> Chooses(jobs[i].choose)
    ensures Trace(g, res, saved)
    ensures outcome == Some(Completed) ==> LeastClosed(g, res, IndexOf(saved).Keys) && BranchesFollowed(g, saved)
    ensures outcome == Some(Completed) ==>
      forall straight: seq<Step> :: Trace(g, res, straight) && NoneReady(g, IndexOf(straight)) ==> IndexOf(straight) == IndexOf(saved)
    ensures outcome.Some? && outcome.value.FailedAt? ==>
      forall straight: seq<Step> :: Trace(g, res, straight) ==> !NoneReady(g, IndexOf(straight))
    ensures outcome.Some? ==> !outcome.value.Blocked?
  {
    hide Ready;
    hide Perform;
    hide NoneReady;
    hide LeastClosed;
    hide BranchesFollowed;
    saved := [];
    assert Trace(g, res, saved);
    for i := 0 to |jobs|
      invariant Trace(g, res, saved)
    {
      var steps, next, out := RunGraphJob(g, res, jobs[i], saved);
      if jobs[i].crashAfter.Some? {
        var kept := Max(|saved|, Min(jobs[i].crashAfter.value, |next|));
        TracePrefix(g, res, next, kept);
        saved := next[..kept];
      } else {
        saved := next;
        if out.Completed? {
          StopsAtLeast(g, res, saved);
          forall straight: seq<Step> | Trace(g, res, straight) && NoneReady(g, IndexOf(straight))
            ensures IndexOf(straight) == IndexOf(saved)
          {
            Confluence(g, res, straight, saved);
          }
          return saved, Some(Completed);
        }
        if out.FailedAt? {
          forall straight: seq<Step> | Trace(g, res, straight)
            ensures !NoneReady(g, IndexOf(straight))
          {
            FailureIsUnavoidable(g, res, saved, out.node, straight);
          }
          return saved, Some(out);
        }
      }
    }
    return saved, None;
  }
}
