/** A job that nothing stands in the way of: where no statement fails and every task is permitted or has been
    approved, one job takes a run to its success, calling every task it executes exactly once. */
module RunJobs {
  import opened Common
  import opened Policy
  import opened WorkflowGraph
  import opened RunTable
  import opened RunProtocol
  import opened RunSteps
  import opened RunEngine
  import G = GraphExecutor

  /** The policy lets the node run, or a request for it has been approved and has not expired. */
  ghost predicate Permits(wf: Workflow, rules: seq<Rule>, approvals: map<nat, Approval>, nextReq: nat, now: int, n: Id) {
    || EffectOn(wf, rules, n) == Allow
    || (EffectOn(wf, rules, n) == RequireApproval && exists q: nat :: q < nextReq && Granted(approvals, now, q, n))
  }

  /** Every task may run, and every node runs to completion. */
  ghost predicate AllRun(wf: Workflow, rules: seq<Rule>, approvals: map<nat, Approval>, nextReq: nat, now: int) {
    && (forall n :: n in wf.graph.types && wf.graph.types[n].Task? ==> Permits(wf, rules, approvals, nextReq, now, n))
    && (forall n :: n in wf.graph.types && !wf.graph.types[n].Join? ==> wf.results(n).Yields?)
  }

  predicate Good(ans: Answers) {
    ans.startOk && ans.executorFound && ans.reply == Completes
  }

  /** Nothing fails, and there is an answer for every node. */
  ghost predicate Smooth(wf: Workflow, job: Job) {
    && G.Chooses(job.order) && job.published && job.beginOk && job.endOk
    && |wf.graph.types| <= |job.answers| && forall k :: 0 <= k < |job.answers| ==> Good(job.answers[k])
  }

  /** The tasks among the steps, and among the executor calls, in order. */
  function TaskNodes(wf: Workflow, steps: Steps): seq<Id> {
    if steps == [] then []
    else
      var last := steps[|steps| - 1].nodeId;
      TaskNodes(wf, steps[..|steps| - 1]) + if IsTask(wf, last) then [last] else []
  }

  function Called(executions: seq<Execution>): seq<Id> {
    if executions == [] then [] else Called(executions[..|executions| - 1]) + [executions[|executions| - 1].node]
  }

  /** One more node: it is recorded, and called if it is a task. */
  ghost predicate OneMore(wf: Workflow, s: Sys, t: Sys, n: Id) {
    && s.worker.Active? && NodeResult(wf, s.worker.steps, n).Yields?
    && var longer := s.worker.steps + [G.Succeeded(n, NodeResult(wf, s.worker.steps, n).output)];
      && t == s.(row := t.row, worker := Active(s.worker.attempt, s.worker.rules, longer), executions := t.executions)
      && t.row == s.row.(cursor := 0, output := Some(longer))
      && Called(t.executions) == Called(s.executions) + if IsTask(wf, n) then [n] else []
  }

  lemma RecordedNode(wf: Workflow, s: Sys, attempt: nat, rules: seq<Rule>, steps: Steps, n: Id, mayDeny: bool)
    requires NodeResult(wf, steps, n).Yields?
    ensures var longer := steps + [G.Succeeded(n, NodeResult(wf, steps, n).output)];
      RecordResult(wf, s, attempt, rules, steps, n, mayDeny) ==
        s.(row := s.row.(cursor := 0, output := Some(longer)), worker := Active(attempt, rules, longer))
  {
    hide NodeResult;
  }

  lemma CalledMore(executions: seq<Execution>, e: Execution)
    ensures Called(executions + [e]) == Called(executions) + [e.node]
  {
    assert (executions + [e])[..|executions|] == executions;
  }

  /** The executor call of a permitted node. */
  lemma ExecutedNode(wf: Workflow, s: Sys, t: Sys, n: Id, permit: Option<nat>)
    requires s.worker.Active? && IsTask(wf, n) && NodeResult(wf, s.worker.steps, n).Yields?
    requires t == s.(worker := Cleared(s.worker.attempt, s.worker.rules, s.worker.steps, n, permit, s.now))
    ensures OneMore(wf, s, Next(wf, t, WorkerExecute(NodeRan)), n)
  {
    hide Next;
    hide NodeResult;
    hide IsTask;
    ExecuteStep(wf, t, NodeRan);
    RecordedNode(wf, t.(executions := t.executions + [CallOf(t.worker)]), s.worker.attempt, s.worker.rules, s.worker.steps, n, true);
    CalledMore(s.executions, CallOf(t.worker));
    hide RecordResult;
    hide Called;
  }

  /** The work on one ready node. */
  lemma SmoothNode(wf: Workflow, s: Sys, n: Id, ans: Answers)
    requires s.worker.Active? && IsReady(wf, s.worker.steps, n) && NodeResult(wf, s.worker.steps, n).Yields? && Good(ans)
    requires IsTask(wf, n) ==> Permits(wf, s.worker.rules, s.approvals, s.nextReq, s.now, n)
    ensures OneMore(wf, s, Run(wf, s, NodeTrace(wf, s, n, ans)), n)
  {
    hide Run;
    hide Next;
    hide IsReady;
    hide IsTask;
    hide NodeResult;
    hide EffectOn;
    hide OneMore;
    var Active(attempt, rules, steps) := s.worker;
    if !IsTask(wf, n) {
      RunOne(wf, s, WorkerBuiltin(n));
      BuiltinStep(wf, s, n);
      RecordedNode(wf, s, attempt, rules, steps, n, false);
      BuiltinNode(wf, s, n);
    } else {
      PickStep(wf, s, n, attempt, rules, steps);
      var cleared := s.(worker := Cleared(attempt, rules, steps, n, None, s.now));
      if EffectOn(wf, rules, n) == Allow {
        assert [WorkerPick(n)] + [WorkerExecute(NodeRan)] == [WorkerPick(n), WorkerExecute(NodeRan)];
        RunTwo(wf, s, WorkerPick(n), WorkerExecute(NodeRan));
        ExecutedNode(wf, s, cleared, n, None);
      } else {
        GrantedNode(wf, s, n, ans);
      }
    }
  }

  lemma BuiltinNode(wf: Workflow, s: Sys, n: Id)
    requires s.worker.Active? && !IsTask(wf, n) && NodeResult(wf, s.worker.steps, n).Yields?
    ensures var longer := s.worker.steps + [G.Succeeded(n, NodeResult(wf, s.worker.steps, n).output)];
      OneMore(wf, s, s.(row := s.row.(cursor := 0, output := Some(longer)), worker := Active(s.worker.attempt, s.worker.rules, longer)), n)
  {
    hide NodeResult;
    hide IsTask;
    hide Called;
  }

  /** A node whose request has been approved. */
  lemma GrantedNode(wf: Workflow, s: Sys, n: Id, ans: Answers)
    requires s.worker.Active? && IsReady(wf, s.worker.steps, n) && NodeResult(wf, s.worker.steps, n).Yields? && Good(ans) && IsTask(wf, n)
    requires EffectOn(wf, s.worker.rules, n) == RequireApproval
    requires exists q: nat :: q < s.nextReq && Granted(s.approvals, s.now, q, n)
    ensures OneMore(wf, s, Run(wf, s, NodeTrace(wf, s, n, ans)), n)
  {
    hide Run;
    hide Next;
    hide IsReady;
    hide IsTask;
    hide NodeResult;
    hide EffectOn;
    hide OneMore;
    var Active(attempt, rules, steps) := s.worker;
    var found := LookUp(s.approvals, s.now, n, s.nextReq);
    var checking := s.(worker := Checking(attempt, rules, steps, n));
    var cleared := s.(worker := Cleared(attempt, rules, steps, n, found, s.now));
    PickStep(wf, s, n, attempt, rules, steps);
    CheckStep(wf, checking, n, attempt, rules, steps, found);
    RunCons(wf, s, WorkerPick(n), [WorkerCheck(found)] + [WorkerExecute(NodeRan)]);
    RunCons(wf, checking, WorkerCheck(found), [WorkerExecute(NodeRan)]);
    RunOne(wf, cleared, WorkerExecute(NodeRan));
    ExecutedNode(wf, s, cleared, n, found);
  }

  /** A run that has succeeded: `steps` is a complete run of the graph that goes on from `first`, and all tasks
      executed since have been called, once each and in this order. */
  ghost predicate Success(wf: Workflow, s: Sys, t: Sys, first: Steps, steps: Steps) {
    && t.row.status == Succeeded && t.row.output == Some(steps) && t.row.finishedAt == Some(s.now) && t.worker == Idle && !t.job
    && first <= steps && G.Trace(wf.graph, wf.results, steps) && IsDone(wf, steps)
    && Called(t.executions) == Called(s.executions) + TaskNodes(wf, steps[|first|..])
  }

  lemma TraceIsSmaller(wf: Workflow, steps: Steps, n: Id)
    requires G.Trace(wf.graph, wf.results, steps) && IsReady(wf, steps, n)
    ensures n in wf.graph.types && |steps| < |wf.graph.types|
  {
    G.TraceIndex(wf.graph, wf.results, steps);
    G.ReadyIsNode(wf.graph, G.IndexOf(steps), n);
    G.ReadyIsNew(wf.graph, G.IndexOf(steps), n);
    hide G.Trace;
    hide IsReady;
    var done, all := G.IndexOf(steps).Keys, wf.graph.types.Keys;
    assert |done| == |steps| && |all| == |wf.graph.types|;
    assert done + {n} <= all;
    SubsetIsSmaller(done + {n}, all);
  }

  lemma {:induction false} SubsetIsSmaller(a: set<Id>, b: set<Id>)
    requires a <= b
    ensures |a| <= |b|
  {
    if a != {} {
      var x :| x in a;
      SubsetIsSmaller(a - {x}, b - {x});
    }
  }

  lemma NodeYields(wf: Workflow, steps: Steps, n: Id)
    requires n in wf.graph.types && (!wf.graph.types[n].Join? ==> wf.results(n).Yields?)
    ensures NodeResult(wf, steps, n).Yields?
  {
  }

  /** The success itself. */
  lemma FinishedRun(wf: Workflow, s: Sys, job: Job, k: nat, steps: Steps)
    requires s.worker.Active? && s.worker.steps == steps && ReadyIn(wf, steps) == [] && IsDone(wf, steps) && job.endOk && k <= |job.answers|
    requires G.Trace(wf.graph, wf.results, steps)
    ensures Success(wf, s, Run(wf, s, LoopTrace(wf, s, job, k)), steps, steps)
  {
    hide G.Trace;
    assert steps[|steps|..] == [];
    hide Run;
    hide Next;
    hide IsDone;
    hide ReadyIn;
    assert [WorkerFinish, WorkerEnd(true)] + [] == [WorkerFinish, WorkerEnd(true)];
    FinishStep(wf, s);
    EndStep(wf, s.(row := MarkSucceeded(s.row, steps, s.now), worker := Finishing(s.worker.attempt)), true);
    RunTwo(wf, s, WorkerFinish, WorkerEnd(true));
  }

  /** The loop, from the `k`-th answers on. */
  lemma {:induction false} LoopSucceeds(wf: Workflow, s: Sys, job: Job, k: nat) returns (steps: Steps)
    requires s.worker.Active? && s.worker.rules == job.rules && G.Trace(wf.graph, wf.results, s.worker.steps)
    requires WorkflowGraph.Record(wf.graph) && Smooth(wf, job) && AllRun(wf, job.rules, s.approvals, s.nextReq, s.now)
    requires |wf.graph.types| - |s.worker.steps| <= |job.answers| - k && k <= |job.answers|
    ensures s.worker.steps <= steps
    ensures Success(wf, s, Run(wf, s, LoopTrace(wf, s, job, k)), s.worker.steps, steps)
    decreases |job.answers| - k
  {
    hide Run;
    hide NodeTrace;
    hide LoopTrace;
    hide IsReady;
    hide ReadyIn;
    hide NodeResult;
    hide OneMore;
    hide EffectOn;
    hide AllRun;
    hide Success;
    hide G.Trace;
    hide IsDone;
    steps := s.worker.steps;
    ReadyInIs(wf, steps);
    var ready := ReadyIn(wf, steps);
    if ready == [] {
      FinishedRun(wf, s, job, k, steps);
    } else {
      var n := job.order(ready);
      assert n in ready;
      TraceIsSmaller(wf, steps, n);
      NextNode(wf, s, job, k, n);
      LoopUnfolds(wf, s, job, k);
      var t := Run(wf, s, NodeTrace(wf, s, n, job.answers[k]));
      MoreSteps(wf, s, t, n);
      steps := LoopSucceeds(wf, t, job, k + 1);
      JoinSuccess(wf, s, t, Run(wf, t, LoopTrace(wf, t, job, k + 1)), n, steps);
    }
  }

  lemma NextNode(wf: Workflow, s: Sys, job: Job, k: nat, n: Id)
    requires s.worker.Active? && s.worker.rules == job.rules && IsReady(wf, s.worker.steps, n) && n in wf.graph.types
    requires Smooth(wf, job) && AllRun(wf, job.rules, s.approvals, s.nextReq, s.now) && k < |job.answers|
    ensures OneMore(wf, s, Run(wf, s, NodeTrace(wf, s, n, job.answers[k])), n)
  {
    hide Run;
    hide NodeTrace;
    hide IsReady;
    hide OneMore;
    hide Permits;
    NodeYields(wf, s.worker.steps, n);
    hide NodeResult;
    SmoothNode(wf, s, n, job.answers[k]);
  }

  lemma MoreSteps(wf: Workflow, s: Sys, t: Sys, n: Id)
    requires OneMore(wf, s, t, n) && IsReady(wf, s.worker.steps, n) && n in wf.graph.types && G.Trace(wf.graph, wf.results, s.worker.steps)
    ensures t.worker.Active? && t.worker.rules == s.worker.rules && G.Trace(wf.graph, wf.results, t.worker.steps)
    ensures |t.worker.steps| == |s.worker.steps| + 1 && s.worker.steps <= t.worker.steps
    ensures t.approvals == s.approvals && t.nextReq == s.nextReq && t.now == s.now
  {
    hide G.Perform;
    hide G.Ready;
    hide Called;
    G.TraceSnoc(wf.graph, wf.results, s.worker.steps, n);
    hide G.Trace;
  }

  lemma JoinSuccess(wf: Workflow, s: Sys, t: Sys, u: Sys, n: Id, steps: Steps)
    requires OneMore(wf, s, t, n) && Success(wf, t, u, t.worker.steps, steps)
    ensures Success(wf, s, u, s.worker.steps, steps) && s.worker.steps <= steps
  {
    hide IsDone;
    hide G.Trace;
    hide IsTask;
    hide NodeResult;
    var k := |s.worker.steps|;
    assert steps[k].nodeId == n;
    TaskNodesTail(wf, steps, k);
    hide TaskNodes;
    hide Called;
  }

  lemma TaskNodesTail(wf: Workflow, steps: Steps, k: nat)
    requires k < |steps|
    ensures TaskNodes(wf, steps[k..]) == (if IsTask(wf, steps[k].nodeId) then [steps[k].nodeId] else []) + TaskNodes(wf, steps[k + 1..])
  {
    hide IsTask;
    assert steps[k..] == [steps[k]] + steps[k + 1..];
    TaskNodesJoin(wf, [steps[k]], steps[k + 1..]);
    assert TaskNodes(wf, []) == [];
  }

  lemma {:induction false} TaskNodesJoin(wf: Workflow, a: Steps, b: Steps)
    ensures TaskNodes(wf, a + b) == TaskNodes(wf, a) + TaskNodes(wf, b)
  {
    hide IsTask;
    if b == [] {
      assert a + b == a;
    } else {
      assert (a + b)[..|a + b| - 1] == a + b[..|b| - 1];
      TaskNodesJoin(wf, a, b[..|b| - 1]);
    }
  }

  /** What a job goes on from: nothing for a new attempt, otherwise the saved steps. */
  function GoesOnFrom(row: Row): Steps {
    if row.status == Running && row.output.Some? then row.output.value else []
  }

  /** One undisturbed job: a run that is queued, or that runs and is not blocked, succeeds with it. What it
      executes is everything the graph leads to, along the branches its conditions take, and every task that
      had not been saved before is called exactly once. */
  lemma UndisturbedJob(wf: Workflow, s: Sys, job: Job) returns (steps: Steps)
    requires s.worker == Idle && s.job && !Final(s.row) && (s.row.status == Running ==> s.row.blockedRequestId.None?)
    requires G.Trace(wf.graph, wf.results, GoesOnFrom(s.row))
    requires WorkflowGraph.Record(wf.graph) && PassesValidation(wf.graph)
    requires Smooth(wf, job) && AllRun(wf, job.rules, s.approvals, s.nextReq, s.now)
    ensures Success(wf, s, Run(wf, s, JobTrace(wf, s, job)), GoesOnFrom(s.row), steps)
    ensures G.LeastClosed(wf.graph, wf.results, G.IndexOf(steps).Keys) && G.BranchesFollowed(wf.graph, steps)
  {
    hide Run;
    hide Next;
    hide JobTrace;
    hide LoopTrace;
    hide PassesValidation;
    hide AllRun;
    hide G.Trace;
    hide G.LeastClosed;
    hide G.BranchesFollowed;
    hide TaskNodes;
    hide Called;
    JobUnfolds(wf, s, job);
    LoadStep(wf, s, job.rules);
    var loaded := Next(wf, s, WorkerLoad(job.rules));
    BeginStep(wf, loaded);
    var begun := Next(wf, loaded, WorkerBegin);
    steps := LoopSucceeds(wf, begun, job, 0);
    assert IsDone(wf, steps);
    G.StopsAtLeast(wf.graph, wf.results, steps);
    G.StopFollowsBranches(wf.graph, wf.results, steps);
  }
}
