/** What a succeeded run has done. However its attempts were cut by blocks, approvals, remote results,
    failures, retries and crashes, and whatever was written late in between: the steps in the row of a
    succeeded run are those of an uninterrupted execution of the workflow graph, and every task node among
    them has been executed with the policy's permission. */
module RunCompletion {
  import opened Common
  import opened WorkflowGraph
  import opened RunTable
  import opened RunProtocol
  import opened RunSafety
  import G = GraphExecutor

  type Executions = seq<Execution>

  ghost predicate WasExecuted(executions: Executions, node: Id) {
    exists k :: 0 <= k < |executions| && executions[k].node == node
  }

  /** A step list that an execution of the graph can produce, each task node executed. */
  ghost predicate StepsOk(wf: Workflow, executions: Executions, steps: Steps) {
    && G.Trace(wf.graph, wf.results, steps)
    && forall i :: 0 <= i < |steps| && IsTask(wf, steps[i].nodeId) ==> WasExecuted(executions, steps[i].nodeId)
  }

  predicate HasSteps(w: Worker) {
    w.Active? || w.Checking? || w.Asking? || w.Cleared? || w.Blocking?
  }

  predicate HasNode(w: Worker) {
    w.Checking? || w.Asking? || w.Cleared?
  }

  ghost predicate WorkerSteps(wf: Workflow, executions: Executions, w: Worker) {
    && (HasSteps(w) ==> StepsOk(wf, executions, w.steps))
    && (HasNode(w) ==> IsReady(wf, w.steps, w.node) && IsTask(wf, w.node))
  }

  ghost predicate RowSteps(wf: Workflow, executions: Executions, row: Row) {
    && (row.output.Some? ==> StepsOk(wf, executions, row.output.value))
    && (row.status == Succeeded ==> row.output.Some? && IsDone(wf, row.output.value))
  }

  /** Nobody works on a succeeded run any more. */
  ghost predicate Inv(wf: Workflow, s: Sys) {
    && WorkerSteps(wf, s.executions, s.worker) && RowSteps(wf, s.executions, s.row)
    && (s.row.status == Succeeded ==> s.worker.Idle? || s.worker.Finishing? || s.worker.Failing?)
  }

  // ---------------------------------------------------------------- every step keeps it

  lemma MoreExecutions(wf: Workflow, before: Executions, after: Executions, steps: Steps)
    requires before <= after && StepsOk(wf, before, steps)
    ensures StepsOk(wf, after, steps)
  {
    hide G.Trace;
    hide IsTask;
    forall i | 0 <= i < |steps| && IsTask(wf, steps[i].nodeId)
      ensures WasExecuted(after, steps[i].nodeId)
    {
      var k :| 0 <= k < |before| && before[k].node == steps[i].nodeId;
      assert after[k].node == steps[i].nodeId;
    }
  }

  /** One more step, of a node that was ready and, if it is a task, has been executed. */
  lemma StepAdded(wf: Workflow, executions: Executions, steps: Steps, node: Id)
    requires StepsOk(wf, executions, steps) && IsReady(wf, steps, node)
    requires IsTask(wf, node) ==> WasExecuted(executions, node)
    ensures node in wf.graph.types
    ensures NodeResult(wf, steps, node).Yields? ==>
      StepsOk(wf, executions, steps + [G.Succeeded(node, NodeResult(wf, steps, node).output)])
  {
    hide G.Perform;
    hide G.Trace;
    hide G.Ready;
    hide IsTask;
    G.ReadyIsNode(wf.graph, G.IndexOf(steps), node);
    if NodeResult(wf, steps, node).Yields? { G.TraceSnoc(wf.graph, wf.results, steps, node); }
  }

  lemma RecordKeeps(wf: Workflow, s: Sys, attempt: nat, rules: seq<Policy.Rule>, steps: Steps, node: Id, mayDeny: bool)
    requires RowSteps(wf, s.executions, s.row) && s.row.status != Succeeded
    requires StepsOk(wf, s.executions, steps) && IsReady(wf, steps, node)
    requires IsTask(wf, node) ==> WasExecuted(s.executions, node)
    ensures Inv(wf, RecordResult(wf, s, attempt, rules, steps, node, mayDeny))
  {
    hide StepsOk;
    hide NodeResult;
    hide IsReady;
    hide IsTask;
    StepAdded(wf, s.executions, steps, node);
  }

  lemma BuiltinKeeps(wf: Workflow, s: Sys, node: Id)
    requires Inv(wf, s)
    ensures Inv(wf, Builtin(wf, s, node))
  {
    hide StepsOk;
    hide IsReady;
    hide IsTask;
    hide IsDone;
    hide RecordResult;
    if s.worker.Active? && IsReady(wf, s.worker.steps, node) && !IsTask(wf, node) {
      RecordKeeps(wf, s, s.worker.attempt, s.worker.rules, s.worker.steps, node, false);
    }
  }

  lemma ExecuteKeeps(wf: Workflow, s: Sys, outcome: NodeOutcome)
    requires Inv(wf, s)
    ensures Inv(wf, Execute(wf, s, outcome))
  {
    hide StepsOk;
    hide IsReady;
    hide IsTask;
    hide IsDone;
    hide RecordResult;
    if s.worker.Cleared? {
      var w := s.worker;
      var more := s.executions + [Execution(w.node, w.rules, w.permit, w.checkedAt)];
      assert more[|s.executions|].node == w.node && s.executions <= more;
      MoreExecutions(wf, s.executions, more, w.steps);
      if s.row.output.Some? { MoreExecutions(wf, s.executions, more, s.row.output.value); }
      RecordKeeps(wf, s.(executions := more), w.attempt, w.rules, w.steps, w.node, true);
    }
  }

  /** The steps of the worker that neither record nor execute a node. */
  lemma OpeningKeeps(wf: Workflow, s: Sys, a: Action)
    requires Inv(wf, s) && Opening(a) && !a.WorkerBuiltin?
    ensures Inv(wf, OpeningStep(wf, s, a))
  {
    hide StepsOk;
    hide IsReady;
    hide IsTask;
    hide IsDone;
    hide EffectOn;
    hide Grants;
    if a.WorkerBegin? { StartsEmpty(wf, s.executions); }
  }

  lemma StartsEmpty(wf: Workflow, executions: Executions)
    ensures StepsOk(wf, executions, [])
  {
  }

  lemma ClosingKeeps(wf: Workflow, s: Sys, a: Action)
    requires Inv(wf, s) && OfWorker(a) && !Opening(a) && !a.WorkerExecute?
    ensures Inv(wf, ClosingStep(wf, s, a))
  {
    hide StepsOk;
    hide IsReady;
    hide IsTask;
    hide IsDone;
    hide TypeName;
  }

  lemma WorkerKeeps(wf: Workflow, s: Sys, a: Action)
    requires Inv(wf, s) && OfWorker(a)
    ensures Inv(wf, WorkerStep(wf, s, a))
  {
    hide Inv;
    if a.WorkerBuiltin? {
      BuiltinKeeps(wf, s, a.node);
    } else if a.WorkerExecute? {
      ExecuteKeeps(wf, s, a.outcome);
    } else {
      hide OpeningStep;
      hide ClosingStep;
      if Opening(a) { OpeningKeeps(wf, s, a); } else { ClosingKeeps(wf, s, a); }
    }
  }

  /** Handlers and continuations leave the output alone and do not make a run succeed. */
  lemma HandlerOutput(s: Sys, a: Action)
    requires !OfWorker(a) && !a.Tick?
    ensures var t := HandlerStep(s, a);
      t.row.output == s.row.output && (t.row.status == Succeeded ==> s.row.status == Succeeded)
  {
  }

  lemma StepKeeps(wf: Workflow, s: Sys, a: Action)
    requires Inv(wf, s)
    ensures Inv(wf, Next(wf, s, a))
  {
    hide WorkerStep;
    hide HandlerStep;
    hide StepsOk;
    hide IsReady;
    hide IsTask;
    hide IsDone;
    if OfWorker(a) { WorkerKeeps(wf, s, a); } else if !a.Tick? { HandlerOutput(s, a); }
  }

  lemma {:induction false} RunKeeps(wf: Workflow, maxAttempts: int, actions: seq<Action>)
    ensures Inv(wf, Run(wf, Initial(maxAttempts), actions))
  {
    hide Next;
    hide StepsOk;
    hide IsDone;
    if actions != [] {
      var n := |actions| - 1;
      RunKeeps(wf, maxAttempts, actions[..n]);
      StepKeeps(wf, Run(wf, Initial(maxAttempts), actions[..n]), actions[n]);
    }
  }

  // ---------------------------------------------------------------- what follows for whole runs

  /** In every run, calm or not: a succeeded run has recorded exactly the least set of nodes closed under
      "all incoming edges satisfied", with the steps of every uninterrupted execution that stops. */
  lemma {:induction false} SucceededIsComplete(wf: Workflow, maxAttempts: int, actions: seq<Action>)
    ensures var row := Run(wf, Initial(maxAttempts), actions).row;
      row.status == Succeeded ==>
        && row.output.Some? && G.BranchesFollowed(wf.graph, row.output.value)
        && G.LeastClosed(wf.graph, wf.results, G.IndexOf(row.output.value).Keys)
        && forall straight: Steps ::
             G.Trace(wf.graph, wf.results, straight) && IsDone(wf, straight) ==> G.IndexOf(straight) == G.IndexOf(row.output.value)
  {
    hide Next;
    hide G.Trace;
    hide G.LeastClosed;
    hide G.BranchesFollowed;
    hide G.NoneReady;
    hide G.IndexOf;
    RunKeeps(wf, maxAttempts, actions);
    var row := Run(wf, Initial(maxAttempts), actions).row;
    if row.status == Succeeded {
      var steps := row.output.value;
      G.StopsAtLeast(wf.graph, wf.results, steps);
      G.StopFollowsBranches(wf.graph, wf.results, steps);
      forall straight: Steps | G.Trace(wf.graph, wf.results, straight) && IsDone(wf, straight)
        ensures G.IndexOf(straight) == G.IndexOf(steps)
      {
        G.Confluence(wf.graph, wf.results, straight, steps);
      }
    }
  }

  /** And every task node among them has been executed, with the policy's permission. */
  lemma {:induction false} SucceededWasPermitted(wf: Workflow, maxAttempts: int, actions: seq<Action>, i: nat)
    requires var row := Run(wf, Initial(maxAttempts), actions).row;
             row.status == Succeeded && row.output.Some? && i < |row.output.value| && IsTask(wf, row.output.value[i].nodeId)
    ensures var s := Run(wf, Initial(maxAttempts), actions);
      exists e :: e in s.executions && e.node == s.row.output.value[i].nodeId && Permitted(wf, s.approvals, e)
  {
    hide Next;
    hide Permitted;
    hide IsTask;
    hide G.Trace;
    hide IsDone;
    RunKeeps(wf, maxAttempts, actions);
    PolicySafety(wf, maxAttempts, actions);
    var s := Run(wf, Initial(maxAttempts), actions);
    var node := s.row.output.value[i].nodeId;
    assert WasExecuted(s.executions, node);
    var k :| 0 <= k < |s.executions| && s.executions[k].node == node;
    assert s.executions[k] in s.executions;
  }

  /** If some execution of the graph gets to a node that fails, no run of the workflow ever succeeds, whatever
      order it takes and however often it is tried. */
  lemma {:induction false} FailingNeverSucceeds(wf: Workflow, maxAttempts: int, actions: seq<Action>, steps: Steps, node: Id)
    requires G.Trace(wf.graph, wf.results, steps) && IsReady(wf, steps, node) && NodeResult(wf, steps, node).Fails?
    ensures Run(wf, Initial(maxAttempts), actions).row.status != Succeeded
  {
    hide Next;
    hide G.Trace;
    hide G.NoneReady;
    hide G.Perform;
    hide G.Ready;
    RunKeeps(wf, maxAttempts, actions);
    var row := Run(wf, Initial(maxAttempts), actions).row;
    G.ReadyIsNode(wf.graph, G.IndexOf(steps), node);
    if row.status == Succeeded { G.FailureIsUnavoidable(wf.graph, wf.results, steps, node, row.output.value); }
  }
}
