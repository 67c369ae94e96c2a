/** What is saved, and when: the row of a run holds what the worker has recorded, after every step and after
    every block, so that whoever resumes the run goes on from there. Everything holds in every run, whatever
    writes come late. */
module RunCheckpoints {
  import opened Common
  import opened WorkflowGraph
  import opened RunTable
  import opened RunProtocol
  import opened RunSafety
  import opened RunSteps
  import Policy
  import G = GraphExecutor
  import C = RunCompletion

  /** The steps that a job would resume from. */
  function Saved(row: Row): Steps {
    if row.output.Some? then row.output.value else []
  }

  /** The worker works with what is saved, under the current attempt; a job that starts an attempt starts the
      next one. */
  ghost predicate InStep(s: Sys) {
    && (C.HasSteps(s.worker) ==> Saved(s.row) == s.worker.steps)
    && (C.HasSteps(s.worker) && s.worker.steps != [] ==> s.row.output == Some(s.worker.steps))
    && (s.row.status == Running ==> s.row.attemptCount >= 1)
    && (s.worker.Loaded? && s.worker.starting ==> s.worker.attempt == s.row.attemptCount + 1)
    && (s.worker.Loaded? && !s.worker.starting ==> s.worker.attempt == s.row.attemptCount)
  }

  /** From `s` to `t` nothing that was saved is lost, unless a new attempt has begun. */
  predicate Keeps(s: Sys, t: Sys) {
    s.row.attemptCount < t.row.attemptCount || (s.row.attemptCount == t.row.attemptCount && Saved(s.row) <= Saved(t.row))
  }

  lemma OpeningInStep(wf: Workflow, s: Sys, a: Action)
    requires InStep(s) && Opening(a) && !a.WorkerBuiltin?
    ensures InStep(OpeningStep(wf, s, a)) && Keeps(s, OpeningStep(wf, s, a))
  {
    hide IsReady;
    hide IsTask;
    hide EffectOn;
    hide Grants;
  }

  lemma ClosingInStep(wf: Workflow, s: Sys, a: Action)
    requires InStep(s) && C.Inv(wf, s) && OfWorker(a) && !Opening(a) && !a.WorkerExecute?
    ensures InStep(ClosingStep(wf, s, a)) && Keeps(s, ClosingStep(wf, s, a))
  {
    hide IsDone;
    hide TypeName;
    hide C.WorkerSteps;
    hide C.RowSteps;
  }

  /** A recorded step is saved at once. */
  lemma RecordInStep(wf: Workflow, s: Sys, node: Id, outcome: NodeOutcome)
    requires InStep(s)
    ensures InStep(Builtin(wf, s, node)) && Keeps(s, Builtin(wf, s, node))
    ensures InStep(Execute(wf, s, outcome)) && Keeps(s, Execute(wf, s, outcome))
  {
    hide IsReady;
    hide IsTask;
    hide NodeResult;
  }

  lemma HandlerInStep(s: Sys, a: Action)
    requires InStep(s) && !OfWorker(a) && !a.Tick?
    ensures InStep(HandlerStep(s, a)) && Keeps(s, HandlerStep(s, a))
  {
    hide HandlerStep;
    C.HandlerOutput(s, a);
    HandlerAttempt(s, a);
  }

  lemma HandlerAttempt(s: Sys, a: Action)
    requires !OfWorker(a) && !a.Tick?
    ensures var t := HandlerStep(s, a);
      t.row.attemptCount == s.row.attemptCount && (t.row.status == Running ==> s.row.status == Running)
  {
  }

  lemma StepInStep(wf: Workflow, s: Sys, a: Action)
    requires InStep(s) && C.Inv(wf, s)
    ensures InStep(Next(wf, s, a)) && Keeps(s, Next(wf, s, a))
  {
    hide OpeningStep;
    hide ClosingStep;
    hide HandlerStep;
    hide C.Inv;
    if a.WorkerBuiltin? || a.WorkerExecute? {
      RecordsInStep(wf, s, a);
    } else if OfWorker(a) {
      if Opening(a) { OpeningInStep(wf, s, a); } else { ClosingInStep(wf, s, a); }
    } else if !a.Tick? {
      HandlerInStep(s, a);
    }
  }

  lemma RecordsInStep(wf: Workflow, s: Sys, a: Action)
    requires InStep(s) && (a.WorkerBuiltin? || a.WorkerExecute?)
    ensures InStep(Next(wf, s, a)) && Keeps(s, Next(wf, s, a))
  {
    hide Builtin;
    hide Execute;
    hide InStep;
    if a.WorkerBuiltin? { RecordInStep(wf, s, a.node, NodeRan); } else { RecordInStep(wf, s, Id(""), a.outcome); }
  }

  lemma {:induction false} RunInStep(wf: Workflow, maxAttempts: int, actions: seq<Action>)
    ensures InStep(Run(wf, Initial(maxAttempts), actions))
  {
    hide Next;
    hide InStep;
    hide C.Inv;
    if actions != [] {
      var n := |actions| - 1;
      RunInStep(wf, maxAttempts, actions[..n]);
      C.RunKeeps(wf, maxAttempts, actions[..n]);
      StepInStep(wf, Run(wf, Initial(maxAttempts), actions[..n]), actions[n]);
    } else {
      InitialInStep(maxAttempts);
    }
  }

  lemma InitialInStep(maxAttempts: int)
    ensures InStep(Initial(maxAttempts))
  {
  }

  /** While the worker has steps they are saved; after a block, for an approval or a remote call alike, so are
      the steps it blocked with. */
  lemma {:induction false} CheckpointHolds(wf: Workflow, maxAttempts: int, actions: seq<Action>)
    ensures var s := Run(wf, Initial(maxAttempts), actions);
      (C.HasSteps(s.worker) ==> Saved(s.row) == s.worker.steps)
      && (C.HasSteps(s.worker) && s.worker.steps != [] ==> s.row.output == Some(s.worker.steps))
    ensures var s, t := Run(wf, Initial(maxAttempts), actions), Run(wf, Initial(maxAttempts), actions + [WorkerBlock]);
      s.worker.Blocking? ==> t.row.output == Some(s.worker.steps) && t.row.blockedRequestId == Some(s.worker.req)
  {
    hide Next;
    RunInStep(wf, maxAttempts, actions);
    RunMore(wf, Initial(maxAttempts), actions, WorkerBlock);
    if Run(wf, Initial(maxAttempts), actions).worker.Blocking? { BlockSaves(wf, Run(wf, Initial(maxAttempts), actions)); }
  }

  lemma BlockSaves(wf: Workflow, s: Sys)
    requires s.worker.Blocking?
    ensures var t := Next(wf, s, WorkerBlock); t.row.output == Some(s.worker.steps) && t.row.blockedRequestId == Some(s.worker.req)
  {
    hide TypeName;
  }

  /** Within an attempt nothing that was saved is ever lost. */
  lemma {:induction false} NothingIsLost(wf: Workflow, maxAttempts: int, actions: seq<Action>, i: nat, j: nat)
    requires i <= j <= |actions|
    ensures Keeps(Run(wf, Initial(maxAttempts), actions[..i]), Run(wf, Initial(maxAttempts), actions[..j]))
    decreases j
  {
    hide Next;
    hide InStep;
    hide C.Inv;
    hide Initial;
    if i < j {
      var s := Run(wf, Initial(maxAttempts), actions[..j - 1]);
      NothingIsLost(wf, maxAttempts, actions, i, j - 1);
      RunInStep(wf, maxAttempts, actions[..j - 1]);
      C.RunKeeps(wf, maxAttempts, actions[..j - 1]);
      StepInStep(wf, s, actions[j - 1]);
      RunStep(wf, Initial(maxAttempts), actions, j - 1);
    }
  }

  /** Between the worker's last step and the next job nothing changes what is saved. */
  lemma {:induction false} SavedStays(wf: Workflow, maxAttempts: int, actions: seq<Action>, i: nat, j: nat)
    requires i < j <= |actions| && C.HasSteps(Run(wf, Initial(maxAttempts), actions[..i]).worker)
    requires forall k :: i < k < j ==> !C.HasSteps(Run(wf, Initial(maxAttempts), actions[..k]).worker)
    requires Run(wf, Initial(maxAttempts), actions[..j]).row.attemptCount == Run(wf, Initial(maxAttempts), actions[..i]).row.attemptCount
    requires C.HasSteps(Run(wf, Initial(maxAttempts), actions[..j]).worker) ==> actions[j - 1] == WorkerBegin
    ensures Saved(Run(wf, Initial(maxAttempts), actions[..j]).row) == Run(wf, Initial(maxAttempts), actions[..i]).worker.steps
    decreases j
  {
    hide Next;
    hide InStep;
    hide C.Inv;
    hide Initial;
    var s, a := Run(wf, Initial(maxAttempts), actions[..j - 1]), actions[j - 1];
    RunInStep(wf, maxAttempts, actions[..j - 1]);
    C.RunKeeps(wf, maxAttempts, actions[..j - 1]);
    RunStep(wf, Initial(maxAttempts), actions, j - 1);
    NothingIsLost(wf, maxAttempts, actions, i, j - 1);
    StepInStep(wf, s, a);
    if i < j - 1 {
      SavedStays(wf, maxAttempts, actions, i, j - 1);
    }
    QuietStep(wf, s, a);
  }

  /** A step saves something else only if the worker has steps and goes on with others. */
  lemma QuietStep(wf: Workflow, s: Sys, a: Action)
    requires InStep(s) && C.Inv(wf, s)
    requires !C.HasSteps(Next(wf, s, a).worker) || a == WorkerBegin
    requires Next(wf, s, a).row.attemptCount == s.row.attemptCount
    ensures Saved(Next(wf, s, a).row) == Saved(s.row)
    ensures C.HasSteps(s.worker) ==> Saved(s.row) == s.worker.steps
  {
    hide WorkerStep;
    hide HandlerStep;
    hide C.Inv;
    if OfWorker(a) {
      QuietWorker(wf, s, a);
    } else if !a.Tick? {
      C.HandlerOutput(s, a);
    }
  }

  lemma QuietWorker(wf: Workflow, s: Sys, a: Action)
    requires InStep(s) && OfWorker(a) && (!C.HasSteps(WorkerStep(wf, s, a).worker) || a == WorkerBegin)
    requires WorkerStep(wf, s, a).row.attemptCount == s.row.attemptCount
    ensures Saved(WorkerStep(wf, s, a).row) == Saved(s.row)
  {
    hide OpeningStep;
    hide ClosingStep;
    hide InStep;
    if Opening(a) { QuietOpening(wf, s, a); } else { QuietClosing(wf, s, a); }
  }

  lemma QuietOpening(wf: Workflow, s: Sys, a: Action)
    requires InStep(s) && Opening(a) && (!C.HasSteps(OpeningStep(wf, s, a).worker) || a == WorkerBegin)
    requires OpeningStep(wf, s, a).row.attemptCount == s.row.attemptCount
    ensures Saved(OpeningStep(wf, s, a).row) == Saved(s.row)
  {
    hide IsReady;
    hide IsTask;
    hide EffectOn;
    hide Grants;
    hide NodeResult;
  }

  lemma QuietClosing(wf: Workflow, s: Sys, a: Action)
    requires InStep(s) && OfWorker(a) && !Opening(a) && !C.HasSteps(ClosingStep(wf, s, a).worker)
    ensures Saved(ClosingStep(wf, s, a).row) == Saved(s.row)
  {
    hide IsDone;
    hide NodeResult;
    hide TypeName;
  }

  /** Whoever resumes the run, after a crash, an approval or a remote result, goes on with exactly the steps
      the last worker had. */
  lemma {:induction false} ResumesWhereItWas(wf: Workflow, maxAttempts: int, actions: seq<Action>, i: nat, j: nat)
    requires i < j <= |actions| && C.HasSteps(Run(wf, Initial(maxAttempts), actions[..i]).worker)
    requires forall k :: i < k < j ==> !C.HasSteps(Run(wf, Initial(maxAttempts), actions[..k]).worker)
    requires Run(wf, Initial(maxAttempts), actions[..j]).worker.Active? && actions[j - 1] == WorkerBegin
    requires Run(wf, Initial(maxAttempts), actions[..j]).row.attemptCount == Run(wf, Initial(maxAttempts), actions[..i]).row.attemptCount
    ensures Run(wf, Initial(maxAttempts), actions[..j]).worker.steps == Run(wf, Initial(maxAttempts), actions[..i]).worker.steps
  {
    hide Next;
    hide Initial;
    SavedStays(wf, maxAttempts, actions, i, j);
    RunInStep(wf, maxAttempts, actions[..j]);
  }

  /** Within an attempt no node is executed, or run in place, again once its step has been saved. */
  lemma {:induction false} NotExecutedAgain(wf: Workflow, maxAttempts: int, actions: seq<Action>, i: nat, j: nat, node: Id)
    requires i <= j <= |actions|
    requires G.Executed(Saved(Run(wf, Initial(maxAttempts), actions[..i]).row), node)
    requires Run(wf, Initial(maxAttempts), actions[..j]).row.attemptCount == Run(wf, Initial(maxAttempts), actions[..i]).row.attemptCount
    ensures var w := Run(wf, Initial(maxAttempts), actions[..j]).worker;
      && (w.Cleared? ==> w.node != node)
      && (w.Active? ==> !IsReady(wf, w.steps, node))
  {
    hide Next;
    hide Initial;
    var s, t := Run(wf, Initial(maxAttempts), actions[..i]), Run(wf, Initial(maxAttempts), actions[..j]);
    NothingIsLost(wf, maxAttempts, actions, i, j);
    RunInStep(wf, maxAttempts, actions[..j]);
    C.RunKeeps(wf, maxAttempts, actions[..j]);
    if C.HasSteps(t.worker) {
      assert G.Executed(t.worker.steps, node) by {
        var k :| 0 <= k < |Saved(s.row)| && Saved(s.row)[k].nodeId == node;
        assert t.worker.steps[k].nodeId == node;
      }
      ExecutedNotReady(wf, t.worker.steps, node);
    }
  }

  lemma {:induction false} ExecutedNotReady(wf: Workflow, steps: Steps, node: Id)
    requires G.Trace(wf.graph, wf.results, steps) && G.Executed(steps, node)
    ensures !IsReady(wf, steps, node)
  {
    G.IndexIsSteps(wf.graph, wf.results, steps, node);
  }

  /** A remote result takes the run on from where it was blocked: the next job has the saved steps. */
  lemma {:induction false} RemoteResultResumes(wf: Workflow, maxAttempts: int, actions: seq<Action>, req: nat, rules: seq<Policy.Rule>)
    requires var s := Run(wf, Initial(maxAttempts), actions);
      s.worker.Idle? && s.row.status == Running && s.row.blockedRequestId == Some(req) && req !in s.approvals
    ensures var s := Run(wf, Initial(maxAttempts), actions);
      var t := Run(wf, s, [RemoteResult(req), WorkerLoad(rules), WorkerBegin]);
      && t.worker == Active(s.row.attemptCount, rules, Saved(s.row)) && t.job
      && t.row.status == Running && t.row.blockedRequestId.None? && t.row.output == s.row.output && t.row.attemptCount == s.row.attemptCount
  {
    hide Next;
    var s := Run(wf, Initial(maxAttempts), actions);
    RunInStep(wf, maxAttempts, actions);
    RunTwo(wf, s, RemoteResult(req), WorkerLoad(rules));
    RunMore(wf, s, [RemoteResult(req), WorkerLoad(rules)], WorkerBegin);
    assert [RemoteResult(req), WorkerLoad(rules)] + [WorkerBegin] == [RemoteResult(req), WorkerLoad(rules), WorkerBegin];
    hide Run;
    ArrivalIs(wf, s, req);
    var arrived := Next(wf, s, RemoteResult(req));
    LoadStep(wf, arrived, rules);
    BeginStep(wf, Next(wf, arrived, WorkerLoad(rules)));
  }

  lemma ArrivalIs(wf: Workflow, s: Sys, req: nat)
    requires s.row.status == Running && s.row.blockedRequestId == Some(req) && req !in s.approvals
    ensures var t := Next(wf, s, RemoteResult(req));
      && t == s.(row := t.row, job := true) && t.row.status == Running && t.row.blockedRequestId.None?
      && t.row.output == s.row.output && t.row.attemptCount == s.row.attemptCount
  {
  }

  /** A remote failure fails the run in its last attempt, and otherwise queues it for the next one after the
      delay. */
  lemma RemoteFailureIs(wf: Workflow, s: Sys, h: nat, req: nat, delayMs: nat)
    requires h !in s.handlers && s.row.status == Running && s.row.blockedRequestId == Some(req) && req !in s.approvals
    ensures var t := Run(wf, s, [ContinuationRead(h, req), ContinuationFail(h, delayMs)]);
      && t.row.attemptCount == s.row.attemptCount && t.row.blockedRequestId.None? && t.row.output == s.row.output
      && if s.row.attemptCount >= s.row.maxAttempts
         then t.row.status == Failed && t.row.finishedAt == Some(s.now) && t.job == s.job
         else t.row.status == Queued && t.row.nextAttemptAt == Some(s.now + delayMs) && t.job
  {
    RunTwo(wf, s, ContinuationRead(h, req), ContinuationFail(h, delayMs));
    hide Run;
  }
}
