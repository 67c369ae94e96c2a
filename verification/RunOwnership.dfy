/** Who may write to the run row at which moment. Most updates of the row are not guarded by its status;
    what keeps them in order is that at any time one party owns the run: the worker with the job, the
    handler that has cleared the block, or the request the run is blocked on. Two writes do not respect
    this, because they come from a party that no longer knows whether it is still the owner: the failure
    write of a continuation, and that of an approve handler whose enqueue threw after the job had reached
    the queue. A run in which these two come in time is called calm. */
module RunOwnership {
  import opened Common
  import opened RunTable
  import opened RunProtocol
  import opened RunSafety

  // ---------------------------------------------------------------- the invariant

  /** A handler that has cleared the block: until it ends, the run is its own. */
  predicate Owns(x: Handler) {
    x.Enqueueing? || x.FailingRun?
  }

  /** The worker is between the start of an attempt and its next write to the block or status fields. */
  predicate Working(w: Worker) {
    w.Active? || w.Denying? || w.Checking? || w.Asking? || w.Cleared? || w.Blocking?
  }

  /** What the worker may rely on. */
  ghost predicate WorkerOk(row: Row, w: Worker) {
    && (w.Loaded? && w.starting ==> row.status == Queued && w.attempt == row.attemptCount + 1)
    && (Working(w) || (w.Loaded? && !w.starting) ==>
          row.status == Running && row.blockedRequestId.None? && w.attempt == row.attemptCount)
    && (w.Polling? ==> w.attempt == row.attemptCount && (row.status == Running || row.status == Target(row, w.attempt)))
    && (w.Finishing? ==> w.attempt == row.attemptCount && row.status == Succeeded)
    && (w.Failing? ==> w.attempt == row.attemptCount)
    && (w.Failing? ==> row.status == Running || row.status == Target(row, w.attempt) || row.status == Succeeded)
    && (w.Failing? && w.denied ==> row.status == Running && row.blockedRequestId.None?)
  }

  ghost predicate RowSide(s: Sys) {
    && RowInv(s.row) && WorkerOk(s.row, s.worker)
    && (!s.worker.Idle? ==> s.job)
    && (s.worker.Blocking? ==> s.worker.req < s.nextReq && (s.worker.req in s.approvals <==> s.worker.forApproval))
    && (s.row.blockedRequestId.Some? ==> s.row.blockedRequestId.value < s.nextReq)
    && (s.row.blockedRequestId.Some? && s.row.blockedRequestId.value in s.approvals ==> s.worker.Idle? && !s.job)
  }

  ghost predicate HandlerOk(s: Sys, x: Handler) {
    && (Owns(x) ==> s.worker.Idle? && !s.job && s.row.blockedRequestId.None? && (s.row.status == Running || s.row.status == Failed))
    && (x.Clearing? ==> BlockedOn(s.row, x.req))
    && (x.ContinuationFailing? ==> x.req !in s.approvals && x.req < s.nextReq)
  }

  ghost predicate HandlersSide(s: Sys, handlers: Handlers) {
    && (forall h :: h in handlers ==> HandlerOk(s, handlers[h]))
    && (forall h, k :: h in handlers && k in handlers && Owns(handlers[h]) && Owns(handlers[k]) ==> h == k)
  }

  ghost predicate Inv(s: Sys) {
    Numbered(s) && DecisionsOk(s) && RowSide(s) && HandlersSide(s, s.handlers)
  }

  /** The run waits for its job: nobody has picked it up, blocked it or finished it. */
  predicate Waiting(s: Sys) {
    s.worker.Idle? && s.row.status == Running && s.row.blockedRequestId.None?
  }

  predicate FailsRemotely(s: Sys, a: Action) {
    a.ContinuationFail? && a.h in s.handlers && s.handlers[a.h].ContinuationFailing?
  }

  predicate Compensates(s: Sys, a: Action) {
    a.HandlerFailRun? && a.h in s.handlers && s.handlers[a.h].Compensating?
  }

  /** A continuation's failure write comes while the run is still blocked on its request, and a
      compensating one while the run still waits; all other actions are unrestricted. */
  predicate Calm(s: Sys, a: Action) {
    && (FailsRemotely(s, a) ==> BlockedOn(s.row, s.handlers[a.h].req) && s.handlers[a.h].attempt == s.row.attemptCount)
    && (Compensates(s, a) ==> Waiting(s))
  }

  ghost predicate CalmRun(wf: Workflow, s: Sys, actions: seq<Action>) {
    forall i :: 0 <= i < |actions| ==> Calm(Run(wf, s, actions[..i]), actions[i])
  }

  // ---------------------------------------------------------------- changing one handler at a time

  lemma HandlerRemoved(s: Sys, handlers: Handlers, h: nat)
    requires HandlersSide(s, handlers)
    ensures HandlersSide(s, handlers - {h})
  {
  }

  lemma HandlerSet(s: Sys, handlers: Handlers, h: nat, x: Handler)
    requires HandlersSide(s, handlers) && HandlerOk(s, x)
    requires Owns(x) ==> forall k :: k in handlers && k != h ==> !Owns(handlers[k])
    ensures HandlersSide(s, handlers[h := x])
  {
  }

  /** Handlers that are neither clearing nor owners do not mind what happens to the row. */
  ghost predicate Aloof(handlers: Handlers) {
    forall h :: h in handlers ==> !Owns(handlers[h]) && !handlers[h].Clearing?
  }

  lemma AloofStay(s: Sys, t: Sys, handlers: Handlers)
    requires HandlersSide(s, handlers) && Aloof(handlers) && Grows(s, t)
    ensures HandlersSide(t, handlers)
  {
  }

  /** While there is a job all handlers are aloof. */
  lemma JobMeansAloof(s: Sys)
    requires Inv(s) && s.job
    ensures Aloof(s.handlers)
  {
    forall h | h in s.handlers
      ensures !Owns(s.handlers[h]) && !s.handlers[h].Clearing?
    {
      assert HandlerOk(s, s.handlers[h]) && Backed(s.approvals, s.woken + s.rejected, s.handlers[h]);
    }
  }

  /** So are they while the run is blocked on a remote request. */
  lemma RemoteMeansAloof(s: Sys)
    requires Inv(s) && s.row.blockedRequestId.Some? && s.row.blockedRequestId.value !in s.approvals
    ensures Aloof(s.handlers)
  {
    forall h | h in s.handlers
      ensures !Owns(s.handlers[h]) && !s.handlers[h].Clearing?
    {
      assert HandlerOk(s, s.handlers[h]) && Backed(s.approvals, s.woken + s.rejected, s.handlers[h]);
    }
  }

  /** While the run is not blocked nobody is clearing. */
  lemma UnblockedMeansNoneClearing(s: Sys, handlers: Handlers)
    requires HandlersSide(s, handlers) && s.row.blockedRequestId.None?
    ensures forall h :: h in handlers ==> !handlers[h].Clearing?
  {
  }

  // ---------------------------------------------------------------- the worker's steps

  lemma LoadSide(s: Sys, rules: seq<Policy.Rule>)
    requires RowSide(s)
    ensures RowSide(Load(s, rules))
  {
  }

  lemma UnpublishedSide(s: Sys, eventOk: bool)
    requires RowSide(s)
    ensures RowSide(Unpublished(s, eventOk))
  {
  }

  lemma BeginSide(s: Sys)
    requires RowSide(s)
    ensures RowSide(Begin(s))
  {
  }

  lemma BuiltinSide(wf: Workflow, s: Sys, node: WorkflowGraph.Id)
    requires RowSide(s)
    ensures RowSide(Builtin(wf, s, node))
  {
  }

  lemma PickSide(wf: Workflow, s: Sys, node: WorkflowGraph.Id)
    requires RowSide(s)
    ensures RowSide(Pick(wf, s, node))
  {
    hide EffectOn;
  }

  lemma CheckSide(s: Sys, found: Option<nat>)
    requires RowSide(s)
    ensures RowSide(Check(s, found))
  {
    hide RowInv;
  }

  lemma AskSide(s: Sys, ttlMs: nat)
    requires RowSide(s) && Numbered(s)
    ensures RowSide(Ask(s, ttlMs))
  {
    hide RowInv;
  }

  lemma ExecuteSide(wf: Workflow, s: Sys, outcome: NodeOutcome)
    requires RowSide(s) && Numbered(s)
    ensures RowSide(Execute(wf, s, outcome))
  {
  }

  lemma BlockSide(wf: Workflow, s: Sys)
    requires RowSide(s)
    ensures RowSide(Block(wf, s))
  {
  }

  lemma FinishSide(wf: Workflow, s: Sys)
    requires RowSide(s)
    ensures RowSide(Finish(wf, s))
  {
  }

  lemma FailSide(s: Sys, eventOk: bool)
    requires RowSide(s)
    ensures RowSide(Fail(s, eventOk))
  {
  }

  /** Steps that only move the worker. */
  lemma MoveSide(s: Sys, eventOk: bool)
    requires RowSide(s)
    ensures RowSide(DenyNode(s, eventOk)) && RowSide(Polled(s)) && RowSide(Throw(s))
  {
    hide RowInv;
  }

  lemma EndSide(s: Sys, eventOk: bool)
    requires RowSide(s)
    ensures RowSide(End(s, eventOk))
    ensures RowSide(s.(worker := Idle)) && (s.worker.Idle? ==> RowSide(s.(job := false)))
  {
    hide RowInv;
  }

  lemma OpeningSide(wf: Workflow, s: Sys, a: Action)
    requires RowSide(s) && Numbered(s) && Opening(a)
    ensures RowSide(OpeningStep(wf, s, a))
  {
    hide RowSide;
    hide WorkerFrame;
    match a
    case WorkerLoad(rules) => LoadSide(s, rules);
    case WorkerUnpublished(eventOk) => UnpublishedSide(s, eventOk);
    case WorkerBegin => BeginSide(s);
    case WorkerBuiltin(node) => BuiltinSide(wf, s, node);
    case WorkerPick(node) => PickSide(wf, s, node);
    case WorkerDeny(eventOk) => MoveSide(s, eventOk);
    case WorkerCheck(found) => CheckSide(s, found);
    case WorkerAsk(ttlMs) => AskSide(s, ttlMs);
  }

  lemma ClosingSide(wf: Workflow, s: Sys, a: Action)
    requires RowSide(s) && Numbered(s) && OfWorker(a) && !Opening(a)
    ensures RowSide(ClosingStep(wf, s, a))
  {
    hide RowSide;
    hide WorkerFrame;
    match a
    case WorkerExecute(outcome) => ExecuteSide(wf, s, outcome);
    case WorkerBlock => BlockSide(wf, s);
    case WorkerPolled => MoveSide(s, true);
    case WorkerThrow => MoveSide(s, true);
    case WorkerFinish => FinishSide(wf, s);
    case WorkerEnd(eventOk) => EndSide(s, eventOk);
    case WorkerFail(eventOk) => FailSide(s, eventOk);
    case WorkerCrash => EndSide(s, true);
    case JobLost => EndSide(s, true);
  }

  lemma WorkerSide(wf: Workflow, s: Sys, a: Action)
    requires RowSide(s) && Numbered(s) && OfWorker(a)
    ensures RowSide(WorkerStep(wf, s, a))
  {
    hide RowSide;
    hide OpeningStep;
    hide ClosingStep;
    if Opening(a) { OpeningSide(wf, s, a); } else { ClosingSide(wf, s, a); }
  }

  /** Without a job, the worker's steps change nothing. */
  lemma NoJobNoStep(wf: Workflow, s: Sys, a: Action)
    requires RowSide(s) && !s.job && OfWorker(a)
    ensures WorkerStep(wf, s, a) == s
  {
    hide RowInv;
    hide WorkerOk;
    hide EffectOn;
    hide Grants;
    hide FailOrRetry;
  }

  lemma WorkerKeeps(wf: Workflow, s: Sys, a: Action)
    requires Inv(s) && OfWorker(a)
    ensures RowSide(WorkerStep(wf, s, a)) && HandlersSide(WorkerStep(wf, s, a), s.handlers)
  {
    hide WorkerStep;
    hide RowSide;
    hide HandlersSide;
    hide DecisionsOk;
    hide Numbered;
    hide Grows;
    WorkerSide(wf, s, a);
    if s.job {
      JobMeansAloof(s);
      WorkerGrows(wf, s, a);
      AloofStay(s, WorkerStep(wf, s, a), s.handlers);
    } else {
      NoJobNoStep(wf, s, a);
    }
  }
}
