/** What one enabled step of the protocol does, for those who build runs out of steps: the worker's steps, and
    those of a single handler, number 0. */
module RunSteps {
  import opened Common
  import opened Policy
  import opened WorkflowGraph
  import opened RunTable
  import opened RunProtocol
  import G = GraphExecutor

  // ---------------------------------------------------------------- the worker

  lemma LoadStep(wf: Workflow, s: Sys, rules: seq<Rule>)
    requires s.worker == Idle && s.job && !Final(s.row) && (s.row.status == Queued || s.row.blockedRequestId.None?)
    ensures Next(wf, s, WorkerLoad(rules)) ==
      s.(worker := if s.row.status == Queued then Loaded(s.row.attemptCount + 1, true, rules)
                   else Loaded(Max(1, s.row.attemptCount), false, rules))
  {
  }

  /** A job that finds nothing to do. */
  lemma IdleLoadStep(wf: Workflow, s: Sys, rules: seq<Rule>)
    requires s.worker == Idle
    requires !s.job || Final(s.row) || (s.row.status == Running && s.row.blockedRequestId.Some?)
    ensures Next(wf, s, WorkerLoad(rules)) == s.(job := false)
  {
  }

  lemma BeginStep(wf: Workflow, s: Sys)
    requires s.worker.Loaded?
    ensures var w := s.worker;
      Next(wf, s, WorkerBegin) ==
        if w.starting then s.(row := MarkRunning(s.row, w.attempt, s.now), worker := Active(w.attempt, w.rules, []))
        else s.(worker := Active(w.attempt, w.rules, if s.row.output.Some? then s.row.output.value else []))
  {
    hide MarkRunning;
  }

  lemma UnpublishedStep(wf: Workflow, s: Sys, eventOk: bool)
    requires s.worker.Loaded?
    ensures Next(wf, s, WorkerUnpublished(eventOk)) ==
      s.(row := MarkFailed(s.row, "WORKFLOW_NOT_PUBLISHED", s.now), worker := Idle, job := !eventOk)
  {
    hide MarkFailed;
  }

  lemma BuiltinStep(wf: Workflow, s: Sys, node: Id)
    requires s.worker.Active? && IsReady(wf, s.worker.steps, node) && !IsTask(wf, node)
    ensures Next(wf, s, WorkerBuiltin(node)) ==
      RecordResult(wf, s, s.worker.attempt, s.worker.rules, s.worker.steps, node, false)
  {
    hide IsReady;
    hide IsTask;
    hide RecordResult;
  }

  lemma PickStep(wf: Workflow, s: Sys, node: Id, attempt: nat, rules: seq<Rule>, steps: Steps)
    requires s.worker == Active(attempt, rules, steps) && IsReady(wf, steps, node) && IsTask(wf, node)
    ensures Next(wf, s, WorkerPick(node)) == match EffectOn(wf, rules, node)
      case Allow => s.(worker := Cleared(attempt, rules, steps, node, None, s.now))
      case Deny => s.(worker := Denying(attempt))
      case RequireApproval => s.(worker := Checking(attempt, rules, steps, node))
  {
    hide IsReady;
    hide IsTask;
    hide EffectOn;
  }

  lemma DenyStep(wf: Workflow, s: Sys, eventOk: bool)
    requires s.worker.Denying?
    ensures Next(wf, s, WorkerDeny(eventOk)) == s.(worker := Failing(s.worker.attempt, eventOk))
  {
  }

  lemma CheckStep(wf: Workflow, s: Sys, node: Id, attempt: nat, rules: seq<Rule>, steps: Steps, found: Option<nat>)
    requires s.worker == Checking(attempt, rules, steps, node)
    requires if found.Some? then Grants(s, found.value, node) else forall r :: r in s.approvals ==> !Grants(s, r, node)
    ensures Next(wf, s, WorkerCheck(found)) ==
      s.(worker := if found.Some? then Cleared(attempt, rules, steps, node, found, s.now) else Asking(attempt, rules, steps, node))
  {
    hide Grants;
  }

  lemma AskStep(wf: Workflow, s: Sys, ttlMs: nat)
    requires s.worker.Asking?
    ensures var w, expiresAt := s.worker, s.now + Max(60000, ttlMs);
      Next(wf, s, WorkerAsk(ttlMs)) ==
        s.(approvals := s.approvals[s.nextReq := Approval(w.node, Pending, expiresAt)], nextReq := s.nextReq + 1,
           worker := Blocking(w.attempt, w.steps, w.node, s.nextReq, true, expiresAt))
  {
  }

  /** The execution that a call adds to the history. */
  function CallOf(w: Worker): Execution
    requires w.Cleared?
  {
    Execution(w.node, w.rules, w.permit, w.checkedAt)
  }

  lemma ExecuteStep(wf: Workflow, s: Sys, outcome: NodeOutcome)
    requires s.worker.Cleared?
    ensures var w, s1 := s.worker, s.(executions := s.executions + [CallOf(s.worker)]);
      Next(wf, s, WorkerExecute(outcome)) == match outcome
        case NodeRan => RecordResult(wf, s1, w.attempt, w.rules, w.steps, w.node, true)
        case NodeFailed(likeDenial) => s1.(worker := Failing(w.attempt, likeDenial))
        case NodeBlocked(timeoutMs) =>
          s1.(nextReq := s.nextReq + 1, worker := Blocking(w.attempt, w.steps, w.node, s.nextReq, false, s.now + timeoutMs))
  {
    hide RecordResult;
  }

  lemma BlockStep(wf: Workflow, s: Sys)
    requires s.worker.Blocking?
    ensures var w := s.worker;
      var row := MarkBlocked(s.row, 0, w.req, w.node.name, TypeName(wf, w.node), if w.forApproval then "approval" else "remote",
                             s.now, w.timeoutAt, w.steps);
      Next(wf, s, WorkerBlock) ==
        if w.forApproval then s.(row := row, worker := Idle, job := false) else s.(row := row, worker := Polling(w.attempt))
  {
    hide MarkBlocked;
    hide TypeName;
  }

  lemma PolledStep(wf: Workflow, s: Sys)
    requires s.worker.Polling?
    ensures Next(wf, s, WorkerPolled) == s.(worker := Idle, job := false)
  {
  }

  lemma ThrowStep(wf: Workflow, s: Sys)
    requires CanThrow(s.worker)
    ensures Next(wf, s, WorkerThrow) == s.(worker := Failing(s.worker.attempt, false))
  {
  }

  lemma FinishStep(wf: Workflow, s: Sys)
    requires s.worker.Active? && IsDone(wf, s.worker.steps)
    ensures Next(wf, s, WorkerFinish) ==
      s.(row := MarkSucceeded(s.row, s.worker.steps, s.now), worker := Finishing(s.worker.attempt))
  {
    hide MarkSucceeded;
    hide IsDone;
  }

  lemma EndStep(wf: Workflow, s: Sys, eventOk: bool)
    requires s.worker.Finishing?
    ensures Next(wf, s, WorkerEnd(eventOk)) ==
      if eventOk then s.(worker := Idle, job := false) else s.(worker := Failing(s.worker.attempt, false))
  {
  }

  lemma FailStep(wf: Workflow, s: Sys, eventOk: bool)
    requires s.worker.Failing?
    ensures var w := s.worker;
      Next(wf, s, WorkerFail(eventOk)) ==
        s.(row := FailOrRetry(s.row, w.attempt, w.denied, if w.denied then "POLICY_DENIED" else "NODE_FAILED", s.now, None),
           worker := Idle, job := (Target(s.row, w.attempt) == Queued && !w.denied) || !eventOk)
  {
    hide FailOrRetry;
  }

  lemma CrashStep(wf: Workflow, s: Sys)
    ensures Next(wf, s, WorkerCrash) == s.(worker := Idle)
  {
  }

  // ---------------------------------------------------------------- one handler

  function FirstVerdict(s: Sys, req: nat, reject: bool): Verdict
    requires req in s.approvals
  {
    if reject then Reject else if s.approvals[req].expiresAt <= s.now then Expire else Approve
  }

  predicate IsPending(s: Sys, req: nat) {
    req in s.approvals && s.approvals[req].status == Pending
  }

  lemma StartStep(wf: Workflow, s: Sys, req: nat, reject: bool)
    requires s.handlers == map[]
    ensures Next(wf, s, HandlerStart(0, req, reject)) ==
      if IsPending(s, req) then s.(handlers := map[0 := Deciding(req, FirstVerdict(s, req, reject))]) else s
  {
  }

  lemma DecideStep(wf: Workflow, s: Sys, req: nat, v: Verdict)
    requires s.handlers == map[0 := Deciding(req, v)] && IsPending(s, req)
    ensures Next(wf, s, HandlerDecide(0)) ==
      s.(approvals := s.approvals[req := s.approvals[req].(status := Decided(v))],
         handlers := if v == Expire then map[] else map[0 := Looking(req, v)])
  {
    assert map[0 := Deciding(req, v)] - {0} == map[];
    assert map[0 := Deciding(req, v)][0 := Looking(req, v)] == map[0 := Looking(req, v)];
  }

  lemma LookStep(wf: Workflow, s: Sys, req: nat, v: Verdict)
    requires s.handlers == map[0 := Looking(req, v)]
    ensures Next(wf, s, HandlerLook(0)) == s.(handlers := if BlockedOn(s.row, req) then map[0 := Clearing(req, v)] else map[])
  {
    assert map[0 := Looking(req, v)] - {0} == map[];
    assert map[0 := Looking(req, v)][0 := Clearing(req, v)] == map[0 := Clearing(req, v)];
  }

  lemma ClearStep(wf: Workflow, s: Sys, req: nat, v: Verdict)
    requires s.handlers == map[0 := Clearing(req, v)] && v != Expire && BlockedOn(s.row, req)
    ensures Next(wf, s, HandlerClear(0)) ==
      s.(row := ClearBlock(s.row, req, None), resumed := if v == Reject then s.resumed else s.resumed + {req},
         handlers := map[0 := if v == Reject then FailingRun(req, Reject) else Enqueueing(req)])
  {
    hide ClearBlock;
    assert map[0 := Clearing(req, v)][0 := FailingRun(req, Reject)] == map[0 := FailingRun(req, Reject)];
    assert map[0 := Clearing(req, v)][0 := Enqueueing(req)] == map[0 := Enqueueing(req)];
  }

  lemma EnqueueStep(wf: Workflow, s: Sys, req: nat, queue: QueueOutcome)
    requires s.handlers == map[0 := Enqueueing(req)]
    ensures Next(wf, s, HandlerEnqueue(0, queue)) == match queue
      case Accepted => s.(handlers := map[], job := true, woken := s.woken + {req})
      case Refused => s.(handlers := map[0 := FailingRun(req, Approve)])
      case AcceptedButThrew => s.(handlers := map[0 := Compensating(req)], job := true)
  {
    assert map[0 := Enqueueing(req)] - {0} == map[];
    assert map[0 := Enqueueing(req)][0 := FailingRun(req, Approve)] == map[0 := FailingRun(req, Approve)];
    assert map[0 := Enqueueing(req)][0 := Compensating(req)] == map[0 := Compensating(req)];
  }

  lemma CompensateStep(wf: Workflow, s: Sys, req: nat)
    requires s.handlers == map[0 := FailingRun(req, Approve)] || s.handlers == map[0 := Compensating(req)]
    ensures Next(wf, s, HandlerFailRun(0)) == s.(handlers := map[], row := MarkFailed(s.row, "QUEUE_UNAVAILABLE_AFTER_APPROVAL", s.now))
  {
    hide MarkFailed;
    assert map[0 := FailingRun(req, Approve)] - {0} == map[] && map[0 := Compensating(req)] - {0} == map[];
  }

  lemma RejectStep(wf: Workflow, s: Sys, req: nat)
    requires s.handlers == map[0 := FailingRun(req, Reject)]
    ensures Next(wf, s, HandlerFailRun(0)) ==
      s.(handlers := map[], row := MarkFailed(s.row, "APPROVAL_REJECTED", s.now), rejected := s.rejected + {req})
  {
    hide MarkFailed;
    assert map[0 := FailingRun(req, Reject)] - {0} == map[];
  }

  // ---------------------------------------------------------------- short runs

  lemma {:induction false} RunNone(wf: Workflow, s: Sys)
    ensures Run(wf, s, []) == s
  {
  }

  lemma {:induction false} RunOne(wf: Workflow, s: Sys, a: Action)
    ensures Run(wf, s, [a]) == Next(wf, s, a)
  {
    hide Next;
    RunMore(wf, s, [], a);
    assert [] + [a] == [a];
  }

  lemma {:induction false} RunTwo(wf: Workflow, s: Sys, a: Action, b: Action)
    ensures Run(wf, s, [a, b]) == Next(wf, Next(wf, s, a), b)
  {
    hide Next;
    RunOne(wf, s, a);
    RunMore(wf, s, [a], b);
    assert [a] + [b] == [a, b];
  }

  lemma {:induction false} RunCons(wf: Workflow, s: Sys, a: Action, rest: seq<Action>)
    ensures Run(wf, s, [a] + rest) == Run(wf, Next(wf, s, a), rest)
  {
    hide Next;
    RunOne(wf, s, a);
    RunJoin(wf, s, [a], rest);
  }
}
