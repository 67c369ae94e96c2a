/** One workflow run as a protocol: the worker (apps/worker/src/main.ts), the approve and reject handlers
    of the API (apps/api/src/server.ts), the continuation worker
    (apps/worker/src/continuations/worker.ts) and the clock act on the run row and the approval requests
    in any interleaving of their database statements, each of which can also fail.

    At most one worker job per run is active (jobs are keyed by run id), and a job that has written its
    block ends with that statement. */
module RunProtocol {
  import opened Common
  import opened Policy
  import opened WorkflowGraph
  import opened RunTable
  import G = GraphExecutor

  datatype ApprovalStatus = Pending | Approved | Rejected | Expired

  datatype Approval = Approval(nodeId: Id, status: ApprovalStatus, expiresAt: int)

  /** Where the worker stands inside `processWorkflowRunJob`. */
  datatype Worker =
    | Idle
    | Loaded(attempt: nat, starting: bool, rules: seq<Rule>)
    | Active(attempt: nat, rules: seq<Rule>, steps: Steps)
    | Denying(attempt: nat)
    | Checking(attempt: nat, rules: seq<Rule>, steps: Steps, node: Id)
    | Asking(attempt: nat, rules: seq<Rule>, steps: Steps, node: Id)
    | Cleared(attempt: nat, rules: seq<Rule>, steps: Steps, node: Id, permit: Option<nat>, checkedAt: int)
    | Blocking(attempt: nat, steps: Steps, node: Id, req: nat, forApproval: bool, timeoutAt: int)
    | Polling(attempt: nat)
    | Finishing(attempt: nat)
    | Failing(attempt: nat, denied: bool)

  datatype Verdict = Approve | Reject | Expire

  /** A request handler of the API, or a continuation that has found the run blocked on its request and
      is about to write a failure. `Compensating` is an approve handler whose enqueue threw although the
      job had reached the queue. */
  datatype Handler =
    | Deciding(req: nat, verdict: Verdict)
    | Looking(req: nat, verdict: Verdict)
    | Clearing(req: nat, verdict: Verdict)
    | Enqueueing(req: nat)
    | FailingRun(req: nat, verdict: Verdict)
    | Compensating(req: nat)
    | ContinuationFailing(req: nat, attempt: nat)

  /** An executor call: the node, the rules the job works with, the approval it relied on, and when the
      policy check was made. */
  datatype Execution = Execution(node: Id, rules: seq<Rule>, permit: Option<nat>, checkedAt: int)

  /** `executions`, `resumed`, `woken` and `rejected` are history: the executor calls made, the requests
      whose approval cleared the run, those whose handler also enqueued it, and those whose rejection
      failed it. */
  datatype Sys = Sys(row: Row, worker: Worker, job: bool, now: int, approvals: map<nat, Approval>, nextReq: nat,
                     handlers: map<nat, Handler>, executions: seq<Execution>, resumed: set<nat>, woken: set<nat>, rejected: set<nat>)

  /** What comes of an executor call: the node runs to completion with its fixed result, something fails on
      the way, or a remote call is dispatched. A failure whose message reads like a denial is treated as one. */
  datatype NodeOutcome = NodeRan | NodeFailed(likeDenial: bool) | NodeBlocked(timeoutMs: int)

  datatype QueueOutcome = Accepted | Refused | AcceptedButThrew

  /** `eventOk` tells whether the run event that goes with the step could be appended. */
  datatype Action =
    | Tick(ms: nat)
    | WorkerLoad(rules: seq<Rule>)
    | WorkerUnpublished(eventOk: bool)
    | WorkerBegin
    | WorkerBuiltin(node: Id)
    | WorkerPick(node: Id)
    | WorkerDeny(eventOk: bool)
    | WorkerCheck(found: Option<nat>)
    | WorkerAsk(ttlMs: nat)
    | WorkerExecute(outcome: NodeOutcome)
    | WorkerBlock
    | WorkerPolled
    | WorkerThrow
    | WorkerFinish
    | WorkerEnd(eventOk: bool)
    | WorkerFail(eventOk: bool)
    | WorkerCrash
    | JobLost
    | HandlerStart(h: nat, req: nat, reject: bool)
    | HandlerDecide(h: nat)
    | HandlerLook(h: nat)
    | HandlerClear(h: nat)
    | HandlerEnqueue(h: nat, queue: QueueOutcome)
    | HandlerFailRun(h: nat)
    | HandlerGone(h: nat)
    | RemoteResult(req: nat)
    | ContinuationRead(h: nat, req: nat)
    | ContinuationFail(h: nat, delayMs: nat)

  function Initial(maxAttempts: int): Sys {
    Sys(Create(maxAttempts), Idle, true, 0, map[], 0, map[], [], {}, {}, {})
  }

  /** The published workflow of the run. Running a node to completion always gives the same result. */
  datatype Workflow = Workflow(graph: Graph, settings: Id -> Settings, results: G.Results)

  const DENIAL := "POLICY_DENIED:"

  /** The type of a task node. */
  function TypeName(wf: Workflow, node: Id): string {
    if IsTask(wf, node) then wf.graph.types[node].name else ""
  }

  function EffectOn(wf: Workflow, rules: seq<Rule>, node: Id): Effect {
    Evaluate(rules, BuildContext(TypeName(wf, node), wf.settings(node))).effect
  }

  predicate IsTask(wf: Workflow, node: Id) {
    node in wf.graph.types && wf.graph.types[node].Task?
  }

  predicate IsReady(wf: Workflow, steps: Steps, node: Id) {
    G.Ready(wf.graph, G.IndexOf(steps), node)
  }

  predicate IsDone(wf: Workflow, steps: Steps) {
    G.NoneReady(wf.graph, G.IndexOf(steps))
  }

  /** What running the node after these steps records. */
  function NodeResult(wf: Workflow, steps: Steps, node: Id): G.Result {
    if node in wf.graph.types then G.Perform(wf.graph, wf.results, G.IndexOf(steps), node) else G.Fails("UNKNOWN_NODE")
  }

  /** An approved request for the node that has not expired. */
  predicate Grants(s: Sys, req: nat, node: Id) {
    req in s.approvals && s.approvals[req].nodeId == node && s.approvals[req].status == Approved && s.approvals[req].expiresAt > s.now
  }

  /** What a failing attempt leads to. */
  function Target(row: Row, attempt: nat): Status {
    if attempt >= row.maxAttempts then Failed else Queued
  }

  function FailOrRetry(row: Row, attempt: nat, denied: bool, error: string, now: int, next: Option<int>): Row {
    if Target(row, attempt) == Failed || denied then MarkFailed(row, error, now) else QueueForRetry(row, error, next)
  }

  predicate BlockedOn(row: Row, req: nat) {
    row.status == Running && row.blockedRequestId == Some(req)
  }

  /** What a worker's step leaves alone. */
  ghost predicate WorkerFrame(s: Sys, t: Sys) {
    t.handlers == s.handlers && t.resumed == s.resumed && t.woken == s.woken && t.rejected == s.rejected && t.now == s.now
  }

  /** What a handler's or continuation's step leaves alone. */
  ghost predicate HandlerFrame(s: Sys, t: Sys) {
    t.worker == s.worker && t.executions == s.executions && t.nextReq == s.nextReq && t.now == s.now
  }

  // ---------------------------------------------------------------- the worker's steps

  function Load(s: Sys, rules: seq<Rule>): Sys {
    if !s.worker.Idle? || !s.job then s
    else if Final(s.row) || (s.row.status == Running && s.row.blockedRequestId.Some?) then s.(job := false)
    else if s.row.status == Queued then s.(worker := Loaded(Max(1, s.row.attemptCount + 1), true, rules))
    else s.(worker := Loaded(Max(1, s.row.attemptCount), false, rules))
  }

  /** An event that cannot be appended here makes the job throw, so that it is delivered again. */
  function Unpublished(s: Sys, eventOk: bool): Sys {
    if !s.worker.Loaded? then s
    else s.(row := MarkFailed(s.row, "WORKFLOW_NOT_PUBLISHED", s.now), worker := Idle, job := !eventOk)
  }

  function Begin(s: Sys): Sys {
    if !s.worker.Loaded? then s
    else
      var w := s.worker;
      if w.starting then s.(row := MarkRunning(s.row, w.attempt, s.now), worker := Active(w.attempt, w.rules, []))
      else s.(worker := Active(w.attempt, w.rules, if s.row.output.Some? then s.row.output.value else []))
  }

  /** A ready condition or join node runs inside the worker, without policy or executor. */
  function Builtin(wf: Workflow, s: Sys, node: Id): Sys {
    if !s.worker.Active? || !IsReady(wf, s.worker.steps, node) || IsTask(wf, node) then s
    else RecordResult(wf, s, s.worker.attempt, s.worker.rules, s.worker.steps, node, false)
  }

  /** The result of a node that has run to completion: a step and a checkpoint, or a failure. */
  function RecordResult(wf: Workflow, s: Sys, attempt: nat, rules: seq<Rule>, steps: Steps, node: Id, mayDeny: bool): (t: Sys)
    ensures WorkerFrame(s, t)
  {
    match NodeResult(wf, steps, node)
    case Fails(error) => s.(worker := Failing(attempt, mayDeny && DENIAL <= error))
    case Yields(output) =>
      var longer := steps + [G.Succeeded(node, output)];
      s.(row := UpdateProgress(s.row, 0, longer), worker := Active(attempt, rules, longer))
  }

  /** A ready task node: first the policy decides. */
  function Pick(wf: Workflow, s: Sys, node: Id): Sys {
    if !s.worker.Active? || !IsReady(wf, s.worker.steps, node) || !IsTask(wf, node) then s
    else
      var Active(attempt, rules, steps) := s.worker;
      match EffectOn(wf, rules, node)
      case Allow => s.(worker := Cleared(attempt, rules, steps, node, None, s.now))
      case Deny => s.(worker := Denying(attempt))
      case RequireApproval => s.(worker := Checking(attempt, rules, steps, node))
  }

  /** The denial is thrown after its event has been appended; if that fails, the other error is thrown. */
  function DenyNode(s: Sys, eventOk: bool): Sys {
    if !s.worker.Denying? then s else s.(worker := Failing(s.worker.attempt, eventOk))
  }

  /** The lookup of an approved request finds one, or there is none. */
  function Check(s: Sys, found: Option<nat>): Sys {
    if !s.worker.Checking? then s
    else
      var Checking(attempt, rules, steps, node) := s.worker;
      if found.Some? && Grants(s, found.value, node) then s.(worker := Cleared(attempt, rules, steps, node, found, s.now))
      else if found.None? && forall r :: r in s.approvals ==> !Grants(s, r, node) then
        s.(worker := Asking(attempt, rules, steps, node))
      else s
  }

  function Ask(s: Sys, ttlMs: nat): Sys {
    if !s.worker.Asking? then s
    else
      var expiresAt := s.now + Max(60000, ttlMs);
      s.(approvals := s.approvals[s.nextReq := Approval(s.worker.node, Pending, expiresAt)], nextReq := s.nextReq + 1,
         worker := Blocking(s.worker.attempt, s.worker.steps, s.worker.node, s.nextReq, true, expiresAt))
  }

  function Execute(wf: Workflow, s: Sys, outcome: NodeOutcome): Sys {
    if !s.worker.Cleared? then s
    else
      var w := s.worker;
      var s1 := s.(executions := s.executions + [Execution(w.node, w.rules, w.permit, w.checkedAt)]);
      match outcome
      case NodeRan => RecordResult(wf, s1, w.attempt, w.rules, w.steps, w.node, true)
      case NodeFailed(likeDenial) => s1.(worker := Failing(w.attempt, likeDenial))
      case NodeBlocked(timeoutMs) =>
        s1.(nextReq := s.nextReq + 1, worker := Blocking(w.attempt, w.steps, w.node, s.nextReq, false, s.now + timeoutMs))
  }

  /** Writing the block ends the job for an approval; for a remote call the poll is still to be enqueued. */
  function Block(wf: Workflow, s: Sys): Sys {
    if !s.worker.Blocking? then s
    else
      var w := s.worker;
      var kind := if w.forApproval then "approval" else "remote";
      var row := MarkBlocked(s.row, 0, w.req, w.node.name, TypeName(wf, w.node), kind, s.now, w.timeoutAt, w.steps);
      if w.forApproval then s.(row := row, worker := Idle, job := false) else s.(row := row, worker := Polling(w.attempt))
  }

  function Polled(s: Sys): Sys {
    if s.worker.Polling? then s.(worker := Idle, job := false) else s
  }

  /** Any other statement of the worker's `try` block can throw. */
  predicate CanThrow(w: Worker) {
    w.Active? || w.Checking? || w.Asking? || w.Cleared? || w.Blocking? || w.Polling?
  }

  function Throw(s: Sys): Sys {
    if CanThrow(s.worker) then s.(worker := Failing(s.worker.attempt, false)) else s
  }

  /** When no node is ready the run has succeeded. */
  function Finish(wf: Workflow, s: Sys): Sys {
    if !s.worker.Active? || !IsDone(wf, s.worker.steps) then s
    else s.(row := MarkSucceeded(s.row, s.worker.steps, s.now), worker := Finishing(s.worker.attempt))
  }

  /** The event of the success is appended inside the same `try` block. */
  function End(s: Sys, eventOk: bool): Sys {
    if !s.worker.Finishing? then s
    else if eventOk then s.(worker := Idle, job := false)
    else s.(worker := Failing(s.worker.attempt, false))
  }

  /** The `catch` block: unguarded, and the job goes on after a retry, or after a failed last event. */
  function Fail(s: Sys, eventOk: bool): Sys {
    if !s.worker.Failing? then s
    else
      var Failing(attempt, denied) := s.worker;
      var error := if denied then "POLICY_DENIED" else "NODE_FAILED";
      s.(row := FailOrRetry(s.row, attempt, denied, error, s.now, None), worker := Idle,
         job := (Target(s.row, attempt) == Queued && !denied) || !eventOk)
  }

  // ---------------------------------------------------------------- the handlers' steps

  function Decided(v: Verdict): ApprovalStatus {
    match v case Approve => Approved case Reject => Rejected case Expire => Expired
  }

  function StartHandler(s: Sys, h: nat, req: nat, reject: bool): Sys {
    if h in s.handlers || req !in s.approvals || s.approvals[req].status != Pending then s
    else
      var v := if reject then Reject else if s.approvals[req].expiresAt <= s.now then Expire else Approve;
      s.(handlers := s.handlers[h := Deciding(req, v)])
  }

  /** The guarded update: only a pending request is decided. */
  function Decide(s: Sys, h: nat): Sys {
    if h !in s.handlers || !s.handlers[h].Deciding? then s
    else
      var Deciding(req, v) := s.handlers[h];
      if req !in s.approvals || s.approvals[req].status != Pending then s.(handlers := s.handlers - {h})
      else
        var approvals := s.approvals[req := s.approvals[req].(status := Decided(v))];
        s.(approvals := approvals, handlers := if v == Expire then s.handlers - {h} else s.handlers[h := Looking(req, v)])
  }

  function Look(s: Sys, h: nat): Sys {
    if h !in s.handlers || !s.handlers[h].Looking? then s
    else
      var Looking(req, v) := s.handlers[h];
      s.(handlers := if BlockedOn(s.row, req) then s.handlers[h := Clearing(req, v)] else s.handlers - {h})
  }

  function Clear(s: Sys, h: nat): Sys {
    if h !in s.handlers || !s.handlers[h].Clearing? then s
    else
      var Clearing(req, v) := s.handlers[h];
      var s1 := s.(row := ClearBlock(s.row, req, None));
      if v == Reject then s1.(handlers := s.handlers[h := FailingRun(req, Reject)])
      else if s.row.blockedRequestId == Some(req) then
        s1.(handlers := s.handlers[h := Enqueueing(req)], resumed := s.resumed + {req})
      else s1.(handlers := s.handlers - {h})
  }

  function Enqueue(s: Sys, h: nat, queue: QueueOutcome): Sys {
    if h !in s.handlers || !s.handlers[h].Enqueueing? then s
    else
      var req := s.handlers[h].req;
      match queue
      case Accepted => s.(handlers := s.handlers - {h}, job := true, woken := s.woken + {req})
      case Refused => s.(handlers := s.handlers[h := FailingRun(req, Approve)])
      case AcceptedButThrew => s.(handlers := s.handlers[h := Compensating(req)], job := true)
  }

  /** Unguarded. */
  function FailRun(s: Sys, h: nat): Sys {
    if h !in s.handlers || !(s.handlers[h].FailingRun? || s.handlers[h].Compensating?) then s
    else
      var rejects := s.handlers[h].FailingRun? && s.handlers[h].verdict == Reject;
      s.(row := MarkFailed(s.row, if rejects then "APPROVAL_REJECTED" else "QUEUE_UNAVAILABLE_AFTER_APPROVAL", s.now),
         handlers := s.handlers - {h}, rejected := if rejects then s.rejected + {s.handlers[h].req} else s.rejected)
  }

  /** A remote result arrives: the guarded clearing keeps the steps, and the run is enqueued. */
  function Arrive(s: Sys, req: nat): Sys {
    if BlockedOn(s.row, req) && req !in s.approvals then s.(row := ClearBlock(s.row, req, s.row.output), job := true) else s
  }

  function ReadRun(s: Sys, h: nat, req: nat): Sys {
    if h !in s.handlers && BlockedOn(s.row, req) && req !in s.approvals
    then s.(handlers := s.handlers[h := ContinuationFailing(req, s.row.attemptCount)]) else s
  }

  /** Neither of the two updates is guarded by what the continuation read before. */
  function FailRemotely(s: Sys, h: nat, delayMs: nat): Sys {
    if h !in s.handlers || !s.handlers[h].ContinuationFailing? then s
    else
      var attempt := s.handlers[h].attempt;
      s.(row := FailOrRetry(s.row, attempt, false, "REMOTE_FAILED", s.now, Some(s.now + delayMs)), handlers := s.handlers - {h},
         job := s.job || Target(s.row, attempt) == Queued)
  }

  predicate OfWorker(a: Action) {
    match a
    case Tick(_) => false
    case HandlerStart(_, _, _) => false
    case HandlerDecide(_) => false
    case HandlerLook(_) => false
    case HandlerClear(_) => false
    case HandlerEnqueue(_, _) => false
    case HandlerFailRun(_) => false
    case HandlerGone(_) => false
    case RemoteResult(_) => false
    case ContinuationRead(_, _) => false
    case ContinuationFail(_, _) => false
    case _ => true
  }

  /** The worker's steps up to the decision on a node. */
  predicate Opening(a: Action) {
    a.WorkerLoad? || a.WorkerUnpublished? || a.WorkerBegin? || a.WorkerBuiltin? || a.WorkerPick? || a.WorkerDeny? || a.WorkerCheck? || a.WorkerAsk?
  }

  function OpeningStep(wf: Workflow, s: Sys, a: Action): (t: Sys)
    requires Opening(a)
    ensures WorkerFrame(s, t)
  {
    match a
    case WorkerLoad(rules) => Load(s, rules)
    case WorkerUnpublished(eventOk) => Unpublished(s, eventOk)
    case WorkerBegin => Begin(s)
    case WorkerBuiltin(node) => Builtin(wf, s, node)
    case WorkerPick(node) => Pick(wf, s, node)
    case WorkerDeny(eventOk) => DenyNode(s, eventOk)
    case WorkerCheck(found) => Check(s, found)
    case WorkerAsk(ttlMs) => Ask(s, ttlMs)
  }

  function ClosingStep(wf: Workflow, s: Sys, a: Action): (t: Sys)
    requires OfWorker(a) && !Opening(a)
    ensures WorkerFrame(s, t)
  {
    match a
    case WorkerExecute(outcome) => Execute(wf, s, outcome)
    case WorkerBlock => Block(wf, s)
    case WorkerPolled => Polled(s)
    case WorkerThrow => Throw(s)
    case WorkerFinish => Finish(wf, s)
    case WorkerEnd(eventOk) => End(s, eventOk)
    case WorkerFail(eventOk) => Fail(s, eventOk)
    case WorkerCrash => s.(worker := Idle)
    case JobLost => if s.worker.Idle? then s.(job := false) else s
  }

  function WorkerStep(wf: Workflow, s: Sys, a: Action): (t: Sys)
    requires OfWorker(a)
    ensures WorkerFrame(s, t)
  {
    if Opening(a) then OpeningStep(wf, s, a) else ClosingStep(wf, s, a)
  }

  function HandlerStep(s: Sys, a: Action): (t: Sys)
    requires !OfWorker(a) && !a.Tick?
    ensures HandlerFrame(s, t)
  {
    match a
    case HandlerStart(h, req, reject) => StartHandler(s, h, req, reject)
    case HandlerDecide(h) => Decide(s, h)
    case HandlerLook(h) => Look(s, h)
    case HandlerClear(h) => Clear(s, h)
    case HandlerEnqueue(h, queue) => Enqueue(s, h, queue)
    case HandlerFailRun(h) => FailRun(s, h)
    case HandlerGone(h) => s.(handlers := s.handlers - {h})
    case RemoteResult(req) => Arrive(s, req)
    case ContinuationRead(h, req) => ReadRun(s, h, req)
    case ContinuationFail(h, delayMs) => FailRemotely(s, h, delayMs)
  }

  /** One step of whoever acts; an action that is not enabled changes nothing. */
  function Next(wf: Workflow, s: Sys, a: Action): Sys {
    if a.Tick? then s.(now := s.now + a.ms) else if OfWorker(a) then WorkerStep(wf, s, a) else HandlerStep(s, a)
  }

  function Run(wf: Workflow, s: Sys, actions: seq<Action>): Sys {
    if actions == [] then s else Next(wf, Run(wf, s, actions[..|actions| - 1]), actions[|actions| - 1])
  }

  lemma {:induction false} RunMore(wf: Workflow, s: Sys, actions: seq<Action>, a: Action)
    ensures Run(wf, s, actions + [a]) == Next(wf, Run(wf, s, actions), a)
  {
    hide Next;
    assert (actions + [a])[..|actions|] == actions;
  }

  /** The state after `k + 1` steps is one step after the state after `k`. */
  lemma {:induction false} RunStep(wf: Workflow, s: Sys, actions: seq<Action>, k: nat)
    requires k < |actions|
    ensures Run(wf, s, actions[..k + 1]) == Next(wf, Run(wf, s, actions[..k]), actions[k])
  {
    hide Next;
    assert actions[..k + 1][..k] == actions[..k];
  }

  lemma {:induction false} RunJoin(wf: Workflow, s: Sys, a: seq<Action>, b: seq<Action>)
    ensures Run(wf, s, a + b) == Run(wf, Run(wf, s, a), b)
    decreases |b|
  {
    hide Next;
    if b == [] {
      assert a + b == a;
    } else {
      var n := |b| - 1;
      RunJoin(wf, s, a, b[..n]);
      assert (a + b)[..|a| + n] == a + b[..n];
    }
  }
}
