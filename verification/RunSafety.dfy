/** What holds in every run of the protocol, whatever writes come late: executor calls obey the policy,
    decisions on approval requests are permanent, and what a handler does agrees with the decision. */
module RunSafety {
  import opened Common
  import opened Policy
  import opened RunTable
  import opened RunProtocol
  import opened WorkflowGraph
  import G = GraphExecutor

  type Approvals = map<nat, Approval>

  type Handlers = map<nat, Handler>

  // ---------------------------------------------------------------- approval requests

  ghost predicate Extends(a: Approval, b: Approval) {
    b.nodeId == a.nodeId && b.expiresAt == a.expiresAt && (a.status != Pending ==> b.status == a.status)
  }

  ghost predicate Numbered(s: Sys) {
    forall r :: r in s.approvals ==> r < s.nextReq
  }

  /** Approval requests only ever gain entries, with new ids, and only pending ones change. */
  ghost predicate Grows(s: Sys, t: Sys) {
    && (forall r :: r in s.approvals ==> r in t.approvals && Extends(s.approvals[r], t.approvals[r]))
    && (forall r :: r in t.approvals && r !in s.approvals ==> s.nextReq <= r)
    && s.nextReq <= t.nextReq
  }

  lemma StepGrows(wf: Workflow, s: Sys, a: Action)
    requires Numbered(s)
    ensures Grows(s, Next(wf, s, a)) && Numbered(Next(wf, s, a))
  {
    hide WorkerStep;
    hide HandlerStep;
    if OfWorker(a) { WorkerGrows(wf, s, a); } else if !a.Tick? { HandlerGrows(s, a); }
  }

  lemma WorkerGrows(wf: Workflow, s: Sys, a: Action)
    requires Numbered(s) && OfWorker(a)
    ensures Grows(s, WorkerStep(wf, s, a)) && Numbered(WorkerStep(wf, s, a))
  {
    hide Grows;
    hide Numbered;
    if a.WorkerAsk? {
      AskGrows(s, a.ttlMs);
    } else {
      hide WorkerStep;
      WorkerQuiet(wf, s, a);
      QuietGrows(s, WorkerStep(wf, s, a));
    }
  }

  lemma HandlerGrows(s: Sys, a: Action)
    requires Numbered(s) && !OfWorker(a) && !a.Tick?
    ensures Grows(s, HandlerStep(s, a)) && Numbered(HandlerStep(s, a))
  {
    hide Grows;
    hide Numbered;
    if a.HandlerDecide? {
      DecideGrows(s, a.h);
    } else {
      hide HandlerStep;
      HandlerQuiet(s, a);
      QuietGrows(s, HandlerStep(s, a));
    }
  }

  lemma QuietGrows(s: Sys, t: Sys)
    requires Numbered(s) && t.approvals == s.approvals && t.nextReq >= s.nextReq
    ensures Grows(s, t) && Numbered(t)
  {
  }

  lemma WorkerQuiet(wf: Workflow, s: Sys, a: Action)
    requires OfWorker(a) && !a.WorkerAsk?
    ensures WorkerStep(wf, s, a).approvals == s.approvals && WorkerStep(wf, s, a).nextReq >= s.nextReq
  {
    hide FailOrRetry;
    hide MarkRunning;
    hide MarkBlocked;
    hide MarkFailed;
    hide MarkSucceeded;
    hide UpdateProgress;
    hide EffectOn;
    hide Grants;
  }

  lemma HandlerQuiet(s: Sys, a: Action)
    requires !OfWorker(a) && !a.Tick? && !a.HandlerDecide?
    ensures HandlerStep(s, a).approvals == s.approvals
  {
    hide FailOrRetry;
    hide ClearBlock;
    hide MarkFailed;
  }

  lemma AskGrows(s: Sys, ttlMs: nat)
    requires Numbered(s)
    ensures Grows(s, Ask(s, ttlMs)) && Numbered(Ask(s, ttlMs))
  {
  }

  lemma DecideGrows(s: Sys, h: nat)
    requires Numbered(s)
    ensures Grows(s, Decide(s, h)) && Numbered(Decide(s, h))
  {
  }

  lemma {:induction false} RunNumbered(wf: Workflow, maxAttempts: int, actions: seq<Action>)
    ensures Numbered(Run(wf, Initial(maxAttempts), actions))
  {
    hide Next;
    if actions != [] {
      var n := |actions| - 1;
      RunNumbered(wf, maxAttempts, actions[..n]);
      StepGrows(wf, Run(wf, Initial(maxAttempts), actions[..n]), actions[n]);
    }
  }

  /** Whatever the interleaving of approvals, rejections and expiries: a decision, once taken, never
      changes. */
  lemma {:induction false} DecisionNeverChanges(wf: Workflow, maxAttempts: int, actions: seq<Action>, i: nat)
    requires i <= |actions|
    ensures var s, t := Run(wf, Initial(maxAttempts), actions[..i]), Run(wf, Initial(maxAttempts), actions);
      forall r :: r in s.approvals ==> r in t.approvals && Extends(s.approvals[r], t.approvals[r])
    decreases |actions|
  {
    hide Next;
    var n := |actions| - 1;
    if i <= n {
      assert actions[..n][..i] == actions[..i];
      DecisionNeverChanges(wf, maxAttempts, actions[..n], i);
      RunNumbered(wf, maxAttempts, actions[..n]);
      StepGrows(wf, Run(wf, Initial(maxAttempts), actions[..n]), actions[n]);
    } else {
      assert actions[..i] == actions;
    }
  }

  // ---------------------------------------------------------------- executor calls

  /** The policy allowed the node, or it required an approval and there was an approved, unexpired one. */
  ghost predicate Permitted(wf: Workflow, approvals: Approvals, e: Execution) {
    match EffectOn(wf, e.rules, e.node)
    case Allow => true
    case Deny => false
    case RequireApproval =>
      && e.permit.Some? && e.permit.value in approvals
      && var approval := approvals[e.permit.value];
         approval.nodeId == e.node && approval.status == Approved && approval.expiresAt > e.checkedAt
  }

  /** The worker is about to execute only what it is permitted to. */
  ghost predicate Allowed(wf: Workflow, approvals: Approvals, w: Worker) {
    && (w.Checking? || w.Asking? ==> EffectOn(wf, w.rules, w.node) == RequireApproval)
    && (w.Cleared? ==> Permitted(wf, approvals, Execution(w.node, w.rules, w.permit, w.checkedAt)))
  }

  ghost predicate CallsOk(wf: Workflow, s: Sys) {
    && (forall i :: 0 <= i < |s.executions| ==> Permitted(wf, s.approvals, s.executions[i]))
    && Allowed(wf, s.approvals, s.worker)
  }

  lemma PermittedGrows(wf: Workflow, s: Sys, t: Sys, e: Execution)
    requires Permitted(wf, s.approvals, e) && Grows(s, t)
    ensures Permitted(wf, t.approvals, e)
  {
    hide EffectOn;
  }

  /** Steps that make no call keep the calls, if the worker's new position is all right. */
  lemma CallsCarry(wf: Workflow, s: Sys, t: Sys)
    requires CallsOk(wf, s) && Grows(s, t) && t.executions == s.executions
    requires t.worker == s.worker || Allowed(wf, t.approvals, t.worker)
    ensures CallsOk(wf, t)
  {
    hide EffectOn;
    hide Permitted;
    forall i | 0 <= i < |t.executions|
      ensures Permitted(wf, t.approvals, t.executions[i])
    {
      PermittedGrows(wf, s, t, s.executions[i]);
    }
    if t.worker == s.worker && s.worker.Cleared? {
      PermittedGrows(wf, s, t, Execution(s.worker.node, s.worker.rules, s.worker.permit, s.worker.checkedAt));
    }
  }

  lemma ExecuteCalls(wf: Workflow, s: Sys, outcome: NodeOutcome)
    requires CallsOk(wf, s)
    ensures CallsOk(wf, Execute(wf, s, outcome))
  {
    hide EffectOn;
    hide Permitted;
  }

  lemma PickCalls(wf: Workflow, s: Sys, node: Id)
    requires CallsOk(wf, s) && Numbered(s)
    ensures CallsOk(wf, Pick(wf, s, node))
  {
    hide EffectOn;
    CallsCarry(wf, s, Pick(wf, s, node));
  }

  lemma CheckCalls(wf: Workflow, s: Sys, found: Option<nat>)
    requires CallsOk(wf, s) && Numbered(s)
    ensures CallsOk(wf, Check(s, found))
  {
    hide EffectOn;
    CallsCarry(wf, s, Check(s, found));
  }

  /** All other steps of the worker move it to where nothing is about to be called. */
  lemma OtherCalls(wf: Workflow, s: Sys, a: Action)
    requires OfWorker(a) && !a.WorkerExecute? && !a.WorkerPick? && !a.WorkerCheck?
    ensures var t := WorkerStep(wf, s, a);
      t.executions == s.executions && (t.worker == s.worker || !(t.worker.Checking? || t.worker.Asking? || t.worker.Cleared?))
  {
    hide FailOrRetry;
    hide MarkRunning;
    hide MarkBlocked;
    hide MarkFailed;
    hide MarkSucceeded;
    hide UpdateProgress;
  }

  lemma StepCalls(wf: Workflow, s: Sys, a: Action)
    requires CallsOk(wf, s) && Numbered(s)
    ensures CallsOk(wf, Next(wf, s, a))
  {
    hide WorkerStep;
    hide HandlerStep;
    hide Permitted;
    hide Grows;
    if OfWorker(a) {
      WorkerCalls(wf, s, a);
    } else {
      StepGrows(wf, s, a);
      CallsCarry(wf, s, Next(wf, s, a));
    }
  }

  lemma WorkerCalls(wf: Workflow, s: Sys, a: Action)
    requires CallsOk(wf, s) && Numbered(s) && OfWorker(a)
    ensures CallsOk(wf, WorkerStep(wf, s, a))
  {
    hide CallsOk;
    match a
    case WorkerExecute(outcome) => ExecuteCalls(wf, s, outcome);
    case WorkerPick(node) => PickCalls(wf, s, node);
    case WorkerCheck(found) => CheckCalls(wf, s, found);
    case _ => QuietCalls(wf, s, a);
  }

  lemma QuietCalls(wf: Workflow, s: Sys, a: Action)
    requires CallsOk(wf, s) && Numbered(s) && OfWorker(a) && !a.WorkerExecute? && !a.WorkerPick? && !a.WorkerCheck?
    ensures CallsOk(wf, WorkerStep(wf, s, a))
  {
    hide WorkerStep;
    hide Grows;
    hide Permitted;
    WorkerGrows(wf, s, a);
    OtherCalls(wf, s, a);
    CallsCarry(wf, s, WorkerStep(wf, s, a));
  }

  lemma {:induction false} RunCalls(wf: Workflow, maxAttempts: int, actions: seq<Action>)
    ensures CallsOk(wf, Run(wf, Initial(maxAttempts), actions))
  {
    hide Next;
    hide Permitted;
    if actions != [] {
      var n := |actions| - 1;
      RunCalls(wf, maxAttempts, actions[..n]);
      RunNumbered(wf, maxAttempts, actions[..n]);
      StepCalls(wf, Run(wf, Initial(maxAttempts), actions[..n]), actions[n]);
    }
  }

  /** The approval an execution relied on: approved, for the node, and not expired at the check. */
  ghost predicate HasPermit(approvals: Approvals, e: Execution) {
    && e.permit.Some? && e.permit.value in approvals && approvals[e.permit.value].nodeId == e.node
    && approvals[e.permit.value].status == Approved && approvals[e.permit.value].expiresAt > e.checkedAt
  }

  ghost predicate Suffices(effect: Effect, approvals: Approvals, e: Execution) {
    effect == Allow || (effect == RequireApproval && HasPermit(approvals, e))
  }

  /** From the node's own type and settings: the first rule that applies lets it run, or none applies and
      the default does; an approval is there where one is required. */
  ghost predicate MayExecute(wf: Workflow, approvals: Approvals, e: Execution) {
    e.node in wf.graph.types && wf.graph.types[e.node].Task? &&
    var nodeType, settings := wf.graph.types[e.node].name, wf.settings(e.node);
    || (exists i: nat :: DecidesFirst(e.rules, i, nodeType, settings) && Suffices(e.rules[i].effect, approvals, e))
    || ((forall i :: 0 <= i < |e.rules| ==> Excluded(e.rules[i], nodeType, settings))
        && Suffices(DefaultEffect(nodeType, settings), approvals, e))
  }

  lemma PermittedMayExecute(wf: Workflow, approvals: Approvals, e: Execution)
    requires Permitted(wf, approvals, e) && IsTask(wf, e.node)
    ensures MayExecute(wf, approvals, e)
  {
    hide Excluded;
    hide DefaultEffect;
    hide Evaluate;
    hide BuildContext;
    EffectIs(e.rules, wf.graph.types[e.node].name, wf.settings(e.node));
    hide DecidesFirst;
  }

  /** Only task nodes are executed. */
  ghost predicate TasksOnly(wf: Workflow, s: Sys) {
    && (forall i :: 0 <= i < |s.executions| ==> IsTask(wf, s.executions[i].node))
    && (s.worker.Checking? || s.worker.Asking? || s.worker.Cleared? ==> IsTask(wf, s.worker.node))
  }

  lemma StepTasks(wf: Workflow, s: Sys, a: Action)
    requires TasksOnly(wf, s)
    ensures TasksOnly(wf, Next(wf, s, a))
  {
    hide WorkerStep;
    hide HandlerStep;
    if OfWorker(a) { WorkerTasks(wf, s, a); }
  }

  lemma WorkerTasks(wf: Workflow, s: Sys, a: Action)
    requires TasksOnly(wf, s) && OfWorker(a)
    ensures TasksOnly(wf, WorkerStep(wf, s, a))
  {
    hide IsTask;
    hide EffectOn;
    hide Grants;
    hide IsReady;
    if !a.WorkerExecute? && !a.WorkerPick? && !a.WorkerCheck? {
      hide WorkerStep;
      OtherCalls(wf, s, a);
    }
  }

  lemma {:induction false} RunTasks(wf: Workflow, maxAttempts: int, actions: seq<Action>)
    ensures TasksOnly(wf, Run(wf, Initial(maxAttempts), actions))
  {
    hide Next;
    if actions != [] {
      var n := |actions| - 1;
      RunTasks(wf, maxAttempts, actions[..n]);
      StepTasks(wf, Run(wf, Initial(maxAttempts), actions[..n]), actions[n]);
    }
  }

  /** In every run every executor call was for a task node that the policy lets run: from the node's own
      type and settings the first rule that applies, or else the default, allows it, or requires an approval
      and an approved request for that node had not expired at the check. */
  lemma {:induction false} PolicySafety(wf: Workflow, maxAttempts: int, actions: seq<Action>)
    ensures var s := Run(wf, Initial(maxAttempts), actions);
      forall i :: 0 <= i < |s.executions| ==>
        Permitted(wf, s.approvals, s.executions[i]) && MayExecute(wf, s.approvals, s.executions[i])
  {
    hide Permitted;
    hide MayExecute;
    hide IsTask;
    RunCalls(wf, maxAttempts, actions);
    RunTasks(wf, maxAttempts, actions);
    var s := Run(wf, Initial(maxAttempts), actions);
    forall i | 0 <= i < |s.executions|
      ensures MayExecute(wf, s.approvals, s.executions[i])
    {
      PermittedMayExecute(wf, s.approvals, s.executions[i]);
    }
  }

  // ---------------------------------------------------------------- handlers and decisions

  /** A handler that has decided its request. */
  predicate PastDecision(x: Handler) {
    x.Looking? || x.Clearing? || x.Enqueueing? || x.FailingRun? || x.Compensating?
  }

  function VerdictOf(x: Handler): Verdict
    requires PastDecision(x)
  {
    if x.Enqueueing? || x.Compensating? then Approve else x.verdict
  }

  ghost predicate HasDecision(approvals: Approvals, r: nat, status: ApprovalStatus) {
    r in approvals && approvals[r].status == status
  }

  /** A handler past its decision acts on the decision that is on record, and has not finished with it. */
  ghost predicate Backed(approvals: Approvals, settled: set<nat>, x: Handler) {
    PastDecision(x) ==>
      VerdictOf(x) != Expire && HasDecision(approvals, x.req, Decided(VerdictOf(x))) && x.req !in settled
  }

  /** Each handler is backed, and no two of them act on the same decision. */
  ghost predicate Backing(approvals: Approvals, handlers: Handlers, settled: set<nat>) {
    && (forall h :: h in handlers ==> Backed(approvals, settled, handlers[h]))
    && (forall h, k | h in handlers && k in handlers && PastDecision(handlers[h]) && PastDecision(handlers[k]) ::
          handlers[h].req == handlers[k].req ==> h == k)
  }

  ghost predicate OutcomesOk(s: Sys) {
    && (forall r :: r in s.resumed ==> HasDecision(s.approvals, r, Approved))
    && (forall r :: r in s.woken ==> HasDecision(s.approvals, r, Approved))
    && (forall r :: r in s.rejected ==> HasDecision(s.approvals, r, Rejected))
  }

  ghost predicate DecisionsOk(s: Sys) {
    OutcomesOk(s) && Backing(s.approvals, s.handlers, s.woken + s.rejected)
  }

  lemma BackingRemoved(approvals: Approvals, handlers: Handlers, settled: set<nat>, h: nat)
    requires Backing(approvals, handlers, settled)
    ensures Backing(approvals, handlers - {h}, settled)
    ensures h in handlers && PastDecision(handlers[h]) ==> Backing(approvals, handlers - {h}, settled + {handlers[h].req})
  {
  }

  lemma BackingSet(approvals: Approvals, handlers: Handlers, settled: set<nat>, h: nat, x: Handler)
    requires Backing(approvals, handlers, settled) && Backed(approvals, settled, x)
    requires PastDecision(x) ==> forall k :: k in handlers && k != h && PastDecision(handlers[k]) ==> handlers[k].req != x.req
    ensures Backing(approvals, handlers[h := x], settled)
  {
  }

  lemma BackingGrows(s: Sys, t: Sys, handlers: Handlers, settled: set<nat>)
    requires Backing(s.approvals, handlers, settled) && Grows(s, t)
    ensures Backing(t.approvals, handlers, settled)
  {
  }

  lemma OutcomesGrow(s: Sys, t: Sys)
    requires OutcomesOk(s) && Grows(s, t) && t.resumed == s.resumed && t.woken == s.woken && t.rejected == s.rejected
    ensures OutcomesOk(t)
  {
  }

  lemma DecideDecisions(s: Sys, h: nat)
    requires DecisionsOk(s) && Numbered(s)
    ensures DecisionsOk(Decide(s, h))
  {
    hide Backing;
    if h in s.handlers && s.handlers[h].Deciding? {
      var t, settled := Decide(s, h), s.woken + s.rejected;
      DecideGrows(s, h);
      OutcomesGrow(s, t);
      BackingGrows(s, t, s.handlers, settled);
      BackingRemoved(t.approvals, s.handlers, settled, h);
      if h in t.handlers {
        var req := s.handlers[h].req;
        UndecidedIsAlone(s, req);
        BackingSet(t.approvals, s.handlers, settled, h, t.handlers[h]);
      }
    }
  }

  /** Nobody has acted on a request that is still pending. */
  lemma UndecidedIsAlone(s: Sys, req: nat)
    requires DecisionsOk(s) && HasDecision(s.approvals, req, Pending)
    ensures forall k :: k in s.handlers && PastDecision(s.handlers[k]) ==> s.handlers[k].req != req
    ensures req !in s.woken + s.rejected
  {
  }

  /** A handler that goes on with its request. */
  lemma HandlerGoesOn(approvals: Approvals, handlers: Handlers, settled: set<nat>, h: nat, x: Handler)
    requires Backing(approvals, handlers, settled) && h in handlers && PastDecision(handlers[h])
    requires PastDecision(x) && x.req == handlers[h].req && VerdictOf(x) == VerdictOf(handlers[h])
    ensures Backing(approvals, handlers[h := x], settled)
  {
    BackingSet(approvals, handlers, settled, h, x);
  }

  lemma BackedDecision(s: Sys, h: nat)
    requires DecisionsOk(s) && h in s.handlers && PastDecision(s.handlers[h])
    ensures VerdictOf(s.handlers[h]) != Expire && HasDecision(s.approvals, s.handlers[h].req, Decided(VerdictOf(s.handlers[h])))
  {
  }

  lemma LookDecisions(s: Sys, h: nat)
    requires DecisionsOk(s)
    ensures DecisionsOk(Look(s, h))
  {
    hide Backing;
    var settled := s.woken + s.rejected;
    BackingRemoved(s.approvals, s.handlers, settled, h);
    if h in s.handlers && s.handlers[h].Looking? {
      HandlerGoesOn(s.approvals, s.handlers, settled, h, Clearing(s.handlers[h].req, s.handlers[h].verdict));
    }
  }

  lemma ClearDecisions(s: Sys, h: nat)
    requires DecisionsOk(s)
    ensures DecisionsOk(Clear(s, h))
  {
    hide Backing;
    var settled := s.woken + s.rejected;
    BackingRemoved(s.approvals, s.handlers, settled, h);
    if h in s.handlers && s.handlers[h].Clearing? {
      var Clearing(req, v) := s.handlers[h];
      BackedDecision(s, h);
      HandlerGoesOn(s.approvals, s.handlers, settled, h, if v == Reject then FailingRun(req, Reject) else Enqueueing(req));
    }
  }

  lemma EnqueueDecisions(s: Sys, h: nat, queue: QueueOutcome)
    requires DecisionsOk(s)
    ensures DecisionsOk(Enqueue(s, h, queue))
  {
    hide Backing;
    var settled := s.woken + s.rejected;
    if h in s.handlers && s.handlers[h].Enqueueing? {
      var req := s.handlers[h].req;
      BackedDecision(s, h);
      BackingRemoved(s.approvals, s.handlers, settled, h);
      assert settled + {req} == (s.woken + {req}) + s.rejected;
      HandlerGoesOn(s.approvals, s.handlers, settled, h, FailingRun(req, Approve));
      HandlerGoesOn(s.approvals, s.handlers, settled, h, Compensating(req));
    }
  }

  lemma FailRunDecisions(s: Sys, h: nat)
    requires DecisionsOk(s)
    ensures DecisionsOk(FailRun(s, h))
  {
    hide Backing;
    hide MarkFailed;
    var settled := s.woken + s.rejected;
    if h in s.handlers && (s.handlers[h].FailingRun? || s.handlers[h].Compensating?) {
      var req := s.handlers[h].req;
      BackedDecision(s, h);
      BackingRemoved(s.approvals, s.handlers, settled, h);
      assert settled + {req} == s.woken + (s.rejected + {req});
    }
  }

  /** A handler that starts has decided nothing. */
  lemma StartDecisions(s: Sys, h: nat, req: nat, reject: bool)
    requires DecisionsOk(s)
    ensures DecisionsOk(StartHandler(s, h, req, reject)) && DecisionsOk(ReadRun(s, h, req))
  {
    hide Backing;
    var settled := s.woken + s.rejected;
    if h !in s.handlers && h in StartHandler(s, h, req, reject).handlers {
      BackingSet(s.approvals, s.handlers, settled, h, StartHandler(s, h, req, reject).handlers[h]);
    }
    BackingSet(s.approvals, s.handlers, settled, h, ContinuationFailing(req, s.row.attemptCount));
  }

  /** One that ends leaves the others as they are. */
  lemma GoneDecisions(s: Sys, h: nat, delayMs: nat)
    requires DecisionsOk(s)
    ensures DecisionsOk(s.(handlers := s.handlers - {h})) && DecisionsOk(FailRemotely(s, h, delayMs))
  {
    hide Backing;
    hide FailOrRetry;
    BackingRemoved(s.approvals, s.handlers, s.woken + s.rejected, h);
  }

  lemma HandlerDecisions(s: Sys, a: Action)
    requires DecisionsOk(s) && Numbered(s) && !OfWorker(a) && !a.Tick?
    ensures DecisionsOk(HandlerStep(s, a))
  {
    hide DecisionsOk;
    match a
    case HandlerStart(h, req, reject) => StartDecisions(s, h, req, reject);
    case HandlerDecide(h) => DecideDecisions(s, h);
    case HandlerLook(h) => LookDecisions(s, h);
    case HandlerClear(h) => ClearDecisions(s, h);
    case HandlerEnqueue(h, queue) => EnqueueDecisions(s, h, queue);
    case HandlerFailRun(h) => FailRunDecisions(s, h);
    case HandlerGone(h) => GoneDecisions(s, h, 0);
    case RemoteResult(req) => ArriveDecisions(s, req);
    case ContinuationRead(h, req) => StartDecisions(s, h, req, false);
    case ContinuationFail(h, delayMs) => GoneDecisions(s, h, delayMs);
  }

  lemma ArriveDecisions(s: Sys, req: nat)
    requires DecisionsOk(s)
    ensures DecisionsOk(Arrive(s, req))
  {
    hide Backing;
  }

  lemma StepDecisions(wf: Workflow, s: Sys, a: Action)
    requires DecisionsOk(s) && Numbered(s)
    ensures DecisionsOk(Next(wf, s, a))
  {
    hide WorkerStep;
    hide HandlerStep;
    hide Backing;
    hide Grows;
    hide OutcomesOk;
    if !OfWorker(a) && !a.Tick? {
      HandlerDecisions(s, a);
    } else {
      var t := Next(wf, s, a);
      StepGrows(wf, s, a);
      OutcomesGrow(s, t);
      BackingGrows(s, t, s.handlers, s.woken + s.rejected);
    }
  }

  lemma {:induction false} RunDecisions(wf: Workflow, maxAttempts: int, actions: seq<Action>)
    ensures DecisionsOk(Run(wf, Initial(maxAttempts), actions))
  {
    hide Next;
    if actions != [] {
      var n := |actions| - 1;
      RunDecisions(wf, maxAttempts, actions[..n]);
      RunNumbered(wf, maxAttempts, actions[..n]);
      StepDecisions(wf, Run(wf, Initial(maxAttempts), actions[..n]), actions[n]);
    }
  }

  /** In every run the run is cleared and enqueued for resumption only for an approved request, failed as
      rejected only for a rejected one, and never both. */
  lemma {:induction false} ApprovalRace(wf: Workflow, maxAttempts: int, actions: seq<Action>)
    ensures var s := Run(wf, Initial(maxAttempts), actions);
      && (forall r :: r in s.resumed + s.woken ==> HasDecision(s.approvals, r, Approved))
      && (forall r :: r in s.rejected ==> HasDecision(s.approvals, r, Rejected))
      && (s.resumed + s.woken) !! s.rejected
  {
    RunDecisions(wf, maxAttempts, actions);
  }
}
