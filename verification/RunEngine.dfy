/** The code that drives a run, as it is written: the approve and reject handlers of the API, and the worker's
    job for a v3 workflow with its loop, its policy check and its executor calls, on the run row of the
    database. Each undisturbed call makes exactly the protocol's steps that its branches call for, so what
    holds of all runs of the protocol holds of it. */
module RunEngine {
  import opened Common
  import opened Policy
  import opened WorkflowGraph
  import opened RunTable
  import opened RunProtocol
  import opened RunSteps
  import ParallelRegions
  import G = GraphExecutor

  // ---------------------------------------------------------------- the handlers' steps

  datatype Reply = NotFound | AlreadyFinal | HasExpired | Decided(resumed: bool) | QueueUnavailable

  function ApproveTrace(req: nat, queue: QueueOutcome): seq<Action> {
    [HandlerStart(0, req, false), HandlerDecide(0), HandlerLook(0), HandlerClear(0), HandlerEnqueue(0, queue), HandlerFailRun(0)]
  }

  function RejectTrace(req: nat): seq<Action> {
    [HandlerStart(0, req, true), HandlerDecide(0), HandlerLook(0), HandlerClear(0), HandlerFailRun(0)]
  }

  /** The guarded decision, and the handler that has taken it. */
  lemma {:induction false} DecideAlone(wf: Workflow, s: Sys, req: nat, reject: bool)
    requires s.handlers == map[]
    ensures var t := Run(wf, s, [HandlerStart(0, req, reject), HandlerDecide(0)]);
      if !IsPending(s, req) then t == s
      else
        var v := FirstVerdict(s, req, reject);
        t == s.(approvals := s.approvals[req := s.approvals[req].(status := RunProtocol.Decided(v))],
                handlers := if v == Expire then map[] else map[0 := Looking(req, v)])
  {
    hide Next;
    hide Run;
    RunTwo(wf, s, HandlerStart(0, req, reject), HandlerDecide(0));
    StartStep(wf, s, req, reject);
    if IsPending(s, req) {
      var v := FirstVerdict(s, req, reject);
      DecideStep(wf, s.(handlers := map[0 := Deciding(req, v)]), req, v);
    } else {
      NoHandlerNoStep(wf, s, HandlerDecide(0));
    }
  }

  /** Finding the run and clearing its block. */
  lemma {:induction false} ClearAlone(wf: Workflow, s: Sys, req: nat, v: Verdict)
    requires s.handlers == map[0 := Looking(req, v)] && v != Expire
    ensures var t := Run(wf, s, [HandlerLook(0), HandlerClear(0)]);
      t == if !BlockedOn(s.row, req) then s.(handlers := map[])
           else s.(row := ClearBlock(s.row, req, None), resumed := if v == Reject then s.resumed else s.resumed + {req},
                   handlers := map[0 := if v == Reject then FailingRun(req, Reject) else Enqueueing(req)])
  {
    hide ClearBlock;
    hide Next;
    hide Run;
    RunTwo(wf, s, HandlerLook(0), HandlerClear(0));
    LookStep(wf, s, req, v);
    if BlockedOn(s.row, req) {
      ClearStep(wf, s.(handlers := map[0 := Clearing(req, v)]), req, v);
    } else {
      NoHandlerNoStep(wf, s.(handlers := map[]), HandlerClear(0));
    }
  }

  /** Enqueueing the run, and failing it if that throws. */
  lemma {:induction false} EnqueueAlone(wf: Workflow, s: Sys, req: nat, queue: QueueOutcome)
    requires s.handlers == map[0 := Enqueueing(req)]
    ensures Run(wf, s, [HandlerEnqueue(0, queue), HandlerFailRun(0)]) ==
      if queue == Accepted then s.(handlers := map[], job := true, woken := s.woken + {req})
      else s.(handlers := map[], row := MarkFailed(s.row, "QUEUE_UNAVAILABLE_AFTER_APPROVAL", s.now),
              job := s.job || queue == AcceptedButThrew)
  {
    hide Next;
    hide MarkFailed;
    RunTwo(wf, s, HandlerEnqueue(0, queue), HandlerFailRun(0));
    EnqueueStep(wf, s, req, queue);
    if queue == Accepted {
      NoHandlerNoStep(wf, s.(handlers := map[], job := true, woken := s.woken + {req}), HandlerFailRun(0));
    } else {
      CompensateStep(wf, Next(wf, s, HandlerEnqueue(0, queue)), req);
    }
  }

  /** Without a handler its steps change nothing. */
  lemma NoHandlerNoStep(wf: Workflow, s: Sys, a: Action)
    requires s.handlers == map[]
    requires a.HandlerDecide? || a.HandlerLook? || a.HandlerClear? || a.HandlerEnqueue? || a.HandlerFailRun?
    ensures Next(wf, s, a) == s
  {
  }

  lemma {:induction false} NobodyThere(wf: Workflow, s: Sys, queue: QueueOutcome)
    requires s.handlers == map[]
    ensures Run(wf, s, [HandlerLook(0), HandlerClear(0)]) == s
    ensures Run(wf, s, [HandlerEnqueue(0, queue), HandlerFailRun(0)]) == s && Run(wf, s, [HandlerFailRun(0)]) == s
  {
    hide Next;
    hide Run;
    NoHandlerNoStep(wf, s, HandlerLook(0));
    NoHandlerNoStep(wf, s, HandlerClear(0));
    NoHandlerNoStep(wf, s, HandlerEnqueue(0, queue));
    NoHandlerNoStep(wf, s, HandlerFailRun(0));
    RunTwo(wf, s, HandlerLook(0), HandlerClear(0));
    RunTwo(wf, s, HandlerEnqueue(0, queue), HandlerFailRun(0));
    RunOne(wf, s, HandlerFailRun(0));
  }

  lemma {:induction false} SplitApprove(wf: Workflow, s: Sys, req: nat, queue: QueueOutcome)
    ensures var s1 := Run(wf, s, [HandlerStart(0, req, false), HandlerDecide(0)]);
      var s2 := Run(wf, s1, [HandlerLook(0), HandlerClear(0)]);
      Run(wf, s, ApproveTrace(req, queue)) == Run(wf, s2, [HandlerEnqueue(0, queue), HandlerFailRun(0)])
  {
    hide Next;
    var a, b, c := [HandlerStart(0, req, false), HandlerDecide(0)], [HandlerLook(0), HandlerClear(0)], [HandlerEnqueue(0, queue), HandlerFailRun(0)];
    RunJoin(wf, s, a, b);
    RunJoin(wf, s, a + b, c);
    assert a + b + c == ApproveTrace(req, queue);
  }

  lemma {:induction false} SplitReject(wf: Workflow, s: Sys, req: nat)
    ensures var s1 := Run(wf, s, [HandlerStart(0, req, true), HandlerDecide(0)]);
      var s2 := Run(wf, s1, [HandlerLook(0), HandlerClear(0)]);
      Run(wf, s, RejectTrace(req)) == Run(wf, s2, [HandlerFailRun(0)])
  {
    hide Next;
    var a, b, c := [HandlerStart(0, req, true), HandlerDecide(0)], [HandlerLook(0), HandlerClear(0)], [HandlerFailRun(0)];
    RunJoin(wf, s, a, b);
    RunJoin(wf, s, a + b, c);
    assert a + b + c == RejectTrace(req);
  }

  // ---------------------------------------------------------------- the job's steps

  /** What an executor answers: the node's result, a failure of its own, or a remote call to dispatch. */
  datatype ExecutorReply = Completes | Breaks(likeDenial: bool) | Dispatches(timeoutMs: int)

  /** What the environment answers while one node is worked on: whether the statements before the policy
      check, the event that goes with a denial, a request or a dispatch, and the enqueueing of the poll go
      through, and what the executor makes of the node. */
  datatype Answers = Answers(startOk: bool, eventOk: bool, pollOk: bool, ttlMs: nat, executorFound: bool, reply: ExecutorReply)

  /** A whole job: the rules it loads, the order it takes ready nodes in, the answers node by node (the process
      dies when there are no more), and what else can go wrong. */
  datatype Job = Job(rules: seq<Rule>, order: seq<Id> -> Id, answers: seq<Answers>,
                     published: bool, beginOk: bool, endOk: bool, failOk: bool)

  predicate Granted(approvals: map<nat, Approval>, now: int, req: nat, node: Id) {
    req in approvals && approvals[req].nodeId == node && approvals[req].status == Approved && approvals[req].expiresAt > now
  }

  /** The newest approved, unexpired request for the node among the first `k`. */
  function LookUp(approvals: map<nat, Approval>, now: int, node: Id, k: nat): (r: Option<nat>)
    ensures r.Some? ==> r.value < k && Granted(approvals, now, r.value, node)
    ensures r.Some? ==> forall q: nat :: r.value < q < k ==> !Granted(approvals, now, q, node)
    ensures r.None? ==> forall q: nat :: q < k ==> !Granted(approvals, now, q, node)
  {
    if k == 0 then None else if Granted(approvals, now, k - 1, node) then Some(k - 1) else LookUp(approvals, now, node, k - 1)
  }

  /** From a permitted node on. */
  function ExecuteTrace(ans: Answers): seq<Action> {
    if !ans.executorFound then [WorkerThrow]
    else
      match ans.reply
      case Completes => [WorkerExecute(NodeRan)]
      case Breaks(likeDenial) => [WorkerExecute(NodeFailed(likeDenial))]
      case Dispatches(timeoutMs) =>
        [WorkerExecute(NodeBlocked(timeoutMs))] +
        if !ans.eventOk then [WorkerThrow] else [WorkerBlock, if ans.pollOk then WorkerPolled else WorkerThrow]
  }

  /** From the approval lookup on. */
  function ApprovalTrace(found: Option<nat>, ans: Answers): seq<Action> {
    [WorkerCheck(found)] +
    if found.Some? then ExecuteTrace(ans) else [WorkerAsk(ans.ttlMs), if ans.eventOk then WorkerBlock else WorkerThrow]
  }

  /** The steps for one ready node. */
  function NodeTrace(wf: Workflow, s: Sys, node: Id, ans: Answers): seq<Action>
    requires s.worker.Active?
  {
    if !ans.startOk then [WorkerThrow]
    else if !IsTask(wf, node) then [WorkerBuiltin(node)]
    else
      [WorkerPick(node)] +
      match EffectOn(wf, s.worker.rules, node)
      case Allow => ExecuteTrace(ans)
      case Deny => [WorkerDeny(ans.eventOk)]
      case RequireApproval => ApprovalTrace(LookUp(s.approvals, s.now, node, s.nextReq), ans)
  }

  function ReadyIn(wf: Workflow, steps: Steps): seq<Id> {
    G.ReadyNodes(wf.graph, G.IndexOf(steps), wf.graph.ids)
  }

  /** The `catch` block, if the job got there. */
  function CatchTrace(w: Worker, job: Job): seq<Action> {
    if w.Failing? then [WorkerFail(job.failOk)] else []
  }

  /** The loop over ready nodes, from the `k`-th answers on. */
  function LoopTrace(wf: Workflow, s: Sys, job: Job, k: nat): seq<Action>
    requires k <= |job.answers|
    decreases |job.answers| - k
  {
    if !s.worker.Active? then CatchTrace(s.worker, job)
    else
      var ready := ReadyIn(wf, s.worker.steps);
      if ready == [] then [WorkerFinish, WorkerEnd(job.endOk)] + (if job.endOk then [] else [WorkerFail(job.failOk)])
      else if k == |job.answers| then [WorkerCrash]
      else
        var t := NodeTrace(wf, s, job.order(ready), job.answers[k]);
        t + LoopTrace(wf, Run(wf, s, t), job, k + 1)
  }

  ghost predicate PassesValidation(g: Graph) {
    Structured(g) && !ParallelRegions.RemoteInParallel(g)
  }

  /** After the attempt has begun: the graph is validated, and the loop runs. */
  ghost function BodyTrace(wf: Workflow, s: Sys, job: Job): seq<Action> {
    if PassesValidation(wf.graph) then LoopTrace(wf, s, job, 0) else [WorkerThrow, WorkerFail(job.failOk)]
  }

  /** The whole job. */
  ghost function JobTrace(wf: Workflow, s: Sys, job: Job): seq<Action> {
    var loaded := Next(wf, s, WorkerLoad(job.rules));
    [WorkerLoad(job.rules)] +
    if !loaded.worker.Loaded? then []
    else if !job.published then [WorkerUnpublished(job.failOk)]
    else if !job.beginOk then [WorkerCrash]
    else [WorkerBegin] + BodyTrace(wf, Next(wf, loaded, WorkerBegin), job)
  }

  lemma LoopUnfolds(wf: Workflow, s: Sys, job: Job, k: nat)
    requires s.worker.Active? && k < |job.answers| && ReadyIn(wf, s.worker.steps) != []
    ensures var node := job.order(ReadyIn(wf, s.worker.steps));
      var t := Run(wf, s, NodeTrace(wf, s, node, job.answers[k]));
      Run(wf, s, LoopTrace(wf, s, job, k)) == Run(wf, t, LoopTrace(wf, t, job, k + 1))
  {
    hide NodeTrace;
    hide Next;
    hide ReadyIn;
    var trace := NodeTrace(wf, s, job.order(ReadyIn(wf, s.worker.steps)), job.answers[k]);
    RunJoin(wf, s, trace, LoopTrace(wf, Run(wf, s, trace), job, k + 1));
    hide Run;
  }

  lemma {:induction false} JobUnfolds(wf: Workflow, s: Sys, job: Job)
    ensures var loaded := Next(wf, s, WorkerLoad(job.rules));
      var begun := Next(wf, loaded, WorkerBegin);
      Run(wf, s, JobTrace(wf, s, job)) ==
        if !loaded.worker.Loaded? then loaded
        else if !job.published then Next(wf, loaded, WorkerUnpublished(job.failOk))
        else if !job.beginOk then Next(wf, loaded, WorkerCrash)
        else Run(wf, begun, BodyTrace(wf, begun, job))
  {
    hide Next;
    hide BodyTrace;
    hide Run;
    var loaded := Next(wf, s, WorkerLoad(job.rules));
    var body := BodyTrace(wf, Next(wf, loaded, WorkerBegin), job);
    var rest := JobTrace(wf, s, job)[1..];
    RunCons(wf, s, WorkerLoad(job.rules), rest);
    RunNone(wf, loaded);
    RunOne(wf, loaded, WorkerUnpublished(job.failOk));
    RunOne(wf, loaded, WorkerCrash);
    RunCons(wf, loaded, WorkerBegin, body);
  }

  /** The ready nodes are those the protocol calls ready; when there are none, the run is done. */
  lemma ReadyInIs(wf: Workflow, steps: Steps)
    requires WorkflowGraph.Record(wf.graph)
    ensures forall n :: n in ReadyIn(wf, steps) ==> IsReady(wf, steps, n)
    ensures ReadyIn(wf, steps) == [] <==> IsDone(wf, steps)
  {
    hide G.Ready;
    var ix := G.IndexOf(steps);
    if ReadyIn(wf, steps) != [] {
      var n := ReadyIn(wf, steps)[0];
      assert n in ReadyIn(wf, steps);
      assert G.Ready(wf.graph, ix, n) && n in wf.graph.types;
    } else {
      forall n | n in wf.graph.types
        ensures !G.Ready(wf.graph, ix, n)
      {
        assert n in wf.graph.ids && n !in ReadyIn(wf, steps);
      }
    }
  }

  /** How the work on one node ends. */
  datatype NodeEnd = Continues(steps: Steps) | Blocks | Throws(denied: bool)

  function WorkerAt(end: NodeEnd, attempt: nat, rules: seq<Rule>): Worker {
    match end
    case Continues(steps) => Active(attempt, rules, steps)
    case Blocks => Idle
    case Throws(denied) => Failing(attempt, denied)
  }

  /** A result is recorded as one more step, a failure is thrown, as a denial if it may be one and reads so. */
  predicate RecordedAs(result: G.Result, steps: Steps, n: Id, mayDeny: bool, end: NodeEnd) {
    match result
    case Yields(output) => end == Continues(steps + [G.Succeeded(n, output)])
    case Fails(error) => end == Throws(mayDeny && "POLICY_DENIED:" <= error)
  }

  // ---------------------------------------------------------------- the code

  class RunStore {
    const run: RunRow
    var approvals: map<nat, Approval>
    var job: bool
    var nextReq: nat
    ghost var executions: seq<Execution>
    ghost var resumed: set<nat>
    ghost var woken: set<nat>
    ghost var rejected: set<nat>

    constructor (maxAttempts: int)
      ensures State(Idle, 0) == Initial(maxAttempts) && fresh(run)
    {
      run := new RunRow(maxAttempts);
      approvals, job, nextReq, executions, resumed, woken, rejected := map[], true, 0, [], {}, {}, {};
    }

    /** The system with the worker at `worker` and no handler about. */
    ghost function State(worker: Worker, now: int): Sys
      reads this, run
    {
      Sys(run.Value(), worker, job, now, approvals, nextReq, map[], executions, resumed, woken, rejected)
    }

    /** The request is pending, and the run is running and blocked on it. */
    predicate Waits(req: nat)
      reads this, run
    {
      req in approvals && approvals[req].status == Pending && run.status == Running && run.blockedRequestId == Some(req)
    }

    /** The approve handler. Only a pending request is decided: it expires if it is too late, and is approved
        otherwise. The run is resumed, with its steps, exactly for an unexpired request on which it is blocked,
        if the queue accepts it, and failed if the queue does not. */
    method ApproveRequest(req: nat, now: int, queue: QueueOutcome, ghost worker: Worker, ghost wf: Workflow) returns (reply: Reply)
      modifies this, run
      ensures State(worker, now) == Run(wf, old(State(worker, now)), ApproveTrace(req, queue))
      ensures reply == Decided(true) <==>
        old(Waits(req)) && old(approvals)[req].expiresAt > now && queue == Accepted
      ensures reply == NotFound <==> req !in old(approvals)
      ensures reply == AlreadyFinal <==> req in old(approvals) && old(approvals)[req].status != Pending
      ensures reply == HasExpired <==> req in old(approvals) && old(approvals)[req].status == Pending && old(approvals)[req].expiresAt <= now
      ensures reply == NotFound || reply == AlreadyFinal ==> approvals == old(approvals)
      ensures reply == HasExpired ==> approvals == old(approvals)[req := old(approvals)[req].(status := Expired)]
      ensures reply == QueueUnavailable || reply.Decided? ==> approvals == old(approvals)[req := old(approvals)[req].(status := Approved)]
      ensures reply == Decided(true) ==>
        run.status == Running && run.blockedRequestId.None? && run.output == old(run.output) && run.attemptCount == old(run.attemptCount) && job
      ensures reply == QueueUnavailable <==> old(Waits(req)) && old(approvals)[req].expiresAt > now && queue != Accepted
      ensures reply == QueueUnavailable ==> run.status == Failed && run.error == Some("QUEUE_UNAVAILABLE_AFTER_APPROVAL")
      ensures reply != QueueUnavailable && reply != Decided(true) ==> run.Value() == old(run.Value()) && job == old(job)
    {
      hide Run;
      hide Next;
      hide ApproveTrace;
      hide RowInv;
      hide ClearBlock;
      hide MarkFailed;
      ghost var s := State(worker, now);
      SplitApprove(wf, s, req, queue);
      DecideAlone(wf, s, req, false);
      if req !in approvals {
        NobodyThere(wf, s, queue);
        return NotFound;
      }
      if approvals[req].status != Pending {
        NobodyThere(wf, s, queue);
        return AlreadyFinal;
      }
      if approvals[req].expiresAt <= now {
        approvals := approvals[req := approvals[req].(status := Expired)];
        NobodyThere(wf, State(worker, now), queue);
        return HasExpired;
      }
      approvals := approvals[req := approvals[req].(status := Approved)];
      reply := ResumeIfBlocked(req, now, queue, worker, wf);
    }

    /** After the approval: the run that is blocked on the request is cleared and enqueued. */
    method ResumeIfBlocked(req: nat, now: int, queue: QueueOutcome, ghost worker: Worker, ghost wf: Workflow) returns (reply: Reply)
      modifies this`job, this`resumed, this`woken, run
      ensures State(worker, now) ==
        Run(wf, Run(wf, old(State(worker, now)).(handlers := map[0 := Looking(req, Approve)]), [HandlerLook(0), HandlerClear(0)]),
            [HandlerEnqueue(0, queue), HandlerFailRun(0)])
      ensures var waits := old(run.status == Running && run.blockedRequestId == Some(req));
        && reply == (if !waits then Decided(false) else if queue == Accepted then Decided(true) else QueueUnavailable)
        && (!waits ==> run.Value() == old(run.Value()) && job == old(job))
      ensures reply == Decided(true) ==>
        run.status == Running && run.blockedRequestId.None? && run.output == old(run.output) && run.attemptCount == old(run.attemptCount) && job
      ensures reply == QueueUnavailable ==> run.status == Failed && run.error == Some("QUEUE_UNAVAILABLE_AFTER_APPROVAL")
    {
      hide Run;
      hide Next;
      hide ClearBlock;
      hide MarkFailed;
      ClearAlone(wf, State(worker, now).(handlers := map[0 := Looking(req, Approve)]), req, Approve);
      if run.status == Running && run.blockedRequestId == Some(req) {
        var cleared := run.Clear(req, None);
        resumed := resumed + {req};
        EnqueueAlone(wf, State(worker, now).(handlers := map[0 := Enqueueing(req)]), req, queue);
        reply := EnqueueOrFail(req, now, queue);
      } else {
        NobodyThere(wf, State(worker, now), queue);
        reply := Decided(false);
      }
    }

    method EnqueueOrFail(req: nat, now: int, queue: QueueOutcome) returns (reply: Reply)
      modifies this`job, this`woken, run
      ensures reply == if queue == Accepted then Decided(true) else QueueUnavailable
      ensures queue == Accepted ==> unchanged(run)
      ensures queue != Accepted ==> run.status == Failed && run.error == Some("QUEUE_UNAVAILABLE_AFTER_APPROVAL")
      ensures job == (old(job) || queue != Refused) && woken == if queue == Accepted then old(woken) + {req} else old(woken)
      ensures run.Value() == if queue == Accepted then old(run.Value()) else MarkFailed(old(run.Value()), "QUEUE_UNAVAILABLE_AFTER_APPROVAL", now)
    {
      job := job || queue != Refused;
      if queue == Accepted {
        woken := woken + {req};
        return Decided(true);
      }
      run.Fail("QUEUE_UNAVAILABLE_AFTER_APPROVAL", now);
      return QueueUnavailable;
    }

    /** The reject handler: only a pending request is decided, expired or not, and a run blocked on it fails. */
    method RejectRequest(req: nat, now: int, ghost worker: Worker, ghost wf: Workflow) returns (reply: Reply)
      modifies this, run
      ensures State(worker, now) == Run(wf, old(State(worker, now)), RejectTrace(req))
      ensures reply == NotFound <==> req !in old(approvals)
      ensures reply == AlreadyFinal <==> req in old(approvals) && old(approvals)[req].status != Pending
      ensures reply == NotFound || reply == AlreadyFinal || reply == Decided(false)
      ensures approvals == if reply == Decided(false) then old(approvals)[req := old(approvals)[req].(status := RunProtocol.Rejected)] else old(approvals)
      ensures old(Waits(req)) ==> run.status == Failed && run.error == Some("APPROVAL_REJECTED") && run.output == old(run.output)
      ensures !old(Waits(req)) ==> run.Value() == old(run.Value())
      ensures job == old(job)
    {
      hide Run;
      hide Next;
      hide RejectTrace;
      hide RowInv;
      hide ClearBlock;
      ghost var s := State(worker, now);
      SplitReject(wf, s, req);
      DecideAlone(wf, s, req, true);
      if req !in approvals {
        NobodyThere(wf, s, Refused);
        return NotFound;
      }
      if approvals[req].status != Pending {
        NobodyThere(wf, s, Refused);
        return AlreadyFinal;
      }
      approvals := approvals[req := approvals[req].(status := RunProtocol.Rejected)];
      ClearAlone(wf, State(worker, now).(handlers := map[0 := Looking(req, Reject)]), req, Reject);
      if run.status == Running && run.blockedRequestId == Some(req) {
        var cleared := run.Clear(req, None);
        RunOne(wf, State(worker, now).(handlers := map[0 := FailingRun(req, Reject)]), HandlerFailRun(0));
        RejectStep(wf, State(worker, now).(handlers := map[0 := FailingRun(req, Reject)]), req);
        run.Fail("APPROVAL_REJECTED", now);
        rejected := rejected + {req};
      } else {
        NobodyThere(wf, State(worker, now), Refused);
      }
      reply := Decided(false);
    }

    predicate Valid()
      reads this
    {
      forall r :: r in approvals ==> r < nextReq
    }

    /** One job of the worker for a v3 workflow. */
    method ProcessJob(wf: Workflow, job: Job, now: int)
      requires Valid() && WorkflowGraph.Record(wf.graph) && G.Chooses(job.order)
      modifies this, run
      ensures Valid() && State(Idle, now) == Run(wf, old(State(Idle, now)), JobTrace(wf, old(State(Idle, now)), job))
    {
      hide Run;
      hide Next;
      hide BodyTrace;
      hide JobTrace;
      hide MarkRunning;
      hide MarkFailed;
      hide G.Chooses;
      hide WorkflowGraph.Record;
      ghost var s := State(Idle, now);
      JobUnfolds(wf, s, job);
      if !this.job || run.status == Succeeded || run.status == Failed || (run.status == Running && run.blockedRequestId.Some?) {
        IdleLoadStep(wf, s, job.rules);
        this.job := false;
        return;
      }
      LoadStep(wf, s, job.rules);
      ghost var loaded := Next(wf, s, WorkerLoad(job.rules));
      if !job.published {
        UnpublishedStep(wf, loaded, job.failOk);
        run.Fail("WORKFLOW_NOT_PUBLISHED", now);
        this.job := !job.failOk;
        return;
      }
      if !job.beginOk {
        CrashStep(wf, loaded);
        return;
      }
      BeginStep(wf, loaded);
      var attempt, steps := StartOrResume(now);
      assert Next(wf, loaded, WorkerBegin) == State(Active(attempt, job.rules, steps), now);
      RunBody(wf, job, attempt, steps, now);
    }

    /** A queued run starts its next attempt from nothing, a running one goes on from its persisted steps. */
    method StartOrResume(now: int) returns (attempt: nat, steps: Steps)
      requires !Final(run.Value()) && (run.status == Queued || run.blockedRequestId.None?)
      modifies run
      ensures old(run.status) == Queued ==>
        && attempt == old(run.attemptCount) + 1 && steps == [] && run.Value() == MarkRunning(old(run.Value()), attempt, now)
        && run.status == Running && run.attemptCount == attempt && run.output.None? && run.blockedRequestId.None?
      ensures old(run.status) != Queued ==>
        && attempt == (if run.attemptCount < 1 then 1 else run.attemptCount)
        && steps == (if run.output.Some? then run.output.value else []) && run.Value() == old(run.Value())
    {
      if run.status == Queued {
        attempt, steps := run.attemptCount + 1, [];
        run.Start(attempt, now);
      } else {
        attempt := Max(1, run.attemptCount);
        steps := if run.output.Some? then run.output.value else [];
      }
    }

    /** The validation of the graph, the loop, and the `catch` block around them. */
    method RunBody(wf: Workflow, job: Job, attempt: nat, steps: Steps, now: int)
      requires Valid() && WorkflowGraph.Record(wf.graph) && G.Chooses(job.order)
      modifies this, run
      ensures Valid()
      ensures State(Idle, now) ==
        Run(wf, old(State(Active(attempt, job.rules, steps), now)), BodyTrace(wf, old(State(Active(attempt, job.rules, steps), now)), job))
    {
      hide Run;
      hide Next;
      hide LoopTrace;
      ghost var s := State(Active(attempt, job.rules, steps), now);
      var issue := ParallelRegions.ValidateV3GraphConstraints(wf.graph);
      if issue.Some? {
        RunTwo(wf, s, WorkerThrow, WorkerFail(job.failOk));
        ThrowStep(wf, s);
        CatchBlock(wf, attempt, false, job.failOk, now);
        return;
      }
      RunLoop(wf, job, attempt, steps, now);
    }

    method RunLoop(wf: Workflow, job: Job, attempt: nat, persisted: Steps, now: int)
      requires Valid() && WorkflowGraph.Record(wf.graph) && G.Chooses(job.order)
      modifies this, run
      ensures Valid()
      ensures State(Idle, now) ==
        Run(wf, old(State(Active(attempt, job.rules, persisted), now)), LoopTrace(wf, old(State(Active(attempt, job.rules, persisted), now)), job, 0))
    {
      hide Run;
      hide Next;
      hide NodeTrace;
      hide IsReady;
      hide IsDone;
      hide IsTask;
      hide ReadyIn;
      hide EffectOn;
      hide NodeResult;
      var steps, k := persisted, 0;
      ghost var first := State(Active(attempt, job.rules, persisted), now);
      ghost var outcome := Run(wf, first, LoopTrace(wf, first, job, 0));
      while true
        invariant Valid() && k <= |job.answers|
        invariant var s := State(Active(attempt, job.rules, steps), now); outcome == Run(wf, s, LoopTrace(wf, s, job, k))
        decreases |job.answers| - k
      {
        ghost var s := State(Active(attempt, job.rules, steps), now);
        var ready := ReadyIn(wf, steps);
        ReadyInIs(wf, steps);
        if ready == [] {
          FinishRun(wf, job, attempt, steps, now);
          return;
        }
        if k == |job.answers| {
          RunOne(wf, s, WorkerCrash);
          CrashStep(wf, s);
          return;
        }
        var n := job.order(ready);
        assert n in ready;
        LoopUnfolds(wf, s, job, k);
        var end := ExecuteNode(wf, job.rules, attempt, steps, n, job.answers[k], now);
        match end
        case Continues(longer) => steps, k := longer, k + 1;
        case Blocks =>
          RunNone(wf, State(Idle, now));
          return;
        case Throws(denied) =>
          RunOne(wf, State(Failing(attempt, denied), now), WorkerFail(job.failOk));
          CatchBlock(wf, attempt, denied, job.failOk, now);
          return;
      }
    }

    /** Nothing is ready any more: the success, its event, and the `catch` block if that throws. */
    method FinishRun(wf: Workflow, job: Job, attempt: nat, steps: Steps, now: int)
      requires Valid() && IsDone(wf, steps)
      modifies this`job, run
      ensures State(Idle, now) == Run(wf, old(State(Active(attempt, job.rules, steps), now)),
        [WorkerFinish, WorkerEnd(job.endOk)] + (if job.endOk then [] else [WorkerFail(job.failOk)]))
      ensures job.endOk ==> run.status == Succeeded && run.output == Some(steps) && run.finishedAt == Some(now) && !this.job
    {
      hide Run;
      hide Next;
      hide IsDone;
      ghost var s := State(Active(attempt, job.rules, steps), now);
      FinishStep(wf, s);
      run.Succeed(steps, now);
      ghost var finishing := State(Finishing(attempt), now);
      EndStep(wf, finishing, job.endOk);
      RunTwo(wf, s, WorkerFinish, WorkerEnd(job.endOk));
      if job.endOk {
        assert [WorkerFinish, WorkerEnd(job.endOk)] + [] == [WorkerFinish, WorkerEnd(job.endOk)];
        this.job := false;
      } else {
        RunMore(wf, s, [WorkerFinish, WorkerEnd(job.endOk)], WorkerFail(job.failOk));
        CatchBlock(wf, attempt, false, job.failOk, now);
      }
    }

    method CatchBlock(ghost wf: Workflow, attempt: nat, denied: bool, eventOk: bool, now: int)
      modifies this`job, run
      ensures State(Idle, now) == Next(wf, old(State(Failing(attempt, denied), now)), WorkerFail(eventOk))
      ensures run.status == if denied || attempt >= run.maxAttempts then Failed else Queued
      ensures run.error == Some(if denied then "POLICY_DENIED" else "NODE_FAILED") && run.attemptCount == old(run.attemptCount)
      ensures job <==> run.status == Queued || !eventOk
    {
      hide Next;
      FailStep(wf, State(Failing(attempt, denied), now), eventOk);
      var error := if denied then "POLICY_DENIED" else "NODE_FAILED";
      if attempt >= run.maxAttempts || denied {
        run.Fail(error, now);
        job := !eventOk;
      } else {
        run.Retry(error, None);
        job := true;
      }
    }

    /** The work on one ready node: condition and join nodes in place, task nodes after the policy check. */
    method ExecuteNode(wf: Workflow, rules: seq<Rule>, attempt: nat, steps: Steps, n: Id, ans: Answers, now: int) returns (end: NodeEnd)
      requires Valid() && IsReady(wf, steps, n)
      modifies this, run
      ensures Valid()
      ensures var s := old(State(Active(attempt, rules, steps), now));
        State(WorkerAt(end, attempt, rules), now) == Run(wf, s, NodeTrace(wf, s, n, ans))
      ensures IsTask(wf, n) && EffectOn(wf, rules, n) == Deny && ans.startOk ==>
        end == Throws(ans.eventOk) && executions == old(executions) && run.Value() == old(run.Value())
      ensures !ans.startOk ==> end == Throws(false) && executions == old(executions) && run.Value() == old(run.Value())
      ensures ans.startOk && !IsTask(wf, n) ==> executions == old(executions) && RecordedAs(NodeResult(wf, steps, n), steps, n, false, end)
      ensures ans.startOk && IsTask(wf, n) && EffectOn(wf, rules, n) == Allow ==>
        executions == old(executions) + (if ans.executorFound then [Execution(n, rules, None, now)] else [])
    {
      hide Run;
      hide Next;
      hide IsReady;
      hide IsTask;
      hide EffectOn;
      hide ExecuteTrace;
      hide ApprovalTrace;
      ghost var s := State(Active(attempt, rules, steps), now);
      if !ans.startOk {
        RunOne(wf, s, WorkerThrow);
        ThrowStep(wf, s);
        return Throws(false);
      }
      if !IsTask(wf, n) {
        RunOne(wf, s, WorkerBuiltin(n));
        BuiltinStep(wf, s, n);
        end := RecordNode(wf, rules, attempt, steps, n, false, now);
        assert State(WorkerAt(end, attempt, rules), now) == Run(wf, s, NodeTrace(wf, s, n, ans));
        return;
      }
      PickStep(wf, s, n, attempt, rules, steps);
      match EffectOn(wf, rules, n)
      case Allow =>
        RunCons(wf, s, WorkerPick(n), ExecuteTrace(ans));
        end := ExecuteTask(wf, rules, attempt, steps, n, None, ans, now);
        assert State(WorkerAt(end, attempt, rules), now) == Run(wf, s, NodeTrace(wf, s, n, ans));
      case Deny =>
        RunTwo(wf, s, WorkerPick(n), WorkerDeny(ans.eventOk));
        DenyStep(wf, s.(worker := Denying(attempt)), ans.eventOk);
        assert [WorkerPick(n)] + [WorkerDeny(ans.eventOk)] == [WorkerPick(n), WorkerDeny(ans.eventOk)];
        end := Throws(ans.eventOk);
        assert State(WorkerAt(end, attempt, rules), now) == Run(wf, s, NodeTrace(wf, s, n, ans));
      case RequireApproval =>
        RunCons(wf, s, WorkerPick(n), ApprovalTrace(LookUp(approvals, now, n, nextReq), ans));
        end := CheckApproval(wf, rules, attempt, steps, n, ans, now);
    }

    /** The result of a node that ran to completion: a step and a checkpoint, or a failure. */
    method RecordNode(wf: Workflow, rules: seq<Rule>, attempt: nat, steps: Steps, n: Id, mayDeny: bool, now: int) returns (end: NodeEnd)
      modifies run
      ensures State(WorkerAt(end, attempt, rules), now) ==
        RecordResult(wf, old(State(Idle, now)), attempt, rules, steps, n, mayDeny)
      ensures RecordedAs(NodeResult(wf, steps, n), steps, n, mayDeny, end)
      ensures end.Continues? ==> run.output == Some(end.steps)
      ensures end.Throws? ==> unchanged(run)
    {
      hide NodeResult;
      match NodeResult(wf, steps, n)
      case Fails(error) => end := Throws(mayDeny && DENIAL <= error);
      case Yields(output) =>
        var longer := steps + [G.Succeeded(n, output)];
        run.Progress(0, longer);
        end := Continues(longer);
    }

    /** A permitted node: the executor is called, and its reply recorded, reported or dispatched. */
    method ExecuteTask(wf: Workflow, rules: seq<Rule>, attempt: nat, steps: Steps, n: Id, permit: Option<nat>, ans: Answers, now: int)
      returns (end: NodeEnd)
      requires Valid()
      modifies this`executions, this`job, this`nextReq, run
      ensures Valid()
      ensures State(WorkerAt(end, attempt, rules), now) ==
        Run(wf, old(State(Cleared(attempt, rules, steps, n, permit, now), now)), ExecuteTrace(ans))
      ensures executions == old(executions) + (if ans.executorFound then [Execution(n, rules, permit, now)] else [])
      ensures !ans.executorFound ==> end == Throws(false)
      ensures ans.executorFound && ans.reply.Completes? ==> RecordedAs(NodeResult(wf, steps, n), steps, n, true, end)
      ensures ans.executorFound && ans.reply.Breaks? ==> end == Throws(ans.reply.likeDenial)
      ensures ans.executorFound && ans.reply.Dispatches? ==> end == if ans.eventOk && ans.pollOk then Blocks else Throws(false)
      ensures end.Continues? ==> run.output == Some(end.steps)
    {
      hide Run;
      hide Next;
      ghost var s := State(Cleared(attempt, rules, steps, n, permit, now), now);
      if !ans.executorFound {
        RunOne(wf, s, WorkerThrow);
        ThrowStep(wf, s);
        return Throws(false);
      }
      executions := executions + [Execution(n, rules, permit, now)];
      match ans.reply
      case Completes =>
        RunOne(wf, s, WorkerExecute(NodeRan));
        ExecuteStep(wf, s, NodeRan);
        end := RecordNode(wf, rules, attempt, steps, n, true, now);
      case Breaks(likeDenial) =>
        RunOne(wf, s, WorkerExecute(NodeFailed(likeDenial)));
        ExecuteStep(wf, s, NodeFailed(likeDenial));
        end := Throws(likeDenial);
      case Dispatches(timeoutMs) =>
        ExecuteStep(wf, s, NodeBlocked(timeoutMs));
        end := Dispatch(wf, attempt, rules, steps, n, timeoutMs, ans, now);
        RunCons(wf, s, WorkerExecute(NodeBlocked(timeoutMs)),
                if !ans.eventOk then [WorkerThrow] else [WorkerBlock, if ans.pollOk then WorkerPolled else WorkerThrow]);
    }

    /** The run is blocked on the request for the node, and holds the steps so far. */
    predicate BlockedAt(n: Id, req: nat, kind: string, timeoutAt: int, steps: Steps)
      reads this, run
    {
      && run.blockedRequestId == Some(req) && run.blockedNodeId == Some(n.name) && run.blockedKind == Some(kind)
      && run.blockedTimeoutAt == Some(timeoutAt) && run.output == Some(steps)
    }

    /** The call has been dispatched: its event, the block, and the poll for its result. */
    method Dispatch(wf: Workflow, attempt: nat, rules: seq<Rule>, steps: Steps, n: Id, timeoutMs: int, ans: Answers, now: int) returns (end: NodeEnd)
      requires Valid()
      modifies this`job, this`nextReq, run
      ensures Valid()
      ensures State(WorkerAt(end, attempt, rules), now) ==
        Run(wf, old(State(Blocking(attempt, steps, n, nextReq, false, now + timeoutMs), now)).(nextReq := old(nextReq) + 1),
            if !ans.eventOk then [WorkerThrow] else [WorkerBlock, if ans.pollOk then WorkerPolled else WorkerThrow])
      ensures ans.eventOk ==> BlockedAt(n, old(nextReq), "remote", now + timeoutMs, steps)
      ensures end == if ans.eventOk && ans.pollOk then Blocks else Throws(false)
    {
      hide Run;
      hide Next;
      hide TypeName;
      var req := nextReq;
      nextReq := nextReq + 1;
      ghost var s := State(Blocking(attempt, steps, n, req, false, now + timeoutMs), now);
      if !ans.eventOk {
        RunOne(wf, s, WorkerThrow);
        ThrowStep(wf, s);
        return Throws(false);
      }
      BlockStep(wf, s);
      run.Block(0, req, n.name, TypeName(wf, n), "remote", now, now + timeoutMs, steps);
      ghost var polling := State(Polling(attempt), now);
      RunTwo(wf, s, WorkerBlock, if ans.pollOk then WorkerPolled else WorkerThrow);
      if !ans.pollOk {
        ThrowStep(wf, polling);
        return Throws(false);
      }
      PolledStep(wf, polling);
      job := false;
      return Blocks;
    }

    /** The policy requires an approval: an approved, unexpired request lets the node run; without one a new
        request is created, reported, and blocks the run. */
    method CheckApproval(wf: Workflow, rules: seq<Rule>, attempt: nat, steps: Steps, n: Id, ans: Answers, now: int) returns (end: NodeEnd)
      requires Valid()
      modifies this, run
      ensures Valid()
      ensures State(WorkerAt(end, attempt, rules), now) ==
        Run(wf, old(State(Checking(attempt, rules, steps, n), now)), ApprovalTrace(old(LookUp(approvals, now, n, nextReq)), ans))
      ensures var granted := exists q: nat :: q < old(nextReq) && Granted(old(approvals), now, q, n);
        if !granted then executions == old(executions) && end == if ans.eventOk then Blocks else Throws(false)
        else
          && (exists q: nat :: q < old(nextReq) && Granted(old(approvals), now, q, n)
                && executions == old(executions) + (if ans.executorFound then [Execution(n, rules, Some(q), now)] else []))
          && (ans.executorFound && ans.reply.Completes? ==> RecordedAs(NodeResult(wf, steps, n), steps, n, true, end))
    {
      hide Run;
      hide Next;
      hide ExecuteTrace;
      ghost var s := State(Checking(attempt, rules, steps, n), now);
      var found := FindApproval(n, now);
      forall r | r in approvals && found.None?
        ensures !Grants(s, r, n)
      {
        assert !Granted(approvals, now, r, n);
      }
      CheckStep(wf, s, n, attempt, rules, steps, found);
      if found.Some? {
        RunCons(wf, s, WorkerCheck(found), ExecuteTrace(ans));
        end := ExecuteTask(wf, rules, attempt, steps, n, found, ans, now);
      } else {
        RunCons(wf, s, WorkerCheck(found), [WorkerAsk(ans.ttlMs), if ans.eventOk then WorkerBlock else WorkerThrow]);
        end := AskApproval(wf, rules, attempt, steps, n, ans, now);
      }
    }

    /** The query for an approved request, newest first. */
    method FindApproval(n: Id, now: int) returns (found: Option<nat>)
      ensures found == LookUp(approvals, now, n, nextReq)
    {
      var k: nat := nextReq;
      while k > 0
        invariant LookUp(approvals, now, n, nextReq) == LookUp(approvals, now, n, k)
      {
        k := k - 1;
        if Granted(approvals, now, k, n) {
          return Some(k);
        }
      }
      return None;
    }

    method AskApproval(wf: Workflow, rules: seq<Rule>, attempt: nat, steps: Steps, n: Id, ans: Answers, now: int) returns (end: NodeEnd)
      requires Valid()
      modifies this`approvals, this`job, this`nextReq, run
      ensures Valid()
      ensures State(WorkerAt(end, attempt, rules), now) ==
        Run(wf, old(State(Asking(attempt, rules, steps, n), now)), [WorkerAsk(ans.ttlMs), if ans.eventOk then WorkerBlock else WorkerThrow])
      ensures var expiresAt := now + (if ans.ttlMs < 60000 then 60000 else ans.ttlMs);
        && approvals == old(approvals)[old(nextReq) := Approval(n, Pending, expiresAt)]
        && (ans.eventOk ==> BlockedAt(n, old(nextReq), "approval", expiresAt, steps))
      ensures end == if ans.eventOk then Blocks else Throws(false)
    {
      hide Run;
      hide Next;
      hide TypeName;
      ghost var s := State(Asking(attempt, rules, steps, n), now);
      AskStep(wf, s, ans.ttlMs);
      var req, expiresAt := nextReq, now + Max(60000, ans.ttlMs);
      approvals, nextReq := approvals[req := Approval(n, Pending, expiresAt)], req + 1;
      ghost var blocking := State(Blocking(attempt, steps, n, req, true, expiresAt), now);
      RunTwo(wf, s, WorkerAsk(ans.ttlMs), if ans.eventOk then WorkerBlock else WorkerThrow);
      if !ans.eventOk {
        ThrowStep(wf, blocking);
        return Throws(false);
      }
      BlockStep(wf, blocking);
      run.Block(0, req, n.name, TypeName(wf, n), "approval", now, expiresAt, steps);
      job := false;
      return Blocks;
    }
  }
}
