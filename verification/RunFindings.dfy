/** Runs of the protocol in which the code does not keep what one would expect of it. Each lemma builds the
    run step by step from the creation of the run; the workflow has a single task node, which runs to
    completion whenever it is executed. */
module RunFindings {
  import opened Common
  import opened Policy
  import opened WorkflowGraph
  import opened RunTable
  import opened RunProtocol
  import opened RunSteps
  import opened RunOwnership
  import opened RunCalm
  import opened RunResults
  import G = GraphExecutor

  ghost predicate SingleTask(wf: Workflow, node: Id) {
    && wf.graph.types.Keys == {node} && wf.graph.types[node].Task? && wf.graph.edges == []
    && wf.results(node).Yields?
  }

  function Done(wf: Workflow, node: Id): Steps
    requires wf.results(node).Yields?
  {
    [G.Succeeded(node, wf.results(node).output)]
  }

  lemma SingleFacts(wf: Workflow, node: Id)
    requires SingleTask(wf, node)
    ensures IsTask(wf, node) && IsReady(wf, [], node) && NodeResult(wf, [], node) == wf.results(node)
    ensures IsDone(wf, Done(wf, node))
  {
    assert node in wf.graph.types.Keys;
    assert G.IndexOf(Done(wf, node)) == map[][node := Done(wf, node)[0]];
    assert forall n :: n in wf.graph.types ==> n in wf.graph.types.Keys;
  }

  lemma Do(wf: Workflow, init: Sys, actions: seq<Action>, a: Action) returns (more: seq<Action>)
    ensures more == actions + [a] && Run(wf, init, more) == Next(wf, Run(wf, init, actions), a)
  {
    more := actions + [a];
    RunMore(wf, init, actions, a);
  }

  // ---------------------------------------------------------------- the steps of a job

  function Started(maxAttempts: int, rules: seq<Rule>): Sys {
    Initial(maxAttempts).(row := MarkRunning(Create(maxAttempts), 1, 0), worker := Active(1, rules, []))
  }

  lemma StartRun(wf: Workflow, maxAttempts: int, rules: seq<Rule>) returns (actions: seq<Action>)
    ensures actions == [WorkerLoad(rules), WorkerBegin] && Run(wf, Initial(maxAttempts), actions) == Started(maxAttempts, rules)
  {
    var init := Initial(maxAttempts);
    LoadStep(wf, init, rules);
    BeginStep(wf, init.(worker := Loaded(1, true, rules)));
    hide Next;
    actions := Do(wf, init, [], WorkerLoad(rules));
    actions := Do(wf, init, actions, WorkerBegin);
  }

  /** The policy's answer for the node: allowed, or approved by request `r`. */
  predicate MayRun(wf: Workflow, s: Sys, rules: seq<Rule>, node: Id, permit: Option<nat>) {
    match permit
    case None => EffectOn(wf, rules, node) == Allow
    case Some(r) => EffectOn(wf, rules, node) == RequireApproval && Grants(s, r, node)
  }

  /** The policy lets the worker get to the executor call. */
  lemma ReachCall(wf: Workflow, s: Sys, node: Id, attempt: nat, rules: seq<Rule>, permit: Option<nat>)
    returns (trace: seq<Action>)
    requires IsReady(wf, [], node) && IsTask(wf, node)
    requires s.worker == Active(attempt, rules, []) && MayRun(wf, s, rules, node, permit)
    ensures forall i :: 0 <= i < |trace| ==> OfWorker(trace[i])
    ensures Run(wf, s, trace) == s.(worker := Cleared(attempt, rules, [], node, permit, s.now))
  {
    hide Next;
    hide EffectOn;
    hide Grants;
    hide IsReady;
    hide IsTask;
    hide Run;
    PickStep(wf, s, node, attempt, rules, []);
    if permit.None? {
      trace := [WorkerPick(node)];
      RunOne(wf, s, WorkerPick(node));
    } else {
      trace := [WorkerPick(node), WorkerCheck(permit)];
      RunTwo(wf, s, WorkerPick(node), WorkerCheck(permit));
      var checking := s.(worker := Checking(attempt, rules, [], node));
      GrantsStay(s, checking, permit.value, node);
      CheckStep(wf, checking, node, attempt, rules, [], permit);
    }
  }

  /** The node is run and the success written; its event is still to come. */
  lemma RunNode(wf: Workflow, s: Sys, node: Id, attempt: nat, rules: seq<Rule>, permit: Option<nat>)
    returns (trace: seq<Action>)
    requires SingleTask(wf, node) && s.worker == Active(attempt, rules, []) && MayRun(wf, s, rules, node, permit)
    ensures forall i :: 0 <= i < |trace| ==> OfWorker(trace[i])
    ensures var t := Run(wf, s, trace);
      && t.row == MarkSucceeded(UpdateProgress(s.row, 0, Done(wf, node)), Done(wf, node), s.now)
      && t.worker == Finishing(attempt) && t.handlers == s.handlers
  {
    hide Next;
    hide MayRun;
    hide MarkSucceeded;
    hide UpdateProgress;
    SingleFacts(wf, node);
    assert [] + Done(wf, node) == Done(wf, node);
    hide SingleTask;
    hide IsReady;
    hide IsTask;
    hide IsDone;
    hide NodeResult;
    trace := ReachCall(wf, s, node, attempt, rules, permit);
    ExecuteStep(wf, Run(wf, s, trace), NodeRan);
    trace := Do(wf, s, trace, WorkerExecute(NodeRan));
    FinishStep(wf, Run(wf, s, trace));
    trace := Do(wf, s, trace, WorkerFinish);
  }

  lemma GrantsStay(s: Sys, t: Sys, r: nat, node: Id)
    requires Grants(s, r, node) && t.approvals == s.approvals && t.now == s.now
    ensures Grants(t, r, node)
  {
  }

  // ---------------------------------------------------------------- a success that is not recorded

  /** A success whose event cannot be appended is taken back by the worker itself, without anybody else
      being involved: the run ends up failed, or queued to be run again. */
  lemma UnrecordedSuccessIsUndone(wf: Workflow, maxAttempts: int, node: Id, rules: seq<Rule>)
    returns (before: seq<Action>, a: Action)
    requires SingleTask(wf, node) && EffectOn(wf, rules, node) == Allow
    ensures OfWorker(a) && forall i :: 0 <= i < |before| ==> OfWorker(before[i])
    ensures Run(wf, Initial(maxAttempts), before).row.status == Succeeded
    ensures Run(wf, Initial(maxAttempts), before + [a]).row.status == if maxAttempts <= 1 then Failed else Queued
  {
    hide Next;
    hide EffectOn;
    hide SingleTask;
    var init := Initial(maxAttempts);
    before := StartRun(wf, maxAttempts, rules);
    var more := RunNode(wf, Started(maxAttempts, rules), node, 1, rules, None);
    RunJoin(wf, init, before, more);
    before := before + more;
    EndStep(wf, Run(wf, init, before), false);
    before := Do(wf, init, before, WorkerEnd(false));
    a := WorkerFail(true);
    FailWrites(wf, Run(wf, init, before), true);
    var _ := Do(wf, init, before, a);
  }

  // ---------------------------------------------------------------- denials

  /** A denied node whose event cannot be appended is tried again. */
  lemma DenialIsRetried(wf: Workflow, maxAttempts: int, node: Id, rules: seq<Rule>) returns (actions: seq<Action>)
    requires SingleTask(wf, node) && EffectOn(wf, rules, node) == Deny && maxAttempts >= 2
    ensures var s := Run(wf, Initial(maxAttempts), actions); s.row.status == Queued && s.job && s.executions == []
  {
    hide EffectOn;
    var init, s := Initial(maxAttempts), Started(maxAttempts, rules);
    actions := StartRun(wf, maxAttempts, rules);
    hide Next;
    hide IsReady;
    hide IsTask;
    SingleFacts(wf, node);
    PickStep(wf, s, node, 1, rules, []);
    DenyStep(wf, s.(worker := Denying(1)), false);
    actions := Do(wf, init, actions, WorkerPick(node));
    actions := Do(wf, init, actions, WorkerDeny(false));
    FailWrites(wf, s.(worker := Failing(1, false)), true);
    actions := Do(wf, init, actions, WorkerFail(true));
  }

  // ---------------------------------------------------------------- approvals

  /** The request has been created and the block is still to be written. */
  function Asked(maxAttempts: int, node: Id, rules: seq<Rule>): Sys {
    Started(maxAttempts, rules).(approvals := map[0 := Approval(node, Pending, 60000)], nextReq := 1,
                                 worker := Blocking(1, [], node, 0, true, 60000))
  }

  lemma AskRun(wf: Workflow, maxAttempts: int, node: Id, rules: seq<Rule>) returns (actions: seq<Action>)
    requires SingleTask(wf, node) && EffectOn(wf, rules, node) == RequireApproval
    ensures Run(wf, Initial(maxAttempts), actions) == Asked(maxAttempts, node, rules)
  {
    hide EffectOn;
    hide MarkRunning;
    hide Next;
    hide SingleTask;
    var init, s := Initial(maxAttempts), Started(maxAttempts, rules);
    actions := StartRun(wf, maxAttempts, rules);
    SingleFacts(wf, node);
    PickStep(wf, s, node, 1, rules, []);
    var checking, asking := s.(worker := Checking(1, rules, [], node)), s.(worker := Asking(1, rules, [], node));
    CheckStep(wf, checking, node, 1, rules, [], None);
    AskStep(wf, asking, 0);
    actions := Do(wf, init, actions, WorkerPick(node));
    actions := Do(wf, init, actions, WorkerCheck(None));
    actions := Do(wf, init, actions, WorkerAsk(0));
  }

  /** An approval that is handled between the creation of the request and the write of the block is lost. */
  lemma ApprovalCanBeLost(wf: Workflow, maxAttempts: int, node: Id, rules: seq<Rule>) returns (actions: seq<Action>)
    requires SingleTask(wf, node) && EffectOn(wf, rules, node) == RequireApproval
    ensures var s := Run(wf, Initial(maxAttempts), actions); Stuck(s, 0) && s.approvals[0].status == Approved
  {
    hide EffectOn;
    hide SingleTask;
    hide Next;
    var init, s := Initial(maxAttempts), Asked(maxAttempts, node, rules);
    actions := AskRun(wf, maxAttempts, node, rules);
    StartStep(wf, s, 0, false);
    DecideStep(wf, s.(handlers := map[0 := Deciding(0, Approve)]), 0, Approve);
    var approved := s.(approvals := s.approvals[0 := s.approvals[0].(status := Approved)]);
    LookStep(wf, approved.(handlers := map[0 := Looking(0, Approve)]), 0, Approve);
    StrandedBlock(wf, approved);
    hide Started;
    actions := Do(wf, init, actions, HandlerStart(0, 0, false));
    actions := Do(wf, init, actions, HandlerDecide(0));
    actions := Do(wf, init, actions, HandlerLook(0));
    actions := Do(wf, init, actions, WorkerBlock);
  }

  lemma StrandedBlock(wf: Workflow, s: Sys)
    requires s.row.status == Running && s.handlers == map[] && s.worker.Blocking? && s.worker.req == 0 && s.worker.forApproval
    requires 0 in s.approvals && s.approvals[0].status == Approved
    ensures var t := Next(wf, s, WorkerBlock); Stuck(t, 0) && t.approvals == s.approvals
  {
    hide TypeName;
  }

  // ---------------------------------------------------------------- an enqueue that threw too late

  /** A run that waits for its job in its first attempt, with nothing recorded yet. */
  ghost predicate Resumable(s: Sys) {
    && s.worker == Idle && s.job && s.row.status == Running && s.row.blockedRequestId.None? && s.row.attemptCount == 1
    && s.row.output == Some([])
  }

  lemma ResumeSteps(wf: Workflow, s: Sys, rules: seq<Rule>)
    requires Resumable(s)
    ensures Next(wf, s, WorkerLoad(rules)) == s.(worker := Loaded(1, false, rules))
    ensures Next(wf, s.(worker := Loaded(1, false, rules)), WorkerBegin) == s.(worker := Active(1, rules, []))
  {
    hide Next;
    LoadStep(wf, s, rules);
    BeginStep(wf, s.(worker := Loaded(1, false, rules)));
  }

  /** A job picks up such a run and finishes it, event included. */
  lemma FinishRun(wf: Workflow, s: Sys, node: Id, rules: seq<Rule>, permit: Option<nat>)
    returns (trace: seq<Action>)
    requires SingleTask(wf, node) && Resumable(s) && MayRun(wf, s, rules, node, permit)
    ensures var t := Run(wf, s, trace);
      && t.row.status == Succeeded && t.handlers == s.handlers && t.row.maxAttempts == s.row.maxAttempts
      && t.row.attemptCount == 1 && t.worker == Idle
  {
    hide Next;
    hide EffectOn;
    hide SingleTask;
    ResumeSteps(wf, s, rules);
    trace := Do(wf, s, [], WorkerLoad(rules));
    trace := Do(wf, s, trace, WorkerBegin);
    var active := Run(wf, s, trace);
    if permit.Some? { GrantsStay(s, active, permit.value, node); }
    hide Grants;
    var more := RunNode(wf, active, node, 1, rules, permit);
    RunJoin(wf, s, trace, more);
    trace := trace + more;
    EndStep(wf, Run(wf, s, trace), true);
    trace := Do(wf, s, trace, WorkerEnd(true));
  }

  /** The approve handler has cleared the block of request 0 and its enqueue threw, but the job is there. */
  lemma ThrownRun(wf: Workflow, maxAttempts: int, node: Id, rules: seq<Rule>) returns (actions: seq<Action>)
    requires SingleTask(wf, node) && EffectOn(wf, rules, node) == RequireApproval
    ensures var s := Run(wf, Initial(maxAttempts), actions);
      Resumable(s) && s.handlers == map[0 := Compensating(0)] && Grants(s, 0, node)
  {
    hide EffectOn;
    hide Next;
    hide SingleTask;
    var init, s := Initial(maxAttempts), Asked(maxAttempts, node, rules);
    actions := AskRun(wf, maxAttempts, node, rules);
    var blocked := Next(wf, s, WorkerBlock);
    BlockStep(wf, s);
    StartStep(wf, blocked, 0, false);
    DecideStep(wf, blocked.(handlers := map[0 := Deciding(0, Approve)]), 0, Approve);
    var looking := blocked.(handlers := map[0 := Looking(0, Approve)], approvals := blocked.approvals[0 := blocked.approvals[0].(status := Approved)]);
    LookStep(wf, looking, 0, Approve);
    ClearStep(wf, looking.(handlers := map[0 := Clearing(0, Approve)]), 0, Approve);
    var cleared := looking.(handlers := map[0 := Enqueueing(0)], row := ClearBlock(looking.row, 0, None), resumed := looking.resumed + {0});
    EnqueueStep(wf, cleared, 0, AcceptedButThrew);
    hide Started;
    actions := Do(wf, init, actions, WorkerBlock);
    actions := Do(wf, init, actions, HandlerStart(0, 0, false));
    actions := Do(wf, init, actions, HandlerDecide(0));
    actions := Do(wf, init, actions, HandlerLook(0));
    actions := Do(wf, init, actions, HandlerClear(0));
    actions := Do(wf, init, actions, HandlerEnqueue(0, AcceptedButThrew));
  }

  /** An approve handler whose enqueue threw fails a run that its own job has finished in the meantime. */
  lemma LateCompensationUndoesSuccess(wf: Workflow, maxAttempts: int, node: Id, rules: seq<Rule>)
    returns (before: seq<Action>, a: Action)
    requires SingleTask(wf, node) && EffectOn(wf, rules, node) == RequireApproval
    ensures a.HandlerFailRun? && Run(wf, Initial(maxAttempts), before).row.status == Succeeded
    ensures Run(wf, Initial(maxAttempts), before + [a]).row.status == Failed
  {
    hide EffectOn;
    hide Next;
    hide SingleTask;
    hide Grants;
    var init := Initial(maxAttempts);
    before := ThrownRun(wf, maxAttempts, node, rules);
    var more := FinishRun(wf, Run(wf, init, before), node, rules, Some(0));
    RunJoin(wf, init, before, more);
    before := before + more;
    a := HandlerFailRun(0);
    LateWriteRow(wf, Run(wf, init, before), a);
    var _ := Do(wf, init, before, a);
  }

  // ---------------------------------------------------------------- a continuation that writes too late

  /** A continuation has read the run as blocked on remote request 0, and another one has resumed it. */
  lemma ReadRunThenResume(wf: Workflow, maxAttempts: int, node: Id, rules: seq<Rule>) returns (actions: seq<Action>)
    requires SingleTask(wf, node) && EffectOn(wf, rules, node) == Allow
    ensures var s := Run(wf, Initial(maxAttempts), actions);
      Resumable(s) && s.row.maxAttempts == maxAttempts && s.handlers == map[0 := ContinuationFailing(0, 1)]
  {
    hide EffectOn;
    hide SingleTask;
    hide Next;
    var init := Initial(maxAttempts);
    actions := DispatchRun(wf, maxAttempts, node, rules);
    ReadSteps(wf, Run(wf, init, actions));
    actions := Do(wf, init, actions, ContinuationRead(0, 0));
    actions := Do(wf, init, actions, RemoteResult(0));
  }

  lemma ReadSteps(wf: Workflow, s: Sys)
    requires BlockedOn(s.row, 0) && s.row.attemptCount == 1 && s.handlers == map[] && s.approvals == map[]
    ensures var read := s.(handlers := map[0 := ContinuationFailing(0, 1)]);
      && Next(wf, s, ContinuationRead(0, 0)) == read
      && Next(wf, read, RemoteResult(0)) == read.(row := ClearBlock(s.row, 0, s.row.output), job := true)
  {
    hide ClearBlock;
  }

  /** The first attempt up to a dispatched remote node: the run is blocked on request 0. */
  lemma DispatchRun(wf: Workflow, maxAttempts: int, node: Id, rules: seq<Rule>) returns (actions: seq<Action>)
    requires SingleTask(wf, node) && EffectOn(wf, rules, node) == Allow
    ensures var s := Run(wf, Initial(maxAttempts), actions);
      && s.worker == Idle && s.handlers == map[] && s.approvals == map[] && BlockedOn(s.row, 0)
      && s.row.attemptCount == 1 && s.row.maxAttempts == maxAttempts && s.row.output == Some([])
  {
    hide EffectOn;
    hide SingleTask;
    hide Next;
    var init, s := Initial(maxAttempts), Started(maxAttempts, rules);
    actions := StartRun(wf, maxAttempts, rules);
    SingleFacts(wf, node);
    PickStep(wf, s, node, 1, rules, []);
    actions := Do(wf, init, actions, WorkerPick(node));
    DispatchStep(wf, Run(wf, init, actions));
    actions := Do(wf, init, actions, WorkerExecute(NodeBlocked(1)));
    actions := Do(wf, init, actions, WorkerBlock);
    actions := Do(wf, init, actions, WorkerPolled);
  }

  lemma DispatchStep(wf: Workflow, s: Sys)
    requires s.worker.Cleared? && s.row.status == Running
    ensures var t := Next(wf, Next(wf, Next(wf, s, WorkerExecute(NodeBlocked(1))), WorkerBlock), WorkerPolled);
      && t == s.(row := t.row, worker := Idle, job := false, nextReq := s.nextReq + 1, executions := t.executions)
      && BlockedOn(t.row, s.nextReq) && t.row.output == Some(s.worker.steps)
      && t.row.attemptCount == s.row.attemptCount && t.row.maxAttempts == s.row.maxAttempts
  {
    hide TypeName;
    hide Next;
    ExecuteStep(wf, s, NodeBlocked(1));
    var blocking := Next(wf, s, WorkerExecute(NodeBlocked(1)));
    BlockStep(wf, blocking);
    PolledStep(wf, Next(wf, blocking, WorkerBlock));
  }

  /** A remote result resumes the run, which succeeds, while another continuation of the same request, which
      had already read the row, reports a timeout. The run ends up failed, or queued to be run again. */
  lemma StaleFailureUndoesSuccess(wf: Workflow, maxAttempts: int, node: Id, rules: seq<Rule>)
    returns (before: seq<Action>, a: Action)
    requires SingleTask(wf, node) && EffectOn(wf, rules, node) == Allow
    ensures a.ContinuationFail? && Run(wf, Initial(maxAttempts), before).row.status == Succeeded
    ensures Run(wf, Initial(maxAttempts), before + [a]).row.status == if maxAttempts <= 1 then Failed else Queued
  {
    hide EffectOn;
    hide Next;
    hide SingleTask;
    var init := Initial(maxAttempts);
    before := ReadRunThenResume(wf, maxAttempts, node, rules);
    var more := FinishRun(wf, Run(wf, init, before), node, rules, None);
    RunJoin(wf, init, before, more);
    before := before + more;
    a := ContinuationFail(0, 0);
    LateWriteRow(wf, Run(wf, init, before), a);
    var _ := Do(wf, init, before, a);
  }

  /** The resumed attempt fails, a second one begins, and its worker dies. */
  lemma SecondAttempt(wf: Workflow, s: Sys) returns (trace: seq<Action>)
    requires Resumable(s) && s.row.maxAttempts == 2
    ensures var t := Run(wf, s, trace);
      && t.row.status == Running && t.row.attemptCount == 2 && t.row.maxAttempts == 2 && t.handlers == s.handlers
      && t.worker == Idle && t.job
  {
    hide Next;
    ResumeSteps(wf, s, []);
    trace := Do(wf, s, [], WorkerLoad([]));
    trace := Do(wf, s, trace, WorkerBegin);
    ThrowStep(wf, Run(wf, s, trace));
    trace := Do(wf, s, trace, WorkerThrow);
    FailWrites(wf, Run(wf, s, trace), true);
    trace := Do(wf, s, trace, WorkerFail(true));
    NextAttempt(wf, Run(wf, s, trace));
    trace := Do(wf, s, trace, WorkerLoad([]));
    trace := Do(wf, s, trace, WorkerBegin);
    trace := Do(wf, s, trace, WorkerCrash);
  }

  /** A job begins the next attempt of a queued run, and its worker dies. */
  lemma NextAttempt(wf: Workflow, s: Sys)
    requires s.worker == Idle && s.job && s.row.status == Queued
    ensures var t := Next(wf, Next(wf, Next(wf, s, WorkerLoad([])), WorkerBegin), WorkerCrash);
      && t.row.status == Running && t.row.attemptCount == s.row.attemptCount + 1 && t.row.maxAttempts == s.row.maxAttempts
      && t.handlers == s.handlers && t.worker == Idle && t.job
  {
    hide Next;
    LoadStep(wf, s, []);
    BeginStep(wf, Next(wf, s, WorkerLoad([])));
    CrashStep(wf, Next(wf, Next(wf, s, WorkerLoad([])), WorkerBegin));
  }

  /** With two attempts allowed and the second one under way, the late failure of the first puts the run back
      into the queue, and a third attempt begins. */
  lemma StaleFailureAddsAttempt(wf: Workflow, node: Id, rules: seq<Rule>) returns (before: seq<Action>, a: Action, after: seq<Action>)
    requires SingleTask(wf, node) && EffectOn(wf, rules, node) == Allow
    ensures var row := Run(wf, Initial(2), before).row; row.status == Running && row.attemptCount == 2
    ensures a.ContinuationFail?
    ensures var row := Run(wf, Initial(2), before + [a] + after).row; row.status == Running && row.attemptCount == 3 && Cap(row) == 2
  {
    hide EffectOn;
    hide Next;
    hide SingleTask;
    var init := Initial(2);
    before := ReadRunThenResume(wf, 2, node, rules);
    var more := SecondAttempt(wf, Run(wf, init, before));
    RunJoin(wf, init, before, more);
    before := before + more;
    a := ContinuationFail(0, 0);
    LateRetry(wf, Run(wf, init, before));
    var late := Do(wf, init, before, a);
    NextAttempt(wf, Run(wf, init, late));
    after := [WorkerLoad([]), WorkerBegin, WorkerCrash];
    var t := Do(wf, init, late, WorkerLoad([]));
    t := Do(wf, init, t, WorkerBegin);
    t := Do(wf, init, t, WorkerCrash);
    assert t == late + after;
  }

  lemma LateRetry(wf: Workflow, s: Sys)
    requires s.handlers == map[0 := ContinuationFailing(0, 1)] && s.worker == Idle && s.job && s.row.maxAttempts == 2
    ensures var t := Next(wf, s, ContinuationFail(0, 0));
      t.row.status == Queued && t.row.attemptCount == s.row.attemptCount && t.row.maxAttempts == 2 && t.worker == Idle && t.job
  {
  }
}
