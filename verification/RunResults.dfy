/** What follows for whole runs: the life cycle of the row, when a finished run can lose its status, what a
    denial leads to, and when an approval is lost; each with the runs that show where the code falls short. */
module RunResults {
  import opened Common
  import opened Policy
  import opened RunTable
  import opened RunProtocol
  import opened RunSafety
  import opened RunOwnership
  import opened RunCalm

  // ---------------------------------------------------------------- the life cycle of the row

  /** Attempts, block fields, times and statuses of the row, at every moment of a calm run. */
  lemma {:induction false} LifecycleHolds(wf: Workflow, maxAttempts: int, actions: seq<Action>)
    requires CalmRun(wf, Initial(maxAttempts), actions)
    ensures RowInv(Run(wf, Initial(maxAttempts), actions).row)
  {
    hide RowInv;
    hide Calm;
    hide DecisionsOk;
    hide HandlersSide;
    RunKeeps(wf, maxAttempts, actions);
  }

  /** A retry is written for an attempt that is no longer the current one, and the current one was the last. */
  predicate RetriesTooLate(s: Sys, a: Action) {
    FailsRemotely(s, a) && Target(s.row, s.handlers[a.h].attempt) == Queued && s.row.attemptCount >= Cap(s.row)
  }

  /** The single step by which a calm run can lose this, and exactly when it does: a continuation that read
      an earlier attempt queues the run for a retry after its last attempt has been started. */
  lemma {:induction false} LifecycleBreaksIff(wf: Workflow, maxAttempts: int, actions: seq<Action>, a: Action)
    requires CalmRun(wf, Initial(maxAttempts), actions)
    ensures !RowInv(Run(wf, Initial(maxAttempts), actions + [a]).row) <==>
      RetriesTooLate(Run(wf, Initial(maxAttempts), actions), a)
  {
    hide Next;
    hide Calm;
    hide Inv;
    hide RowInv;
    RunMore(wf, Initial(maxAttempts), actions, a);
    RunKeeps(wf, maxAttempts, actions);
    RowBreaksIff(wf, Run(wf, Initial(maxAttempts), actions), a);
  }

  lemma RowBreaksIff(wf: Workflow, s: Sys, a: Action)
    requires Inv(s)
    ensures !RowInv(Next(wf, s, a).row) <==> RetriesTooLate(s, a)
  {
    hide RowInv;
    hide DecisionsOk;
    hide HandlersSide;
    hide WorkerOk;
    hide Next;
    if FailsRemotely(s, a) {
      LateWriteRow(wf, s, a);
      RetryKeepsIff(s.row, "REMOTE_FAILED", Some(s.now + a.delayMs));
      FailureKeeps(s.row, "REMOTE_FAILED", s.now);
    } else if Compensates(s, a) {
      LateWriteRow(wf, s, a);
      FailureKeeps(s.row, "QUEUE_UNAVAILABLE_AFTER_APPROVAL", s.now);
    } else {
      StepKeeps(wf, s, a);
    }
  }

  /** What the two writes that may come late leave in the row. */
  lemma LateWriteRow(wf: Workflow, s: Sys, a: Action)
    requires FailsRemotely(s, a) || Compensates(s, a)
    ensures FailsRemotely(s, a) ==>
      Next(wf, s, a).row == FailOrRetry(s.row, s.handlers[a.h].attempt, false, "REMOTE_FAILED", s.now, Some(s.now + a.delayMs))
    ensures Compensates(s, a) ==> Next(wf, s, a).row == MarkFailed(s.row, "QUEUE_UNAVAILABLE_AFTER_APPROVAL", s.now)
  {
    hide FailOrRetry;
    hide MarkFailed;
  }

  /** The limit on attempts is part of the run. */
  lemma {:induction false} LimitStays(wf: Workflow, maxAttempts: int, actions: seq<Action>)
    ensures Run(wf, Initial(maxAttempts), actions).row.maxAttempts == maxAttempts
  {
    hide Next;
    if actions != [] {
      var n := |actions| - 1;
      LimitStays(wf, maxAttempts, actions[..n]);
      StepLimit(wf, Run(wf, Initial(maxAttempts), actions[..n]), actions[n]);
    }
  }

  lemma StepLimit(wf: Workflow, s: Sys, a: Action)
    ensures Next(wf, s, a).row.maxAttempts == s.row.maxAttempts
  {
    hide WorkerStep;
    hide HandlerStep;
    if OfWorker(a) { WorkerLimit(wf, s, a); } else if !a.Tick? { HandlerLimit(s, a); }
  }

  lemma WorkerLimit(wf: Workflow, s: Sys, a: Action)
    requires OfWorker(a)
    ensures WorkerStep(wf, s, a).row.maxAttempts == s.row.maxAttempts
  {
    hide EffectOn;
    hide Grants;
  }

  lemma HandlerLimit(s: Sys, a: Action)
    requires !OfWorker(a) && !a.Tick?
    ensures HandlerStep(s, a).row.maxAttempts == s.row.maxAttempts
  {
  }

  // ---------------------------------------------------------------- finality

  /** The worker's `catch` block runs after the success has been written. */
  predicate FailsAfterSuccess(s: Sys, a: Action) {
    a.WorkerFail? && s.worker.Failing? && s.row.status == Succeeded
  }

  /** The writes that overwrite a finished status: a continuation's failure with another target, the
      compensation of an approve handler after a success, and the worker's own. */
  predicate Overwrites(s: Sys, a: Action) {
    || (FailsRemotely(s, a) && Target(s.row, s.handlers[a.h].attempt) != s.row.status)
    || (Compensates(s, a) && s.row.status == Succeeded)
    || FailsAfterSuccess(s, a)
  }

  /** Which step can take a finished run out of its status, after a calm run, and exactly when. */
  lemma {:induction false} FinishedChangesIff(wf: Workflow, maxAttempts: int, actions: seq<Action>, a: Action)
    requires CalmRun(wf, Initial(maxAttempts), actions)
    requires Final(Run(wf, Initial(maxAttempts), actions).row)
    ensures var s := Run(wf, Initial(maxAttempts), actions);
      Run(wf, Initial(maxAttempts), actions + [a]).row.status != s.row.status <==> Overwrites(s, a)
  {
    hide Next;
    hide Calm;
    hide Inv;
    hide Overwrites;
    RunMore(wf, Initial(maxAttempts), actions, a);
    RunKeeps(wf, maxAttempts, actions);
    StatusChangesIff(wf, Run(wf, Initial(maxAttempts), actions), a);
  }

  lemma StatusChangesIff(wf: Workflow, s: Sys, a: Action)
    requires Inv(s) && Final(s.row)
    ensures Next(wf, s, a).row.status != s.row.status <==> Overwrites(s, a)
  {
    hide WorkerStep;
    hide HandlerStep;
    hide DecisionsOk;
    hide HandlersSide;
    hide RowSide;
    if OfWorker(a) {
      FinishedWorker(wf, s, a);
    } else if !a.Tick? {
      FinishedHandler(s, a);
    }
  }

  lemma FinishedWorker(wf: Workflow, s: Sys, a: Action)
    requires RowSide(s) && Final(s.row) && OfWorker(a)
    ensures WorkerStep(wf, s, a).row.status != s.row.status <==> FailsAfterSuccess(s, a)
  {
    hide EffectOn;
    hide Grants;
    hide RowInv;
  }

  lemma FinishedHandler(s: Sys, a: Action)
    requires Inv(s) && Final(s.row) && !OfWorker(a) && !a.Tick?
    ensures HandlerStep(s, a).row.status != s.row.status <==> Overwrites(s, a)
  {
    hide DecisionsOk;
    hide RowSide;
    if a.HandlerFailRun? && a.h in s.handlers { assert HandlerOk(s, s.handlers[a.h]); }
    if a.HandlerClear? && a.h in s.handlers { assert HandlerOk(s, s.handlers[a.h]); }
  }

  /** The status stays what it is from step `i` on. */
  ghost predicate StaysFrom(wf: Workflow, s: Sys, actions: seq<Action>, i: nat)
    requires i <= |actions|
  {
    forall k :: i <= k <= |actions| ==> Run(wf, s, actions[..k]).row.status == Run(wf, s, actions[..i]).row.status
  }

  /** In a calm run a finished run keeps its status for good if and only if the worker's `catch` block never
      runs after a success. */
  lemma {:induction false} FinishedStaysIff(wf: Workflow, maxAttempts: int, actions: seq<Action>, i: nat)
    requires CalmRun(wf, Initial(maxAttempts), actions) && i <= |actions|
    requires Final(Run(wf, Initial(maxAttempts), actions[..i]).row)
    ensures StaysFrom(wf, Initial(maxAttempts), actions, i) <==>
      forall k :: i <= k < |actions| ==> !FailsAfterSuccess(Run(wf, Initial(maxAttempts), actions[..k]), actions[k])
  {
    hide Next;
    hide Calm;
    hide FailsAfterSuccess;
    hide Initial;
    var init := Initial(maxAttempts);
    if StaysFrom(wf, init, actions, i) {
      forall k | i <= k < |actions|
        ensures !FailsAfterSuccess(Run(wf, init, actions[..k]), actions[k])
      {
        CalmStepStaysIff(wf, maxAttempts, actions, k);
        assert Run(wf, init, actions[..k + 1]).row.status == Run(wf, init, actions[..k]).row.status;
      }
    } else if forall k :: i <= k < |actions| ==> !FailsAfterSuccess(Run(wf, init, actions[..k]), actions[k]) {
      var k :| i <= k <= |actions| && Run(wf, init, actions[..k]).row.status != Run(wf, init, actions[..i]).row.status;
      StaysUpTo(wf, maxAttempts, actions, i, k);
    }
  }

  lemma {:induction false} CalmStepStaysIff(wf: Workflow, maxAttempts: int, actions: seq<Action>, k: nat)
    requires CalmRun(wf, Initial(maxAttempts), actions) && k < |actions|
    requires Final(Run(wf, Initial(maxAttempts), actions[..k]).row)
    ensures var s := Run(wf, Initial(maxAttempts), actions[..k]);
      Run(wf, Initial(maxAttempts), actions[..k + 1]).row.status != s.row.status <==> FailsAfterSuccess(s, actions[k])
  {
    hide Next;
    hide Inv;
    hide Initial;
    KeptAt(wf, maxAttempts, actions, k);
    RunStep(wf, Initial(maxAttempts), actions, k);
    StatusChangesIff(wf, Run(wf, Initial(maxAttempts), actions[..k]), actions[k]);
    assert Calm(Run(wf, Initial(maxAttempts), actions[..k]), actions[k]);
  }

  lemma {:induction false} StaysUpTo(wf: Workflow, maxAttempts: int, actions: seq<Action>, i: nat, k: nat)
    requires CalmRun(wf, Initial(maxAttempts), actions) && i <= k <= |actions|
    requires Final(Run(wf, Initial(maxAttempts), actions[..i]).row)
    requires forall j :: i <= j < |actions| ==> !FailsAfterSuccess(Run(wf, Initial(maxAttempts), actions[..j]), actions[j])
    ensures Run(wf, Initial(maxAttempts), actions[..k]).row.status == Run(wf, Initial(maxAttempts), actions[..i]).row.status
    decreases k - i
  {
    hide Next;
    hide Calm;
    hide FailsAfterSuccess;
    hide Initial;
    if i < k {
      StaysUpTo(wf, maxAttempts, actions, i, k - 1);
      CalmStepStaysIff(wf, maxAttempts, actions, k - 1);
    }
  }

  /** The event of the success could not be appended. */
  predicate LosesSuccessEvent(s: Sys, a: Action) {
    a == WorkerEnd(false) && s.worker.Finishing?
  }

  /** As long as every success gets its event, the `catch` block does not run after one. */
  lemma {:induction false} NoFailureAfterSuccess(wf: Workflow, maxAttempts: int, actions: seq<Action>)
    requires CalmRun(wf, Initial(maxAttempts), actions)
    requires forall k :: 0 <= k < |actions| ==> !LosesSuccessEvent(Run(wf, Initial(maxAttempts), actions[..k]), actions[k])
    ensures var s := Run(wf, Initial(maxAttempts), actions); s.worker.Failing? ==> s.row.status != Succeeded
  {
    hide Next;
    hide Calm;
    hide Inv;
    hide LosesSuccessEvent;
    if actions != [] {
      var n := |actions| - 1;
      var init := Initial(maxAttempts);
      forall k | 0 <= k < n
        ensures !LosesSuccessEvent(Run(wf, init, actions[..n][..k]), actions[..n][k])
      {
        assert actions[..n][..k] == actions[..k];
      }
      CalmPrefix(wf, init, actions, n);
      NoFailureAfterSuccess(wf, maxAttempts, actions[..n]);
      RunKeeps(wf, maxAttempts, actions[..n]);
      StepNotAfterSuccess(wf, Run(wf, init, actions[..n]), actions[n]);
    }
  }

  lemma StepNotAfterSuccess(wf: Workflow, s: Sys, a: Action)
    requires Inv(s) && (s.worker.Failing? ==> s.row.status != Succeeded) && !LosesSuccessEvent(s, a)
    ensures var t := Next(wf, s, a); t.worker.Failing? ==> t.row.status != Succeeded
  {
    hide WorkerStep;
    hide HandlerStep;
    hide DecisionsOk;
    hide HandlersSide;
    if OfWorker(a) { WorkerNotAfterSuccess(wf, s, a); } else if !a.Tick? { HandlersDoNotSucceed(s, a); }
  }

  lemma WorkerNotAfterSuccess(wf: Workflow, s: Sys, a: Action)
    requires RowSide(s) && (s.worker.Failing? ==> s.row.status != Succeeded) && !LosesSuccessEvent(s, a) && OfWorker(a)
    ensures var t := WorkerStep(wf, s, a); t.worker.Failing? ==> t.row.status != Succeeded
  {
    hide EffectOn;
    hide Grants;
    hide RowInv;
  }

  lemma HandlersDoNotSucceed(s: Sys, a: Action)
    requires !OfWorker(a) && !a.Tick?
    ensures HandlerStep(s, a).row.status == Succeeded ==> s.row.status == Succeeded
  {
  }

  /** So in a calm run in which every success gets its event, succeeded and failed are final. */
  lemma {:induction false} FinishedStays(wf: Workflow, maxAttempts: int, actions: seq<Action>, i: nat)
    requires CalmRun(wf, Initial(maxAttempts), actions) && i <= |actions|
    requires forall k :: 0 <= k < |actions| ==> !LosesSuccessEvent(Run(wf, Initial(maxAttempts), actions[..k]), actions[k])
    requires Final(Run(wf, Initial(maxAttempts), actions[..i]).row)
    ensures StaysFrom(wf, Initial(maxAttempts), actions, i)
  {
    hide Next;
    hide Calm;
    hide LosesSuccessEvent;
    var init := Initial(maxAttempts);
    forall k | i <= k < |actions|
      ensures !FailsAfterSuccess(Run(wf, init, actions[..k]), actions[k])
    {
      CalmPrefix(wf, init, actions, k);
      forall j | 0 <= j < k
        ensures !LosesSuccessEvent(Run(wf, init, actions[..k][..j]), actions[..k][j])
      {
        assert actions[..k][..j] == actions[..j];
      }
      NoFailureAfterSuccess(wf, maxAttempts, actions[..k]);
    }
    FinishedStaysIff(wf, maxAttempts, actions, i);
  }

  // ---------------------------------------------------------------- denials

  /** The worker meets a node that the policy denies. */
  predicate PicksDenied(wf: Workflow, s: Sys, a: Action) {
    a.WorkerPick? && s.worker.Active? && IsReady(wf, s.worker.steps, a.node) && IsTask(wf, a.node) && EffectOn(wf, s.worker.rules, a.node) == Deny
  }

  /** What the first attempt to append the event of the denial came to. */
  function FirstDeny(actions: seq<Action>): Option<bool> {
    if actions == [] then None else DenyOr(FirstDeny(actions[..|actions| - 1]), actions[|actions| - 1])
  }

  function DenyOr(before: Option<bool>, a: Action): Option<bool> {
    if before.None? && a.WorkerDeny? then Some(a.eventOk) else before
  }

  function AfterDenial(attempt: nat, event: Option<bool>): Worker {
    if event.None? then Denying(attempt) else Failing(attempt, event.value)
  }

  /** The worker writes its failure, or dies before it could. */
  predicate LeavesJob(s: Sys, a: Action) {
    a.WorkerCrash? || (a.WorkerFail? && s.worker.Failing?)
  }

  /** While the worker is on an unblocked run, nobody else touches the row, the job or the executors. */
  lemma OthersStandBack(wf: Workflow, s: Sys, a: Action)
    requires Inv(s) && Calm(s, a) && !s.worker.Idle? && s.row.blockedRequestId.None? && !OfWorker(a)
    ensures var t := Next(wf, s, a);
      t.row == s.row && t.worker == s.worker && t.job == s.job && t.executions == s.executions
  {
    hide RowInv;
    hide WorkerOk;
    hide FailOrRetry;
    assert s.job;
    JobMeansAloof(s);
    hide DecisionsOk;
    hide HandlersSide;
  }

  /** Since the denied node was met in state `s` nothing has happened but perhaps the append of the event. */
  ghost predicate DeniedSince(s: Sys, t: Sys, event: Option<bool>) {
    && !s.worker.Idle? && s.row.blockedRequestId.None?
    && t.executions == s.executions && t.row == s.row && t.job == s.job
    && t.worker == AfterDenial(s.worker.attempt, event)
  }

  lemma DenialStep(wf: Workflow, s: Sys, t: Sys, a: Action, event: Option<bool>)
    requires Inv(t) && Calm(t, a) && DeniedSince(s, t, event) && !LeavesJob(t, a)
    ensures DeniedSince(s, Next(wf, t, a), DenyOr(event, a))
  {
    hide Inv;
    hide Calm;
    hide WorkerStep;
    hide HandlerStep;
    if OfWorker(a) { DenialWorker(wf, t, a, s.worker.attempt, event); } else { OthersStandBack(wf, t, a); }
  }

  lemma DenialWorker(wf: Workflow, s: Sys, a: Action, attempt: nat, event: Option<bool>)
    requires OfWorker(a) && s.worker == AfterDenial(attempt, event) && !LeavesJob(s, a)
    ensures var t := WorkerStep(wf, s, a);
      && t.row == s.row && t.job == s.job && t.executions == s.executions
      && t.worker == AfterDenial(attempt, DenyOr(event, a))
  {
    hide EffectOn;
    hide Grants;
    hide FailOrRetry;
  }

  lemma PickDenied(wf: Workflow, s: Sys, a: Action)
    requires Inv(s) && PicksDenied(wf, s, a)
    ensures DeniedSince(s, Next(wf, s, a), None)
  {
    hide RowInv;
    hide DecisionsOk;
    hide HandlersSide;
  }

  lemma {:induction false} DenialStands(wf: Workflow, maxAttempts: int, actions: seq<Action>, i: nat, k: nat)
    requires CalmRun(wf, Initial(maxAttempts), actions) && i < k <= |actions|
    requires PicksDenied(wf, Run(wf, Initial(maxAttempts), actions[..i]), actions[i])
    requires forall j :: i < j < |actions| ==> !LeavesJob(Run(wf, Initial(maxAttempts), actions[..j]), actions[j])
    ensures DeniedSince(Run(wf, Initial(maxAttempts), actions[..i]), Run(wf, Initial(maxAttempts), actions[..k]),
                        FirstDeny(actions[i + 1..k]))
    decreases k
  {
    hide Next;
    hide Calm;
    hide Inv;
    hide LeavesJob;
    hide Initial;
    hide FirstDeny;
    hide DenyOr;
    hide PicksDenied;
    hide DeniedSince;
    var s, t, a := Run(wf, Initial(maxAttempts), actions[..i]), Run(wf, Initial(maxAttempts), actions[..k - 1]), actions[k - 1];
    KeptAt(wf, maxAttempts, actions, k - 1);
    RunStep(wf, Initial(maxAttempts), actions, k - 1);
    FirstDenySnoc(actions, i, k);
    if i == k - 1 {
      PickDenied(wf, s, a);
    } else {
      DenialStands(wf, maxAttempts, actions, i, k - 1);
      DenialStep(wf, s, t, a, FirstDeny(actions[i + 1..k - 1]));
    }
  }

  lemma FirstDenySnoc(actions: seq<Action>, i: nat, k: nat)
    requires i < k <= |actions|
    ensures i == k - 1 ==> FirstDeny(actions[i + 1..k]) == None
    ensures i < k - 1 ==> FirstDeny(actions[i + 1..k]) == DenyOr(FirstDeny(actions[i + 1..k - 1]), actions[k - 1])
  {
    if i < k - 1 { assert actions[i + 1..k][..k - i - 2] == actions[i + 1..k - 1]; }
  }

  /** From a denied node to the worker's next write or death: nothing is executed, the row and the job stay
      as they are, and the worker goes on to fail, as a denial exactly if its event could be appended. */
  lemma {:induction false} DeniedWaits(wf: Workflow, maxAttempts: int, actions: seq<Action>, i: nat)
    requires CalmRun(wf, Initial(maxAttempts), actions) && i < |actions|
    requires PicksDenied(wf, Run(wf, Initial(maxAttempts), actions[..i]), actions[i])
    requires forall k :: i < k < |actions| ==> !LeavesJob(Run(wf, Initial(maxAttempts), actions[..k]), actions[k])
    ensures var s, t := Run(wf, Initial(maxAttempts), actions[..i]), Run(wf, Initial(maxAttempts), actions);
      && t.executions == s.executions && t.row == s.row && t.job == s.job
      && t.worker == AfterDenial(s.worker.attempt, FirstDeny(actions[i + 1..]))
  {
    hide Next;
    hide Calm;
    hide LeavesJob;
    hide Initial;
    hide EffectOn;
    DenialStands(wf, maxAttempts, actions, i, |actions|);
    assert actions[..|actions|] == actions && actions[i + 1..|actions|] == actions[i + 1..];
  }

  /** What the denial comes to when the worker writes: the run fails whatever attempts remain if the event of
      the denial could be appended; if it could not, the run fails only with its last attempt, and is
      otherwise queued to be tried again. In neither case has anything been executed. */
  lemma {:induction false} DeniedFailsIff(wf: Workflow, maxAttempts: int, actions: seq<Action>, i: nat, eventOk: bool)
    requires CalmRun(wf, Initial(maxAttempts), actions) && i < |actions|
    requires PicksDenied(wf, Run(wf, Initial(maxAttempts), actions[..i]), actions[i])
    requires forall k :: i < k < |actions| ==> !LeavesJob(Run(wf, Initial(maxAttempts), actions[..k]), actions[k])
    requires FirstDeny(actions[i + 1..]).Some?
    ensures var s, t := Run(wf, Initial(maxAttempts), actions[..i]), Run(wf, Initial(maxAttempts), actions + [WorkerFail(eventOk)]);
      var recorded := FirstDeny(actions[i + 1..]).value;
      && t.executions == s.executions
      && (t.row.status == Failed <==> recorded || s.worker.attempt >= maxAttempts)
      && (t.row.status == Queued <==> !recorded && s.worker.attempt < maxAttempts)
  {
    hide Next;
    hide Calm;
    hide PicksDenied;
    hide LeavesJob;
    hide Initial;
    DeniedWaits(wf, maxAttempts, actions, i);
    LimitStays(wf, maxAttempts, actions);
    RunMore(wf, Initial(maxAttempts), actions, WorkerFail(eventOk));
    FailWrites(wf, Run(wf, Initial(maxAttempts), actions), eventOk);
  }

  lemma FailWrites(wf: Workflow, s: Sys, eventOk: bool)
    requires s.worker.Failing?
    ensures var t := Next(wf, s, WorkerFail(eventOk));
      && t.executions == s.executions && t.handlers == s.handlers && t.approvals == s.approvals && t.nextReq == s.nextReq
      && t.row.attemptCount == s.row.attemptCount && t.row.maxAttempts == s.row.maxAttempts && t.row.blockedRequestId.None?
      && t.worker == Idle && (t.row.status == Queued ==> t.job)
      && t.row.status == if s.worker.denied || s.worker.attempt >= s.row.maxAttempts then Failed else Queued
  {
  }

  // ---------------------------------------------------------------- when an approval is lost

  /** The run waits for a request that has been decided, and nobody is left to tell it. */
  ghost predicate Stuck(s: Sys, req: nat) {
    && req in s.approvals && s.approvals[req].status != Pending && BlockedOn(s.row, req)
    && forall h :: h in s.handlers && (s.handlers[h].Looking? || s.handlers[h].Clearing?) ==> s.handlers[h].req != req
  }

  lemma StuckWorker(wf: Workflow, s: Sys, a: Action, req: nat)
    requires Inv(s) && Stuck(s, req) && OfWorker(a)
    ensures Stuck(WorkerStep(wf, s, a), req)
  {
    hide WorkerStep;
    hide DecisionsOk;
    hide HandlersSide;
    NoJobNoStep(wf, s, a);
  }

  /** No step of a handler leads out of it, except a failure write that comes late. */
  lemma StuckHandler(s: Sys, a: Action, req: nat)
    requires Inv(s) && Stuck(s, req) && !OfWorker(a) && !a.Tick? && !FailsRemotely(s, a) && !Compensates(s, a)
    ensures Stuck(HandlerStep(s, a), req)
  {
    hide RowInv;
    hide WorkerOk;
    hide DecisionsOk;
    if (a.HandlerClear? || a.HandlerFailRun? || a.HandlerEnqueue?) && a.h in s.handlers {
      assert HandlerOk(s, s.handlers[a.h]);
    }
    hide HandlersSide;
  }

  lemma StuckStep(wf: Workflow, s: Sys, a: Action, req: nat)
    requires Inv(s) && Stuck(s, req)
    ensures !Stuck(Next(wf, s, a), req) <==> FailsRemotely(s, a) || Compensates(s, a)
  {
    hide WorkerStep;
    hide HandlerStep;
    hide Inv;
    hide Stuck;
    if FailsRemotely(s, a) || Compensates(s, a) {
      LateWriteUnblocks(wf, s, a, req);
    } else if OfWorker(a) {
      StuckWorker(wf, s, a, req);
    } else if a.Tick? {
      StuckTick(s, a.ms, req);
    } else {
      StuckHandler(s, a, req);
    }
  }

  lemma StuckTick(s: Sys, ms: nat, req: nat)
    requires Stuck(s, req)
    ensures Stuck(s.(now := s.now + ms), req)
  {
  }

  lemma LateWriteUnblocks(wf: Workflow, s: Sys, a: Action, req: nat)
    requires FailsRemotely(s, a) || Compensates(s, a)
    ensures !Stuck(Next(wf, s, a), req)
  {
    hide Next;
    LateWriteRow(wf, s, a);
  }

  /** Once stuck, a run stays so to the end of every calm run. */
  lemma {:induction false} StuckForever(wf: Workflow, maxAttempts: int, actions: seq<Action>, i: nat, req: nat)
    requires CalmRun(wf, Initial(maxAttempts), actions) && i <= |actions|
    requires Stuck(Run(wf, Initial(maxAttempts), actions[..i]), req)
    ensures Stuck(Run(wf, Initial(maxAttempts), actions), req)
  {
    hide Next;
    hide Stuck;
    hide Calm;
    StuckUpTo(wf, maxAttempts, actions, i, |actions|, req);
    assert actions[..|actions|] == actions;
  }

  lemma {:induction false} StuckUpTo(wf: Workflow, maxAttempts: int, actions: seq<Action>, i: nat, k: nat, req: nat)
    requires CalmRun(wf, Initial(maxAttempts), actions) && i <= k <= |actions|
    requires Stuck(Run(wf, Initial(maxAttempts), actions[..i]), req)
    ensures Stuck(Run(wf, Initial(maxAttempts), actions[..k]), req)
    decreases k
  {
    hide Next;
    hide Stuck;
    hide Inv;
    hide Initial;
    hide Calm;
    if i < k {
      var s, a := Run(wf, Initial(maxAttempts), actions[..k - 1]), actions[k - 1];
      StuckUpTo(wf, maxAttempts, actions, i, k - 1, req);
      KeptAt(wf, maxAttempts, actions, k - 1);
      RunStep(wf, Initial(maxAttempts), actions, k - 1);
      StuckStep(wf, s, a, req);
      CalmStuck(wf, s, a, req);
    }
  }

  /** On a stuck run neither of the two writes would be in time. */
  lemma CalmStuck(wf: Workflow, s: Sys, a: Action, req: nat)
    requires Inv(s) && Stuck(s, req)
    ensures Calm(s, a) <==> !FailsRemotely(s, a) && !Compensates(s, a)
  {
    hide RowInv;
    hide WorkerOk;
    hide DecisionsOk;
    if FailsRemotely(s, a) { assert HandlerOk(s, s.handlers[a.h]); }
  }

  /** And exactly those two writes lead out of it: by overwriting the run. */
  lemma {:induction false} StuckEndsIff(wf: Workflow, maxAttempts: int, actions: seq<Action>, a: Action, req: nat)
    requires CalmRun(wf, Initial(maxAttempts), actions)
    requires Stuck(Run(wf, Initial(maxAttempts), actions), req)
    ensures !Stuck(Run(wf, Initial(maxAttempts), actions + [a]), req) <==>
      !Calm(Run(wf, Initial(maxAttempts), actions), a)
  {
    hide Next;
    hide Stuck;
    hide Inv;
    hide Initial;
    RunKeeps(wf, maxAttempts, actions);
    RunMore(wf, Initial(maxAttempts), actions, a);
    StuckStep(wf, Run(wf, Initial(maxAttempts), actions), a, req);
    CalmStuck(wf, Run(wf, Initial(maxAttempts), actions), a, req);
  }

  /** The handler of the request dies, or cannot enqueue the run. */
  predicate Drops(s: Sys, a: Action, req: nat) {
    && (a.HandlerGone? || (a.HandlerEnqueue? && a.queue != Accepted))
    && a.h in s.handlers && PastDecision(s.handlers[a.h]) && s.handlers[a.h].req == req
  }

  /** Nobody is acting on the decision any more. */
  ghost predicate Abandoned(s: Sys, req: nat) {
    forall h :: h in s.handlers && PastDecision(s.handlers[h]) ==> s.handlers[h].req != req
  }

  /** The decision has reached the run. */
  predicate Acted(s: Sys, req: nat, v: Verdict) {
    if v == Reject then req in s.rejected else req in s.woken
  }

  /** The handler has found the run and goes on with it. */
  predicate InHand(s: Sys, h: nat, req: nat, v: Verdict) {
    h in s.handlers && (s.handlers[h] == Clearing(req, v) || s.handlers[h] == if v == Reject then FailingRun(req, Reject) else Enqueueing(req))
  }

  lemma OutcomesStay(wf: Workflow, s: Sys, a: Action)
    ensures s.woken <= Next(wf, s, a).woken && s.rejected <= Next(wf, s, a).rejected
  {
    hide WorkerStep;
    hide FailOrRetry;
    hide ClearBlock;
  }

  /** A decision in hand stays in hand until it has reached the run. */
  lemma InHandStep(wf: Workflow, s: Sys, a: Action, h: nat, req: nat, v: Verdict)
    requires Inv(s) && v != Expire && InHand(s, h, req, v) && !Drops(s, a, req)
    ensures InHand(Next(wf, s, a), h, req, v) || Acted(Next(wf, s, a), req, v)
  {
    hide WorkerStep;
    hide HandlerStep;
    hide Inv;
    if !OfWorker(a) && !a.Tick? {
      if a == HandlerClear(h) && s.handlers[h].Clearing? { ClearedInHand(s, h); } else { HandInHand(s, a, h, req, v); }
    }
  }

  lemma ClearedInHand(s: Sys, h: nat)
    requires Inv(s) && h in s.handlers && s.handlers[h].Clearing?
    ensures InHand(HandlerStep(s, HandlerClear(h)), h, s.handlers[h].req, s.handlers[h].verdict)
  {
    hide Inv;
    ClearedHandler(s, h);
    ClearingIsAlone(s, h);
  }

  lemma HandInHand(s: Sys, a: Action, h: nat, req: nat, v: Verdict)
    requires v != Expire && InHand(s, h, req, v) && !Drops(s, a, req) && !OfWorker(a) && !a.Tick?
    requires a != HandlerClear(h) || !s.handlers[h].Clearing?
    ensures InHand(HandlerStep(s, a), h, req, v) || Acted(HandlerStep(s, a), req, v)
  {
    hide FailOrRetry;
    hide MarkFailed;
    hide ClearBlock;
  }

  /** A decision that nobody acts on any more stays without effect. */
  ghost predicate Missed(s: Sys, req: nat) {
    && req in s.approvals && s.approvals[req].status != Pending
    && Abandoned(s, req) && req !in s.woken && req !in s.rejected
  }

  lemma MissedStep(wf: Workflow, s: Sys, a: Action, req: nat)
    requires Missed(s, req) && Numbered(s)
    ensures Missed(Next(wf, s, a), req)
  {
    hide WorkerStep;
    hide HandlerStep;
    StepGrows(wf, s, a);
    if !OfWorker(a) && !a.Tick? { MissedHandler(s, a, req); }
  }

  lemma MissedHandler(s: Sys, a: Action, req: nat)
    requires Missed(s, req) && !OfWorker(a) && !a.Tick?
    ensures var t := HandlerStep(s, a); Abandoned(t, req) && req !in t.woken && req !in t.rejected
  {
    hide FailOrRetry;
    hide ClearBlock;
    hide MarkFailed;
  }

  /** The moment of truth: the handler looks for the run that is blocked on its request. */
  predicate Looks(s: Sys, a: Action, req: nat, v: Verdict) {
    a.HandlerLook? && a.h in s.handlers && s.handlers[a.h] == Looking(req, v)
  }

  lemma LookDecides(wf: Workflow, s: Sys, a: Action, req: nat, v: Verdict)
    requires DecisionsOk(s) && Looks(s, a, req, v)
    ensures v != Expire
    ensures var t := Next(wf, s, a); if BlockedOn(s.row, req) then InHand(t, a.h, req, v) else Missed(t, req)
  {
    hide OutcomesOk;
    assert Backed(s.approvals, s.woken + s.rejected, s.handlers[a.h]);
  }

  predicate Reaches(s: Sys, h: nat, req: nat, v: Verdict) {
    InHand(s, h, req, v) || Acted(s, req, v)
  }

  lemma ReachesStep(wf: Workflow, s: Sys, a: Action, h: nat, req: nat, v: Verdict)
    requires Inv(s) && v != Expire && Reaches(s, h, req, v) && !Drops(s, a, req)
    ensures Reaches(Next(wf, s, a), h, req, v)
  {
    hide Next;
    hide Inv;
    hide Drops;
    hide InHand;
    OutcomesStay(wf, s, a);
    if InHand(s, h, req, v) { InHandStep(wf, s, a, h, req, v); }
  }

  lemma {:induction false} ReachesUpTo(wf: Workflow, maxAttempts: int, actions: seq<Action>, i: nat, k: nat, h: nat, req: nat, v: Verdict)
    requires CalmRun(wf, Initial(maxAttempts), actions) && i < k <= |actions|
    requires actions[i] == HandlerLook(h) && Looks(Run(wf, Initial(maxAttempts), actions[..i]), actions[i], req, v)
    requires BlockedOn(Run(wf, Initial(maxAttempts), actions[..i]).row, req)
    requires forall j :: i < j < |actions| ==> !Drops(Run(wf, Initial(maxAttempts), actions[..j]), actions[j], req)
    ensures v != Expire && Reaches(Run(wf, Initial(maxAttempts), actions[..k]), h, req, v)
    decreases k
  {
    hide Next;
    hide Calm;
    hide Looks;
    hide Drops;
    hide Reaches;
    hide Initial;
    hide Inv;
    var s, a := Run(wf, Initial(maxAttempts), actions[..k - 1]), actions[k - 1];
    KeptAt(wf, maxAttempts, actions, k - 1);
    RunStep(wf, Initial(maxAttempts), actions, k - 1);
    if i == k - 1 {
      LookReaches(wf, s, h, req, v);
    } else {
      ReachesUpTo(wf, maxAttempts, actions, i, k - 1, h, req, v);
      ReachesStep(wf, s, a, h, req, v);
    }
  }

  lemma LookReaches(wf: Workflow, s: Sys, h: nat, req: nat, v: Verdict)
    requires Inv(s) && Looks(s, HandlerLook(h), req, v) && BlockedOn(s.row, req)
    ensures v != Expire && Reaches(Next(wf, s, HandlerLook(h)), h, req, v)
  {
    hide RowSide;
    hide HandlersSide;
    hide DecisionsOk;
    hide Next;
    hide InHand;
    LookDecides(wf, s, HandlerLook(h), req, v);
  }

  /** A handler that looks before the block has been written never has any effect. */
  lemma {:induction false} MissedForGood(wf: Workflow, maxAttempts: int, actions: seq<Action>, i: nat, k: nat, req: nat, v: Verdict)
    requires i < k <= |actions| && Looks(Run(wf, Initial(maxAttempts), actions[..i]), actions[i], req, v)
    requires !BlockedOn(Run(wf, Initial(maxAttempts), actions[..i]).row, req)
    ensures Missed(Run(wf, Initial(maxAttempts), actions[..k]), req)
    decreases k
  {
    hide Next;
    hide Looks;
    hide Missed;
    hide Initial;
    hide DecisionsOk;
    hide Numbered;
    var s, a := Run(wf, Initial(maxAttempts), actions[..k - 1]), actions[k - 1];
    RunDecisions(wf, maxAttempts, actions[..k - 1]);
    RunNumbered(wf, maxAttempts, actions[..k - 1]);
    RunStep(wf, Initial(maxAttempts), actions, k - 1);
    if i == k - 1 {
      LookDecides(wf, s, a, req, v);
    } else {
      MissedForGood(wf, maxAttempts, actions, i, k - 1, req, v);
      MissedStep(wf, s, a, req);
    }
  }

  /** A decision reaches the run if and only if the worker has written its block by the time the handler
      looks for it: in every calm run in which the handler then goes on to its end, an approval wakes the
      run, and a rejection fails it, exactly in that case. */
  lemma {:induction false} WakesIff(wf: Workflow, maxAttempts: int, actions: seq<Action>, i: nat, req: nat, v: Verdict)
    requires CalmRun(wf, Initial(maxAttempts), actions) && i < |actions|
    requires Looks(Run(wf, Initial(maxAttempts), actions[..i]), actions[i], req, v)
    requires forall k :: i < k < |actions| ==> !Drops(Run(wf, Initial(maxAttempts), actions[..k]), actions[k], req)
    requires Abandoned(Run(wf, Initial(maxAttempts), actions), req)
    ensures Acted(Run(wf, Initial(maxAttempts), actions), req, v) <==>
      BlockedOn(Run(wf, Initial(maxAttempts), actions[..i]).row, req)
  {
    hide Next;
    hide Calm;
    hide Drops;
    hide Initial;
    assert actions[..|actions|] == actions;
    if BlockedOn(Run(wf, Initial(maxAttempts), actions[..i]).row, req) {
      ReachesUpTo(wf, maxAttempts, actions, i, |actions|, actions[i].h, req, v);
    } else {
      MissedForGood(wf, maxAttempts, actions, i, |actions|, req, v);
    }
  }

  /** If it looks earlier, the worker's block for that request makes the run wait to the end of every calm
      run. */
  lemma {:induction false} LostForever(wf: Workflow, maxAttempts: int, actions: seq<Action>, i: nat, j: nat, req: nat, v: Verdict)
    requires CalmRun(wf, Initial(maxAttempts), actions) && i < j < |actions|
    requires Looks(Run(wf, Initial(maxAttempts), actions[..i]), actions[i], req, v)
    requires !BlockedOn(Run(wf, Initial(maxAttempts), actions[..i]).row, req)
    requires actions[j] == WorkerBlock
    requires var w := Run(wf, Initial(maxAttempts), actions[..j]).worker; w.Blocking? && w.req == req
    ensures Stuck(Run(wf, Initial(maxAttempts), actions), req)
  {
    hide Next;
    hide Looks;
    hide Stuck;
    hide Missed;
    hide Calm;
    hide Inv;
    hide Initial;
    var init := Initial(maxAttempts);
    MissedForGood(wf, maxAttempts, actions, i, j, req, v);
    KeptAt(wf, maxAttempts, actions, j);
    BlockStrands(wf, Run(wf, init, actions[..j]), req);
    RunStep(wf, init, actions, j);
    StuckForever(wf, maxAttempts, actions, j + 1, req);
  }

  lemma BlockStrands(wf: Workflow, s: Sys, req: nat)
    requires Inv(s) && Missed(s, req) && s.worker.Blocking? && s.worker.req == req
    ensures Stuck(Next(wf, s, WorkerBlock), req)
  {
    hide RowInv;
    hide DecisionsOk;
    hide HandlersSide;
  }
}
