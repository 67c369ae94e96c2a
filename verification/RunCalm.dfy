/** The ownership invariant holds in every calm run: what handlers and continuations do to it, and the
    induction over runs. */
module RunCalm {
  import opened Common
  import opened RunTable
  import opened RunProtocol
  import opened RunSafety
  import opened RunOwnership

  // ---------------------------------------------------------------- the handlers' steps

  ghost predicate Kept(t: Sys) {
    RowSide(t) && HandlersSide(t, t.handlers)
  }

  /** Only the handlers, and what they note down, have changed. */
  lemma SameRow(s: Sys, t: Sys, handlers: Handlers)
    requires RowSide(s) && HandlersSide(s, handlers)
    requires t.row == s.row && t.worker == s.worker && t.job == s.job && t.nextReq == s.nextReq && t.handlers == handlers
    requires t.approvals.Keys == s.approvals.Keys
    ensures Kept(t)
  {
    hide RowInv;
    hide WorkerOk;
    assert forall r :: r in t.approvals <==> r in s.approvals by {
      assert forall r :: r in t.approvals <==> r in t.approvals.Keys;
      assert forall r :: r in s.approvals <==> r in s.approvals.Keys;
    }
  }

  lemma StartKeeps(s: Sys, h: nat, req: nat, reject: bool)
    requires Inv(s)
    ensures Kept(StartHandler(s, h, req, reject))
  {
    hide RowSide;
    hide HandlersSide;
    hide DecisionsOk;
    var t := StartHandler(s, h, req, reject);
    if t != s { HandlerSet(s, s.handlers, h, t.handlers[h]); }
    SameRow(s, t, t.handlers);
  }

  lemma ReadKeeps(s: Sys, h: nat, req: nat)
    requires Inv(s)
    ensures Kept(ReadRun(s, h, req))
  {
    hide RowInv;
    hide WorkerOk;
    hide HandlersSide;
    hide DecisionsOk;
    var t := ReadRun(s, h, req);
    if t != s { HandlerSet(s, s.handlers, h, t.handlers[h]); }
    SameRow(s, t, t.handlers);
  }

  lemma DecideKeeps(s: Sys, h: nat)
    requires Inv(s)
    ensures Kept(Decide(s, h))
  {
    hide RowSide;
    hide HandlersSide;
    hide DecisionsOk;
    var t := Decide(s, h);
    HandlerRemoved(s, s.handlers, h);
    if t != s && h in t.handlers { HandlerSet(s, s.handlers, h, t.handlers[h]); }
    SameRow(s, t, t.handlers);
  }

  lemma LookKeeps(s: Sys, h: nat)
    requires Inv(s)
    ensures Kept(Look(s, h))
  {
    hide RowSide;
    hide HandlersSide;
    hide DecisionsOk;
    var t := Look(s, h);
    HandlerRemoved(s, s.handlers, h);
    if t != s && h in t.handlers { HandlerSet(s, s.handlers, h, t.handlers[h]); }
    SameRow(s, t, t.handlers);
  }

  /** The clearing handler is the only one at the row; the run is blocked on its request and nobody works
      on it. */
  lemma ClearingIsAlone(s: Sys, h: nat)
    requires Inv(s) && h in s.handlers && s.handlers[h].Clearing?
    ensures BlockedOn(s.row, s.handlers[h].req) && s.worker.Idle? && !s.job && s.handlers[h].verdict != Expire
    ensures Aloof(s.handlers - {h})
  {
    hide RowInv;
    hide WorkerOk;
    assert HandlerOk(s, s.handlers[h]) && Backed(s.approvals, s.woken + s.rejected, s.handlers[h]);
    forall k | k in s.handlers && k != h
      ensures !Owns(s.handlers[k]) && !s.handlers[k].Clearing?
    {
      assert HandlerOk(s, s.handlers[k]);
    }
  }

  lemma ClearKeeps(s: Sys, h: nat)
    requires Inv(s)
    ensures Kept(Clear(s, h))
  {
    if h in s.handlers && s.handlers[h].Clearing? {
      var t, others := Clear(s, h), s.handlers - {h};
      ClearSide(s, h);
      ClearingIsAlone(s, h);
      ClearedHandler(s, h);
      hide HandlersSide;
      hide RowSide;
      hide Clear;
      hide DecisionsOk;
      HandlerRemoved(s, s.handlers, h);
      AloofStay(s, t, others);
      HandlerSet(t, others, h, t.handlers[h]);
      assert others[h := t.handlers[h]] == t.handlers;
    }
  }

  lemma ClearedHandler(s: Sys, h: nat)
    requires Inv(s) && h in s.handlers && s.handlers[h].Clearing?
    ensures var t := Clear(s, h);
      && h in t.handlers && HandlerOk(t, t.handlers[h]) && t.handlers == s.handlers[h := t.handlers[h]]
      && Grows(s, t) && (s.handlers[h].verdict == Approve ==> t.handlers[h] == Enqueueing(s.handlers[h].req))
  {
    hide RowInv;
    hide HandlersSide;
    hide DecisionsOk;
    ClearingIsAlone(s, h);
  }

  lemma ClearSide(s: Sys, h: nat)
    requires RowSide(s)
    ensures RowSide(Clear(s, h))
  {
    hide RowInv;
    if h in s.handlers { RunTable.ClearKeeps(s.row, s.handlers[h].req, None); }
  }

  lemma EnqueueKeeps(s: Sys, h: nat, queue: QueueOutcome)
    requires Inv(s)
    ensures Kept(Enqueue(s, h, queue))
  {
    if h in s.handlers && s.handlers[h].Enqueueing? {
      var t, others := Enqueue(s, h, queue), s.handlers - {h};
      assert HandlerOk(s, s.handlers[h]);
      UnblockedMeansNoneClearing(s, s.handlers);
      OwnerIsAlone(s, h);
      EnqueueSide(s, h, queue);
      hide RowSide;
      hide HandlersSide;
      hide DecisionsOk;
      HandlerRemoved(s, s.handlers, h);
      AloofStay(s, t, others);
      if h in t.handlers {
        HandlerSet(t, others, h, t.handlers[h]);
        assert others[h := t.handlers[h]] == t.handlers;
      }
    }
  }

  lemma OwnerIsAlone(s: Sys, h: nat)
    requires HandlersSide(s, s.handlers) && h in s.handlers && Owns(s.handlers[h])
    ensures Aloof(s.handlers - {h})
  {
    assert HandlerOk(s, s.handlers[h]);
    UnblockedMeansNoneClearing(s, s.handlers);
  }

  lemma EnqueueSide(s: Sys, h: nat, queue: QueueOutcome)
    requires RowSide(s) && h in s.handlers && s.handlers[h].Enqueueing? && HandlerOk(s, s.handlers[h])
    ensures RowSide(Enqueue(s, h, queue))
  {
    hide RowInv;
  }

  /** A failure write that comes in time. */
  lemma FailRunKeeps(s: Sys, h: nat)
    requires Inv(s) && Calm(s, HandlerFailRun(h))
    ensures Kept(FailRun(s, h))
  {
    if h in s.handlers && (s.handlers[h].FailingRun? || s.handlers[h].Compensating?) {
      assert HandlerOk(s, s.handlers[h]);
      var t, others := FailRun(s, h), s.handlers - {h};
      FailRunSide(s, h);
      FailRunOthers(s, h);
    }
  }

  lemma FailRunSide(s: Sys, h: nat)
    requires RowSide(s) && s.worker.Idle?
    ensures RowSide(FailRun(s, h))
  {
  }

  /** The other owners, if any, find the run failed. */
  lemma FailRunOthers(s: Sys, h: nat)
    requires HandlersSide(s, s.handlers) && s.row.blockedRequestId.None?
    ensures HandlersSide(FailRun(s, h), FailRun(s, h).handlers)
  {
    UnblockedMeansNoneClearing(s, s.handlers);
  }

  lemma GoneKeeps(s: Sys, h: nat)
    requires Inv(s)
    ensures Kept(s.(handlers := s.handlers - {h}))
  {
    hide RowSide;
    hide HandlersSide;
    hide DecisionsOk;
    HandlerRemoved(s, s.handlers, h);
    SameRow(s, s.(handlers := s.handlers - {h}), s.handlers - {h});
  }

  lemma ArriveKeeps(s: Sys, req: nat)
    requires Inv(s)
    ensures Kept(Arrive(s, req))
  {
    if BlockedOn(s.row, req) && req !in s.approvals {
      ArriveSide(s, req);
      RemoteMeansAloof(s);
      hide HandlersSide;
      hide RowSide;
      hide DecisionsOk;
      AloofStay(s, Arrive(s, req), s.handlers);
    }
  }

  lemma ArriveSide(s: Sys, req: nat)
    requires RowSide(s) && BlockedOn(s.row, req) && req !in s.approvals
    ensures RowSide(Arrive(s, req))
  {
  }

  lemma RemoteKeeps(s: Sys, h: nat, delayMs: nat)
    requires Inv(s) && Calm(s, ContinuationFail(h, delayMs))
    ensures Kept(FailRemotely(s, h, delayMs))
  {
    if h in s.handlers && s.handlers[h].ContinuationFailing? {
      var t := FailRemotely(s, h, delayMs);
      assert HandlerOk(s, s.handlers[h]);
      RemoteSide(s, h, delayMs);
      RemoteMeansAloof(s);
      hide HandlersSide;
      hide RowSide;
      hide DecisionsOk;
      HandlerRemoved(s, s.handlers, h);
      AloofStay(s, t, s.handlers - {h});
    }
  }

  lemma RemoteSide(s: Sys, h: nat, delayMs: nat)
    requires RowSide(s) && h in s.handlers && s.handlers[h].ContinuationFailing?
    requires BlockedOn(s.row, s.handlers[h].req) && s.handlers[h].attempt == s.row.attemptCount
    ensures RowSide(FailRemotely(s, h, delayMs))
  {
  }

  lemma HandlerKeeps(s: Sys, a: Action)
    requires Inv(s) && !OfWorker(a) && !a.Tick? && Calm(s, a)
    ensures Kept(HandlerStep(s, a))
  {
    hide Inv;
    hide Kept;
    match a
    case HandlerStart(h, req, reject) => StartKeeps(s, h, req, reject);
    case HandlerDecide(h) => DecideKeeps(s, h);
    case HandlerLook(h) => LookKeeps(s, h);
    case HandlerClear(h) => ClearKeeps(s, h);
    case HandlerEnqueue(h, queue) => EnqueueKeeps(s, h, queue);
    case HandlerFailRun(h) => FailRunKeeps(s, h);
    case HandlerGone(h) => GoneKeeps(s, h);
    case RemoteResult(req) => ArriveKeeps(s, req);
    case ContinuationRead(h, req) => ReadKeeps(s, h, req);
    case ContinuationFail(h, delayMs) => RemoteKeeps(s, h, delayMs);
  }

  // ---------------------------------------------------------------- every calm run

  lemma StepKeeps(wf: Workflow, s: Sys, a: Action)
    requires Inv(s) && Calm(s, a)
    ensures Inv(Next(wf, s, a))
  {
    hide WorkerStep;
    hide HandlerStep;
    hide RowSide;
    hide HandlersSide;
    hide DecisionsOk;
    hide Numbered;
    hide Calm;
    StepGrows(wf, s, a);
    StepDecisions(wf, s, a);
    if a.Tick? { SameRow(s, Next(wf, s, a), s.handlers); }
    else if OfWorker(a) { WorkerKeeps(wf, s, a); } else { HandlerKeeps(s, a); }
  }

  lemma CalmPrefix(wf: Workflow, s: Sys, actions: seq<Action>, n: nat)
    requires CalmRun(wf, s, actions) && n <= |actions|
    ensures CalmRun(wf, s, actions[..n])
  {
    hide Calm;
    forall i | 0 <= i < n
      ensures Calm(Run(wf, s, actions[..n][..i]), actions[..n][i])
    {
      assert actions[..n][..i] == actions[..i];
    }
  }

  lemma InitialOk(maxAttempts: int)
    ensures Inv(Initial(maxAttempts))
  {
  }

  /** The invariant holds after every calm run, of any length and in any interleaving. */
  lemma {:induction false} RunKeeps(wf: Workflow, maxAttempts: int, actions: seq<Action>)
    requires CalmRun(wf, Initial(maxAttempts), actions)
    ensures Inv(Run(wf, Initial(maxAttempts), actions))
  {
    hide Next;
    hide Calm;
    hide Inv;
    hide Initial;
    if actions != [] {
      var n := |actions| - 1;
      CalmPrefix(wf, Initial(maxAttempts), actions, n);
      RunKeeps(wf, maxAttempts, actions[..n]);
      StepKeeps(wf, Run(wf, Initial(maxAttempts), actions[..n]), actions[n]);
    } else {
      InitialOk(maxAttempts);
    }
  }

  /** Also at every moment on the way. */
  lemma {:induction false} KeptAt(wf: Workflow, maxAttempts: int, actions: seq<Action>, k: nat)
    requires CalmRun(wf, Initial(maxAttempts), actions) && k <= |actions|
    ensures Inv(Run(wf, Initial(maxAttempts), actions[..k]))
  {
    hide Next;
    hide Calm;
    hide Inv;
    CalmPrefix(wf, Initial(maxAttempts), actions, k);
    RunKeeps(wf, maxAttempts, actions[..k]);
  }
}
