/** The workflow-run row of packages/db/src/repositories.ts and the updates made to it. */
module RunTable {
  import opened Common
  import GraphExecutor

  datatype Status = Queued | Running | Succeeded | Failed

  /** The steps recorded in a run's output. */
  type Steps = seq<GraphExecutor.Step>

  /** Request ids are numbers here, a new one for each approval request and each dispatch. The source has
      random ids for approval requests; a remote one is made of run, node and attempt. */
  datatype Row = Row(status: Status, attemptCount: nat, maxAttempts: int, cursor: nat, output: Option<Steps>,
                     error: Option<string>, startedAt: Option<int>, finishedAt: Option<int>, nextAttemptAt: Option<int>,
                     blockedRequestId: Option<nat>, blockedNodeId: Option<string>, blockedNodeType: Option<string>,
                     blockedKind: Option<string>, blockedAt: Option<int>, blockedTimeoutAt: Option<int>)

  function Create(maxAttempts: int): Row {
    Row(Queued, 0, maxAttempts, 0, None, None, None, None, None, None, None, None, None, None, None)
  }

  function Unblocked(row: Row): Row {
    row.(blockedRequestId := None, blockedNodeId := None, blockedNodeType := None, blockedKind := None,
         blockedAt := None, blockedTimeoutAt := None)
  }

  function MarkRunning(row: Row, attemptCount: nat, now: int): Row {
    Unblocked(row).(status := Running, attemptCount := attemptCount, cursor := 0, output := None, error := None,
                    startedAt := Some(now), nextAttemptAt := None)
  }

  function MarkBlocked(row: Row, cursor: nat, req: nat, node: string, nodeType: string, kind: string, now: int, timeoutAt: int,
                       output: Steps): Row {
    row.(cursor := cursor, blockedRequestId := Some(req), blockedNodeId := Some(node), blockedNodeType := Some(nodeType),
         blockedKind := Some(kind), blockedAt := Some(now), blockedTimeoutAt := Some(timeoutAt), output := Some(output))
  }

  /** Clears the block only if the row is blocked on the expected request. */
  function ClearBlock(row: Row, expected: nat, output: Option<Steps>): Row {
    if row.blockedRequestId != Some(expected) then row
    else Unblocked(row).(output := if output.Some? then output else row.output)
  }

  function UpdateProgress(row: Row, cursor: nat, output: Steps): Row {
    row.(cursor := cursor, output := Some(output))
  }

  function QueueForRetry(row: Row, error: string, nextAttemptAt: Option<int>): Row {
    Unblocked(row).(status := Queued, error := Some(error), cursor := 0, finishedAt := None, nextAttemptAt := nextAttemptAt)
  }

  /** Success leaves the block fields alone. */
  function MarkSucceeded(row: Row, output: Steps, now: int): Row {
    row.(status := Succeeded, output := Some(output), error := None, nextAttemptAt := None, finishedAt := Some(now))
  }

  function MarkFailed(row: Row, error: string, now: int): Row {
    Unblocked(row).(status := Failed, error := Some(error), nextAttemptAt := None, finishedAt := Some(now))
  }

  // ---------------------------------------------------------------- what a row always satisfies

  ghost predicate BlockedTogether(row: Row) {
    var b := row.blockedRequestId.Some?;
    && row.blockedNodeId.Some? == b && row.blockedNodeType.Some? == b && row.blockedKind.Some? == b
    && row.blockedAt.Some? == b && row.blockedTimeoutAt.Some? == b
  }

  function Cap(row: Row): int {
    Max(1, row.maxAttempts)
  }

  predicate Final(row: Row) {
    row.status == Succeeded || row.status == Failed
  }

  /** The six block fields are set and cleared together and only while running; attempts never exceed
      their limit, and a queued run has one left; exactly a finished run has an end, and only a queued one
      a next attempt. */
  ghost predicate RowInv(row: Row) {
    && BlockedTogether(row)
    && (row.blockedRequestId.Some? ==> row.status == Running)
    && row.attemptCount <= Cap(row)
    && (row.status == Queued ==> row.attemptCount < Cap(row))
    && (row.status == Running ==> row.attemptCount >= 1)
    && (row.finishedAt.Some? <==> Final(row))
    && (row.nextAttemptAt.Some? ==> row.status == Queued)
  }

  // When an update keeps the row in order; none of them looks at the status it overwrites.

  lemma RunningKeepsIff(row: Row, attempt: nat, now: int)
    requires RowInv(row)
    ensures RowInv(MarkRunning(row, attempt, now)) <==> !Final(row) && 1 <= attempt <= Cap(row)
  {
  }

  lemma BlockedKeepsIff(row: Row, cursor: nat, req: nat, node: string, nodeType: string, kind: string, now: int,
                                           timeoutAt: int, output: Steps)
    requires RowInv(row)
    ensures RowInv(MarkBlocked(row, cursor, req, node, nodeType, kind, now, timeoutAt, output)) <==> row.status == Running
  {
  }

  lemma RetryKeepsIff(row: Row, error: string, next: Option<int>)
    requires RowInv(row)
    ensures RowInv(QueueForRetry(row, error, next)) <==> row.attemptCount < Cap(row)
  {
  }

  lemma SuccessKeepsIff(row: Row, output: Steps, now: int)
    requires RowInv(row)
    ensures RowInv(MarkSucceeded(row, output, now)) <==> row.blockedRequestId.None?
  {
  }

  lemma FailureKeeps(row: Row, error: string, now: int)
    requires RowInv(row)
    ensures RowInv(MarkFailed(row, error, now))
  {
  }

  lemma ClearKeeps(row: Row, expected: nat, output: Option<Steps>)
    requires RowInv(row)
    ensures RowInv(ClearBlock(row, expected, output))
  {
  }

  /** The updates as the database performs them, each one a single statement on the row. */
  class RunRow {
    var status: Status
    var attemptCount: nat
    var maxAttempts: int
    var cursor: nat
    var output: Option<Steps>
    var error: Option<string>
    var startedAt: Option<int>
    var finishedAt: Option<int>
    var nextAttemptAt: Option<int>
    var blockedRequestId: Option<nat>
    var blockedNodeId: Option<string>
    var blockedNodeType: Option<string>
    var blockedKind: Option<string>
    var blockedAt: Option<int>
    var blockedTimeoutAt: Option<int>

    function Value(): Row
      reads this
    {
      Row(status, attemptCount, maxAttempts, cursor, output, error, startedAt, finishedAt, nextAttemptAt,
          blockedRequestId, blockedNodeId, blockedNodeType, blockedKind, blockedAt, blockedTimeoutAt)
    }

    constructor (maxAttempts: int)
      ensures Value() == Create(maxAttempts) && RowInv(Value())
    {
      status, attemptCount, this.maxAttempts, cursor, output, error := Queued, 0, maxAttempts, 0, None, None;
      startedAt, finishedAt, nextAttemptAt := None, None, None;
      blockedRequestId, blockedNodeId, blockedNodeType, blockedKind, blockedAt, blockedTimeoutAt := None, None, None, None, None, None;
    }

    method ClearFields()
      modifies this
      ensures Value() == Unblocked(old(Value()))
    {
      blockedRequestId, blockedNodeId, blockedNodeType, blockedKind, blockedAt, blockedTimeoutAt := None, None, None, None, None, None;
    }

    method SetFields(req: nat, node: string, nodeType: string, kind: string, now: int, timeoutAt: int)
      modifies this
      ensures Value() == old(Value()).(blockedRequestId := Some(req), blockedNodeId := Some(node), blockedNodeType := Some(nodeType),
                                       blockedKind := Some(kind), blockedAt := Some(now), blockedTimeoutAt := Some(timeoutAt))
    {
      blockedRequestId, blockedNodeId, blockedNodeType := Some(req), Some(node), Some(nodeType);
      blockedKind, blockedAt, blockedTimeoutAt := Some(kind), Some(now), Some(timeoutAt);
    }

    /** Starting an attempt: unguarded, so it keeps the row in order exactly where the next attempt of a
        queued run starts, as long as it is not beyond the limit. */
    method Start(attempt: nat, now: int)
      modifies this
      ensures Value() == MarkRunning(old(Value()), attempt, now)
      ensures status == Running && attemptCount == attempt && cursor == 0 && output.None? && error.None?
      ensures startedAt == Some(now) && nextAttemptAt.None? && blockedRequestId.None?
      ensures old(RowInv(Value())) ==> (RowInv(Value()) <==> !old(Final(Value())) && 1 <= attempt <= Cap(old(Value())))
    {
      ghost var before := Value();
      hide RowInv;
      ClearFields();
      status, attemptCount, cursor, output, error, startedAt, nextAttemptAt := Running, attempt, 0, None, None, Some(now), None;
      if RowInv(before) { RunningKeepsIff(before, attempt, now); }
    }

    method Progress(cursor: nat, output: Steps)
      modifies this
      ensures Value() == UpdateProgress(old(Value()), cursor, output)
      ensures this.cursor == cursor && this.output == Some(output)
      ensures RowInv(Value()) <==> old(RowInv(Value()))
    {
      this.cursor, this.output := cursor, Some(output);
    }

    method Block(cursor: nat, req: nat, node: string, nodeType: string, kind: string, now: int, timeoutAt: int, output: Steps)
      modifies this
      ensures Value() == MarkBlocked(old(Value()), cursor, req, node, nodeType, kind, now, timeoutAt, output)
      ensures status == old(status) && this.cursor == cursor && this.output == Some(output)
      ensures blockedRequestId == Some(req) && blockedNodeId == Some(node) && blockedNodeType == Some(nodeType)
      ensures blockedKind == Some(kind) && blockedAt == Some(now) && blockedTimeoutAt == Some(timeoutAt)
      ensures old(RowInv(Value())) ==> (RowInv(Value()) <==> old(status) == Running)
    {
      ghost var before := Value();
      hide RowInv;
      this.cursor, this.output := cursor, Some(output);
      SetFields(req, node, nodeType, kind, now, timeoutAt);
      if RowInv(before) { BlockedKeepsIff(before, cursor, req, node, nodeType, kind, now, timeoutAt, output); }
    }

    method Clear(expected: nat, output: Option<Steps>) returns (cleared: bool)
      modifies this
      ensures Value() == ClearBlock(old(Value()), expected, output)
      ensures cleared <==> old(blockedRequestId) == Some(expected)
      ensures status == old(status) && blockedRequestId == if cleared then None else old(blockedRequestId)
      ensures this.output == if cleared && output.Some? then output else old(this.output)
      ensures attemptCount == old(attemptCount) && (!cleared ==> Value() == old(Value()))
      ensures old(RowInv(Value())) ==> RowInv(Value())
    {
      ghost var before := Value();
      hide RowInv;
      cleared := blockedRequestId == Some(expected);
      if cleared {
        if output.Some? {
          this.output := output;
        }
        ClearFields();
      }
      if RowInv(before) { ClearKeeps(before, expected, output); }
    }

    method Retry(error: string, nextAttemptAt: Option<int>)
      modifies this
      ensures Value() == QueueForRetry(old(Value()), error, nextAttemptAt)
      ensures status == Queued && this.error == Some(error) && this.nextAttemptAt == nextAttemptAt
      ensures cursor == 0 && finishedAt.None? && blockedRequestId.None? && output == old(output)
      ensures attemptCount == old(attemptCount) && maxAttempts == old(maxAttempts)
      ensures old(RowInv(Value())) ==> (RowInv(Value()) <==> old(attemptCount) < Cap(old(Value())))
    {
      ghost var before := Value();
      hide RowInv;
      status, this.error, cursor, finishedAt, this.nextAttemptAt := Queued, Some(error), 0, None, nextAttemptAt;
      ClearFields();
      if RowInv(before) { RetryKeepsIff(before, error, nextAttemptAt); }
    }

    method Succeed(output: Steps, now: int)
      modifies this
      ensures Value() == MarkSucceeded(old(Value()), output, now)
      ensures status == Succeeded && this.output == Some(output) && error.None? && nextAttemptAt.None? && finishedAt == Some(now)
      ensures old(RowInv(Value())) ==> (RowInv(Value()) <==> old(blockedRequestId).None?)
    {
      ghost var before := Value();
      hide RowInv;
      status, this.output, error, nextAttemptAt, finishedAt := Succeeded, Some(output), None, None, Some(now);
      if RowInv(before) { SuccessKeepsIff(before, output, now); }
    }

    method Fail(error: string, now: int)
      modifies this
      ensures Value() == MarkFailed(old(Value()), error, now)
      ensures status == Failed && this.error == Some(error) && nextAttemptAt.None? && finishedAt == Some(now) && blockedRequestId.None?
      ensures output == old(output) && attemptCount == old(attemptCount) && maxAttempts == old(maxAttempts)
      ensures old(RowInv(Value())) ==> RowInv(Value())
    {
      ghost var before := Value();
      hide RowInv;
      status, this.error, nextAttemptAt, finishedAt := Failed, Some(error), None, Some(now);
      ClearFields();
      if RowInv(before) { FailureKeeps(before, error, now); }
    }
  }
}
