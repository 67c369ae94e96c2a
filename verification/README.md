# Vespid: the workflow run engine and its neighbours

A Dafny model of the parts of Vespid that decide how a workflow run is triggered, executed, blocked, resumed and
finished, with proofs of what holds in every run. `dafny verify dfyconfig.toml` verifies all of it.

| module | what it models |
|---|---|
| `Common`, `Text`, `Calendar` | optional values, the string operations, UTC dates (section 21.4.1 of ECMA-262) |
| `Cron` | the cron parser, the match rule and the minute scan |
| `CronSyntax` | cron syntax trees, their text and their meaning, as a reference for the parser |
| `CronInstants` | when an expression fires, from its syntax tree and the calendar |
| `TriggerScheduler` | the fire/advance protocol of a subscription with failures and crashes; heartbeat arithmetic |
| `WorkflowGraph`, `ParallelRegions` | the validation of v3 graphs |
| `GraphExecutor` | the v3 executor: readiness, steps, skips, jobs and resumption |
| `LinearExecutor` | the v2 cursor loop, and the upgrade of a v2 list to a v3 graph |
| `Policy` | the organisation policy |
| `RunTable`, `RunProtocol` | the run row, and worker, approval handlers and continuations acting on it concurrently |
| `RunSafety`, `RunCompletion` | what holds in every run of the protocol: of executor calls and approvals, and of what a succeeded run has done |
| `RunCheckpoints` | what the row has saved, in every run, and how a run goes on from it |
| `RunOwnership`, `RunCalm`, `RunResults` | who may write to the row when, and what follows for whole runs |
| `RunSteps`, `RunFindings` | single steps of the protocol, and the runs built of them in which the code falls short |
| `RunEngine` | the approve and reject handlers and the worker's job for a v3 workflow, proved to make the protocol's steps |
| `RunJobs` | the job that nothing stands in the way of |
| `AgentLoop` | the bounded agent loop with its persisted, trimmed state |
| `AgentCalls`, `AgentEnds` | which calls the agent loop makes, and how an attempt of it ends |
| `Workspace`, `SessionEvents` | workspace lease and compare-and-set; the session event log and its listings |
| `SessionManager` | the executor's interleaved session turns |
| `Routing` | binding selection and session keys |

Code that changes state in place is a class (`RunRow`, `RunStore`, `Scheduler`, `AgentRun`, `ExecutionWorkspace`,
`EventLog`, `SessionRuntimeManager`) or a method with a loop, each proved equal to a function of the old state. Concurrent
parts are state machines: one `Apply` or `Next` per database statement or uninterrupted section, one action type for
everything the parties and the environment can do, and a `Run` over arbitrary action sequences. An action that is not
enabled changes nothing, so a theorem over all action sequences is a theorem over all interleavings.

## What is proved

- **The v3 executor is confluent and resumable.** Whatever ready node is taken first, and however a run is cut by blocks
  and crashes and restarted from its persisted steps, a completed run has executed exactly the least set of nodes closed
  under "all incoming edges satisfied", with the same outputs; and if one order fails, no order completes.
- **Conditions are followed.** When a run stops, a node has been executed if and only if every edge into it leads on from an
  executed node: always, or because its source recorded the boolean of the edge.
- **Every skip has a root cause.** `NOT_REACHED` is never reported, and following blockers backwards, whichever ones are
  followed, always leads to a condition edge whose source did run.
- **Graph validation is exact.** It accepts a graph if and only if it is non-empty, connected, has two-way conditions, is
  acyclic and has no remote node inside a parallel region.
- **The upgrade from v2 to v3 keeps the order and the results of the steps**: the runs of the upgraded graph are step by
  step the runs of the list. It keeps the policy decision of every node but those of one type.
- **The cron parser finds the meaning**: of every expression, written out from its syntax tree, with the same rejections.
- **Cron fires when the expression says**: the next instant computed from the text of an expression is the earliest one whose
  minute, hour, month and day it names, in the calendar given by its first day, its month lengths and its week.
- **Cron runs have no gap and no duplicate**, over any mix of ticks, failures and crashes; and the scan never comes back
  empty exactly for the expressions that match in every year.
- **A succeeded run is complete.** In every interleaving of worker, handlers and continuations, with every statement able to
  fail, and over any number of blocks, approvals, retries and crashes, a succeeded run holds exactly the least closed set of
  nodes with the outputs of an uninterrupted execution; every task node in it was executed with the policy's permission.
- **No recorded step is lost**: in every run the row holds what the worker has recorded, after every step and every block;
  whoever resumes the run goes on with exactly these steps, and no node is executed again once its step is saved.
- **An undisturbed job succeeds**: where every task is permitted or approved and no statement fails, one job takes the run to
  its success and calls every task it executes exactly once.
- **A rule decides within its scope**: a rule that is disabled, or whose scope the node does not meet, can be taken out
  of the list anywhere without changing a decision about the node, and the first of the others decides.
- **The run protocol** never executes what the policy does not permit and lets at most one decision on an approval take
  effect; without late writes it keeps the life cycle of the
  row, and a decision reaches the run exactly if the block has been written when the handler looks for it.
- **The worker's code follows the protocol**: the job, from loading the run through validation, the loop, the policy check,
  approvals, executor calls and the `catch` block, makes exactly the protocol's steps for what its environment answers.
- **The agent loop calls only what it may**: over any number of blocks, resumes and crashes, every call was asked for by an
  answer in these words, with an allowed tool and an object for input. An attempt is done exactly if its last answer was a
  valid final one in time and with credits, and otherwise ends with the error that names the reason.
- **The agent loop** does bounded work over any number of blocks, resumes and crashes, never repeats a dispatch id, keeps
  its result index equal to its history, and trims optimally.
- **No workspace update is lost, session events are numbered without gaps and paged without loss, turns are serial, keys
  of different sessions differ.**

## What turned out false of the code

Each has an input that shows it and the exact condition under which the property holds.

- *Succeeded and failed are final*. Three unguarded writes break this. The worker writes the success and appends its event
  in one `try` block, so that a failing append takes the success back (`UnrecordedSuccessIsUndone`). An approve handler
  whose enqueue throws after the job has reached the queue fails the run, which may have finished by then
  (`LateCompensationUndoesSuccess`). The continuation worker reads the row and later writes its failure
  (`StaleFailureUndoesSuccess`). `FinishedChangesIff` says that there are no others, and exactly when each does it. Call a
  run calm if the last two writes come in time: in a calm run a finished status stays if and only if the worker's `catch`
  block never runs after a success (`FinishedStaysIff`), so it stays if every success gets its event (`FinishedStays`).
- *Attempts never exceed their limit*: a late retry of the continuation worker begins a third attempt of two
  (`StaleFailureAddsAttempt`). `LifecycleBreaksIff` gives the exact condition; in calm runs the limit and the rest of the
  row's life cycle hold (`LifecycleHolds`).
- *A denied node fails the run whatever attempts remain*: not if the event of the denial cannot be appended, because then
  another error is thrown and the run is tried again (`DenialIsRetried`). `DeniedFailsIff` says exactly when it fails;
  nothing is executed in either case.
- *A decision on an approval reaches its run*: the worker creates the request before it writes the block, and an approval
  handled in between is lost (`ApprovalCanBeLost`). `WakesIff` gives the exact condition over whole runs, and `LostForever`
  and `StuckForever` that the run then waits to the end of every calm run; only a late write, which overwrites the run,
  gets it out (`StuckEndsIff`).
- *The upgrade from v2 to v3 changes nothing for the policy*: a `connector.github.issue.create` node that ran freely needs an
  approval afterwards (`RenamedNeedsApproval`); all other nodes keep their decisions (`PolicyKeptIff`).
- *A parsed cron expression always has a next firing minute*: not for days that only leap years have, or none
  (`NeverNullIff`).
- *Sunday may be written as 7*: it is rejected before the code that would normalise it (`SundayAsSevenRejected`).
- *Distinct v2 nodes upgrade to a valid graph*: edge ids are glued from node ids and can collide (`EdgeIdsCanCollide`,
  `UpgradeValidIff`).
- *An append with a repeated idempotency key returns the first event*: a blank key is never looked up and is then refused
  by the unique index (`AppendTwice`).
- *A stored tool result answers a repeated call*: the lookup always misses, because the index is new (`AllocateInv`).

## Assumptions

- At most one worker job per run is active, as jobs are keyed by run id, and a job that has written its block is not
  delivered again. Database statements are atomic, transactions see what is committed (READ COMMITTED), and the unique
  indexes on trigger keys and session events (packages/db/src/schema.ts:253-257, 619-626) are in force.
- A node's `id` is its key in the node record, the workflow definition does not change during a run, and running the same
  node to completion gives the same result.
- Library functions are parameters, and the results hold for every choice of them: `Number` on strings (restricted to
  integers), `toLowerCase`, the order of `localeCompare` (any total order on ids), the size of a serialised state, the
  choice among ready nodes, random jitter, clocks, and which operations fail.

## Model

| member | source | states |
|---|---|---|
| `Calendar.DateRoundTrip` | apps/scheduler/src/main.ts:183-206 | the UTC date fields that the match rule reads: every valid date is the date of its own day number |
| `Calendar.DayRoundTrip` | apps/scheduler/src/main.ts:183-206 | and every day number is that of its date |
| `Calendar.YearLength` | apps/scheduler/src/main.ts:183-206 | consecutive years are 366 days apart after a leap year and 365 otherwise |
| `Cron.ParseFieldPart` | apps/scheduler/src/main.ts:97-141 | accepts exactly the parts that describe a range inside the bounds, and returns exactly the values reached from its start by its step |
| `Cron.ParseCronField` | apps/scheduler/src/main.ts:143-161 | the union of what the parts denote, nothing if one is rejected; mapping 7 to 0 changes nothing |
| `Cron.ParseCronExpression` | apps/scheduler/src/main.ts:163-177 | five fields with their ranges or rejection |
| `Cron.AcceptedIsValid` | apps/scheduler/src/main.ts:97-177 | every accepted expression has five non-empty fields within range, and `*` is the whole range |
| `CronSyntax.PartMeans` | apps/scheduler/src/main.ts:97-141 | the text of every part `base/step` is read as the range it means, and rejected exactly for step 0, a backward range or one out of bounds |
| `CronSyntax.FieldMeans` | apps/scheduler/src/main.ts:143-161 | the text of a list of parts is read as the union of their meanings, and is a wildcard exactly if it is `*` |
| `CronSyntax.ExpressionMeans` | apps/scheduler/src/main.ts:97-177 | round trip: for every syntax tree the parser finds in its text exactly the meaning of the tree, and rejects it exactly if it has none |
| `CronSyntax.SundayAsSevenRejected` | apps/scheduler/src/main.ts:132-172 | mentioning 7 anywhere in the day-of-week field makes the expression unacceptable in spite of the normaliser |
| `Cron.ScanMinutes` | apps/scheduler/src/main.ts:214-227 | the loop returns the first matching minute of the window, or nothing |
| `Cron.NextCronFireAt` | apps/scheduler/src/main.ts:208-227 | parsing then scanning is the meaning of the expression applied to the instant |
| `CronInstants.FiresIff` | apps/scheduler/src/main.ts:183-206 | from the syntax tree and the calendar alone: a minute fires if and only if its minute, hour and month are named by their fields and the day is, by day, weekday or either, depending on which of the two fields is a lone `*` |
| `CronInstants.NextInstant` | apps/scheduler/src/main.ts:97-227 | end to end: from the text of an expression, the earliest such instant after the given one; none exactly if the text means nothing or names no minute of the next 730 days |
| `CronInstants.DueIff` | apps/scheduler/src/main.ts:183-206 | the instant of a date, an hour and a minute is due if and only if the expression names them |
| `CronInstants.CalendarIs` | apps/scheduler/src/main.ts:183-206 | the dates the match rule reads are those of the one calendar with 1970-01-01 as day 0 and the known month lengths |
| `CronInstants.WeekIs` | apps/scheduler/src/main.ts:183-197 | and its weekdays follow one another from a Thursday |
| `Cron.NextFireIsEarliest` | apps/scheduler/src/main.ts:208-227 | the result is the earliest matching minute strictly after the instant; none means that the whole window has no match |
| `Cron.NeverNullIff` | apps/scheduler/src/main.ts:183-227 | the scan succeeds from every instant if and only if day-of-month is `*`, or day-of-week is not, or some chosen month has a chosen day in common years |
| `Cron.AcceptedNeverNull` | apps/scheduler/src/main.ts:163-227 | so every accepted expression that meets the condition always has a next firing instant |
| `Cron.UnreachableHasNoMatch` | apps/scheduler/src/main.ts:183-227 | any other expression has no match in the window that covers 2021 and 2022 |
| `TriggerScheduler.HeartbeatBounds` | apps/scheduler/src/main.ts:229-244 | the next slot, exactly: an interval, of at least a second, and the jitter after the fired one, or after the present if that is more than the allowed skew later; so within [now - skew + interval, now + interval + jitter] |
| `TriggerScheduler.BurstBound` | apps/scheduler/src/main.ts:460-470 | with the clock held, at most floor(skew / interval) + 1 firings |
| `TriggerScheduler.BurstBoundTight` | apps/scheduler/src/main.ts:460-470 | and that many do happen |
| `TriggerScheduler.CronInvRun` | apps/scheduler/src/main.ts:306-480 | over every run: rows and slots stay aligned while no scan comes back empty |
| `TriggerScheduler.NoGapNoDuplicate` | apps/scheduler/src/main.ts:306-480 | over every run with failures and crashes: below the next slot, a slot has one row if it is a firing minute from the first slot on, and none otherwise |
| `TriggerScheduler.ReachableNeverSawNull` | apps/scheduler/src/main.ts:315-331 | for a reachable expression the guarantee is unconditional |
| `TriggerScheduler.HeartbeatSpaced` | apps/scheduler/src/main.ts:306-480 | over every run heartbeat rows are at least one interval, of at least a second, apart, in order of creation |
| `TriggerScheduler.HeartbeatCall` | apps/scheduler/src/main.ts:306-480 | one call, from the settings: nothing before the slot is due; then a row unless there is one, it cannot be inserted or is taken back; and the slot moves on, to that instant, exactly if the row counts and the update succeeds |
| `TriggerScheduler.CronCall` | apps/scheduler/src/main.ts:306-480 | the same for cron, where the slot moves to the next firing minute, or five minutes on where there is none |
| `TriggerScheduler.StartedStays` | packages/db/src/repositories.ts:1800-1818 | in every run, a run row that a worker has started is never taken back |
| `TriggerScheduler.ProcessDueIsRun` | apps/scheduler/src/main.ts:306-480 | every call is a sequence of protocol steps |
| `TriggerScheduler.Scheduler.ProcessDueSubscription` | apps/scheduler/src/main.ts:306-480 | the method makes exactly these steps |
| `TriggerScheduler.Scheduler.CreateAndEnqueue` | apps/scheduler/src/main.ts:385-451 | insert, duplicate, enqueue and compensating delete, as protocol steps |
| `TriggerScheduler.Scheduler.AdvanceSchedule` | apps/scheduler/src/main.ts:453-480 | the new slot, with the five-minute fallback |
| `WorkflowGraph.IsDag` | packages/workflow/src/index.ts:382-417 | Kahn's algorithm says yes if and only if the graph has a ranking |
| `WorkflowGraph.AcyclicIff` | packages/workflow/src/index.ts:382-417 | having a ranking is the same as having no cyclic walk |
| `WorkflowGraph.RelaxEdges` | packages/workflow/src/index.ts:399-410 | in-degrees count the edges from unvisited nodes and the queue holds those of degree zero, once each |
| `WorkflowGraph.TrappedIsCyclic` | packages/workflow/src/index.ts:382-417 | a set in which every node has a predecessor rules out any ranking |
| `WorkflowGraph.RankedWalk` | packages/workflow/src/index.ts:382-417 | with a ranking no walk returns to its start |
| `WorkflowGraph.CheckEdges` | packages/workflow/src/index.ts:341-361 | accepts if and only if edge ids are distinct and end points exist |
| `WorkflowGraph.CheckConditions` | packages/workflow/src/index.ts:363-380 | accepts if and only if each condition has exactly one true and one false edge |
| `WorkflowGraph.ValidateStructure` | packages/workflow/src/index.ts:324-417 | names each issue exactly when it is the first that applies |
| `ParallelRegions.Search` | packages/workflow/src/index.ts:423-457 | finds exactly the nodes joined by a path of at least one edge |
| `ParallelRegions.CheckFork` | packages/workflow/src/index.ts:466-487 | finds a remote node if and only if one lies on a branch of the fork that leads to the join |
| `ParallelRegions.CheckJoin` | packages/workflow/src/index.ts:459-488 | the same over all forks of a join |
| `ParallelRegions.CheckParallel` | packages/workflow/src/index.ts:419-488 | the same over all joins |
| `ParallelRegions.ValidateV3GraphConstraints` | packages/workflow/src/index.ts:324-491 | accepts if and only if the graph is structured and has no remote node in a parallel region |
| `GraphExecutor.StepsWellFormed` | apps/worker/src/main.ts:1025-1232 | every node at most once, after all its predecessors with satisfied edges, joins with all edges satisfied |
| `GraphExecutor.ReadyIffEnabled` | apps/worker/src/main.ts:1004-1036 | on recorded steps the readiness test is "all incoming edges satisfied", independent of the run |
| `GraphExecutor.StopsAtLeast` | apps/worker/src/main.ts:1107-1111 | when nothing is ready the executed set is the least closed set |
| `GraphExecutor.Confluence` | apps/worker/src/main.ts:1107-1232 | any two stopped runs recorded the same nodes with the same outputs |
| `GraphExecutor.FailureIsUnavoidable` | apps/worker/src/main.ts:1107-1232 | if a node fails in one order, no order completes |
| `GraphExecutor.NotReachedNever` | apps/worker/src/main.ts:1085-1100 | a node skipped at the end always has a blocker |
| `GraphExecutor.BranchTaken` | apps/worker/src/main.ts:976-1036 | when nothing is ready, the node behind a single conditional edge has been executed if and only if the edge is that of the boolean its source recorded |
| `GraphExecutor.StopFollowsBranches` | apps/worker/src/main.ts:976-1111 | from the recorded steps alone: a node has been executed if and only if every edge into it leads on from an executed node |
| `GraphExecutor.SkippedBecause` | apps/worker/src/main.ts:1004-1100 | a skip names an edge as not met exactly if its source recorded the other boolean, as missing exactly if it recorded none, and as upstream exactly if it did not run |
| `GraphExecutor.RootCauseFrom` | apps/worker/src/main.ts:1004-1100 | from every skipped node a chain of blockers leads to a condition edge whose source ran |
| `GraphExecutor.EveryChainReachesRoot` | apps/worker/src/main.ts:1004-1100 | every chain of blockers, whichever were followed, extends to such an edge |
| `GraphExecutor.RunGraphJob` | apps/worker/src/main.ts:1107-1232 | the loop terminates; what it leaves persisted is a possible run, its outcome says why it stopped, and a completed run followed the branches its results call for |
| `GraphExecutor.RunAttempt` | apps/worker/src/main.ts:515-1232 | over any number of jobs, blocks and crashes, completion means the least closed set along the recorded branches, with the outputs of any uninterrupted run, and failure means that every run fails |
| `LinearExecutor.RunLinearJob` | apps/worker/src/main.ts:1256-1271 | persisted steps are exactly the first `cursor` nodes, all succeeded; the outcome says what stopped the loop |
| `LinearExecutor.RunLinearAttempt` | apps/worker/src/main.ts:515-1271 | over any jobs, blocks and crashes, completion means all nodes in order |
| `LinearExecutor.UpgradeValidIff` | packages/workflow/src/index.ts:493-529 | the upgraded graph is structured if and only if ids and edge ids are distinct, there is a node and no condition |
| `LinearExecutor.EdgeIdsCanCollide` | packages/workflow/src/index.ts:522-522 | a family of lists whose upgrade is rejected, with all nodes distinct where two of the names differ and none has a hyphen |
| `LinearExecutor.UpgradePreservesRuns` | packages/workflow/src/index.ts:493-529 | the step lists of the upgraded graph are exactly the prefixes of the step list of the v2 run, for results that depend on the node alone |
| `LinearExecutor.PolicyKeptIff` | packages/workflow/src/index.ts:493-512 | the policy decides about a node as before under every list of rules if and only if it is not of the renamed type |
| `LinearExecutor.RenamedNeedsApproval` | packages/workflow/src/index.ts:496-509 | a node of the renamed type that no rule mentions ran freely before and needs an approval after |
| `LinearExecutor.UpgradeStopsAtEnd` | packages/workflow/src/index.ts:493-529 | and they stop exactly at the end of the list |
| `Policy.FirstMatchDecides` | apps/worker/src/main.ts:238-279 | the first matching rule decides whatever the others say, the default only if none matches |
| `Policy.SafeByDefault` | apps/worker/src/main.ts:163-279 | without a matching rule, denied exactly for network access, and no shell or write without approval |
| `Policy.ExcludedIsRemovable` | apps/worker/src/main.ts:172-236 | a disabled rule, or one whose scope names another type, task type, network mode or only other action prefixes than the node has, can be taken out anywhere in the list without changing the decision |
| `Policy.ApplicableDecides` | apps/worker/src/main.ts:195-251 | an enabled rule whose restrictions the node meets decides when every rule before it is such a one |
| `Policy.EffectIs` | apps/worker/src/main.ts:172-279 | the effect, from the rules and the node's type and settings: that of the first rule that applies, or of the written-out default |
| `Policy.LikelyWriteIff` | apps/worker/src/main.ts:163-170 | the regular expression holds if and only if some segment between separators is a write verb in lower case |
| `RunTable.RunRow.Start` | packages/db/src/repositories.ts:1443-1491 | the new row; keeps the row in order if and only if the run is not finished and the attempt within its limit |
| `RunTable.RunRow.Progress` | packages/db/src/repositories.ts:1819-1844 | the cursor and the steps are saved, the rest stays; in order if and only if it was before |
| `RunTable.RunRow.Block` | packages/db/src/repositories.ts:1493-1529 | the six block fields and the steps, for either kind; keeps the row in order if and only if the run is running |
| `RunTable.RunRow.Clear` | packages/db/src/repositories.ts:1566-1597 | clears all six fields, and replaces the output if there is one, exactly if the expected request blocks the run |
| `RunTable.RunRow.Retry` | packages/db/src/repositories.ts:1880-1914 | the new row, with its next attempt and without its end; in order if and only if an attempt is left |
| `RunTable.RunRow.Succeed` | packages/db/src/repositories.ts:1916-1938 | the new row; keeps it in order if and only if the run is not blocked |
| `RunTable.RunRow.Fail` | packages/db/src/repositories.ts:1940-1967 | the new row; always keeps it in order |
| `RunEngine.RunStore.ApproveRequest` | apps/api/src/server.ts:6930-7031 | the handler makes exactly the protocol's steps; each answer exactly when it is due, with its effect: only a pending request is decided, expired or approved; the blocked run is cleared with its steps and enqueued, or failed if it cannot be |
| `RunEngine.RunStore.RejectRequest` | apps/api/src/server.ts:7056-7115 | the handler makes exactly the protocol's steps; only a pending request is rejected, and the run fails exactly if it is blocked on it |
| `RunEngine.RunStore.ProcessJob` | apps/worker/src/main.ts:483-1363 | a job for a v3 workflow makes exactly the protocol's steps that its branches call for, whatever the environment answers |
| `RunEngine.RunStore.StartOrResume` | apps/worker/src/main.ts:512-617 | a queued run starts its next attempt from nothing, a running one goes on from its persisted steps |
| `RunEngine.RunStore.RunBody` | apps/worker/src/main.ts:619-1340 | a graph that validation rejects fails the attempt, any other is executed |
| `RunEngine.RunStore.RunLoop` | apps/worker/src/main.ts:1107-1232 | ready node after ready node until none is left, one blocks or one throws, as protocol steps |
| `RunEngine.RunStore.ExecuteNode` | apps/worker/src/main.ts:648-960 | built-in nodes in place, task nodes by the policy's decision: execution, denial with its event and no execution, or approval |
| `RunEngine.RunStore.CheckApproval` | apps/worker/src/main.ts:662-739 | an approved, unexpired request for the node lets it run under that request; without one nothing is executed and a new one is asked for |
| `RunEngine.RunStore.AskApproval` | apps/worker/src/main.ts:673-738 | the request, pending for at least a minute, its event and the block with the steps so far, in this order |
| `RunEngine.RunStore.ExecuteTask` | apps/worker/src/main.ts:758-957 | one executor call; its result is recorded as a step, its failure thrown, its call dispatched |
| `RunEngine.RunStore.Dispatch` | apps/worker/src/main.ts:826-921 | the event of the dispatch, the block, and the poll, in this order |
| `RunEngine.RunStore.FinishRun` | apps/worker/src/main.ts:1272-1297 | the success with all steps, and the `catch` block if its event cannot be appended |
| `RunEngine.RunStore.CatchBlock` | apps/worker/src/main.ts:1296-1361 | a retry unless the attempt was the last or the failure is a denial |
| `RunEngine.ReadyInIs` | apps/worker/src/main.ts:1025-1111 | the loop's list of ready nodes holds only ready ones, and is empty if and only if nothing is ready |
| `RunJobs.UndisturbedJob` | apps/worker/src/main.ts:483-1297 | where every task is allowed or approved, every node completes and no statement fails, one job takes a queued or resumed run to its success: the least closed set along the recorded branches, every task not saved before called exactly once, in order |
| `RunCheckpoints.CheckpointHolds` | apps/worker/src/main.ts:633-646 | in every run: while the worker has steps the row holds exactly these, and after a block for approval or remote call those it blocked with |
| `RunCheckpoints.NothingIsLost` | packages/db/src/repositories.ts:1819-1844 | in every run and within an attempt, what is saved only grows |
| `RunCheckpoints.ResumesWhereItWas` | apps/worker/src/main.ts:512-617 | whoever resumes the run within the attempt, after a crash, an approval or a remote result, has exactly the steps of the last worker |
| `RunCheckpoints.NotExecutedAgain` | apps/worker/src/main.ts:1107-1232 | within an attempt no node is executed or run in place again once its step is saved |
| `RunCheckpoints.RemoteResultResumes` | apps/worker/src/continuations/worker.ts:121-436 | in every run: a remote result for the block lets the next job go on with the saved steps in the same attempt |
| `RunCheckpoints.RemoteFailureIs` | apps/worker/src/continuations/worker.ts:121-436 | a remote failure fails the last attempt and queues any other one again, after its delay |
| `RunCompletion.StepKeeps` | apps/worker/src/main.ts:1107-1363 | every step, late or not, keeps this: the recorded steps are a possible execution, each task node among them executed; a succeeded run has nothing ready, and nobody is working on its nodes |
| `RunCompletion.SucceededIsComplete` | apps/worker/src/main.ts:1107-1280 | in every run, calm or not: a succeeded run holds exactly the least closed set along the recorded branches, with the steps of every uninterrupted execution that stops |
| `RunCompletion.SucceededWasPermitted` | apps/worker/src/main.ts:656-807 | every task node in a succeeded run was executed with the policy's permission |
| `RunCompletion.FailingNeverSucceeds` | apps/worker/src/main.ts:1107-1363 | if some execution of the graph gets to a node that fails, no run of the workflow ever succeeds |
| `RunSafety.PolicySafety` | apps/worker/src/main.ts:656-807 | in every run every executor call was of a task, and the first rule that applies to its type and settings, or the default, allowed it, or required an approval that was there, for that node and unexpired at the check |
| `RunSafety.DecisionNeverChanges` | packages/db/src/repositories.ts:1199-1227 | in every run a decided request keeps its decision, node and expiry |
| `RunSafety.ApprovalRace` | apps/api/src/server.ts:6936-7100 | in every run: cleared and enqueued only if approved, failed as rejected only if rejected, never both |
| `RunCalm.StepKeeps` | apps/worker/src/main.ts:483-1363 | every step of worker, handlers and continuations keeps the ownership invariant, if the two late writes come in time |
| `RunCalm.RunKeeps` | apps/worker/src/main.ts:483-1363 | so it holds after every calm run, in any interleaving |
| `RunResults.LifecycleHolds` | packages/db/src/repositories.ts:1443-1967 | in calm runs: attempts within their limit, queued only with one left, block fields together and only while running, an end exactly if finished |
| `RunResults.LifecycleBreaksIff` | apps/worker/src/continuations/worker.ts:331-436 | after a calm run one step breaks this if and only if it is a retry written for an earlier attempt after the last one has begun |
| `RunResults.FinishedChangesIff` | apps/worker/src/main.ts:1273-1340 | after a calm run one step changes a finished status if and only if it is a continuation's failure with another target, a compensation after a success, or the worker's `catch` block after a success |
| `RunResults.FinishedStaysIff` | apps/worker/src/main.ts:1273-1340 | in a calm run a finished status stays to the end if and only if the `catch` block never runs after a success |
| `RunResults.FinishedStays` | apps/worker/src/main.ts:1273-1340 | in a calm run in which every success gets its event, a finished status stays to the end |
| `RunResults.DeniedWaits` | apps/worker/src/main.ts:742-756 | in a calm run, from a denied node to the worker's next write or death: no execution, same row, same job, and a failure that counts as a denial exactly if its event was appended |
| `RunResults.DeniedFailsIff` | apps/worker/src/main.ts:742-1340 | the denied run fails if and only if the event was appended or it was the last attempt, and is queued again otherwise |
| `RunResults.WakesIff` | apps/api/src/server.ts:6960-7100 | in a calm run whose handler goes on to its end: an approval wakes the run, a rejection fails it, if and only if the run was blocked on the request when the handler looked |
| `RunResults.LostForever` | packages/db/src/repositories.ts:1229-1249 | if it was not, the worker's block for that request leaves the run stuck at the end of every calm run |
| `RunResults.StuckForever` | apps/api/src/server.ts:6936-7031 | a run stuck on a decided request stays stuck to the end of every calm run |
| `RunResults.StuckEndsIff` | apps/worker/src/continuations/worker.ts:331-436 | a step leads out of it if and only if it is one of the two late writes |
| `RunFindings.UnrecordedSuccessIsUndone` | apps/worker/src/main.ts:1273-1340 | for every allowed node that completes and every limit on attempts, a run of worker steps alone that succeeds and ends up failed or queued |
| `RunFindings.LateCompensationUndoesSuccess` | apps/api/src/server.ts:6993-7010 | for every node that needs approval, a run that succeeds and is failed by its approve handler |
| `RunFindings.StaleFailureUndoesSuccess` | apps/worker/src/continuations/worker.ts:121-298 | for every allowed node, a run that succeeds and is failed or queued by a continuation |
| `RunFindings.StaleFailureAddsAttempt` | apps/worker/src/continuations/worker.ts:331-436 | for every allowed node, a run with two attempts allowed that is in its third |
| `RunFindings.DenialIsRetried` | apps/worker/src/main.ts:742-756 | for every denied node and more than one attempt, a run that is queued again without anything executed |
| `RunFindings.ApprovalCanBeLost` | apps/worker/src/main.ts:676-727 | for every node that needs approval, a run that ends stuck with the request approved |
| `AgentLoop.TrimAgentState` | packages/agent-runtime/src/agent-loop.ts:239-287 | the shifting loop computes the trimming function |
| `AgentLoop.TrimFromDrops` | packages/agent-runtime/src/agent-loop.ts:239-287 | how far trimming goes for any state, the round limit and serialisation errors included |
| `AgentLoop.TrimIsOptimal` | packages/agent-runtime/src/agent-loop.ts:239-287 | below 10,000 serialisable entries: the longest suffix that fits or nothing, with exactly the results whose call still has an entry or is pending, counters and pending call unchanged |
| `AgentLoop.TrimValid` | packages/agent-runtime/src/agent-loop.ts:239-287 | trimming keeps index and history in agreement |
| `AgentLoop.AllocateInv` | packages/agent-runtime/src/agent-loop.ts:735-758 | a new call index is in no stored result, so the lookup misses |
| `AgentLoop.MakeCallInv` | packages/agent-runtime/src/agent-loop.ts:735-862 | a call keeps the invariant; a finished tool's result is found under the new call, a blocked one is pending and dispatched under it |
| `AgentLoop.IterateInv` | packages/agent-runtime/src/agent-loop.ts:578-862 | every turn keeps the invariant, and one that goes on used up a turn |
| `AgentLoop.ResumedInv` | packages/agent-runtime/src/agent-loop.ts:498-554 | a remote result goes under exactly the pending call, which had none, and is found there afterwards unless trimming drops everything |
| `AgentLoop.AttemptInv` | packages/agent-runtime/src/agent-loop.ts:378-862 | the invariant holds over any number of invocations of an attempt |
| `AgentLoop.BoundedWork` | packages/agent-runtime/src/agent-loop.ts:378-862 | LLM requests and tool calls within their limits, calls numbered 1, 2, ..., dispatch ids distinct, index equal to history |
| `AgentLoop.BoundedDespiteCrashes` | packages/agent-runtime/src/agent-loop.ts:378-884 | with crashes at any points: each costs at most one more LLM request and one more tool call, dispatch ids never repeat, the persisted index agrees with the persisted history |
| `AgentLoop.SameEffect` | packages/agent-runtime/src/agent-loop.ts:578-862 | a turn depends on the persisted state alone, not on what has been caused before |
| `AgentLoop.NoCrashes` | packages/agent-runtime/src/agent-loop.ts:378-862 | without crashes an attempt is the one that only blocks cut |
| `AgentCalls.AllowedDespiteCrashes` | packages/agent-runtime/src/agent-loop.ts:716-862 | with crashes at any points: every index handed out is that of a call some answer asked for in these words, of an allowed tool with an id that is not blank and an object for input; no shell is run unless enabled, nothing is sent unless allowed; the history and the pending call name only such calls |
| `AgentCalls.AllowedCalls` | packages/agent-runtime/src/agent-loop.ts:716-862 | the same for attempts that only blocks cut |
| `AgentEnds.LastAnswerDecides` | packages/agent-runtime/src/agent-loop.ts:578-862 | an attempt is done exactly if its last answer is a valid final one, in time and with credits; a refused answer hands out no index and is named in the error, a call that may not be run fails with its index handed out |
| `AgentEnds.AttemptIs` | packages/agent-runtime/src/agent-loop.ts:378-862 | all answers but the last were calls, numbered 1, 2, ..., that ran; the last one, the clock, the turn limit, missing credentials or an unexpected remote result ended the attempt |
| `AgentEnds.DoneIff` | packages/agent-runtime/src/agent-loop.ts:378-862 | from the answers of the environment: an invocation is done if and only if it is authorised, brings no unexpected remote result, and calls that go on lead to a valid final answer within time, turns, calls and credits |
| `AgentEnds.InvokeIs` | packages/agent-runtime/src/agent-loop.ts:498-862 | the turns of an invocation are answered one after the other by its environment, all but the last of them calls that went on |
| `AgentEnds.AttemptFits` | packages/agent-runtime/src/agent-loop.ts:469-495 | with persistence, serialisable states and fewer than 5,000 calls: whatever an attempt leaves behind, unless it is done, fits the budget or has no history |
| `AgentEnds.TurnTable` | packages/agent-runtime/src/agent-loop.ts:578-862 | one turn, from its answer and the limits: refused, with which words, called, with what outcome, or final |
| `AgentLoop.AgentRun.PersistState` | packages/agent-runtime/src/agent-loop.ts:469-495 | the state after persisting is the trimmed one |
| `AgentLoop.AgentRun.Resume` | packages/agent-runtime/src/agent-loop.ts:498-554 | the resumption block, with its error when nothing is pending |
| `AgentLoop.AgentRun.CallTool` | packages/agent-runtime/src/agent-loop.ts:735-862 | a tool call refines the call function |
| `AgentLoop.AgentRun.TakeTurn` | packages/agent-runtime/src/agent-loop.ts:578-862 | one iteration refines the iteration function, whose table is `AgentEnds.TurnTable` |
| `AgentLoop.AgentRun.RunAgentLoop` | packages/agent-runtime/src/agent-loop.ts:378-862 | the whole invocation terminates and refines the invocation function |
| `Workspace.NoLostUpdate` | packages/db/src/repositories.ts:2241-2270 | under any interleaving the successful commits expected version, version + 1, ..., and the last one is on record |
| `Workspace.StaleNeverCommits` | packages/db/src/repositories.ts:2241-2270 | an overtaken version can never be committed |
| `Workspace.LeaseExcludes` | packages/db/src/repositories.ts:2200-2239 | an unexpired lease keeps the row unchanged until release or commit |
| `Workspace.LeaseLastsIff` | packages/db/src/repositories.ts:2200-2217 | a lease is for the seconds asked for, at least one: while time goes by another client gets it if and only if more have passed |
| `Workspace.CommitIgnoresLease` | packages/db/src/repositories.ts:2241-2270 | a commit without the lease succeeds and clears it, and the holder's commit of that version is then refused |
| `Workspace.CommitSucceedsIff` | apps/gateway/src/brain/runtime.ts:553-673 | a client that read the version before any interleaving of the others commits it if and only if no other commit took effect in between |
| `Workspace.UseWorkspace` | apps/gateway/src/brain/runtime.ts:551-688 | undisturbed, one use leaves no lease behind whatever the executor answers, commits exactly one version for an uploaded workspace and never conflicts |
| `Workspace.ExecutionWorkspace.TryLockWorkspace` | packages/db/src/repositories.ts:2200-2217 | granted exactly when free, until the seconds asked for, at least one, have passed |
| `Workspace.ExecutionWorkspace.ReleaseLock` | packages/db/src/repositories.ts:2219-2239 | released exactly for the holder's token; otherwise nothing changes |
| `Workspace.ExecutionWorkspace.CommitVersion` | packages/db/src/repositories.ts:2241-2270 | committed exactly for the current version, with key, etag and no lease; otherwise nothing changes |
| `SessionEvents.NumbersHaveNoGap` | packages/db/src/repositories.ts:3107-3182 | for any interleaving of append transactions, numbers are 0..n-1 and keys are unique |
| `SessionEvents.LogOnlyGrows` | packages/db/src/repositories.ts:3107-3182 | committed events stay where they are |
| `SessionEvents.NoSessionNoEvents` | packages/db/src/repositories.ts:3107-3182 | a session that does not exist gets no events: every append that ends is rejected |
| `SessionEvents.EventsWereAsked` | packages/db/src/repositories.ts:3107-3182 | in any interleaving every event on record has the key and payload some append was begun with, and every append answered with an event is answered with one on record |
| `SessionEvents.AloneIsAppend` | packages/db/src/repositories.ts:3107-3182 | the steps of a transaction that nobody disturbs amount to the append function |
| `SessionEvents.AppendTwice` | packages/db/src/repositories.ts:3107-3182 | a second append with a key returns the first event, is refused, or adds one: exactly when the key is not blank, blank, or missing |
| `SessionEvents.PagesCoverLog` | packages/db/src/repositories.ts:3184-3211 | following the cursor while the log grows yields every event once, in order, a full page per request (between 1 and 500, as asked for) while there is more, and ends only with everything |
| `SessionEvents.PagesOfFixedLog` | packages/db/src/repositories.ts:3184-3211 | on a log that stands still the pages are the log and the cursor is null if and only if there were enough requests for all full pages |
| `SessionEvents.PageAt` | packages/db/src/repositories.ts:3184-3211 | the page after the first events: the next ones, up to its size, and a cursor exactly if there are more |
| `SessionEvents.TailIsLast` | packages/db/src/repositories.ts:3213-3226 | the tail query is the last events of the log, up to the same size, oldest first |
| `SessionEvents.EventLog.AppendEvent` | packages/db/src/repositories.ts:3107-3182 | an append that runs alone: the new event with its key and payload at the end, the recorded one with that key, or a refusal that changes nothing |
| `SessionManager.RunKeeps` | apps/node-agent/src/runtime.ts:834-945 | the invariant over any interleaving of open, start, finish and cancel |
| `SessionManager.TurnsAreSerial` | apps/node-agent/src/runtime.ts:858-933 | one turn at a time, at most as many user messages as turns allowed, at least one, history is the prefix and then user messages each with its own reply |
| `SessionManager.StartsIff` | apps/node-agent/src/runtime.ts:858-900 | in every run: a turn is refused exactly if the session is not open, a turn of it is in flight or its turns are used up; otherwise it is started in its own context alone |
| `SessionManager.ReplyGoesToItsTurn` | apps/node-agent/src/runtime.ts:858-933 | a reply is recorded for the turn that finished and for nothing else, an engine failure for none, and the turn is no longer in flight |
| `SessionManager.CancelAbortsOnlyItsTurn` | apps/node-agent/src/runtime.ts:935-945 | exactly the turn in flight under that session and request id is aborted, if there is one, and nothing else changes |
| `SessionManager.SessionRuntimeManager.OpenSession` | apps/node-agent/src/runtime.ts:834-856 | a new context with the system message, if there is one, before the instructions; keeps the invariant |
| `SessionManager.SessionRuntimeManager.BeginTurn` | apps/node-agent/src/runtime.ts:858-900 | refusals and the started turn; keeps the invariant |
| `SessionManager.SessionRuntimeManager.EndTurn` | apps/node-agent/src/runtime.ts:900-933 | the finished turn; keeps the invariant |
| `SessionManager.SessionRuntimeManager.CancelTurn` | apps/node-agent/src/runtime.ts:935-945 | aborts the active turn exactly for its request id |
| `Routing.SelectsLeast` | packages/agent-runtime/src/session-routing.ts:118-136 | the choice is the least candidate by dimension, priority and id, and there is one unless nothing matches |
| `Routing.SelectIgnoresOrder` | packages/agent-runtime/src/session-routing.ts:118-136 | it does not depend on the order of the binding list |
| `Routing.RoutingIgnoresOrder` | packages/agent-runtime/src/session-routing.ts:118-154 | neither does the resolved agent, key or binding |
| `Routing.RoutedBy` | packages/agent-runtime/src/session-routing.ts:73-154 | from the bindings and the context: the agent of the suiting binding of the nearest dimension, then the highest priority, then the smallest id; the default agent exactly if none suits; and the key of that agent |
| `Routing.PartIs` | packages/agent-runtime/src/session-routing.ts:20-30 | a part of a key: the fallback for white space, otherwise the lower case of what is between it, collapsed |
| `Routing.CollapseRuns` | packages/agent-runtime/src/session-routing.ts:20-22 | every run of other characters becomes one hyphen, and nothing else changes |
| `Routing.NormalPartIsFixed` | packages/agent-runtime/src/session-routing.ts:20-30 | a part that is already normal stays as it is |
| `Routing.KeysEqualIff` | packages/agent-runtime/src/session-routing.ts:43-71 | two keys are equal if and only if scope, agent, organisation and every part the scope looks at are equal |

## Left out

- Delivery and liveness beyond `RunJobs.UndisturbedJob`: a row that exists may never be enqueued after a crash, an expired approval leaves its run blocked,
  and nothing sweeps either; what is proved is safety, and where a wake-up is lost.
- `RunResults.LifecycleHolds`: for calm runs; the exact condition is given for the first step that breaks it
  (`LifecycleBreaksIff`), not as a condition on the whole run.
- `RunResults.FinishedChangesIff`: after a calm run; once a late write has hit a run that somebody else is working on, the
  worker's own writes can overwrite each other's statuses too.
- What a continuation writes into the runtime part of the output (the pending remote result), and its failure for a node
  missing from the definition: a continuation here keeps the steps and clears the block, or fails or retries the attempt.
- Whether the queue takes a job under an id that it still retains from an earlier one; a job can get lost at any time here.
- Two schedulers at once: one can advance on a duplicate key while the other deletes the row after a queue failure.
- Two worker jobs of one run at once, and redelivery of a job that has already written its block.
- `LinearExecutor.UpgradePreservesRuns`: for results that depend on the node alone, and for lists of task nodes; a condition
  never upgrades validly, and a join in a list is handled by different code in the two executors.
- Condition expressions, templates and node outputs beyond the boolean `result`: results are a fixed function of the node.
- The rebuilding of the prompt messages from the agent's history.
- The run protocol and the job are those of v3 workflows; the loop over a v2 list is modelled by itself (`LinearExecutor`).
- What an executor does while it runs (its own events and checkpoints of the runtime); its failure stands for any of them.
- Dates outside the range of the JavaScript `Date`, and numbers beyond exact integers.
- The second routing implementation in apps/api/src/server.ts, whose matching rules and key format differ, and
  `getRoutingDebugKey`.
- Run quotas, timestamp-keyed paging of runs and run events, and claiming by polling (`claimNextQueuedWorkflowRun`).
- Tokens, secrets, OAuth, LLM and HTTP clients, process spawning, WebSocket and Fastify plumbing, schemas, the channel
  catalogue, the web application and JSON text: input/output, tables or foreign code.
