# Verified models of the workflow, job and reliability components

This project models the stateful cores of three components of the repository and proves what they promise over
every run.

**Refund workflow** (`multi-agent-orchestration/app`). `RefundRows` and `RefundSteps` give each database transaction
as a function on the tables; `RefundService` is the same code as class methods with row updates and loops, each
proved equal to its function. `RefundProtocol` interleaves the transactions with the broker, workers, an independent
provider and reconcilers: POSTs are delayed, dropped, refused or settled with the reply lost; events are repeated,
reordered or never delivered; leases expire at any time; workers stop anywhere; the clock only moves forward.
`transition` in the source checks nothing, so safety is a global invariant (`RefundInvariant`, `RefundProtocol.Inv`),
kept by every step (`RefundProtocolProof`) and read off in `RefundTheorems`, `RefundDiscipline`, `RefundDelivery` and
`RefundReordering` (with `RefundFresh` and `RefundPatches`); `RefundWitness` runs a request through to its payment.
What each transaction answers and leaves, row by row and without the functions of `RefundSteps`, is stated in
`RefundRequests` (requests and the refund policy), `RefundApproval` (decisions, deadlines, deliveries),
`RefundEffects` (claims, reports, leases, reconciliation, whole executions) and `RefundRounds` (scheduler and recovery
rounds). `RefundEvidence` links the money to the evidence team. `LockOrder` lists the locks every transaction takes
and shows that no wait cycle is reachable.

**Evidence team** (the same component). `TeamRules` and `TeamRun` model a coordinator that may crash at any point of
a case and be restarted any number of times; `TeamService` is its code.

**Durable jobs** (`async-execution/app`). `JobRules` is the status graph and the store's updates, `JobProtocol` one
job under any number of workers, repeated deliveries and cancels, `JobService` the tables, idempotent creation and an
uninterrupted worker run, `JobEffects` the edges, cancels, log entries and delays. `Outbox` and `OutboxService` model
claims with tokens and timeouts.

**Reliability primitives**. `Retry`, `Breaker`, `FixedWindow`, `Gateway` and `GatewayEffects`, which tells the gateway by
the adapters' outcomes and the call counts (`Reliable-Tool-Calling/reliability.py`),
`SlidingWindow` (`aws-agent-deployment-demo/app/rate_limit.py`). Times are reals.

## How the models read the source

- Every transaction is one atomic step. `execute_one` is claim, POST, arrival, report; `reconcile` is read, lookup,
  apply; `publish_one` is send, mark; `Worker.process` is one step per read or transaction.
- Digests and fingerprints are taken to be injective, so the model compares what was digested. Fresh identifiers are
  positions in a table, or parameters required to be unused.
- A transaction uses one clock reading. The time of a decision is the reading compared with the deadline.
- The rows that reference a workflow are grouped under it. Orders keep their row, workflows the time they were created. Orders and team cases
  are keyed by their uuid, taken to be unique across tenants; their rows carry the tenant, and it is checked.
- In `RefundProtocol` a team case appears at any time, collecting, on facts that ask for its own amount
  (`multi-agent-orchestration/app/team.py:28-35`), and is settled once, with what a `TeamRun` run on those facts ended
  with; its facts, order and amount never change (`multi-agent-orchestration/sql/003_agent_team.sql:38-50`). The provider
  has its own lab setting.
- Request bodies have a positive amount, as the API's schema demands. The tokens, clock readings, pipeline answers,
  specialist answers and adapter outcomes are parameters.
- Pipeline steps have distinct names and a job is created with at least one attempt, as the service demands. The retry
  policy of a worker is a parameter.
- A history of the sliding window is in lock order, and only the readings of one client are ever compared. The objects
  of `Reliable-Tool-Calling/reliability.py` take no lock and are used from one thread, with a clock that does not go back.
- One coordinator at a time works on a team case: the session lock of `run_case` sees to that.

## Where the code does something else than its description

- Outbox claims inside one timeout are not always disjoint: a release frees the row at once
  (`OutboxProtocol.ReleaseFreesAtOnce`). The exact rule is `OutboxProtocol.ClaimsAreSeparated`: a second claim comes
  more than the timeout after the first, or the first claimant released in between.
- A resumed job can succeed with a result that misses steps recorded by an earlier attempt
  (`JobProtocol.ResumedResultIsPartial`). It covers every step exactly when the last attempt began at checkpoint 0
  (`JobProtocol.ResultCoversLastAttempt`).
- The sliding-window limiter reads the clock before it takes its lock, and its caller runs on a thread pool
  (`aws-agent-deployment-demo/app/main.py:68-74`), so requests of one client can be counted against the order of
  their readings. Then more than `limit` requests can fall into one window (`SlidingWindow.OutOfOrderExceeds`).
  The limit holds for every arrival whose readings go back by at most `d` exactly up to the length `window - d`
  (`SlidingWindow.BoundIsExact`), so of the window itself exactly when they never go back
  (`SlidingWindow.WindowNeedsOrder`); a limit of one is kept in any order.
- The fixed-window limiter does not keep `limit` per interval of the window's length. The exact bound is
  `2 * limit - 1` (`FixedWindow.IntervalBound`), and it is reached (`FixedWindow.IntervalBoundReached`), so `limit` is
  kept by every such interval exactly when it is at most one (`FixedWindow.LimitKeptIff`).

## Model

| member | source | states |
|---|---|---|
| RefundTheorems.ExactlyOnceMoney | multi-agent-orchestration/app/core.py:42-60 | in every reachable state an order has at most one ledger row, under the workflow's own key, for the workflow's amount, at most the order's |
| RefundTheorems.OneReceipt | multi-agent-orchestration/app/erp.py:39-59 | all settled POSTs of a workflow, in whatever attempts, carry the one receipt on the ledger |
| RefundTheorems.AuthorityBehindRefund | multi-agent-orchestration/app/exercises.py:16-48 | a ledger row implies exactly one decision: an approval before the deadline, by someone other than the requester, in the task's role, which reaches the amount's tier |
| RefundEvidence.EvidenceBehindRefund | multi-agent-orchestration/app/core.py:32-66 | where team cases are required, a ledger row implies a team case of the same requester, order and amount that was READY on three CLEAR answers, whose own facts pass all three checks and leave the amount unrefunded; it is still in the table as it was, submitted for this workflow |
| RefundRequests.PolicyBehindRefund | multi-agent-orchestration/app/core.py:53-69 | a ledger row implies a standard order, delivered at most 45 days before and not after the creation of its workflow |
| RefundTheorems.CompletedMeansPaid | multi-agent-orchestration/app/core.py:122-138 | COMPLETED implies a succeeded attempt carrying the receipt on the ledger |
| RefundTheorems.UnpaidForever | multi-agent-orchestration/app/core.py:215-222 | REJECTED or CLOSED stays so in every further run, with no ledger row; every POST of the case was rejected |
| RefundTheorems.PaidForever | multi-agent-orchestration/app/core.py:177-207 | a ledger row keeps its receipt in every further run, and its case ends nowhere but in COMPLETED |
| RefundTheorems.RunLasts | multi-agent-orchestration/app/db.py:96-98 | final states are absorbing, and identities, decisions, inbox rows and receipts stay, through every further run, although the transition itself checks nothing |
| RefundEffects.ReconcileEnds | multi-agent-orchestration/app/core.py:177-207 | one reconciliation with the provider up: a case with a ledger row completes with its receipt unless the row's status is unavailable, which brings review; without a row another attempt is due in 2 s if the last of fewer than three is unknown, else review |
| RefundEffects.ExecuteEnds | multi-agent-orchestration/app/core.py:143-163 | claim, POST, arrival and report of a due attempt: paid once under the case's key and completed, or RETRY_WAIT with a second attempt due in 2 s for a transient fault, or MANUAL_REVIEW for a permanent one |
| RefundEffects.StatusesAreHeard | multi-agent-orchestration/app/core.py:146-162 | in every reachable state an attempt is RETRY only if its POST was answered busy, FAILED only if it was rejected, SUCCEEDED only with the receipt on the ledger |
| RefundEffects.AnswerMeans | multi-agent-orchestration/app/core.py:184-207 | an answer for the current version: found makes every unknown attempt succeeded with the receipt, completes and emits; absent adds one attempt due in 2 s or brings review; unavailable brings review; nothing else changes, and an answer for another version changes nothing |
| RefundEffects.ReportMeans | multi-agent-orchestration/app/core.py:122-163 | a standing claim: settled completes with the receipt; busy retries after 2^k s, and after the third attempt brings review; rejected fails into review; odd, lost or given up is unknown and reconciled; each emits its event and changes no other row |
| RefundEffects.ClaimMeans | multi-agent-orchestration/app/core.py:107-120 | the last attempt is claimed iff it is due, under the next fence, a new lease and the POST of its own rows |
| RefundEffects.LeaseMeans | multi-agent-orchestration/app/core.py:165-175 | an expired lease makes the attempt unknown, raises its fence and reconciles the case; a live one stays |
| RefundEffects.CloseMeans | multi-agent-orchestration/app/core.py:215-222 | closed iff under review with failed attempts only; nothing else changes |
| RefundEffects.PayMeans | multi-agent-orchestration/app/erp.py:39-59 | the answer to a POST: injected faults first, then the row of its key or a 409 for another refund, then a new row |
| RefundRounds.TickPassesOn | multi-agent-orchestration/app/core.py:81-89 | a scheduler round passes on the task of every timer it read and changes no other case |
| RefundRounds.RecoveryGivesUp | multi-agent-orchestration/app/core.py:165-175 | a recovery round gives up every lease it read and changes no other case |
| RefundRequests.RequestAnswered | multi-agent-orchestration/app/core.py:18-52 | a request under a new key is served iff it passes the role, lab, team-case, order, ownership, uniqueness and amount checks, and gets the code of the first it fails |
| RefundRequests.RequestOpens | multi-agent-orchestration/app/core.py:53-69 | a served request leaves a row of its own data, RECEIVED with one submission event iff the order is standard and 0 to 45 days old, else REJECTED with none |
| RefundApproval.TasksClimb | multi-agent-orchestration/app/exercises.py:4-14 | the tasks of a case take the roles of its amount's ladder in order: three up to 750000, two up to 2500000, one above |
| RefundApproval.DecideMeans | multi-agent-orchestration/app/exercises.py:16-48 | a used command key gets the stored decision or a conflict; a new one 403 for requester or role, 409 for a task not pending, a passed deadline or stale versions, 422 for no choice or a blank reason, and otherwise exactly the rows of a decision |
| RefundApproval.OverdueMeans | multi-agent-orchestration/app/exercises.py:50-69 | an overdue pending task always passes to the next role with a new deadline, or with the last role expires into review; any other is left alone |
| RefundApproval.DeliveryMeans | multi-agent-orchestration/app/exercises.py:71-98 | the first delivery of an event opens the first task with its deadline, schedules the first attempt, or is only noted; a repeated one changes nothing |
| RefundApproval.RefusedDeliveries | multi-agent-orchestration/app/core.py:91-96 | 422 for an unknown schema, 404 for a case the tenant does not have, 409 for a known number with other content |
| RefundApproval.MarkMeans | multi-agent-orchestration/app/runtime.py:12-21 | marking sets the flag of one row, only after its event was sent |
| RefundWitness.SomethingIsPaid | multi-agent-orchestration/app/core.py:143-163 | with team cases required, a run from empty tables to a ledger row and a completed case |
| RefundDiscipline.AttemptDiscipline | multi-agent-orchestration/app/core.py:101-138 | at most three attempts under one key, at most one pending or running; EXECUTING iff one runs, RETRY_WAIT has a pending one, RECONCILING an unknown one, COMPLETED iff one succeeded |
| RefundDiscipline.StaleReportChangesNothing | multi-agent-orchestration/app/core.py:125-127 | once a lease expired, the claimant's report changes no row, whatever happened in between |
| RefundDiscipline.StoppedStaysStopped | multi-agent-orchestration/app/core.py:165-175 | an attempt that is no longer pending or running never is again |
| RefundDiscipline.ApprovalChain | multi-agent-orchestration/app/exercises.py:50-69 | tasks form a chain of at most three, from stage 1 in the tier's role with no predecessor, with consecutive stages and rising roles; WAITING_APPROVAL iff one is pending; each closed task was decided before its deadline or passed on at or after it, never both; timers follow their tasks |
| RefundDiscipline.SubmitIsIdempotent | multi-agent-orchestration/app/core.py:18-31 | a request under the key of a served one, after any further run and by anyone of the tenant: 403 for a role or lab controls that may not submit, unchanged for the same requester and body, else 409 |
| RefundDelivery.ApprovalNotLost | multi-agent-orchestration/app/exercises.py:86-97 | READY_TO_EXECUTE has its first attempt pending or an unconsumed approval event of the current version |
| RefundDelivery.DueApprovalSchedules | multi-agent-orchestration/app/exercises.py:86-97 | sending and delivering that event creates exactly the first attempt |
| RefundDelivery.LateDuplicate | multi-agent-orchestration/app/exercises.py:74-82 | a second delivery of an event does nothing, however much happened since the first |
| RefundDelivery.RepetitionStruckOut | multi-agent-orchestration/app/exercises.py:74-82 | a repeated delivery can be struck out of a run wherever it stands, and the whole run ends in the same state |
| RefundReordering.DeliveryMovedLater | multi-agent-orchestration/app/exercises.py:71-98 | a delivery moved past any steps that do not use what it creates gives the same run from there on: equal for an event that is only noted, equal but for the moment the first attempt became available for an approval, and equal for every event if no time passed |
| RefundReordering.SubmissionMovedLater | multi-agent-orchestration/app/exercises.py:4-14 | a submission moved past steps that do not use its first task, sends and marks of its own event included, leaves the same run afterwards but for a first deadline later by the time that passed, as long as nobody decides or expires that task between the two deadlines |
| RefundReordering.DeliveryMoves | multi-agent-orchestration/app/exercises.py:71-98 | moving any delivery past such steps is delivering it afterwards with the earlier clock reading |
| RefundFresh.FreshRun | multi-agent-orchestration/app/exercises.py:83-97 | in every run an unconsumed submission or approval finds its case as it left it, and a case is approved once |
| RefundDelivery.HandledCommute | multi-agent-orchestration/app/core.py:91-96 | deliveries of any two sent events commute |
| RefundDelivery.EffectivelyOnce | multi-agent-orchestration/app/runtime.py:12-21 | any repetition and any order of the same sent events, delivered in a row, leaves the same state |
| LockOrder.EveryProgramOrdered | multi-agent-orchestration/app/exercises.py:29-66 | every transaction takes its locks in one rank order; task, timer, attempt and outbox rows only under their workflow |
| LockOrder.NoDeadlock | multi-agent-orchestration/app/core.py:71-125 | no run of any number of transactions reaches a circle of waiting transactions |
| LockOrder.SomeoneRuns | multi-agent-orchestration/app/db.py:80-84 | whenever transactions are running, one of them waits for nobody |
| RefundProtocolProof.RunKeeps | multi-agent-orchestration/app/core.py:143-163 | the system invariant over tables, broker, wires, workers, lookups and ledger holds through every run |
| RefundProtocolProof.PayKeeps | multi-agent-orchestration/app/erp.py:39-59 | a POST that reaches the ledger, first or repeated, keeps the system invariant |
| RefundProtocolProof.ClaimStepKeeps | multi-agent-orchestration/app/core.py:107-120 | a claim keeps the system invariant and pairs the new fence with the attempt's own POST |
| RefundProtocolProof.ReportKeeps | multi-agent-orchestration/app/core.py:146-162 | mapping the provider's reply, its loss or a crash to an outcome keeps the system invariant |
| RefundProtocolProof.ApplyAnswerKeeps | multi-agent-orchestration/app/core.py:188-207 | applying a provider answer to an unchanged version keeps the system invariant, found or absent |
| RefundProtocolProof.SubmitKeeps | multi-agent-orchestration/app/core.py:18-69 | a new request keeps one workflow per order and per key |
| RefundProtocolProof.DecideKeeps | multi-agent-orchestration/app/core.py:71-79 | a decision is recorded once per actor and command key and keeps the system invariant |
| RefundInvariant.DecisionKeeps | multi-agent-orchestration/app/exercises.py:16-48 | an accepted decision keeps the case invariant |
| RefundInvariant.EscalateKeeps | multi-agent-orchestration/app/exercises.py:50-69 | escalation or expiry keeps the case invariant |
| RefundInvariant.HandleKeeps | multi-agent-orchestration/app/exercises.py:71-98 | consuming an event of the case's own log succeeds and keeps the case invariant |
| RefundInvariant.FinishKeeps | multi-agent-orchestration/app/core.py:122-138 | every outcome of an attempt keeps the case invariant |
| RefundInvariant.RecoverKeeps | multi-agent-orchestration/app/core.py:165-175 | recovering an expired lease keeps the case invariant |
| RefundInvariant.ReconcileKeeps | multi-agent-orchestration/app/core.py:188-207 | every provider answer keeps the case invariant |
| RefundInvariant.CloseKeeps | multi-agent-orchestration/app/core.py:215-222 | operator closure keeps the case invariant |
| RefundService.Tables.CreateRequest | multi-agent-orchestration/app/core.py:18-69 | the row updates and refusals of the request transaction are those of `Create`, which `RequestAnswered` and `RequestOpens` tell |
| RefundService.Tables.PauseForApproval | multi-agent-orchestration/app/exercises.py:4-14 | a received case gets its tier's first task; any other is left alone |
| RefundService.Tables.DecideTask | multi-agent-orchestration/app/core.py:71-79 | the decision transaction commits or refuses as specified, replays included |
| RefundService.Tables.ExpireOrEscalate | multi-agent-orchestration/app/exercises.py:50-69 | an overdue pending task is replaced one role up, or expires; answers whether it moved |
| RefundService.Tables.ScheduleTick | multi-agent-orchestration/app/core.py:81-89 | reads the pending overdue timers, earliest first, at most fifty and fewer only if there are no more; then escalates them one by one |
| RefundService.Tables.HandleEventAndRecover | multi-agent-orchestration/app/exercises.py:71-98 | inbox row and effect commit together; changed duplicates are refused |
| RefundService.Tables.ConsumeEvent | multi-agent-orchestration/app/core.py:91-96 | schema and tenant checks come before the inbox |
| RefundService.Tables.PublishOne | multi-agent-orchestration/app/runtime.py:12-21 | an event is handed out iff one is unpublished, and is marked only if the broker took it |
| RefundService.Tables.ClaimNext | multi-agent-orchestration/app/core.py:107-120 | claims a claimable case if there is one, and only then; every pending attempt of it starts under a new fence |
| RefundService.Tables.FinishAttempt | multi-agent-orchestration/app/core.py:122-138 | takes effect iff attempt, fence and state are still the claimant's, and then as `ReportMeans` tells |
| RefundService.Tables.RecoverLeases | multi-agent-orchestration/app/core.py:165-175 | reads the expired leases, at most fifty and fewer only if there are no more; then recovers them one by one |
| RefundService.Tables.ReadToReconcile | multi-agent-orchestration/app/core.py:177-182 | a lookup starts iff the case is reconcilable; a case without execution is refused |
| RefundService.Tables.ApplyAnswer | multi-agent-orchestration/app/core.py:188-207 | the answer is applied as `AnswerMeans` tells; a changed version changes nothing |
| RefundService.Tables.Close | multi-agent-orchestration/app/core.py:215-222 | closes iff the case is under manual review and every attempt failed |
| ProviderService.Ledger.Refund | multi-agent-orchestration/app/erp.py:39-59 | the first POST of a key inserts one row, later ones return its receipt or are refused |
| RefundTheorems.AbsenceIsAuthoritative | multi-agent-orchestration/app/erp.py:61-66 | in every reachable state, when the status answer is absence no POST of the case was settled, no attempt succeeded and the case is not completed |
| ProviderRules.StatusTellsOfPayment | multi-agent-orchestration/app/erp.py:39-85 | after a settled POST the status never says absent and names its receipt once a fault is cleared; after absence the next settled POST has a receipt of its own |
| ProviderService.Ledger.RestoreRow | multi-agent-orchestration/app/erp.py:80-85 | clears the fault of one row and nothing else |
| TeamRules.Validate | multi-agent-orchestration/app/team.py:64-79 | an accepted answer is never an error, and is CLEAR only if the source data agrees |
| TeamRules.JudgedMeans | multi-agent-orchestration/app/team.py:64-111 | which verdict is stored: CLEAR, BLOCK and REVIEW each for an answer in time and on contract, CLEAR only if safe; an error otherwise |
| TeamRules.SuperviseMeans | multi-agent-orchestration/app/team_starter.py:8-17 | READY iff all three are clear; FOLLOW_UP iff round 1, policy and order clear, and risk neither clear nor blocking |
| TeamRun.ReadyIsSound | multi-agent-orchestration/app/team.py:130-157 | READY only on three clear answers and facts that pass all three source checks |
| TeamRun.ReadyIff | multi-agent-orchestration/app/team.py:64-157 | some run makes a case READY iff its facts are recent, standard, not refunded beyond what was paid, and without anomaly |
| TeamRun.FinishedIff | multi-agent-orchestration/app/team.py:130-157 | a finished case asked risk again iff policy and order were clear and risk neither clear nor blocking; it is READY iff policy, order and the last risk answer are clear |
| TeamRun.CrashesDoNotMatter | multi-agent-orchestration/app/team.py:159-185 | a finished case, however often interrupted, holds the decisions of one uninterrupted run on the stored answers: at most two, one per round |
| TeamRun.SameAnswersSameEnd | multi-agent-orchestration/app/team.py:81-118 | two runs that agree on common answers end in the same rows |
| TeamRun.RunLasts | multi-agent-orchestration/app/team.py:142-155 | stored answers, decisions and the outcome survive every further step |
| TeamService.Coordinator.CallSpecialist | multi-agent-orchestration/app/team.py:81-118 | a stored answer is returned without another call; a new one is validated and stored |
| TeamService.Coordinator.CollectRound | multi-agent-orchestration/app/team.py:120-128 | after it the round is stored and merged over what was carried |
| TeamService.Coordinator.RunCase | multi-agent-orchestration/app/graph.py:22-36 | an uninterrupted run finishes the case from whatever earlier runs left |
| JobProtocol.LogExplainsRow | async-execution/app/store.py:129-224 | the log with repeats removed is a path of the status graph from accepted, queued to the row's status; RUNNING occurs in it once per attempt; cancel_requested iff the path has it |
| JobProtocol.AttemptsBoundedAndExclusive | async-execution/app/worker.py:45-58 | one worker at most inside the step loop; attempts within the maximum, below it while waiting, equal to it once dead-lettered |
| JobProtocol.CheckpointsAreSound | async-execution/app/worker.py:58-70 | every step below the checkpoint is recorded; success iff a result, and then all steps recorded |
| JobProtocol.RunLasts | async-execution/app/store.py:241-273 | logs grow, checkpoints never fall, outputs are never replaced; a terminal status, result and error are frozen |
| JobProtocol.CancelledNeverSucceeds | async-execution/app/store.py:226-239 | a cancel-requested job never succeeds |
| JobEffects.CancelHolds | async-execution/app/store.py:226-239 | a job cancelled before it ended is CANCEL_REQUESTED or CANCELLED after any further steps, with no result |
| JobEffects.CancelStopsWork | async-execution/app/worker.py:58-70 | after a cancel at most the output of the step in progress is recorded |
| JobEffects.CancelMeans | async-execution/app/store.py:226-239 | a cancel sets status, flag and one event on every accepted, queued, running or retrying job, keeps the rest but the retry delay, and leaves any other job alone |
| JobEffects.MovesAreEdges | async-execution/app/contracts.py:27-39 | a transition commits iff it follows one of the thirteen edges, and is a 409 otherwise |
| JobEffects.LogTellsAll | async-execution/app/store.py:129-260 | in every run each log entry is of the kind of the move that made it, or a checkpoint under the status before, and the version counts the entries |
| JobEffects.RetryDelayDoubles | async-execution/app/worker.py:16-18 | a RETRYING job's delay is the base doubled once per attempt after the first, up to the cap |
| JobProtocol.ResultCoversLastAttempt | async-execution/app/worker.py:54-70 | a result covers exactly the steps from the last attempt's checkpoint on; all steps iff that was 0 |
| JobProtocol.ResumedResultIsPartial | async-execution/app/worker.py:54-60 | a run whose result misses a recorded step |
| JobRules.LogKeeps | async-execution/app/contracts.py:20-39 | logging an allowed move or a repeat keeps the log in step with the row |
| JobService.RepeatsAgree | async-execution/app/store.py:49-114 | a later request with the tenant and key of a served one gets its job or a conflict; other keys never get that job |
| JobService.RequestServed | async-execution/app/store.py:69-114 | the first request under a key gets a queued job of its own data whose delivery is due at once |
| JobService.RetryWaits | async-execution/app/worker.py:107-123 | the delivery of a retry is for the same job and claimable exactly from the doubled delay on |
| JobService.AcceptedMeansDelivered | async-execution/app/store.py:69-113 | every job has a delivery row and every delivery row a job |
| JobService.ProcessOutcome | async-execution/app/worker.py:45-125 | what one uninterrupted run does: one attempt, outputs up to the first step that fails, and the status, result, error and delay that step's answer calls for |
| JobService.DriveIsARun | async-execution/app/worker.py:45-125 | an uninterrupted run is a run of the protocol |
| JobService.JobStore.CreateOrReplay | async-execution/app/store.py:49-114 | job, key, events and delivery row are written together, or nothing |
| JobService.JobStore.Move | async-execution/app/store.py:129-190 | moves iff the graph allows it; keeps result and error unless given; logs the move |
| JobService.JobStore.BeginRun | async-execution/app/store.py:192-224 | begins iff queued, counting the attempt |
| JobService.JobStore.Cancel | async-execution/app/store.py:226-239 | scoped to the tenant; cancels as `CancelMeans` tells |
| JobService.JobStore.Checkpoint | async-execution/app/store.py:241-260 | saves and logs the checkpoint under whatever status |
| JobService.JobStore.RecordSideEffectOnce | async-execution/app/store.py:262-273 | inserts iff no output is recorded |
| JobService.Worker.Process | async-execution/app/worker.py:45-125 | the method does what the driven protocol worker does; refuses a running job; schedules a delivery exactly with a retry |
| OutboxProtocol.RowsFollowHistory | async-execution/app/store.py:320-388 | in every run a row is claimable iff it is unconfirmed, due, and unclaimed or claimed longer than the timeout ago; attempts count its claims |
| OutboxProtocol.ClaimsAreSeparated | async-execution/app/store.py:332-346 | successive claims of a row differ in token, and are a timeout apart unless the first was released |
| OutboxProtocol.NoEarlyClaim | async-execution/app/store.py:320-362 | in every run each row is what was enqueued, and no claim of it comes before it is due |
| OutboxProtocol.TakenOverIsPowerless | async-execution/app/store.py:364-388 | after a take-over the earlier claimant neither confirms nor releases |
| OutboxProtocol.ConfirmedOnceAfterSend | async-execution/app/celery_app.py:51-58 | a confirmation follows a send under its token; afterwards the row is never claimed or confirmed again |
| OutboxProtocol.OneSendPerClaim | async-execution/app/celery_app.py:51-58 | every send was claimed first, and a claim leads to at most one send |
| OutboxProtocol.ReleaseFreesAtOnce | async-execution/app/store.py:378-388 | a run with two claims of one row at the same time |
| OutboxProtocol.RunKeeps | async-execution/app/store.py:320-388 | every run keeps rows, publishers and history in step |
| OutboxService.SelectEligible | async-execution/app/store.py:328-340 | takes the eligible rows of lowest event id, as many as the limit allows |
| OutboxService.Outbox.ClaimUnpublished | async-execution/app/store.py:320-362 | claims exactly those rows under the token |
| OutboxService.Outbox.MarkPublished | async-execution/app/store.py:364-376 | confirms iff the token still holds the row |
| OutboxService.Outbox.ReleaseClaim | async-execution/app/store.py:378-388 | frees the row only for its holder |
| OutboxService.Outbox.PublishOutbox | async-execution/app/celery_app.py:43-59 | items before the first send or confirmation that raises are sent and confirmed, that one is released, later ones stay claimed |
| OutboxService.CycleIsARun | async-execution/app/celery_app.py:43-59 | a publisher cycle leaves the rows its protocol steps leave |
| Retry.RetryMeans | Reliable-Tool-Calling/reliability.py:75-104 | every call but the last failed retryably; the last did not or was the last allowed; the sleeps are the backoffs in order |
| Retry.RetryIsDetermined | Reliable-Tool-Calling/reliability.py:85-102 | that description fixes the calls, the outcome and the sleeps |
| Retry.SleepsDouble | Reliable-Tool-Calling/reliability.py:66-72 | the k-th sleep is the base doubled k times, up to the cap |
| Wrappers.BackoffDoubles | async-execution/app/worker.py:16-18 | a delay starts at the base, doubles until it reaches the cap, and stays there |
| Retry.SumIsTotal | Reliable-Tool-Calling/reliability.py:100-102 | the time slept is the sum of the backoffs |
| Retry.SleepsAreBounded | Reliable-Tool-Calling/reliability.py:70-72 | the time slept is at most the cap for each retry |
| Retry.JitterStaysNear | Reliable-Tool-Calling/reliability.py:67-72 | for any jitter ratio the delay is within that ratio of the backoff and never negative |
| Retry.Call | Reliable-Tool-Calling/reliability.py:75-104 | the loop over an adapter makes the calls and sleeps of the retry specification |
| Breaker.BreakerIsItsHistory | Reliable-Tool-Calling/reliability.py:129-154 | under any interleaving of its methods: the count is the trailing run of failures; not closed iff that run reaches the threshold; opened_at is its latest failure |
| Breaker.StartsIff | Reliable-Tool-Calling/reliability.py:134-141 | an operation starts iff the run is below the threshold or the timeout has passed since its latest failure |
| Breaker.CallsWalk | Reliable-Tool-Calling/reliability.py:156-164 | calls emit a linked walk closed, open, half-open, then closed or open |
| Breaker.ExecutedIsReplayed | Reliable-Tool-Calling/reliability.py:156-164 | calls are histories of the three methods |
| Breaker.CircuitBreaker.BeforeOperation | Reliable-Tool-Calling/reliability.py:134-141 | probes after the timeout, rejects before it |
| Breaker.CircuitBreaker.Failed | Reliable-Tool-Calling/reliability.py:149-154 | counts, and opens at the threshold or on a failed probe |
| Breaker.CircuitBreaker.Succeeded | Reliable-Tool-Calling/reliability.py:143-147 | resets and closes |
| FixedWindow.IntervalBound | Reliable-Tool-Calling/reliability.py:182-191 | a half-open interval of the window's length holds at most 2 * limit - 1 admissions of a key |
| FixedWindow.IntervalBoundReached | Reliable-Tool-Calling/reliability.py:182-191 | for every positive limit and window some run reaches that bound |
| FixedWindow.AdmitsMeans | Reliable-Tool-Calling/reliability.py:182-191 | a request is admitted iff its key's window is over or holds fewer than limit admissions since it opened |
| FixedWindow.LimitKeptIff | Reliable-Tool-Calling/reliability.py:182-191 | no half-open interval of the window's length ever holds more than limit admissions, whatever the history, iff limit is at most one |
| FixedWindow.AnchoredWindowBound | Reliable-Tool-Calling/reliability.py:184-190 | every window that was ever open holds at most limit admissions |
| FixedWindow.KeysDoNotInterfere | Reliable-Tool-Calling/reliability.py:184-190 | a key is answered as if it were alone |
| FixedWindow.FixedWindowRateLimiter.Check | Reliable-Tool-Calling/reliability.py:182-191 | admits iff the history admits; reports the room left |
| SearchContract.ValidateMeans | Reliable-Tool-Calling/reliability.py:208-231 | a payload passes iff it is an object whose query and answer have more than spaces; both come back trimmed and non-empty |
| SearchContract.CitationsMean | Reliable-Tool-Calling/reliability.py:218-223 | a url is cited iff it is non-empty and among the results |
| SearchContract.ValidateSearchResult | Reliable-Tool-Calling/reliability.py:208-231 | the checks and the citation loop compute the validated result |
| SearchContract.ScriptedAdapter.Search | Reliable-Tool-Calling/reliability.py:239-248 | answers from the script in order, then fails for good |
| SearchContract.ScriptAnswers | Reliable-Tool-Calling/reliability.py:239-248 | answers come from the script, completed with the query asked; past its end a failure that is not retryable |
| GatewayRules.SearchSpends | Reliable-Tool-Calling/reliability.py:272-300 | a search makes at most max_attempts primary calls, sleeps their backoffs, and falls back once iff the circuit is open or the last primary failure is retryable; limited and cached searches call nothing |
| GatewayRules.SearchAnswers | Reliable-Tool-Calling/reliability.py:287-300 | a result is non-empty, degraded iff it came from the fallback, and only results are cached |
| GatewayEffects.AnswerIs | Reliable-Tool-Calling/reliability.py:279-300 | a search that is neither limited nor cached answers with the primary's last outcome, or with the fallback's if that is a retryable failure or there was no call; payloads off the contract are refused |
| GatewayEffects.EarlyAnswers | Reliable-Tool-Calling/reliability.py:273-277 | a limited search is refused for good, a cached one gets what was cached |
| GatewayEffects.SearchRecords | Reliable-Tool-Calling/reliability.py:156-164 | a search whose last primary outcome was a failure adds one to the breaker's count, a success resets and closes it, any other outcome leaves the count |
| GatewayEffects.CircuitFollowsFailures | Reliable-Tool-Calling/reliability.py:156-164 | over every run of searches the count is the number of trailing failed searches, and the circuit is open iff the latest call failed and the threshold is reached |
| GatewayEffects.FailuresOpenCircuit | Reliable-Tool-Calling/reliability.py:287-300 | the next admitted uncached search makes no primary call and falls back once, without sleeping, iff the threshold of failed searches is reached, the latest call failed and the timeout has not passed; otherwise it calls the primary |
| GatewayRules.ResultsAreRepeated | Reliable-Tool-Calling/reliability.py:273-277 | once a request has a result, later searches get it or the limiter's refusal, and reach no adapter |
| GatewayRules.CacheIsEarned | Reliable-Tool-Calling/reliability.py:299-300 | whatever is cached was the answer of a search of that tenant and request |
| GatewayRules.CircuitIsExecuted | Reliable-Tool-Calling/reliability.py:287-288 | the gateway's breaker is a breaker used only through execute |
| GatewayService.ReliableSearchGateway.SearchOnce | Reliable-Tool-Calling/reliability.py:272-300 | limiter, cache, breaker around retry and fallback compose as specified |
| SlidingWindow.AdmitsMeans | aws-agent-deployment-demo/app/rate_limit.py:17-30 | if the client's readings are in order, a request goes through iff fewer than limit of its earlier admissions lie in the closed window ending now |
| SlidingWindow.AdmitsUpToSkew | aws-agent-deployment-demo/app/rate_limit.py:18-30 | if readings go back by at most d in lock order, the decision is that of the window with its ends moved by d |
| SlidingWindow.NeverMoreThanLimit | aws-agent-deployment-demo/app/rate_limit.py:17-30 | if the client's readings are in order, no closed interval of the window's length holds more than limit of its admissions |
| SlidingWindow.LimitUpToSkew | aws-agent-deployment-demo/app/rate_limit.py:18-30 | if readings go back by at most d, no closed interval of length window - d does |
| SlidingWindow.BoundIsExact | aws-agent-deployment-demo/app/rate_limit.py:18-30 | for limits of two and more that length is exact: the limit holds of a length under every arrival with that skew iff it is at most window - d |
| SlidingWindow.WindowNeedsOrder | aws-agent-deployment-demo/app/rate_limit.py:18-30 | for limits of two and more the limit holds of the window itself under every arrival iff no reading may go back |
| SlidingWindow.LimitOneNeedsNoOrder | aws-agent-deployment-demo/app/rate_limit.py:18-30 | a limit of one holds for readings in any order |
| SlidingWindow.OutOfOrderExceeds | aws-agent-deployment-demo/app/rate_limit.py:18-30 | two requests that take the lock against the order of their readings: three admissions in a window of two |
| SlidingWindow.BucketIsRecent | aws-agent-deployment-demo/app/rate_limit.py:22-24 | the deque is a tail of the client's admissions; what was dropped is older than the next check's window, and the deque is sorted, both up to the skew |
| SlidingWindow.ClientsDoNotInterfere | aws-agent-deployment-demo/app/rate_limit.py:22-30 | a client is answered as if it were alone |
| SlidingWindow.NoLimitNoRecord | aws-agent-deployment-demo/app/rate_limit.py:14-15 | without a positive limit everything passes and nothing is remembered |
| SlidingWindow.Limiter.Check | aws-agent-deployment-demo/app/rate_limit.py:13-30 | prunes, admits iff the history admits, and remembers admissions |

## Left out

- HTTP, FastAPI, Celery and Redis, psycopg, SQLite files, LangGraph and LLM calls: they are atomic steps, a set of messages, or parameters.
- Authentication, tokens, audit texts, logging, metrics, command lines and seeding: they change no modelled row.
- A consumer that raises still acknowledges its message, so an unconsumed approval event may wait for a redelivery; `RefundDelivery.ApprovalNotLost` says that the event is there, not that it will be delivered.
- Liveness: that a MANUAL_REVIEW case whose attempts ended in RETRY is closed, that a RUNNING job of a lost worker is resumed, that every cancel completes. The code does not provide it.
- A pending delivery for every RETRYING job: the delivery row is written in its own transaction after the move.
- Locks a database takes on its own for foreign keys and unique indexes, and the lock and statement timeouts; `LockOrder` has the locks named in the SQL. The session lock of `run_case` is only ever tried, so nobody waits for it.
- `recovery_tick` and `execute_one` as methods: their transactions are steps of `RefundProtocol`, which also runs them interrupted.
- `collect_parallel` runs its calls at once; `TeamService.Coordinator.CollectRound` makes them in role order, and `TeamRun` stores their answers in any order.
- RefundService.Tables.ClaimNext: which of several claimable cases is claimed (the source takes the one updated longest ago) is left open.
- RefundService.Tables.PublishOne: which of several unpublished events is handed out (the source takes the oldest) is left open.
- `events_after`, `side_effect_count`, expiry of idempotency keys, and the shape of job results beyond which outputs they are built from.
- GatewayService.ReliableSearchGateway.SearchOnce: one adapter object in both roles is not modelled; primary and fallback have their own scripts.
- JobService.Worker.Process: the result is the map of remembered outputs; the answer fields the source picks from it are not modelled.
- Trace events of retry, limiter and gateway; only the circuit's transitions are kept.
- FixedWindow.FixedWindowRateLimiter.Check: floating-point rounding of clock differences is not modelled, and neither is it in the other reliability primitives.
- `memory/`, `Tool-Gateway/`, `aws-agent-deployment-demo/app/governance/`: simpler forms of the same approval and idempotency rules.
- `Session-Observability/`, `evals-bootcamp/`, `RAG/`, `a2a-mcp-skills-streaming/`, `Session-2-3/`, `Session-4/`, `Session-5/`: demos, clients and scoring.
