# A verified model of the durable execution kernel

The repository runs "executions" through a fixed lifecycle.  PostgreSQL holds them: an execution row, an
append-only event log, approvals, dispatch rows (a transactional outbox), idempotency keys and an audit trail.
Publishers move dispatch rows to a queue under leases, workers receive jobs at least once, and two polling loops
drive the publisher and the approval sweeper.  This project models that system in Dafny and proves what it is for.

## How it is built

* **Reference meaning.** `Kernel.Effect(op, choice, db)` is what one service call writes and replies when it runs by
  itself. `Tables.Merge` lays a transaction's writes over the committed tables. A `Choice` holds what the call takes
  from outside: `now()` of its BEGIN, `Date.now()`, and the rows that a claiming statement selected.
* **Row by row.** `Outcomes` says what each call records and answers in the request's, the clock's and the call's own
  terms, without the functions that compute it; `History` ties approvals and dispatch rows to the commits behind them.
* **Object level.** `Stores.Store`, `Service.ExecutionService`, `Publishing.ExecutionOutboxPublisher`,
  `Publishing.ExecutionQueue`, `Handler.Delivery` and the two loop objects are classes whose methods follow the source
  statement by statement and are proved to do what the reference meaning, the runtime's world or the loop machine says,
  rollbacks included.
* **Statement level.** `Interleaving` lets any number of clients execute their transactions one SQL statement at a
  time, with row, advisory and index locks, waiting, commits, and rollbacks at any point. `Atomicity` and
  `Serializability` show for every statement what its transaction has written so far and that nobody else's commit
  disturbs it; `Runs` concludes that every run is a serial one. `Deadlock`, `Idempotency`, `Decisions`, `AuditTrail`,
  `Expiry`, `LateGrants` and `History` are about the same runs.
* **Runtime level.** `Runtime` takes each transaction as one step (`Levels` shows that commits of the statement level are
  such steps, `Processes` that its runs, publishers included, are such runs) and adds the queue, publishers that crash,
  overlap, come late or lose answers, and workers with redelivery. `Leases` and `Workers` hold its two sharpest theorems.
* **Two separate cores.** `JsonText`, `JsonReader`, `CanonicalJson` and `CanonicalText` (printing, reading, key sorting),
  `Loops` (flags, timers, backoff).
  `Loops` also lets timers go off between the end of a tick's work and the rest of that tick, which the event loop never
  does; no run given as an instance uses that.

Assumptions, stated where they enter: random approval ids are new; a sweep's selection and its locking of executions
are one atomic step over the committed rows whose execution nobody else has locked; the queue ignores a job id it
already knows; a publisher marks only rows that exist (`Interleaving.MarksKnownRow`); clocks never go back. The digest
is an arbitrary function, collision-free only where a lemma says so; the advisory-lock function is arbitrary; the key
comparison is any total preorder, and where hashes of requests are compared it does not tie the thirteen key names that
every request has (`Requests.FixedNamesApart`).

Where documentation and code might be read differently the code is followed: `transition` may enter EXECUTION or APPROVAL
with no decision, so the approval gate is stated for dispatch rows and jobs; DISPATCHED is not stable in general;
expiry is not final for a decision that had already read its clock; a retry with another key order can be a conflict when
two of its names tie under `localeCompare`; a restart during a tick arms a second timer; a stop that waits through a
restart returns while the loop runs. The last five have their exact condition below (`DispatchedIsFinalIff`,
`ExpiryIsFinalIff`, `RetriesAreRecognizedIff`, `OneChainIffNoOverlap`, `StopHoldsIff`).

## Model

| member | source | states |
|---|---|---|
| StateMachine.EdgeLowersRank | src/kernel/state-machine.ts:3-19 | every allowed edge lowers a rank, so the lifecycle has no cycle |
| StateMachine.EdgesAreExact | src/kernel/state-machine.ts:3-19 | the table read backwards: which statuses lead to each status, with no edge missing and none too many |
| StateMachine.PathIsShortAndSimple | src/kernel/state-machine.ts:3-19 | any walk along allowed edges has at most 13 statuses, none twice, and a terminal one only at its end |
| StateMachine.RankIsAttained | src/kernel/state-machine.ts:3-19 | the bound is tight: from every status some walk uses its whole rank, 13 entries from INTAKE |
| StateMachine.FailAgreesWithTable | src/kernel/postgres-execution-service.ts:397-399 | the hand-written terminal test of `fail` accepts exactly the statuses with an edge to FAILED, and the terminal statuses are exactly those with no edge |
| JsonText.DigitsRoundTrip | src/kernel/canonical-json.ts:14 | the decimal text of a natural number reads back as that number and begins with 0 only for 0 itself |
| JsonText.PrintUnambiguous | src/kernel/canonical-json.ts:14 | two JSON texts, each followed by anything that may follow a value, are equal only if values and remainders are equal |
| JsonText.PrintInjective | src/kernel/canonical-json.ts:14 | different JSON values print differently |
| JsonReader.PrintedIsJson | src/kernel/canonical-json.ts:14 | the printed text is JSON by the grammar of RFC 8259, and a reader of that grammar gets exactly the printed value from it |
| JsonReader.PrintedIsShortest | src/kernel/canonical-json.ts:14 | no JSON text of a value is shorter than the printed one: nothing is escaped without need, and no white space is added |
| JsonReader.EscapesAreLowerCase | src/kernel/canonical-json.ts:14 | hexadecimal escapes are printed in lower case |
| CanonicalJson.CanonicalMeaning | src/kernel/canonical-json.ts:1-11 | canonicalizing keeps the value up to key order, at every depth, and keeps keys distinct |
| CanonicalText.CanonicalIsInOrder | src/kernel/canonical-json.ts:1-11 | in every object of a canonical value numerals come first, ascending, and then names in the order of the comparison |
| CanonicalJson.ArrangeStable | src/kernel/canonical-json.ts:5-7 | names that tie keep the order in which they came |
| CanonicalText.IndexNames | src/kernel/canonical-json.ts:4-8 | the names that come first are the numerals of 0 to 4294967294 |
| CanonicalText.CanonicalTextIsCanonical | src/kernel/canonical-json.ts:13-19 | `undefined` has no canonical text; that of any other value is the shortest JSON for a value of the same meaning with its keys in order |
| CanonicalJson.CanonicalTextDeterminesMeaning | src/kernel/canonical-json.ts:13-19 | equal canonical texts imply equal values up to key order at every depth |
| CanonicalJson.CanonicalFormUnique | src/kernel/canonical-json.ts:1-11 | when no object of a value, at any depth, has two distinct names that the comparison ties, every value equal to it up to key order has its canonical form |
| CanonicalJson.OrderInvariantIffTieFree | src/kernel/canonical-json.ts:1-11 | exactly: the canonical text of a value is independent of key order if and only if no object in it, at any depth, has two distinct names that tie (index-like keys are reordered by `Object.fromEntries` itself) |
| CanonicalJson.OrderInvariantIffNamesNeverTie | src/kernel/canonical-json.ts:1-11 | so it is independent of key order for all values if and only if the comparison ties no two names at all |
| CanonicalJson.CanonicalizeIdempotent | src/kernel/canonical-json.ts:1-11 | canonicalizing twice is canonicalizing once, even with ties |
| Requests.HashFixesRequest | src/kernel/postgres-execution-service.ts:44-47 | with a collision-free digest, requests with one hash agree in every field, the context up to key order, and so name one execution |
| Requests.HashIdentifiesRequests | src/kernel/postgres-execution-service.ts:44-47 | with a collision-free digest, a request without tied names in its context has the hash of another if and only if the two are the same request up to the key order of their contexts |
| Requests.RetriesHashAlikeIff | src/kernel/postgres-execution-service.ts:44-47 | exactly: every repetition of a request hashes alike if and only if no object in its context has two names that tie |
| CanonicalText.HashedText | src/kernel/postgres-execution-service.ts:44-47 | the hash of a request is the digest of a canonical text that reads as an object with exactly the fields of the schema, each with the value of the request |
| Tables.MaxSeqNext | src/kernel/postgres-execution-service.ts:205-209 | max(sequence)+1 is free, becomes the maximum, and leaves every other execution's maximum alone |
| Integrity.CallKeepsIntegrity | src/kernel/postgres-execution-service.ts:40-423 | every call with any arguments keeps one invariant over all tables: logs numbered 1..n along allowed edges and ending at the row's status, the approval gate, unique approvals, dispatch rows and leases, idempotency rows with the hash of their execution's request |
| Outcomes.StartIsExact | src/kernel/postgres-execution-service.ts:40-159 | every start: a blank objective gives REJECTED with neither approval nor dispatch; else, if approval is required, APPROVAL with one pending approval for 86400000 ms and no dispatch, and if not, INTAKE with a dispatch and no approval; first event, audit row and idempotency row field by field; a recorded key is reused or a conflict by its hash, a taken id is refused, and then nothing changes |
| Base.TrimsToNothing | src/kernel/policy.ts:14 | an objective counts as blank exactly if trimming leaves nothing of it |
| Base.SpacesAre | src/kernel/policy.ts:14 | the 25 characters that trimming removes |
| Integrity.DurableLogIsShortAndSimple | src/kernel/state-machine.ts:3-19 | every durable log has at most 13 events, repeats no status and stops at a terminal one |
| Integrity.WaitingHasOneEvent | src/kernel/postgres-execution-service.ts:166-174 | an execution that began at APPROVAL and still stands there has exactly one event |
| Closed.DecisionOutcomes | src/kernel/postgres-execution-service.ts:161-259 | a decision ends in exactly one of three ways: settled as asked (one event, one audit row, dispatch if and only if approved); expiry error with EXPIRED and REJECTED recorded and no dispatch; any other error with every table unchanged |
| History.DecisionByTheClock | src/kernel/postgres-store.ts:149-166 | a decision that is not refused is answered with expiry if its clock has come to `expires_at`, and otherwise as asked |
| History.ApprovalsLiveADay | src/kernel/postgres-execution-service.ts:103-113 | in every interleaving an approval opened by a start that read clock c is settled as asked by every decision that goes through with a clock before c + 86400000 and expired by every one from then on, is swept by no sweep that began earlier, and is not EXPIRED earlier |
| Outcomes.MoveIsExact | src/kernel/postgres-execution-service.ts:352-423 | an accepted `transition` or `fail` leaves one event more, at the next number, with the status, actor and payload of the call, the row at that status, and nothing else changed; `transition` is accepted along the listed edges, `fail` from all but the three terminal statuses; a refusal changes nothing |
| Closed.CallStaysClosed | src/runtime/controlled-execution-handler.ts:50-69 | with only the calls the shipped runtime makes, an approval is pending if and only if its execution stands at APPROVAL, and no execution gets beyond CONTEXT, EXECUTION or REJECTED |
| Closed.ClosedSweepSkipsNothing | src/kernel/postgres-execution-service.ts:271-276 | in the shipped runtime a sweep never skips a claim |
| Outcomes.RefusalsAreExact | src/kernel/postgres-store.ts:135-148 | on any tables a decision is refused by the first test that fails (unknown execution, not at APPROVAL, unknown approval, another execution or tenant, not pending), each if and only if, and then changes nothing |
| Decisions.DecisionsAreRefusedExactly | src/kernel/postgres-store.ts:135-148 | in every reachable state, with any callers, each refusal of a decision is given exactly under its own condition, a decision is accepted exactly for a pending approval of that execution standing at APPROVAL, and "not pending" is never the answer |
| Decisions.CallKeepsDecided | src/kernel/postgres-execution-service.ts:161-423 | every call, `transition` and `fail` included, keeps the executions of decided approvals away from APPROVAL |
| AuditTrail.AuditTrailIsComplete | src/kernel/postgres-execution-service.ts:116-125 | in every reachable state each execution has exactly one policy row, and one verdict row exactly if its log has a verdict event; every row names its execution's tenant and says truly who acted and whether it was allowed |
| AuditTrail.CallAudited | src/kernel/postgres-execution-service.ts:237-247 | every call keeps the audit trail complete and true |
| Sweeps.SweepIsExact | src/kernel/postgres-execution-service.ts:265-289 | claimed = rejected + skipped; exactly the claimed approvals expire; exactly their executions still at APPROVAL get one REJECTED event, and one audit row each in the order of the claims; nothing else changes |
| Outcomes.SweepSelection | src/kernel/postgres-store.ts:169-189 | a sweep claims pending approvals past their expiry of executions that nobody has locked, the longest due first, up to its limit within 1..100 |
| Sweeps.SweepsDrain | src/kernel/postgres-store.ts:169-196 | sweeps with nothing else running, each at its own clock: ceil(N/limit) of them expire every approval due at the earliest clock, N counting what is due by the latest; until then each takes a full batch, and if nothing falls due in between max(0, N - k*limit) are left after k |
| Atomicity.StatementStaysOnCourse | src/kernel/postgres-execution-service.ts:50-423 | every statement of every call leaves its transaction with exactly the writes due at that point of the call, or halts it with the very error the call has on the committed tables |
| Atomicity.NextNumberIsFree | src/kernel/postgres-execution-service.ts:205-209 | under the execution lock the number read is still free when the event is inserted |
| Atomicity.RecheckKeyStep | src/kernel/postgres-execution-service.ts:137-155 | the re-read after the idempotency insert always finds the client's own row |
| Atomicity.CommitIsEffect | src/kernel/postgres-store.ts:73-80 | a transaction about to commit holds exactly the writes and the reply of its call run alone on the tables it meets |
| Serializability.WritesAreLocked | src/kernel/postgres-store.ts:302-306 | at every point of every call all pending writes are covered by the transaction's own locks |
| Serializability.StaysOnCourse | src/kernel/postgres-store.ts:302-306 | commits of clients holding other locks leave a transaction exactly where it stood |
| Runs.StepRefines | src/kernel/postgres-store.ts:73-90 | every step of the interleaved system keeps the invariant; only commits change the tables, and a commit does what its call does alone |
| Runs.RunsAreSerial | src/kernel/postgres-store.ts:73-90 | every interleaving of any number of clients equals its commits executed one after the other, with the same replies |
| Runs.EveryRunKeepsIntegrity | src/kernel/postgres-execution-service.ts:40-423 | in every reachable state of every interleaving the committed tables satisfy the whole invariant |
| Runs.GateInEveryRun | src/kernel/postgres-execution-service.ts:77-114 | in every run a dispatch row exists if and only if the log begins at INTAKE or the approval is APPROVED; an approval exists, and only one, if and only if the log begins at APPROVAL; APPROVED implies the second event is EXECUTION; and by the request itself: without an objective neither exists, one that requires approval is dispatched only if APPROVED, any other is dispatched and has no approval |
| Runs.RefusalsAreRight | src/kernel/postgres-execution-service.ts:142-155 | a statement fails only with the error its call deserves on the committed tables; no event insert ever meets a taken key, and the defensive errors of `start` never occur |
| Runs.DefensiveErrorsAreDead | src/kernel/postgres-execution-service.ts:69-73 | on intact tables no call answers "no events", "record missing" or a taken event key |
| Idempotency.OneExecutionPerKey | src/kernel/postgres-execution-service.ts:53-75 | across any interleaving and any advisory-lock function, a (tenant, key) creates at most one execution, and every other commit under it reuses, later, exactly that execution for the same request hash |
| Idempotency.OneCreatorPerKey | src/kernel/postgres-execution-service.ts:53-58 | in every reachable state at most one client is on its way to create under a tenant and key, and it holds the advisory lock of "tenant:key" |
| Idempotency.RecordedKeyChangesNothing | src/kernel/postgres-execution-service.ts:59-75 | a start under a recorded key leaves every table unchanged and is reused or a conflict exactly as its hash agrees or not |
| Idempotency.RetryIsRecognized | src/kernel/postgres-execution-service.ts:59-75 | under a key whose recorded context has no tied names, with a collision-free digest, a start is reused if and only if it repeats the recorded request up to key order, and is a conflict otherwise |
| Idempotency.RetriesAreRecognizedIff | src/kernel/postgres-execution-service.ts:59-75 | exactly: every repetition under a recorded key is reused if and only if the recorded context has no tied names |
| Idempotency.ExecutionsAreCreatedOnce | db/migrations/0001_kernel.sql:10 | no execution id is ever created twice in a run |
| Idempotency.ReuseNamesTheRequest | src/kernel/postgres-execution-service.ts:45-73 | with a collision-free digest a reused start is told about the execution id it asked for |
| Idempotency.ReuseReadsLatest | src/kernel/postgres-execution-service.ts:69-73 | the event returned on reuse is the latest committed one and carries the execution's current status |
| Deadlock.NoDeadlock | src/kernel/postgres-store.ts:135-189 | no reachable state holds a cycle of clients waiting for one another's locks |
| Deadlock.WaitingClimbs | src/kernel/postgres-store.ts:302-306 | the holder of a wanted lock is strictly further along tenant, advisory key, execution, approval, dispatch, idempotency key |
| Deadlock.SomebodyCanGoOn | src/kernel/postgres-store.ts:73-90 | whenever transactions are in flight, one of them is finished or can execute its next statement at once |
| Deadlock.SweepCanPick | src/kernel/postgres-store.ts:169-189 | whatever is locked, a sweep always has a legal selection: past due, unlocked, oldest first, up to the limit |
| Expiry.ExpiryIsFinal | src/kernel/postgres-store.ts:149-159 | once an ungranted approval is past its expiry and no live granting decision is in flight, no continuation ever dispatches its execution |
| LateGrants.ExpiryIsFinalIff | src/kernel/postgres-store.ts:149-159 | exactly: in every reachable state a lapsed approval's execution is dispatched in no continuation if and only if no granting decision that passed its expiry check is in flight |
| LateGrants.GrantCanOutliveTheExpiry | src/kernel/postgres-store.ts:149-159 | from any quiet state with an open approval there is a run in which a decision reads its clock in time, the expiry passes, and the decision still dispatches |
| LateGrants.LateGrantHappens | src/kernel/postgres-store.ts:149-159 | such a run starts from the empty tables, with any request that waits for approval |
| Levels.CallCommitsAsOneStep | src/kernel/postgres-store.ts:73-80 | a committed service call of the interleaved system is one step of the runtime's world |
| Levels.ClaimCommitsAsOneStep | src/queue/execution-outbox-publisher.ts:32-34 | so is a committed claim |
| Levels.MarkCommitsAsOneStep | src/queue/execution-outbox-publisher.ts:46-59 | so is a committed mark |
| Processes.RunIsWorldRun | src/queue/execution-outbox-publisher.ts:31-67 | every interleaving of statements of any callers and any publishers, marks included, with crashes and lost answers, is matched at each of its states by a run of the runtime's world: the same commits in the same order, the same tables, queue, publishers and clock |
| Processes.SiteRunIsRun | src/kernel/postgres-store.ts:73-90 | the statements of such an interleaving are a run of the statement level, so everything proved there holds too |
| Processes.CallersAndClaims | src/kernel/postgres-store.ts:73-90 | conversely every run of the statement level that commits no marks is such an interleaving |
| Processes.QueuedPassedTheGate | src/queue/execution-outbox-publisher.ts:39-48 | in every such interleaving a queued job implies a dispatch row and an execution open from the start or approved |
| Processes.DispatchedIsQueued | src/kernel/postgres-store.ts:237-254 | and a DISPATCHED row, or one with `dispatched_at` set, has its job queued; PROCESSING if and only if leased |
| Levels.LapsedIsNeverQueued | src/kernel/postgres-store.ts:149-159 | once an ungranted approval has expired, and if later decisions read their clock after that, its execution is never dispatched nor queued, whatever callers, publishers and workers do |
| Runtime.JobsPassedTheGate | src/queue/execution-outbox-publisher.ts:31-60 | with any callers and any publisher behaviour, a queued job implies a dispatch row, hence an execution open from the start or approved |
| Runtime.NoDispatchIsLost | src/kernel/postgres-store.ts:206-254 | PROCESSING if and only if leased; a row not DISPATCHED is claimable now or once 300000 ms have passed since its latest claim; attempts equals the number of claims; a set `dispatched_at` implies the job is queued |
| Runtime.StepKeepsOutbox | src/queue/execution-outbox-publisher.ts:31-60 | every step of publishers, workers and callers keeps the outbox invariant, with crashes, late marks and lost answers |
| Leases.DispatchedIsFinalIff | src/kernel/postgres-store.ts:237-254 | exactly: for any callers, timing and lost answers, a DISPATCHED row stays DISPATCHED in every continuation if and only if no publisher still has it ahead |
| Leases.TimelyLeasesExclude | src/queue/execution-outbox-publisher.ts:39-59 | if publishers act on a row only before its lease ends and no mark's answer is lost, no row ever has two holders, so that DISPATCHED is final from the moment it is written |
| Leases.LostAnswerUndoesDispatch | src/kernel/postgres-store.ts:247-254 | a success mark whose answer is lost leads to a DISPATCHED row that is PENDING again while its job stays queued |
| Leases.LostAnswerHappens | src/kernel/postgres-store.ts:247-254 | that happens: from the empty tables, with any open request, dispatched after four steps and pending again after five |
| Outcomes.ClaimIsExact | src/kernel/postgres-store.ts:206-229 | a claimed row is PROCESSING, leased for the asked-for time within 1000..300000 ms, counted, and its error cleared; no other row changes |
| Outcomes.MarkIsExact | src/kernel/postgres-store.ts:237-254 | a mark rewrites its own row whatever its status: DISPATCHED at `now()` with the error cleared, or PENDING with the first 2000 characters of the error |
| Publishing.ClaimSelection | src/kernel/postgres-store.ts:211-220 | a publisher claims rows that are PENDING or whose lease is over and that nobody has locked, the oldest first, up to its limit within 1..100 |
| Workers.EveryDeliveryEndsWell | src/runtime/controlled-execution-handler.ts:25-73 | in the shipped runtime, for any crashes and redeliveries, a queued execution has at most one CONTEXT event, a delivery throws only on a database error, and one that returned left a status past INTAKE and not APPROVAL |
| Workers.PendingIffWaiting | src/runtime/controlled-execution-handler.ts:42-47 | in every run of the shipped runtime an execution stands at APPROVAL if and only if it has a pending approval |
| Workers.StandsAsDecided | src/kernel/postgres-execution-service.ts:161-259 | in every run of the shipped runtime an execution that began at APPROVAL has one approval and stands at APPROVAL, EXECUTION or REJECTED exactly as that is pending, granted, or refused or expired |
| Workers.ContextIsTheWorkers | src/runtime/controlled-execution-handler.ts:51-55 | in every run of the shipped runtime every CONTEXT event has the actor "logon.execution.worker" and the worker's payload |
| Workers.DeliveriesFinish | src/runtime/controlled-execution-handler.ts:25-73 | while the database answers, each step of the handler brings a delivery nearer its normal return, three at most |
| Workers.OneEventPerStatus | src/kernel/state-machine.ts:3-19 | no two events of an execution carry the same status |
| Stores.Store.MaxSequence | src/kernel/postgres-execution-service.ts:205-209 | the loop over all events finds the largest sequence of one execution, or 0 |
| Stores.Store.DecideApproval | src/kernel/postgres-store.ts:135-167 | refuses with the first failing test and no change, or records the verdict, expiry included |
| Stores.Store.ClaimExpiredApprovals | src/kernel/postgres-store.ts:169-196 | the loop leaves exactly the selected approvals EXPIRED |
| Stores.Store.ClaimDispatches | src/kernel/postgres-store.ts:206-236 | the loop leases exactly the selected rows and counts the attempt |
| Stores.Store.Rollback | src/kernel/postgres-store.ts:80-87 | puts every table back as it was at BEGIN |
| Service.ExecutionService.Start | src/kernel/postgres-execution-service.ts:40-159 | does to the tables and answers what the reference meaning says, errors rolled back; returns the first event, or the latest of the reused execution |
| Service.ExecutionService.DecideApproval | src/kernel/postgres-execution-service.ts:161-259 | same, including the path that commits a rejection and then raises |
| Service.ExecutionService.ExpireApprovalsOnce | src/kernel/postgres-execution-service.ts:265-289 | same, with the loop's counts, for any pending claims, whatever the selection skipped |
| Service.ExecutionService.RejectExpired | src/kernel/postgres-execution-service.ts:291-337 | status, next event and audit row of an expired approval |
| Service.ExecutionService.Transition | src/kernel/postgres-execution-service.ts:352-388 | moves along an allowed edge with the next sequence number, or refuses and changes nothing |
| Service.ExecutionService.Fail | src/kernel/postgres-execution-service.ts:390-423 | moves to FAILED from any status but a terminal one, or refuses and changes nothing |
| Publishing.ExecutionQueue.Enqueue | src/queue/execution-queue.ts:35-47 | refuses blank ids; otherwise the job set gains exactly the id, once |
| Publishing.ExecutionOutboxPublisher.constructor | src/queue/execution-outbox-publisher.ts:22-29 | batch within 1..100 and lease within 1000..300000 ms for any options, defaults 20 and 30000 |
| Publishing.ExecutionOutboxPublisher.PublishOnce | src/queue/execution-outbox-publisher.ts:31-67 | for any claimable rows and any answers: a normal return has claimed = dispatched + failed with every claimed row unleased and marked as its answers say; a raise at a row leaves the rows before it handled and those after it leased; a claim that fails changes nothing, and one that takes effect but raises leaves its whole batch leased; tables, queue and counts come out exactly as row after row says |
| Publishing.RowIsSteps | src/queue/execution-outbox-publisher.ts:39-60 | one row, with any answers, is two or three steps of a publisher of the runtime's world, with the same tables, queue and counts |
| Publishing.PublishOnceIsRun | src/queue/execution-outbox-publisher.ts:31-67 | a whole call, its claim answered well or not, is a run of one publisher of that world: its claim, unless that fails, then the steps of its rows; it leaves the world exactly if the call raises |
| Publishing.GoodAnswersPublishAll | src/queue/execution-outbox-publisher.ts:39-48 | when the queue and the database answer well, every claimed row is dispatched and its job queued |
| Publishing.PublishingDrains | src/kernel/postgres-store.ts:211-229 | good calls with no other publisher, each at its own clock: ceil(N/batch) of them dispatch every row claimable at the earliest clock, N counting what is claimable by the latest; until then each takes a full batch, and if no lease runs out in between max(0, N - k*batch) are left after k |
| Publishing.OlderBatchesFirst | src/kernel/postgres-store.ts:217 | no row of an earlier batch is younger than a row of a later one, except one that was leased when the earlier batch was picked |
| History.DispatchesAreAsOldAsTheirCommit | db/migrations/0003_execution_outbox.sql:10 | in every interleaving a dispatch row was inserted by the commit of an open start or of a grant, and its `created_at` is `now()` of that transaction |
| History.EarliestFirst | src/kernel/postgres-store.ts:217 | so a row taken in an earlier batch was inserted by a transaction that began no later than that of a row taken later, unless that one was leased then |
| Handler.Delivery.Read | src/runtime/controlled-execution-handler.ts:26-50 | the first stretch of the handler is the worker step of the runtime's world |
| Handler.Delivery.Advance | src/runtime/controlled-execution-handler.ts:51-59 | so is the transition, with its actor and payload, on whatever tables it meets |
| Handler.Delivery.Reread | src/runtime/controlled-execution-handler.ts:61-68 | so is the re-read after a lost race |
| Handler.ReadIsExact | src/runtime/controlled-execution-handler.ts:26-73 | what a delivery makes of each latest event: it returns on the three terminal statuses, throws on a blank id, an unknown execution or APPROVAL, goes on to move from INTAKE, and returns on anything else; after a lost race it returns only on CONTEXT |
| Handler.AdvanceIsExact | src/runtime/controlled-execution-handler.ts:51-68 | from INTAKE the transition adds the worker's CONTEXT event and the delivery returns; from any other status it changes nothing and is read again |
| Handler.ErrorsAreExact | src/runtime/controlled-execution-handler.ts:51-68 | a database error ends the delivery, with no change unless the transition had taken effect |
| Loops.DispatcherConfig | src/queue/execution-outbox-dispatcher.ts:16-22 | poll within 100..60000 ms and cap within poll..300000 ms for any options |
| Loops.SweeperConfig | src/runtime/approval-expiry-sweeper.ts:15-21 | poll within 500..300000 ms for any options |
| Loops.AtMostOneInFlight | src/queue/execution-outbox-dispatcher.ts:28-39 | over all interleavings of start, stop, timers, direct calls and completions, at most one publish or sweep is in flight, and the flag says whether |
| Loops.NoTickWorksAfterStop | src/queue/execution-outbox-dispatcher.ts:47-57 | from a call of stop until the next start no tick begins work |
| Loops.StopIsFinal | src/runtime/approval-expiry-sweeper.ts:46-56 | when stop returns nothing is in flight, and until the next start only a direct call can begin anything |
| Loops.StopHoldsIff | src/queue/execution-outbox-dispatcher.ts:41-72 | exactly: once a stop has returned no tick begins work up to the next start, whatever happens, if and only if the loop was not started again, with no stop after that, while the stop waited |
| Loops.StopCanReturnRunning | src/queue/execution-outbox-dispatcher.ts:41-72 | a run of seven moves in which a stop waits through a restart, returns while the loop runs, and does not hold |
| Loops.OneChainIffNoOverlap | src/queue/execution-outbox-dispatcher.ts:41-64 | exactly: throughout a run at most one timer is armed, and never beside a tick under way, if and only if the loop was never started while stopped with a tick under way |
| Loops.SecondChainArms | src/queue/execution-outbox-dispatcher.ts:41-64 | after any such start the end of that tick leaves two timers armed |
| Loops.TwoChains | src/queue/execution-outbox-dispatcher.ts:41-64 | such a run exists, of six moves |
| Loops.SkippedTickIsClean | src/queue/execution-outbox-dispatcher.ts:29-31 | a tick that meets work in progress begins none, resets the backoff, and comes again a poll interval later |
| Loops.DirectCallsArmNothing | src/queue/execution-outbox-dispatcher.ts:28-39 | a direct `runOnce` only clears the flag when it ends |
| Loops.BackoffClosedForm | src/queue/execution-outbox-dispatcher.ts:72-86 | after k troubled ticks the backoff is 2*poll for k = 1 and min(cap, 2^k * poll) for k >= 2 |
| Loops.TickDelays | src/queue/execution-outbox-dispatcher.ts:66-90 | every delay a tick sets follows that closed form, is the poll interval after a clean tick, and lies within 100..300000 ms |
| LoopObjects.ExecutionOutboxDispatcher.Stop | src/queue/execution-outbox-dispatcher.ts:47-57 | clears the flag and the known timer, and waits if and only if a publish is in flight |
| LoopObjects.ExecutionOutboxDispatcher.Tick | src/queue/execution-outbox-dispatcher.ts:66-72 | does nothing when stopped, skips when busy, else begins work |
| LoopObjects.ExecutionOutboxDispatcher.Resume | src/queue/execution-outbox-dispatcher.ts:73-90 | the rest of a tick changes fields and timers as the loop machine says |
| LoopObjects.ApprovalExpirySweeper.Tick | src/runtime/approval-expiry-sweeper.ts:65-73 | same for the sweeper |
| LoopObjects.ApprovalExpirySweeper.Resume | src/runtime/approval-expiry-sweeper.ts:75 | whatever the sweep came to, the next one is a poll interval away |

## Left out

- Event timestamps and types, `decided_at`, reason texts and the messages of exceptions: nothing proved here depends on them.
- JSON: `undefined` inside objects and arrays, numbers that are not integers, and lone surrogates in strings.
- Option values that are not integers (NaN and fractions reach the clamps unchanged in the original).
- The SQL selections of claims are given by what they must satisfy (`Kernel.SweepPicks`, `Kernel.ClaimPicks`); their planner and snapshots are not modelled.
- Foreign-key locks, serialization failures and deadlock detection of the database; a rollback at any point stands for all of them.
- An idempotency key that is the empty string counts as no key, as in the original's test.
- Schema validation and SHA-256: requests are taken as already validated and the digest is a parameter.
- The in-memory kernel, the control-plane server, the user interface, Redis configuration and tracing.
- Tool permissions, tool policy and the registry: each is settled by one branch.
- Publishers that do not follow `publishOnce`: `Processes.Happens` lets a mark commit only for a publisher that has claimed the row and heard from the queue; workers' reads are at the runtime level only.
