# Verification of the travel web API

This project models the transactional core of the travel web API, the back end that sits between a
browser and the trip generation service "Hermes", and proves what its transactions keep together.

- **Tables.** `Schema` has one datatype per row and one map per table. A `Database` object is a session
  on them: `tables` is what the open transaction sees, `locks` records its `FOR UPDATE` locks in order.
- **Transactions.** Each operation of the services is a method on a `Database`. Its contract equates the
  new tables and the answer with a specification function: the reasons to refuse in the order in which the
  code checks them, and the write. `Quota`, `Projection`, `ProjectionSync`, `ProjectionBackfill`,
  `ProjectionReconciliation`, `ProjectionConsumer`, `AccountClosure`, `Admin`, `Profile`, `Auth`,
  `TripSubmission`, `Relay` and `Sse` hold them.
- **Outcomes.** `TripOutcomes`, `AccountOutcomes` and `ProjectionOutcomes` state what each of them answers,
  if and only if, and the rows it leaves, written out on the tables without its specification function.
- **Invariants.** `Merge`, `Ledger`, `AssociationAgreement`, `Money`, `Reversals`, `NameOwnership`,
  `Accounts`, `Idempotency`, `TripRuns` and `MoneyRuns` say what the tables satisfy and that every
  transaction keeps it.
- **Runs.** `World` is the whole service as one state machine: 23 kinds of steps in any order with any
  arguments, an upstream that loses requests and replies, and a clock. `System.EveryRun` proves the
  invariant over all runs and `Guarantees` draws the consequences; `SubmissionRuns` compares what the
  upstream holds with what a trip's row shows. `ProjectionStream` does the same for the event stream,
  `QuotaRace` for reservations and adjustments whose balance reading and write are separate steps,
  `ProjectionBackfill` for a crashing backfill worker whose fetches and commits are separate steps,
  `UpstreamRuns` for a growing upstream and a reconciliation whose readings, comparison and repair are
  separate steps, and `Locks` for waiting.
- **Edges.** `History` and `Cursor` treat keyset paging and its signed cursor, `Sse` and `Relay` the
  event stream to the browser, and `SseStandard` compares the line loop with a parser written from
  section 9.2.6 of the WHATWG HTML Standard.
- **Inputs.** `Failures` and `StoppedBackfill` hold runs that end on the failing side of a condition.

## What is assumed

- A transaction is atomic, except in `QuotaRace`. Rows locked by `FOR UPDATE` are held to its end.
- Identifiers are naturals. `uuid4` draws are parameters and unused where they are drawn. A row of a query
  without an order is the least matching one. The public id of a trip is its id.
- Hashes and signatures are injective, so a hash is represented by what it hashes.
- The upstream answers a repeated request id with the job of the first, offers a fresh job otherwise, and
  serves snapshot pages in id order below a maximum that the first page fixes. Its rows are never removed,
  new ones get higher ids, their versions never fall, a version has one payload, a job's source id and job
  id belong together for good, and every step belongs to one of its jobs. Events and pages carry what it
  holds or has held.
- The clock never goes back.

## What does not hold as one might expect

Each of these is a theorem here, with the condition under which the expected behaviour does hold.

- A reversal looks its original up before it claims its key. Once the account is closed, an identical
  reversal is answered NOT_FOUND and not with the first response
  (`Guarantees.ReversalRepliesWhileOpen`, `Failures.ClosureEndsReplay`), although
  `docs/architecture-and-security.md:169-171` promises the original result for the same key.
- A released unit does not mean that upstream never accepted the trip (`TripSubmission.ReleasedYetAccepted`):
  a retry that cannot reach upstream releases it after an earlier, uncertain attempt, although
  `docs/database-and-quota.md:388-393` lets reconciliation investigate first. The row tells: with no attempt
  counted the trip was never accepted, and with one counted it may have been
  (`SubmissionRuns.RowTellsExactly`). A worker that dies between a post and its write leaves no count
  (`SubmissionRuns.CrashHidesAcceptance`).
- Reconciliation counts a row as stale that moved on after the source was read, although nothing is wrong
  with it; no repair changes it, and the next run passes (`ProjectionReconciliation.AheadRowsStay`,
  `Failures.OvertakenCopyIsStale`). Against the upstream itself no row is ever ahead
  (`UpstreamRuns.NothingIsAhead`).
- A repair is refused as a whole if and only if a missing or newer step has its job neither stored nor among
  the jobs read (`ProjectionReconciliation.RepairRefusedExactly`), which happens when a job arises with its
  step between the two readings (`Failures.ArisenJobIsRefused`). While the upstream stands still a repair
  goes through and the next run passes (`UpstreamRuns.ReconciliationPasses`).
- The job and the step backfill freeze their maxima at different times, so a step is refused on every retry
  until its job arrives through the stream (`ProjectionBackfill.OnlyOrphansAreRefused`,
  `StoppedBackfill.StepBackfillCanStop`). With a still upstream the run completes if and only if every step
  ahead is stored or has its job stored or ahead (`ProjectionBackfill.RunProjectionBackfill`).
- Under a concurrent settlement the balance that an adjustment records can be too low, never too high
  (`QuotaRace.RecordedBalance`, `QuotaRace.FailureBetweenIsMissed`).
- A heartbeat that the stream has passed is put back for ever
  (`ProjectionConsumer.HeartbeatIsAcknowledged`, `ProjectionConsumer.LateHeartbeatsAreNeverAcknowledged`).
- Login verification locks the challenge before the user and a closure the user before the challenge
  presented, so these two can wait for each other (`Locks.LoginMeetsClosure`,
  `Locks.LoginAndClosureGetStuck`).
- The line loop is not the parser of section 9.2.6 of the WHATWG HTML Standard. It reads a line alike if and
  only if the line conforms: it names data or an event only with a colon and a value without outer blanks,
  an event name is not empty, and no blank line drops a name (`SseStandard.SameStepExactly`,
  `SseStandard.SameEventsExactly`). Five inputs show the ways to differ
  (`SseStandard.SecondBlankIsStripped`, `SseStandard.BareDataIsIgnored`, `SseStandard.EmptyNameIsKept`,
  `SseStandard.NameOutlivesBlankLine`, `SseStandard.NameOutlivesBareField`). The relay's own frames conform
  (`SseStandard.FramesAreStandard`).
- An event is lost or altered when its JSON text contains a character at which the client library splits
  lines (`Sse.ReadBackExactly`).

## Model

| member | source | states |
|---|---|---|
| `Merge.PutAllKeepsNewest` | src/admin/projection.py:223-260 | after any snapshots every stored row is one that was offered, and no offered one is newer |
| `Merge.OrderIndependent` | src/admin/projection.py:223-260 | any order and repetition of the same snapshots ends in the same rows, when a version has one payload |
| `Merge.Idempotent` | src/admin/projection.py:223-260 | offering everything again changes nothing, whatever the payloads |
| `Merge.CommuteExactlyWhen` | src/admin/projection.py:223-260 | two snapshots commute if and only if they cannot both win one version of one key |
| `Projection.TripOfJob` | src/admin/projection.py:111-117 | finds a trip bound to the job if and only if there is one |
| `Projection.ApplyJobSnapshot` | src/admin/projection.py:195-238 | the row after a snapshot, the unchanged tables when the unique source id is violated, and the locks taken in order |
| `Projection.JobSnapshotMerges` | src/admin/projection.py:223-238 | on source columns a job snapshot is the version-gated merge, whatever association is computed |
| `Projection.ApplyStepSnapshot` | src/admin/projection.py:241-261 | inserts, replaces or keeps one step, and fails on a missing job or a second pending insert |
| `Projection.ApplyStepSnapshots` | src/admin/projection.py:299-300 | the step loop of a transaction, with its foreign key failures and its locks |
| `Projection.StepSnapshotsMerge` | src/admin/projection.py:241-261 | on source columns the step loop is the version-gated merge of the list |
| `Projection.InIdOrder` | src/admin/projection.py:299 | the changed steps, all of them, in ascending id order |
| `Projection.ApplyProjectionEvent` | src/admin/projection.py:264-324 | the event transaction: duplicate, poison, unavailable, blocked or applied, undone as a whole on an integrity failure |
| `Projection.ApplyProjectionHeartbeat` | src/admin/projection.py:327-348 | a heartbeat is stored only by an active stream at exactly its watermark |
| `Projection.PauseProjectionStream` | src/admin/projection.py:351-361 | pauses the stream and changes nothing else |
| `ProjectionStream.ExactlyOnceInOrder` | src/admin/projection.py:264-361 | in every schedule of deliveries, heartbeats, pauses, repairs and pages: numbers 1..applied recorded once each, next = applied + 1, no heartbeat ahead, source columns equal the in-order fold |
| `ProjectionStream.RedeliveryIsDuplicate` | src/admin/projection.py:275-278 | a known event id changes nothing; the answer is DUPLICATE if and only if the payload was accepted |
| `ProjectionStream.DuplicateForever` | src/admin/projection.py:275-278 | an accepted event is answered DUPLICATE without change at every later time of every run |
| `ProjectionStream.AppliedExactly` | src/admin/projection.py:270-315 | an event is applied if and only if it is next, no other job's row holds the source id of its new or newer job, and no step that is not stored yet occurs twice; the next event is otherwise an integrity failure |
| `ProjectionOutcomes.ValidExactly` | src/admin/projection_schemas.py:302-389 | an event is valid by its identities, numbers and sizes |
| `ProjectionOutcomes.HeartbeatExactly` | src/admin/projection.py:327-348 | a heartbeat is stored if and only if it is at the watermark of an active stream, and what it stores |
| `ProjectionOutcomes.PausedRow` | src/admin/projection.py:351-361 | a pause stops the stream and keeps what it has reached |
| `ProjectionStream.AcceptsAPrefix` | src/admin/projection.py:290-308 | whatever the broker reorders, delays or repeats, the accepted events are a prefix of the outbox |
| `ProjectionStream.HighestVersionWins` | src/admin/projection.py:223-260 | in every run each row holds the highest version ever merged for its id |
| `ProjectionStream.RunsConverge` | src/admin/projection_sync.py:95-102 | two runs over the same snapshots, by events, pages or repairs, end in the same source columns |
| `StreamRuns.RunIsStreamRun` | src/admin/projection.py:264-361 | every run of the whole service is a run of the stream: no other transaction touches what it owns |
| `StreamRuns.StreamIsExactlyOnce` | src/admin/projection.py:264-361 | exactly-once order and the fold hold among all other transactions of the service |
| `ProjectionConsumer.DeliveryAttempt` | src/admin/projection_consumer.py:83-95 | one more than the larger readable header, never less than one |
| `ProjectionConsumer.HandleMessage` | src/admin/projection_consumer.py:97-133 | acknowledge, requeue or reject, with the database after it and whether the worker goes on |
| `ProjectionConsumer.NothingIsLost` | src/admin/projection_consumer.py:97-133 | acknowledged only if recorded, requeued only without change, rejected only as poison with the stream paused |
| `ProjectionConsumer.BoundedPoisonRetries` | src/admin/projection_consumer.py:113-122 | poison is rejected from the configured number of deliveries on, and not before unless the other header counts more |
| `ProjectionConsumer.RejectedWhenCounted` | src/admin/projection_consumer.py:83-122 | whatever the headers, poison is rejected if and only if the larger readable one has reached the configured maximum less one |
| `ProjectionOutcomes.PoisonExactly` | src/admin/projection_consumer.py:97-133 | a message is poison if and only if it cannot be read or its event is invalid or contradicts an accepted one |
| `ProjectionConsumer.HeadIsAcknowledged` | src/admin/projection_consumer.py:103-104 | an event is acknowledged if and only if it was accepted before, or it is next, no other job's row holds its new or newer job's source id, and no step that is not stored yet occurs twice in it |
| `ProjectionConsumer.HeartbeatIsAcknowledged` | src/admin/projection_consumer.py:105-110 | a heartbeat is acknowledged if and only if the active stream has applied exactly what it announces |
| `ProjectionConsumer.LateHeartbeatsAreNeverAcknowledged` | src/admin/projection_consumer.py:105-110 | a heartbeat that the stream has passed is requeued at every later time of every run |
| `ProjectionConsumer.OnlyARepairResumes` | src/admin/projection.py:287-310 | a paused stream applies nothing but a repair of the expected event, which resumes it in the same transaction |
| `AssociationAgreement.NothingImpossible` | src/admin/projection_sync.py:199-210 | a row that agrees with its trip is never one that reconciliation calls impossible |
| `AssociationAgreement.AcceptKeepsAssociations` | src/quota/service.py:275-307 | binding a job and relinking its row keeps every row in agreement with its trip |
| `AssociationAgreement.SnapshotKeepsAssociations` | src/admin/projection.py:120-150 | a snapshot recomputes the association and keeps the agreement |
| `AssociationAgreement.ErasureKeepsAssociations` | src/account/closure.py:135-161 | erasing the trips of an account together with their rows keeps the agreement |
| `AssociationAgreement.AcceptanceAgreesWithSnapshot` | src/quota/service.py:286-307 | acceptance and snapshots compute one association: an old snapshot right after an acceptance changes nothing |
| `AssociationAgreement.SnapshotRestoresAgreement` | src/admin/projection.py:207-238 | a snapshot restores any row that an uncontrolled interleaving left behind if and only if the row is no stray tombstone and not ahead of the facts |
| `Quota.ReserveTrip` | src/quota/service.py:120-213 | reserves one unit under the user lock, or answers the first of the five refusals that applies |
| `Quota.ReserveConditions` | src/quota/service.py:132-166 | what a reservation requires: an active user with a unit left, no active trip, no trip for this request |
| `Quota.SaveUpstreamAcceptance` | src/quota/service.py:254-309 | binds the job, moves the status and relinks the projection row, or refuses |
| `Quota.MarkUpstreamUncertain` | src/quota/service.py:312-329 | counts an attempt on a trip that is still being submitted |
| `Quota.SettleTrip` | src/quota/service.py:367-419 | settles entry and trip together, or answers why not |
| `Quota.UpdateActiveStatus` | src/quota/service.py:422-447 | advances an active status, never back and never after the end |
| `TripOutcomes.ReservationAnswers` | src/quota/service.py:132-171 | each of the six answers of a reservation, if and only if the user, the user's trips and the balance call for it |
| `TripOutcomes.ReservedRows` | src/quota/service.py:173-213 | a reservation adds one fresh trip with one reserved unit; any other answer changes nothing |
| `TripOutcomes.AcceptedExactly` | src/quota/service.py:262-276 | a job is accepted if and only if the trip is active, bound to no other job, and nobody else has the job |
| `TripOutcomes.AcceptedRow` | src/quota/service.py:275-285 | the trip after an acceptance: job, status, start time and association version |
| `TripOutcomes.ProgressedRow` | src/quota/service.py:422-447 | a report of progress leaves the later of two active states, and a finished trip alone |
| `TripOutcomes.SettledExactly` | src/quota/service.py:375-411 | an active trip is settled if and only if a final report comes from its owner and its result is not another trip's |
| `TripOutcomes.SettledRow` | src/quota/service.py:389-419 | the trip and its entry after a settlement, and that nothing else changes |
| `Ledger.ReserveKeepsLedger` | src/quota/service.py:151-213 | one active trip per user without the partial unique index, one trip per request, one entry per trip |
| `Ledger.AcceptKeepsLedger` | src/quota/service.py:273-282 | acceptance keeps the ledger invariant |
| `Ledger.SettlementNeverFails` | src/quota/service.py:389-411 | the quota invariant error is unreachable: an active trip still holds its reservation |
| `Ledger.SettleKeepsLedger` | src/quota/service.py:389-419 | settlement moves trip and entry together |
| `Ledger.CloseKeepsLedger` | src/account/closure.py:135-178 | closure keeps the ledger invariant |
| `Money.ClampNeverFires` | src/quota/service.py:56-58 | the visible balance is the exact one |
| `Money.ReservationTakesOneUnit` | src/quota/service.py:164-213 | a reservation takes one unit from its user alone and reports the balance that results |
| `Money.SettlementGivesBackOne` | src/quota/service.py:384-411 | settling gives the unit back if and only if the trip did not succeed |
| `Money.SettleKeepsMoney` | src/quota/service.py:383-411 | settlement never uses more than before |
| `Money.AdjustmentIsExact` | src/admin/service.py:283-320 | an adjustment moves the balance by its delta, from its recorded before to its recorded after |
| `Money.AdjustKeepsMoney` | src/admin/service.py:281-320 | no adjustment makes the balance negative |
| `Money.ErasureKeepsMoney` | src/account/closure.py:163-189 | closing one account changes nobody else's balance |
| `QuotaRace.NeverOverspent` | src/quota/service.py:164-212 | with settlements between the balance reading and the write, nobody ever spends more than the limit |
| `QuotaRace.RecordedBalance` | src/admin/service.py:283-320 | under such races the recorded balance is a lower bound, exact if and only if nothing was freed since the reading |
| `QuotaRace.FailureBetweenIsMissed` | src/admin/service.py:283-320 | input: a trip that fails between the reading and the insert leaves the recorded balance one unit below the actual one |
| `Reversals.OddChainsCount` | src/admin/service.py:287-305 | a chain of reversals contributes its first delta when its length is odd and nothing when it is even |
| `Reversals.TotalIsSumOfChains` | src/admin/service.py:287-319 | a user's adjusted total is the sum of what the user's chains contribute |
| `Reversals.AppendKeepsChains` | src/admin/service.py:296-305 | an allowed adjustment extends at most one chain, at its end |
| `Reversals.AdjustKeepsChains` | src/admin/service.py:287-319 | every adjustment keeps the chains disjoint, acyclic and alternating |
| `Reversals.ErasureKeepsChains` | src/account/closure.py:184-193 | forgetting a user keeps the chains of the others |
| `Admin.ClaimAdminIdempotency` | src/admin/idempotency.py:59-99 | conflict, in progress, replay, or a fresh claim |
| `Admin.MutateUserAccount` | src/admin/service.py:162-242 | disables, restores, grants or revokes under a key; a refusal leaves no trace |
| `Admin.MutationIsAuthorized` | src/admin/service.py:140-159 | roles are changed by the owner alone; the owner is never disabled; others act on members other than themselves |
| `Admin.MutationRevokesSessions` | src/admin/service.py:198-218 | a mutation changes one user and revokes all of that user's sessions, unless it restores |
| `AccountOutcomes.MutatedExactly` | src/admin/service.py:140-197 | a mutation is made if and only if its caller may do this to the target; each refusal with its condition |
| `AccountOutcomes.MutatedRow` | src/admin/service.py:198-206 | the user's row after each of the four actions |
| `Admin.CreateQuotaAdjustment` | src/admin/service.py:245-353 | inserts the adjustment and completes the key, or answers the first refusal and leaves no trace |
| `Admin.ReverseQuotaAdjustment` | src/admin/service.py:356-391 | looks the original up, then adjusts by its opposite |
| `Admin.LookUpReversal` | src/admin/service.py:368-380 | the first transaction: the change that undoes an adjustment, if the adjustment still has its account |
| `Admin.AdjustCases` | src/admin/service.py:267-353 | an adjustment changes nothing, or finds a fresh key, a covering balance and a reversible original |
| `AccountOutcomes.AdjustedExactly` | src/admin/service.py:267-312 | an adjustment is made if and only if its key is unused, its caller may act on the target, the balance covers it and its original can be reversed; a forbidden target is answered FORBIDDEN without change |
| `AccountOutcomes.ReversedExactly` | src/admin/service.py:356-391 | so is a reversal, on the account of its original |
| `AccountOutcomes.AdjustedRows` | src/admin/service.py:307-353 | the new adjustment's row and the response |
| `Idempotency.StepKeepsEffects` | src/admin/idempotency.py:59-113 | every step keeps one record per effect, all succeeded, and never changes a record |
| `Idempotency.FailureLeavesKeyUnused` | src/admin/idempotency.py:59-113 | a failed operation leaves the database, and so the key, as it was |
| `Idempotency.ReverseReplay` | src/admin/service.py:368-391 | an identical reversal is replayed if and only if its original still has its target |
| `AccountClosure.CloseAccount` | src/account/closure.py:37-211 | the whole erasure or one of six refusals, with the locks in order |
| `AccountClosure.CloseIsAllOrAttempt` | src/account/closure.py:66-101 | every other answer changes at most the attempt counter of the challenge |
| `AccountOutcomes.ClosedExactly` | src/account/closure.py:60-101 | an account is closed if and only if its pending code is presented while no trip is under way |
| `AccountOutcomes.WrongClosureCode` | src/account/closure.py:79-91 | a wrong code for a pending closure counts one attempt and changes nothing else |
| `AccountOutcomes.NoClosureCode` | src/account/closure.py:62-78 | without a pending code nothing changes, and a used, expired or exhausted one gets its own answer |
| `AccountOutcomes.ClosureKeepsOthers` | src/account/closure.py:163-209 | a closure removes the rows of its account and leaves those of all others as they were |
| `AccountOutcomes.ClosureLeaves` | src/account/closure.py:101-106 | which challenges go, what is quarantined, and the tables that stay |
| `AccountOutcomes.ClosureErases` | src/account/closure.py:135-148 | the account's trips and adjustments lose their owner, the others nothing |
| `AccountOutcomes.ClosureUnlinks` | src/account/closure.py:149-161 | the projection row of each of its trips is de-identified, the others stay |
| `AccountClosure.EraseEach` | src/account/closure.py:135-161 | the loop erases exactly the listed trips and the rows of their jobs |
| `AccountClosure.PurgeUser` | src/account/closure.py:163-209 | the bulk deletes and updates |
| `TripSubmission.HermesJobs.CreateTrip` | src/integrations/hermes.py:418-441 | the assumed upstream: one job per request id, however often it is asked |
| `TripSubmission.SubmitReserved` | src/trips/service.py:79-146 | accept, reject, count an uncertain attempt or fail, by the upstream's reply |
| `TripSubmission.ActOnReply` | src/trips/service.py:94-146 | what is written and answered for each reply, also for an empty job id |
| `TripOutcomes.ServedIsBound` | src/trips/service.py:126-134 | a reply with a job binds the trip to the job that upstream holds for it |
| `TripOutcomes.DoubtIsCounted` | src/trips/service.py:105-125 | a doubtful reply or an empty job id counts one attempt and changes nothing else |
| `TripOutcomes.FailureIsFinal` | src/trips/service.py:94-118 | a definite failure and an unsupported city end the trip with their codes and give the unit back |
| `TripSubmission.SubmitTrip` | src/trips/service.py:149-216 | reserve, submit what still awaits submission, and report the balance and quota state |
| `TripOutcomes.NewTripIsPosted` | src/trips/service.py:165-216 | a submission posts what it has reserved and reports the outcome; without a reservation it posts nothing |
| `TripSubmission.ApplyJobStatus` | src/trips/service.py:219-270 | advance, settle, or refuse a report for another job or without a result |
| `TripOutcomes.SuccessIsApplied` | src/trips/service.py:252-260 | a successful report on an active trip ends it with its result and consumes its unit |
| `TripOutcomes.FailureIsApplied` | src/trips/service.py:261-270 | any other final report ends it as reported, with a safe code and no result, and releases its unit |
| `TripOutcomes.ProgressIsApplied` | src/trips/service.py:243-249 | a report of progress does what progress does |
| `TripOutcomes.AppliedExactly` | src/trips/service.py:226-270 | when a report is applied, refused or not the caller's, and that otherwise nothing changes |
| `TripSubmission.SafeCode` | src/trips/service.py:68-76 | every upstream error code is mapped into the fixed table |
| `TripSubmission.DifferentJobUnreachable` | src/quota/service.py:271-272 | with an idempotent upstream no reply names a different job than the one bound |
| `TripSubmission.SubmissionNeverBreaks` | src/trips/service.py:79-146 | no fate of a request ends in an internal error |
| `TripSubmission.ResubmissionReservesNothing` | src/quota/service.py:136-149 | a request that has its trip reserves nothing more, whatever became of the first attempt |
| `TripSubmission.ResubmissionIsIdempotent` | src/trips/service.py:165-216 | a submission that was answered is answered the same again, without asking upstream |
| `TripSubmission.ReportedStateIsTheEntrys` | src/trips/service.py:206-216 | the reported quota state is the state of the user's one-unit entry |
| `TripSubmission.ReleasedYetAccepted` | src/trips/service.py:107-118 | a unit can be released for a job that upstream accepted: a lost reply followed by an unreachable upstream |
| `SubmissionRuns.UpstreamHoldsExactly` | src/integrations/hermes.py:418-441 | after any run upstream holds a job for a trip if and only if some post of the run was accepted |
| `SubmissionRuns.DefiniteFailureReleases` | src/trips/service.py:107-118 | after any run a definite failure fails the trip and releases its unit, and upstream holds a job for it if and only if an earlier post was accepted |
| `SubmissionRuns.UncountedWasNeverAccepted` | src/quota/service.py:312-329 | what a caller can check on the row: a trip that awaits submission with no attempt counted was never accepted, unless an accepted post left no trace |
| `SubmissionRuns.RowTellsExactly` | src/quota/service.py:312-329 | no attempt is counted if and only if no run that leaves the service as it is, with no such post, has the trip accepted: the tables hold no better test |
| `SubmissionRuns.CrashHidesAcceptance` | src/trips/service.py:88-134 | input: a worker dies between an accepted post and its write; the row shows no attempt and the unit is released |
| `TripSubmission.ReconcileEach` | src/trips/reconciliation.py:60-95 | the loop over the claimed trips, ended by an error that is not an integration error |
| `TripSubmission.ClaimTrips` | src/trips/reconciliation.py:31-58 | counts one attempt on each of at most a batch of eligible trips |
| `TripSubmission.ReconcileItem` | src/trips/reconciliation.py:62-95 | one claimed trip: recovered, unresolved, or an error that ends the pass |
| `TripOutcomes.ClaimedExactly` | src/trips/reconciliation.py:31-43 | an eligible trip is claimed if and only if fewer than a batch of eligible ones come before it |
| `TripOutcomes.ClaimedRows` | src/trips/reconciliation.py:54-58 | a claim counts one attempt on each trip it picks and changes nothing else |
| `TripOutcomes.PostedAgain` | src/trips/reconciliation.py:64-77 | a claimed trip without a job is bound by a reply and left for later otherwise |
| `TripOutcomes.AskedAbout` | src/trips/reconciliation.py:78-95 | a claimed trip with a job is asked about, and a report is applied as any other |
| `TripSubmission.ReconcileBounded` | src/trips/reconciliation.py:23-100 | every claimed trip is recovered or unresolved unless an error ends the pass; the state is that of the items in order |
| `ProjectionSync.Hermes.Snapshots` | src/admin/projection_sync.py:66-76 | the assumed page contract: rows after the cursor, in order, below a maximum fixed by the first page |
| `ProjectionSync.ServedPage` | src/admin/projection_sync.py:76-88 | a page served under the contract holds exactly the rows between its cursor and its end and passes the shape checks |
| `ProjectionSync.JobSnapshotsMerge` | src/admin/projection_sync.py:95-98 | a page of jobs is the version-gated merge of its items |
| `ProjectionSync.PageMakesPresent` | src/admin/projection_sync.py:95-102 | after a page its rows are stored at their version or newer, and nothing went back |
| `ProjectionSync.StepsNeedTheirJobs` | src/admin/projection.py:241-261 | steps with distinct ids are refused if and only if a new or newer one has no job row |
| `ProjectionSync.StepPageRefused` | src/admin/projection_sync.py:99-102 | a page of steps is refused if and only if it holds a new or newer step whose job is not stored |
| `ProjectionSync.JobPageRefused` | src/admin/projection_sync.py:95-98 | jobs with distinct ids are refused if and only if the source id of a new or newer one is held by another job's row that none before it moved |
| `ProjectionSync.NamedJobsAccepted` | src/admin/projection_sync.py:95-98 | under a stable one-to-one mapping of source ids and job ids every page of jobs is accepted and keeps the mapping |
| `ProjectionBackfill.CommitPage` | src/admin/projection_sync.py:90-109 | one page's transaction, undone as a whole when a row is refused |
| `ProjectionBackfill.NextIsFetched` | src/admin/projection_sync.py:22-33 | the next page is never refused by the worker's own checks and continues the committed ones, whatever the upstream has grown to |
| `ProjectionOutcomes.RequestExactly` | src/admin/projection_sync.py:22-33 | the first page, or the one after the cursor below the frozen maximum, or the error of a lost maximum |
| `ProjectionOutcomes.PagePassesExactly` | src/admin/projection_sync.py:76-88 | a page passes if and only if it names a cursor exactly when it has more, and that is its last row |
| `ProjectionOutcomes.MaximumIsFrozen` | src/admin/projection_sync.py:90-94 | a page with another maximum than the frozen one, and no other, is refused for it |
| `ProjectionBackfill.CommitTakesPage` | src/admin/projection_sync.py:104-111 | a commit takes exactly its page from the rows still ahead |
| `ProjectionBackfill.BackfillTilesTheSnapshot` | src/admin/projection_sync.py:22-112 | for every schedule of fetches, commits, crashes, restarts, growth and other commits, also between a fetch and its commit: the committed pages tile the ids without gap or overlap, the frozen maxima are never lost, and a complete table has every row at its version or newer |
| `ProjectionBackfill.OnlyOrphansAreRefused` | src/admin/projection_sync.py:90-109 | in every such schedule a page of jobs is committed, and one of steps is refused if and only if it holds a new or newer step whose job is not stored |
| `ProjectionBackfill.CommitsMakeProgress` | src/admin/projection_sync.py:104-111 | each commit completes its table or moves its cursor up below the frozen maximum |
| `ProjectionBackfill.BackfillTurn` | src/admin/projection_sync.py:67-111 | one turn of the loop: stop at a completed checkpoint, or fetch, check and commit |
| `ProjectionBackfill.BackfillEntity` | src/admin/projection_sync.py:66-111 | the loop of one table terminates; for jobs it always completes, for steps unless the next page is refused |
| `ProjectionBackfill.RunProjectionBackfill` | src/admin/projection_sync.py:52-112 | jobs always complete; the run fails if and only if the next page of steps is refused; with a still upstream it completes if and only if every step ahead is stored or has its job stored or ahead |
| `StoppedBackfill.StepBackfillCanStop` | src/admin/projection_sync.py:62-112 | input: from a fresh start, a job created after the job backfill completed stops the step backfill, and no number of retries stores anything more |
| `ProjectionReconciliation.AllSourceSnapshots` | src/admin/projection_sync.py:115-146 | collects every row up to a maximum no older than the start, no row older than at the start; neither error can occur |
| `ProjectionReconciliation.CompareAndRepair` | src/admin/projection_sync.py:176-231 | the counted sets, and the repair of missing and stale rows as one transaction |
| `ProjectionReconciliation.ReconcileProjection` | src/admin/projection_sync.py:149-231 | the comparison is with rows the upstream has held, with the source itself if it stands still; under the stable mapping the repair is refused if and only if a missing or newer step has its job neither stored nor read |
| `ProjectionOutcomes.JobsCountedExactly` | src/admin/projection_sync.py:185-193 | which job ids are missing, extra and stale |
| `ProjectionOutcomes.StepsCountedExactly` | src/admin/projection_sync.py:186-198 | which step ids are missing, extra and stale |
| `ProjectionOutcomes.ImpossibleExactly` | src/admin/projection_sync.py:199-210 | which rows are impossible |
| `ProjectionOutcomes.PassedExactly` | src/admin/projection_sync.py:226-238 | a run is PASSED if and only if nothing is counted |
| `ProjectionReconciliation.RepairConverges` | src/admin/projection_sync.py:185-231 | after a repair that goes through, a comparison with the same copies misses nothing, has the same extra rows, and is stale in exactly the rows ahead of their copy |
| `ProjectionReconciliation.SecondPassPasses` | src/admin/projection_sync.py:226-238 | after a repair that goes through, a comparison with the same copies is PASSED if and only if nothing was extra and nothing was ahead of its copy |
| `ProjectionReconciliation.RepairRefusedExactly` | src/admin/projection_sync.py:166-225 | under a one-to-one mapping a repair is refused if and only if a missing or newer step has its job neither stored nor among the jobs read |
| `ProjectionReconciliation.AheadRowsStay` | src/admin/projection_sync.py:185-225 | a row that is ahead of its copy is counted as stale, and no repair changes what it holds |
| `UpstreamRuns.NothingIsAhead` | src/admin/projection_sync.py:149-231 | in every run of the service, a growing upstream and a reconciliation whose readings, comparison and repair are separate steps, no row is ahead of the upstream, none is extra and none is impossible |
| `UpstreamRuns.ReconciliationPasses` | src/admin/projection_sync.py:149-238 | after any run, a reconciliation of an upstream that stands still goes through, whatever the service does between comparison and repair, and every later comparison is PASSED until the upstream grows |
| `Failures.OvertakenCopyIsStale` | src/admin/projection_sync.py:166-225 | input: a run in which a job moves on between the reading and the comparison; its correct row is counted as stale, the repair changes nothing in it, and the next reading passes |
| `Failures.ArisenJobIsRefused` | src/admin/projection_sync.py:166-225 | input: a run in which a job arises with its step between the reading of jobs and that of steps; the repair is refused as a whole |
| `ProjectionReconciliation.RepairTouchesOnlyListed` | src/admin/projection_sync.py:211-225 | rows neither missing nor stale are untouched |
| `ProjectionReconciliation.JobsComeFirst` | src/admin/projection_sync.py:213-225 | after the job phase exactly the stored jobs and those read have their rows |
| `ProjectionReconciliation.NoneImpossible` | src/admin/projection_sync.py:199-210 | no impossible row is found, before or after a repair |
| `Profile.AllocateDefaultName` | src/profile/service.py:59-99 | the first free one of at most 32 draws |
| `Profile.DefaultName` | src/profile/service.py:64-98 | a default name is free when it is given |
| `Profile.QuarantineFormerName` | src/profile/service.py:102-124 | an upsert that restarts the fifteen days |
| `Profile.RenameDisplayName` | src/profile/service.py:127-193 | renamed, unchanged, or the first refusal |
| `AccountOutcomes.RenameAnswers` | src/profile/service.py:136-171 | each of the five answers of a rename, by the user, the cooldown and the name |
| `AccountOutcomes.RenamedRows` | src/profile/service.py:154-183 | the user's row and the quarantine after a rename; any other answer changes nothing |
| `AccountOutcomes.DefaultNameExactly` | src/profile/service.py:64-98 | a default name is found if and only if one of the first draws is free |
| `AccountOutcomes.FirstFreeDraw` | src/profile/service.py:64-98 | and it is the first free one |
| `NameOwnership.RenamingKeepsNames` | src/profile/service.py:154-183 | a rename keeps names unique and out of quarantine |
| `NameOwnership.ClosingKeepsNames` | src/account/closure.py:101-106 | a closure puts the name into quarantine and keeps the others |
| `NameOwnership.GivingUpQuarantines` | src/profile/service.py:172-177 | a name given up is quarantined for the full period from that moment |
| `Auth.VerifyAuthCode` | src/auth/service.py:263-381 | every outcome of a verification and the tables after it |
| `Auth.VerifyRegisters` | src/auth/service.py:332-380 | a registration spends an open challenge and a usable invitation, for a new email and under a free name |
| `Auth.VerifyLogsIn` | src/auth/service.py:317-329 | a login opens one session of the active user who owns the challenge's email, and spends the challenge |
| `Auth.VerifyFails` | src/auth/service.py:279-300 | anything else changes at most the challenge presented |
| `AccountOutcomes.CodeNotOpen` | src/auth/service.py:279-290 | the answer for each code that may not be tried, and that nothing changes |
| `AccountOutcomes.WrongAuthCode` | src/auth/service.py:291-300 | a wrong code counts one attempt and changes nothing else |
| `AccountOutcomes.LoginAnswers` | src/auth/service.py:301-330 | the right code of a login signs in whoever owns the challenge's email if and only if that is an active user, and asks for a registration if and only if nobody owns it |
| `AccountOutcomes.RegistrationAnswers` | src/auth/service.py:331-380 | the right code of a registration registers if and only if the email is new, the invitation open and a draw free; each other answer with its exact condition |
| `AccountOutcomes.RegisteredRows` | src/auth/service.py:341-380 | the rows of a registered user |
| `Accounts.WelcomeKeepsRegistrations` | src/invitations/service.py:27-32 | a redeemed invitation registers nobody else |
| `Accounts.OpeningKeepsOpenings` | src/auth/service.py:301-302 | a consumed challenge opens nothing else |
| `History.EveryRowOnce` | src/history/service.py:112-159 | following the cursor to the end shows every row that matches at all page reads exactly once, newest first, although rows are inserted or expire between pages |
| `History.WalkEnds` | src/history/service.py:147-159 | the walk ends once the full pages would exceed the rows of the history |
| `History.Listing` | src/history/service.py:142-152 | the matching rows, all of them, in strictly descending order |
| `TripOutcomes.HistoryShowsExactly` | src/history/service.py:112-142 | a history shows an account's own finished trips that are neither archived nor past their date |
| `Cursor.DecodeInvertsEncode` | src/history/cursor.py:21-34 | the lenient decoder inverts unpadded base64url for all bytes (section 5 of RFC 4648) |
| `Cursor.CursorRoundTrip` | src/history/cursor.py:14-45 | a cursor is read back as its id if and only if the id has the trip_ prefix |
| `Cursor.AcceptedIsSigned` | src/history/cursor.py:26-45 | an accepted cursor carries the signature of the id it names |
| `Sse.StreamJob` | src/integrations/hermes.py:562-578 | the line loop yields the validated events up to the first invalid one |
| `ProjectionOutcomes.ValidatedExactly` | src/integrations/hermes.py:571-576 | an event is valid if and only if its data can be decoded and its status is one for its name |
| `Sse.CommentsDoNotMatter` | src/integrations/hermes.py:564-566 | comment lines anywhere change nothing |
| `Sse.SameWithoutComments` | src/integrations/hermes.py:564-566 | two lists of lines that differ only in comments are read the same |
| `Sse.PrintedIsRead` | src/integrations/hermes.py:562-578 | the loop recovers every event list printed in the relay's frame format |
| `Sse.ReadBackExactly` | src/integrations/hermes.py:564-578 | a printed event is read back if and only if its payload has no character at which lines are split |
| `SseStandard.SameStepExactly` | src/integrations/hermes.py:562-578 | against a parser written from section 9.2.6 of the WHATWG HTML Standard: from states that agree, the loop and the standard read a line alike if and only if the line conforms |
| `SseStandard.SameEventsExactly` | src/integrations/hermes.py:562-578 | they read a stream alike, cut off and continued anywhere, if and only if every line conforms where it stands |
| `SseStandard.FramesAreStandard` | src/trips/router.py:140-209 | the standard reads the relay's own frames as the events they were printed from |
| `SseStandard.SecondBlankIsStripped` | src/integrations/hermes.py:573-576 | input: of two blanks after the colon the standard removes one, the loop both |
| `SseStandard.BareDataIsIgnored` | src/integrations/hermes.py:575-576 | input: a data field without a colon is a line of data for the standard and nothing for the loop |
| `SseStandard.EmptyNameIsKept` | src/integrations/hermes.py:573-574 | input: an empty event name means the default for the standard and an empty name for the loop |
| `SseStandard.NameOutlivesBlankLine` | src/integrations/hermes.py:571-578 | input: the loop keeps an event name over a blank line without data, the standard drops it |
| `SseStandard.NameOutlivesBareField` | src/integrations/hermes.py:573-574 | input: an event field without a colon resets the name for the standard, the loop keeps the last one |
| `Relay.OwnedSse` | src/trips/router.py:152-209 | the response for every list of upstream lines, and the database after it |
| `Relay.OneInterruption` | src/trips/router.py:203-209 | exactly one interruption, at the end, if and only if the stream ended without error and without a terminal event |
| `Relay.ForwardsInOrder` | src/trips/router.py:161-202 | events are forwarded in order and one for one |
| `TripOutcomes.CompletionIsRelayed` | src/trips/router.py:166-175 | the event that completes a trip ends it with its result before it is forwarded |
| `TripOutcomes.FailureIsRelayed` | src/trips/router.py:175-193 | a failure ends it as reported, with the safe code that is forwarded |
| `TripOutcomes.ProgressIsRelayed` | src/trips/router.py:194-202 | progress moves it on and is forwarded |
| `Relay.TerminalIsSettled` | src/trips/router.py:166-193 | a terminal event is forwarded only after its trip is terminal |
| `Relay.InterruptionSettlesNothing` | src/trips/router.py:194-209 | without a terminal event the trip stays active and no unit moves, as docs/database-and-quota.md:401-409 asks |
| `Relay.OnlySafeCodes` | src/trips/router.py:175-183 | a forwarded failure carries a code of the fixed table |
| `Relay.StrangersRelayNothing` | src/trips/router.py:161-202 | a relay in the name of anybody but the owner shows nothing and changes nothing |
| `Locks.EventPlan` | src/admin/projection.py:279-300 | an event locks the consumer state, the trip, the row and the steps in ascending order |
| `Locks.ClosePlan` | src/account/closure.py:48-134 | a closure locks the user, the challenge, the trips and the rows in ascending order |
| `Locks.ShortPlans` | src/admin/service.py:269-293 | so do reservations, settlements, acceptances, renames, user mutations and adjustments |
| `Locks.PrefixOrdered` | src/account/closure.py:48-134 | a transaction that ends early has taken an ascending part of its plan |
| `Locks.NoWaitCycle` | src/account/closure.py:48-134 | transactions with ascending plans never wait for each other in a circle |
| `Locks.SomebodyProceeds` | src/account/closure.py:48-134 | among unfinished ones somebody can always take its next lock |
| `Locks.LoginMeetsClosure` | src/auth/service.py:274-323 | login verification is not ascending; it and a closure wait for each other if and only if they name the same user and challenge |
| `Locks.NeverStuck` | src/account/closure.py:48-134 | in every schedule of acquisitions, transactions with ascending plans never get stuck |
| `Locks.LoginAndClosureGetStuck` | src/auth/service.py:274-323 | input: a schedule in which login verification and a closure each wait for the other |
| `TripRuns.StepKeepsTrips` | src/quota/service.py:120-447 | every step of the service keeps ledger, association, job binding, request history, claim bound and foreign keys together |
| `MoneyRuns.StepKeepsMoney` | src/quota/service.py:78-117 | every step keeps the balance bound and the reversal chains |
| `Accounts.StepKeepsAccounts` | src/auth/service.py:263-381 | every step keeps references intact, one grant and email per user, one user per invitation, one session per challenge |
| `NameOwnership.StepKeepsNames` | src/profile/service.py:59-193 | every step keeps the name rules and never shortens a quarantine |
| `System.EveryRun` | docs/database-and-quota.md:316-464 | the whole invariant, and all that is never undone, in every run of all transactions |
| `System.InstalledIsOk` | src/db/models.py:512-528 | a new installation satisfies the invariant |
| `Guarantees.TripsMatchTheirCredits` | src/quota/service.py:389-419 | in every run an owned trip is active, successful or failed exactly as its entry is reserved, consumed or released, and only one is active |
| `Guarantees.TripsOnlyMoveForward` | src/quota/service.py:385-386 | in every run terminal states absorb, the coarse rank never falls, a bound job stays bound |
| `Guarantees.SettledCreditsStay` | docs/database-and-quota.md:354-378 | in every run a consumed or released credit never changes while its trip has an owner |
| `Guarantees.NobodyOverspends` | src/quota/service.py:56-58 | in every run reserved and consumed units stay within the limit |
| `Guarantees.ReversalsFormChains` | src/admin/service.py:287-319 | in every run the reversal chains account for each user's total |
| `Guarantees.HistoryContinues` | src/history/service.py:112-142 | in every run an open account's trips stay listed and dated as they were |
| `Guarantees.OneTripOneJob` | src/trips/service.py:64-146 | over the whole run a user and request id get one trip, one job, and a bounded number of claims |
| `Guarantees.LateRepliesAgree` | src/quota/service.py:271-272 | a reply that arrives at any later time never finds a different job bound |
| `Guarantees.ProjectionAgrees` | src/admin/projection.py:120-150 | in every run each row agrees with its trip and a tombstone never changes |
| `Guarantees.ClosureIsComplete` | src/account/closure.py:47-211 | after a closure nothing refers to the account, in no continuation of the run |
| `Guarantees.OwnerStaysActive` | src/admin/service.py:148-159 | in every run the account named as owner is never disabled |
| `Guarantees.OneEffectPerKey` | src/admin/idempotency.py:59-113 | in every run an actor and key commit one effect, and no record is in progress |
| `Guarantees.MutationRepliesForEver` | src/admin/service.py:162-242 | at any later time an identical mutation is answered as the first was, and another one conflicts |
| `Guarantees.AdjustmentRepliesForEver` | src/admin/service.py:245-353 | the same for quota adjustments |
| `Guarantees.ReversalRepliesWhileOpen` | src/admin/service.py:356-391 | a repeated reversal is answered as the first was for exactly as long as the account is open |
| `Guarantees.ReversalSpansTwoTransactions` | src/admin/service.py:356-391 | whatever happens between the lookup of a reversal and its adjustment, it does what a reversal in one transaction would do then, unless the account was closed: then it changes nothing and is replayed, refused or NOT_FOUND |
| `Failures.ClosureEndsReplay` | src/admin/service.py:356-391 | input: an adjustment is reversed, the account is closed, and the repeated reversal is answered NOT_FOUND |
| `Guarantees.NamesAreUnique` | src/profile/service.py:154-171 | in every run no name has two owners or is owned in quarantine |
| `Guarantees.GivenUpNamesStayFree` | src/profile/service.py:102-124 | a name given up at t is owned by nobody during [t, t + 15 days), in every run |
| `Guarantees.RenamesAreAWeekApart` | src/profile/service.py:150-152 | renames of one user are at least seven days apart, in every run |
| `Guarantees.OneUserPerInvitation` | src/auth/service.py:333-360 | an invitation registers one user, even after that account is closed |
| `Guarantees.OneGrantPerUser` | src/auth/service.py:368-378 | every user has exactly one initial grant and one email of its own |
| `Guarantees.OneSessionPerChallenge` | src/auth/service.py:273-302 | a challenge opens one session and counts no more wrong codes than allowed |

## Left out

- FastAPI routing, middleware, session cookies, error texts, configuration, logging and the mailer: input and output.
- Rate limits of `send_auth_code` and `send_closure_code`: counting over time windows with no other use.
- Invitation batches, audit rows, dashboards, reports and guide reviews: no invariant shared with the rest.
- Trip contents (`request_json`, provenance, telemetry, city, days) and error messages: carried along unchanged; only the error code is kept.
- `archive_expired` and `projection_health`: a single update of one column and a classification of one lag.
- The advisory lock on the email and the nested savepoint in default name allocation: transactions are atomic here, so neither is contended.
- The reconciliation run's own row and `last_reconciliation_at`: a record of counts that nothing reads back.
- Actor references: an administrator's request in flight may outlive the closure of its actor, so only references to a user as owner, target or subject are covered.
- Interleavings inside a transaction, other than the balance races of `QuotaRace`: PostgreSQL's row locks and constraints are represented by atomic steps.
- `Locks.NoWaitCycle`: covers the explicit row locks; batches of backfill and repair, login verification, foreign key locks and bulk statements are excluded.
- `Projection.ApplyProjectionEvent`: validation covers identities, versions, sequence and the number of steps; formats, lengths and ranges of the other columns are not kept.
- `ProjectionReconciliation.ReconcileProjection`: reads, compares and repairs without other transactions in between, and its two table queries see one state; `UpstreamRuns` treats readings, comparison and repair as separate steps.
- `TripSubmission.ReconcileBounded`: the order by `updated_at` and the skipped locked rows are given as a list, since that column is not kept.
- `TripSubmission.SafeCode`, like `Quota.SaveUpstreamAcceptance`: `str.upper` is modelled on ASCII.
- `Profile.DefaultName`: a default name's presentation and key are one string, and fewer draws than 32 count as exhausted.
- `Cursor.DecodeInvertsEncode`: text is its UTF-8 bytes; the signature function and UTF-8 validity are parameters.
- `Sse.StreamJob`: JSON decoding is a parameter, and the lines are those that the HTTP client yields; `httpx` is not part of this model, nor is a leading byte order mark.
- `AccountClosure.CloseAccount`: requires the unique job column, which every reachable state satisfies.
- `ProjectionBackfill.RunProjectionBackfill`: requires the state that a new table or any earlier worker leaves behind, which `ProjectionBackfill.BackfillTilesTheSnapshot` shows to be every reachable one; other commits during the run are covered there.
- `SubmissionRuns.RowTellsExactly`: worker crashes appear as posts whose write never follows; which process made a post is not recorded.
- `Admin.ReverseQuotaAdjustment`: its two transactions run one after the other; `Guarantees.ReversalSpansTwoTransactions` covers what happens in between.
