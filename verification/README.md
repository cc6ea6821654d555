# Verified model of the operations platform

This project models the repository's three stateful cores and proves what their documentation and
tests rely on.

**The inference-run platform** (`internal/service`, `internal/domain`, `internal/storage/sqlite`).
Planning a run reserves dataset snapshots and a compute pool; starting, completing and archiving move
the run, its inputs and its pool together; quality observations outside the workspace's score range open
drift incidents and quarantine the inputs; a reviewer's decision releases or rejects them; approval tasks
and a job outbox are kept by a background worker. Almost none of these requests re-checks what the
others have left behind, so the correctness of each rests on facts that span all tables.

**The job outbox** (`internal/worker`, `internal/storage/sqlite/jobs.go`): oldest-first batches,
attempts, quadratic backoff.

**Room booking** (`internal/pet`): overlap counting against a room's capacity, a trigger that repeats the
count, order status, billing by started days, daily records; and the stored RFC 3339 time text that the
databases compare byte by byte.

## How the model is built

Tables are maps from identifiers to rows, held in the value `Tables.Db` (or `Booking.PetDb`). Each write is
a function with the errors its SQL statement can return: primary keys, UNIQUE columns, the partial unique
indexes and the expected version. A request is described twice.

* As the program runs it: methods of service classes (`Services`, `WorkerService`, `BookingService`) work on
  a copy of the tables, row by row in loops, and commit the copy at the end. A refused request leaves the
  store as it was.
* As a whole: a check that names why a request is refused, and the state after an accepted one
  (`Lifecycle`, `Operations`, `Booking`). The methods are proved equal to these, error for error. Where rows
  are visited in no particular order, the error reported is that of some row that objects.

What those checks and states come to is then said apart from them. `Conditions` tells by the rows alone, with every
number written out, when a request is accepted and what its refusals mean; `Effects` tells, field by field, what an
accepted one writes. `BookingInvariant` does both for booking.

Every commit appends one event to the store's ghost history, so a store is always `After(history)`.
`Histories` and `BookingHistory` then quantify over every sequence of requests whatever, refused ones
included, with any clock readings and identifiers; the theorems in `Guarantees`, `Idempotency`, `Evidence`,
`Settlements`, `RoundTrip`, `StuckRuns`, `Readiness` and `BookingHistory` hold of all of them, or of exactly those
that meet the condition stated.

| file | content |
|---|---|
| `Base.dfy` | errors, results, trimmed text, sums and cardinalities |
| `BusinessDay.dfy`, `Domain.dfy`, `Tables.dfy` | windows, entities and their state machines, tables and constraints |
| `Lifecycle.dfy`, `Operations.dfy` | what each platform request checks and does |
| `Conditions.dfy`, `Effects.dfy` | when each of them is accepted, and what it then writes, in terms of rows |
| `Invariant.dfy` | the cross-table facts |
| `PlanInvariant.dfy`, `RunInvariant.dfy`, `DriftInvariant.dfy`, `CatalogInvariant.dfy` | each request keeps them |
| `Histories.dfy`, `Guarantees.dfy` | all histories keep them, and what that means to users |
| `Idempotency.dfy`, `Evidence.dfy`, `Settlements.dfy`, `RoundTrip.dfy`, `Readiness.dfy` | properties of whole histories |
| `StuckRuns.dfy` | runs that can neither start nor be cancelled |
| `Scenario.dfy` | one run's whole life and one stuck run, worked out request by request |
| `RowWork.dfy`, `Services.dfy`, `WorkerService.dfy` | the row loops, the services, the worker |
| `Outbox.dfy` | batches, jobs, and outbox histories |
| `TimeText.dfy`, `StoredTimes.dfy` | byte order, the calendar, stored times, and the queries on whole seconds |
| `Fractions.dfy`, `DayCounts.dfy` | what fractions of a second do to the queries and to the daily limit |
| `Booking.dfy`, `BookingInvariant.dfy`, `Slots.dfy`, `BookingHistory.dfy`, `BookingService.dfy` | billing and booking |

## Where the code departs from what one would expect

* `ValidateSnapshot` also accepts a reserved snapshot (internal/domain/dataset_snapshot.go:71). Inputs of a
  queued or staged run are therefore reserved or validated, and an unstarted run can be cancelled, or started once
  staged, if and only if every input is reserved and unexpired (`StuckRuns.CancellableIff`,
  `StuckRuns.StartableIff`). A validated input holds its run, its pool, its inputs and its place in the daily limit
  for good (`StuckRuns.ValidatedInputsBar`), and so does an expired one (`StuckRuns.ExpiredInputsBar`);
  `StuckRuns.LeavesIff` says exactly which runs can ever move on, `Scenario.AStuckLife` reaches a stuck one.
* `RegisterSnapshot` and `CreateComputePool` store the run id their caller passes. The HTTP handlers pass none.
  `CatalogInvariant.RegisterKeepsInv` and `CatalogInvariant.AddPoolKeepsInv` show that the tables stay in
  agreement if and only if none is passed; histories follow the handlers.
* A completed run can be archived while an incident is open, namely when none of its inputs is quarantined
  (`Readiness.ArchivingNeedsReview`); `Scenario.AWholeLife` reaches such a run and archives it.
* Stored times are compared as text. For whole seconds the queries find what the model's integer comparisons find
  (`StoredTimes.OverlapReadsText`, `DayReadsText`, `PassReadsText`, `LatestReadsText`); times in the tables of the model
  are whole seconds. The program keeps fractions, and text inverts two instants exactly when they share a second and
  the fraction of one continues that of the other (`TimeText.TextOrderIsTimeOrder`). What then fails, and when:
  * The daily limit. A run that starts in the first second of a business day, but not on it, is checked against that
    day and counted for the day before (`DayCounts.BoundaryIff`, `DayCounts.CountedTextIs`, `DayCounts.DayCountIff`).
    Any number of such runs get past the limit of their day (`DayCounts.AnyNumberIsPlanned`), and they can use up that
    of the day before. The other runs of a day keep its limit over any history (`DayCounts.CountedRunsKeepLimit`); so
    a day's limit is safe if and only if no run is planned just after its beginning (`DayCounts.LimitIsKeptIff`).
  * Idempotency keys. The lookup compares parsed times, the upsert text; they disagree, and the request fails though
    its key is free, exactly when the present fraction continues that of the expiry (`Fractions.GuardAgreesIff`,
    `Fractions.GuardRefusesIff`, `Fractions.ARefusedGuard`).
  * Deadlines and retries. An approval can expire, and a job be claimed, too early, or be overlooked, by less than a
    second; `Fractions.EarlyIff`, `Fractions.LateIff` and `Fractions.FoundIff` say exactly when,
    `Fractions.AnEarlyLapse` gives an instance. Counted in whole seconds retries keep their distance
    (`Fractions.RetriesKeepSeconds`, `Fractions.BackoffKeepsSeconds`). Oldest-first batches are ordered the same way.
  * Readiness reports. The latest observation time can be an earlier one of the same second
    (`Fractions.TextLatestIff`).
  * Rooms. The overlap test misses overlaps and sees false ones (`Fractions.MissedIff`, `Fractions.FalseAlarmIff`), so
    a room can be overfilled (`Fractions.FractionsOverfill`).
* The overlap count is exact for rooms of capacity one and too strict for every larger capacity
  (`BookingInvariant.CountIsExactForOne`, `BookingInvariant.CountOverRefuses`).
* `UpdateRoom`, `UpdateRoomStatus` and `DeleteRoom` count orders and write in two statements, so histories give them
  counts that may be stale. No room is ever overfilled if and only if each accepted room change leaves room for the
  orders held at that moment (`BookingHistory.NeverOverfilledIff`, `BookingInvariant.RoomChangeFitsIff`); a count is
  safe for every change it lets through if and only if no instant has more orders than the larger of it and one
  (`BookingInvariant.CountIsSafeIff`). `BookingHistory.AStaleCountOverfills` is a history that overfills a room. A
  stale count can also set a room with orders to be cleaned (`BookingHistory.CleaningIsIdleIff` says exactly when) or
  delete it, and its orders then lose the reference to it.
* An order's pet can go, with its owner, after an administrator gave the pet to another user
  (internal/pet/store.go:70-72, internal/pet/pets.go:47-51, internal/pet/service.go:255-266); the order then keeps
  all its terms but the pet (`BookingHistory.TermsNeverChange`, `BookingHistory.AnOrderLosesItsPet`).
* Adding or moving a daily record reads the order and writes the record in two statements, so histories also let a
  checked record reach its table later; the order may have ended by then, but it still covers the date
  (`BookingHistory.ReadingsLast`), and the facts about records survive.
* A second daily record for one date is reported as a plain error when added and as a conflict when edited.

## Model

| member | source | states |
|---|---|---|
| BusinessDay.ZoneClock.WindowsPartition | internal/domain/data_zone.go:56-68 | Every instant lies in its own business-day window, and a window holds exactly the instants that are given that window. |
| BusinessDay.ZoneClock.WindowsEqualOrDisjoint | internal/domain/data_zone.go:56-68 | Two windows are one window or share no instant. |
| BusinessDay.ZoneClock.WindowBeginsAtCutoff | internal/domain/data_zone.go:61-67 | A window begins exactly at the cutoff hour of a local day. |
| BusinessDay.ZoneClock.WindowIsOneDay | internal/domain/data_zone.go:56-68 | A window is 86400 seconds long, holds its instant, begins at a cutoff and has no other cutoff inside. |
| Lifecycle.InputCheckMeans | internal/service/inference.go:104-121 | The snapshot loop refuses nothing exactly when every named snapshot is in the workspace and zone, validated, unexpired and named once. |
| PlanInvariant.AcceptedPlan | internal/service/inference.go:59-131 | What an accepted plan may rely on: free distinct validated snapshots that outlive the finish, an available pool large enough, a day below its limit, a new reference. |
| PlanInvariant.PlanKeepsDays | internal/service/inference.go:80-90 | Checking one window keeps the limit of every window of every zone, because the new start lies in no other window. |
| PlanInvariant.PlanKeepsTotals | internal/service/inference.go:101-143 | After planning, each run total is still the sum of its own inputs' rows, for the new run and for all others. |
| PlanInvariant.PlanKeepsPools | internal/service/inference.go:144-149 | Taking an available pool keeps pools and live runs in one-to-one agreement. |
| PlanInvariant.PlanKeepsInv | internal/service/inference.go:132-160 | An accepted plan keeps every cross-table fact. |
| Services.CheckRoute | internal/service/inference.go:59-94 | Passes exactly requests in an active workspace between two distinct active zones, on a day below its limit, for a pool that exists; not found means something named is missing, validation that the zones are one, conflict that something is inactive or the day full. |
| Services.ValidateWindow | internal/domain/window.go:17-36 | Passes exactly windows that are given, begin before they end, last at most the workspace's maximum, begin no earlier than 900 seconds ago, and end before every requested snapshot expires; validation means the window is not given or empty, everything else is a conflict. |
| RowWork.GatherInputs | internal/service/inference.go:101-121 | The loop with its running volume and seen-set stops at the first bad snapshot with that error; otherwise its batches are the reserved rows and its volume the sum over the set of requested snapshots. |
| RowWork.BindBatches | internal/service/inference.go:135-143 | Row by row, exactly the requested snapshots become reserved for the run and listed as its inputs; one that already feeds a run is a conflict. |
| Services.InferenceService.PlanInferenceRun | internal/service/inference.go:31-163 | The answer is the stored run, the conflict of a reused key, the first error, or the new run; only the last changes the store, by exactly one planning event, exactly when Conditions.PlansIff says and by what Effects.PlanWrites says. |
| Services.InferenceService.HoldAndAnswer | internal/service/inference.go:144-159 | After the lookup found no live answer, storing the new one never fails; the pool is held and the job queued in one go. |
| Conditions.PlansIff | internal/service/inference.go:31-131 | In reachable states a run is planned if and only if the key has 8 to 128 bytes on one line and no live answer, workspace and two distinct zones are active, the day has room, the window is allowed, the snapshots are distinct, unbound, validated and outlive now and finish, and the pool is free, attested over the start and takes their rows. |
| Conditions.PlanRefusals | internal/service/inference.go:59-131 | What each refusal says of the rows: something named is missing; zones, window or reference are wrong; a snapshot is not validated; the rows exceed the pool; or, a conflict, something named is inactive, full, busy, taken or expires too early. |
| Effects.PlanWrites | internal/service/inference.go:132-160 | Planning reserves exactly the named snapshots as inputs and writes, field by field, the run, its pool, an answer that expires after 86400 seconds and a job due at once. |
| RunInvariant.AdvanceKeepsStates | internal/service/inference.go:257-279 | Moving a run on puts every input in a state its new run state allows, and leaves other runs' inputs alone. |
| RunInvariant.AdvanceKeepsStep | internal/service/inference.go:257-279 | Moving a run on keeps all its inputs in one and the same state. |
| RunInvariant.AdvanceKeepsPools | internal/service/inference.go:280-294 | Allocating or freeing the pool without looking at its holder keeps pools and live runs in one-to-one agreement. |
| RunInvariant.AdvanceKeepsDrift | internal/service/inference.go:257-279 | Completing a run never lets an input pass as materialized beside an active incident. |
| RunInvariant.AdvanceKeepsInv | internal/service/inference.go:238-302 | Staging, starting, completing and archiving keep every cross-table fact. |
| RunInvariant.CancelKeepsTotals | internal/service/inference.go:203-214 | Cancelling removes the run's inputs and leaves the totals of all other runs right. |
| RunInvariant.CancelKeepsInv | internal/service/inference.go:187-230 | Cancelling keeps every cross-table fact. |
| RowWork.AdvanceInputs | internal/service/inference.go:253-279 | The loop moves all inputs as the whole-set description says, or fails with the objection of some input. |
| RowWork.ReleaseInputs | internal/service/inference.go:196-211 | The loop releases all inputs, or fails with the objection of some input that cannot go back to validated. |
| Services.InferenceService.TransitionAny | internal/service/inference.go:238-302 | Succeeds exactly when the run may move and no input objects, so as Conditions.AdvancesIff says; then one event is committed and the moved run returned, else nothing changes and the error is one the tables justify. |
| Services.InferenceService.CancelInferenceRun | internal/service/inference.go:181-232 | Succeeds exactly when the run has not started and every input can go back to validated; else nothing changes. |
| Services.ReferencesResolve | internal/storage/sqlite/migrations/001_initial.sql:82-107 | In a reachable state the pool and the inputs of any run exist and are valid, so looking them up cannot fail. |
| Conditions.AdvancesIff | internal/service/inference.go:238-279 | In reachable states a run is staged if and only if queued; started if staged with every input reserved and unexpired; completed if running with no expired input still materializing; archived if completed with none quarantined. |
| Conditions.ObjectionMeans | internal/service/inference.go:257-279 | Which error an input raises against each move: an invalid transition for its state, a conflict for its expiry or for archiving too early. |
| Conditions.CancelsIff | internal/service/inference.go:187-211 | In reachable states a run is cancelled if and only if queued or staged with every input reserved and unexpired. |
| Effects.AdvanceWrites | internal/service/inference.go:280-302 | Moving on stamps the run with the instant of that move; the pool is allocated at the start and freed with archiving. |
| Effects.AdvanceWritesInputs | internal/service/inference.go:257-279 | Starting materializes every input, completing ends that for those still at it, and no other snapshot changes. |
| Effects.CancelWrites | internal/service/inference.go:203-226 | Cancelling validates and releases exactly the run's inputs, drops their input rows and frees the pool. |
| DriftInvariant.AbsorbKeepsOneActive | internal/service/metrics.go:54-70 | Whether an incident is opened or extended, the run has exactly one active incident afterwards and other runs keep theirs. |
| DriftInvariant.ObserveKeepsDrift | internal/service/metrics.go:71-84 | Quarantining leaves no input of the run materializing or materialized beside the incident. |
| DriftInvariant.ObserveKeepsInv | internal/service/metrics.go:36-94 | Recording an observation keeps every cross-table fact. |
| DriftInvariant.DecideKeepsDrift | internal/service/review.go:56-97 | Closing the incident and settling its inputs keeps quarantine and active incidents in step. |
| DriftInvariant.DecisionSettlesInputs | internal/service/review.go:76-97 | Each quarantined input becomes approved or rejected as the decision says, and none stays quarantined. |
| DriftInvariant.DecideKeepsInv | internal/service/review.go:55-104 | Deciding keeps every cross-table fact. |
| DriftInvariant.ReviewKeepsInv | internal/service/review.go:22-36 | Starting a review keeps every cross-table fact. |
| Conditions.ObservesIff | internal/service/metrics.go:25-58 | In reachable states an observation is recorded if and only if it is complete and new, its run is running or completed, and, when out of range, the identifiers it needs are free. |
| Conditions.ObserveRefusals | internal/service/metrics.go:25-58 | Validation means an incomplete observation, not found a missing run or workspace, and all else is a conflict. |
| Effects.ObserveOpens | internal/service/metrics.go:54-70 | With no active incident, an observation below the minimum or above the maximum opens one of that score, to be reviewed within the workspace's time. |
| Effects.ObserveExtends | internal/service/metrics.go:54-70 | With an active incident, it extends that one by one observation and no other. |
| Effects.ObserveWrites | internal/service/metrics.go:48-94 | In range only the observation is stored; otherwise exactly the run's materializing and materialized inputs are quarantined, and a job asks for review. |
| Conditions.DecidesIff | internal/service/review.go:46-75 | In reachable states a decision is taken if and only if it clears or refuses, with a rationale and a new id, an incident that is open or under review. |
| Conditions.DecideRefusals | internal/service/review.go:46-75 | Which refusal of a decision comes first, in terms of the request and the incident's row. |
| Effects.DecideWrites | internal/service/review.go:56-104 | A decision stores incident, reviewer, outcome and trimmed rationale; exactly the run's quarantined inputs are approved without a note, or rejected with the rationale. |
| RowWork.QuarantineInputs | internal/service/metrics.go:75-84 | The loop quarantines exactly the materializing and materialized inputs, with the incident in the note. |
| RowWork.RuleInputs | internal/service/review.go:76-97 | The loop settles exactly the quarantined inputs. |
| Services.MetricsService.RecordObservation | internal/service/metrics.go:25-96 | Refuses with the first error and no change, or commits the observation with all it entails as one event and returns it with the incident that took it in, none exactly if minimum <= score <= maximum. |
| Services.MetricsService.FindActive | internal/storage/sqlite/read_operations.go:53-56 | Finds the run's active incident, which is unique. |
| Services.ReviewService.StartReview | internal/service/review.go:16-38 | Only an open incident is taken under review; the whole new state and both refusals are given. |
| Services.ReviewService.Decide | internal/service/review.go:46-106 | Refuses with the first error and no change, exactly as Conditions.DecidesIff says, or commits the decision and all it settles as one event. |
| CatalogInvariant.ValidateKeepsInv | internal/service/catalog.go:146-159 | Validating a snapshot, reserved ones included, keeps every cross-table fact. |
| CatalogInvariant.RegisterKeepsInv | internal/service/catalog.go:118-138 | Registering a snapshot keeps the tables in agreement if and only if its caller passes no run id. |
| CatalogInvariant.AddPoolKeepsInv | internal/service/catalog.go:92-116 | Creating a pool keeps the tables in agreement if and only if its caller passes no run id. |
| CatalogInvariant.ChangePoolKeepsInv | internal/service/compute_pool.go:38-60 | Reconciling and retiring touch only pools that no run holds. |
| CatalogInvariant.AddZoneKeepsInv | internal/service/catalog.go:66-90 | A new zone keeps every cross-table fact, the daily limits included. |
| CatalogInvariant.RequestApprovalKeepsInv | internal/service/approval.go:34-57 | Creating an approval task keeps at most one pending for each run. |
| CatalogInvariant.ResolveApprovalKeepsInv | internal/service/approval.go:67-87 | Resolving an approval task keeps every task in accord with its deadline. |
| CatalogInvariant.PassKeepsInv | internal/worker/worker.go:53-80 | A worker pass keeps every cross-table fact. |
| Conditions.AddsWorkspaceIff | internal/domain/workspace.go:30-50 | A workspace is stored, as a draft, if and only if its range is not empty and its two periods are positive and at most 14 and 7 days. |
| Conditions.AddsZoneIff | internal/domain/data_zone.go:28-44 | A zone is stored if and only if its cutoff is an hour of the day and its limit between 1 and 10000. |
| Conditions.AddsPoolIff | internal/domain/compute_pool.go:31-46 | A pool is stored, available, if and only if it takes 100 to 1000000 rows and has both its attestation times. |
| Conditions.RegistersIff | internal/domain/dataset_snapshot.go:38-52 | A snapshot is registered if and only if it is complete, its workspace and zone exist and its revision is new to the workspace. |
| Conditions.SnapshotMovesIff | internal/domain/dataset_snapshot.go:67-86 | The twelve moves of a snapshot, which of them an expired one can still make, and which error the others give. |
| Services.CatalogService.ValidateSnapshot | internal/service/catalog.go:140-161 | Succeeds exactly for unexpired snapshots that are registered or reserved, and changes that row only. |
| Services.ComputePoolService.Change | internal/service/compute_pool.go:13-60 | Starts reconciling exactly available pools, completes exactly reconciling ones, retires exactly those two with a reason; the changed row is given, a refusal changes nothing. |
| Services.ApprovalService.CreateApprovalTask | internal/service/approval.go:25-59 | Succeeds exactly for a running or completed run without a pending task, distinct requester and reviewer, a queue and a new id; stores exactly that pending task, and a refusal changes nothing. |
| Services.ApprovalService.ResolveApprovalTask | internal/service/approval.go:61-89 | Succeeds exactly for a pending task before its deadline and a caller who is its reviewer or an engineer; stores exactly the resolved task, and says what each error means. |
| Services.Store.Commit | internal/storage/sqlite/store.go:63-79 | A committed transaction is one event of the history; the state stays what the history makes it. |
| Histories.AlwaysInv | internal/storage/sqlite/store.go:63-79 | After any history of requests whatever, every cross-table fact holds. |
| Histories.StepFramed | internal/storage/sqlite/store.go:63-79 | Each kind of request leaves all tables alone but those it is said to write. |
| Guarantees.PoolsAreExclusive | internal/service/inference.go:144-149 | The pool of a queued or staged run is reserved, that of a running or completed one allocated, in its name, and no other run that is not over names it. |
| Guarantees.HeldPoolsHaveHolders | internal/domain/compute_pool.go:49-97 | A pool is reserved, allocated or bound to a run exactly when some run that is neither cancelled nor archived names it. |
| Guarantees.FreesOnlyItsOwnPool | internal/service/inference.go:215-224 | A hold on a pool ends only by cancelling or archiving the very run that has it, though no code checks the holder. |
| Guarantees.InputsShareOneState | internal/service/inference.go:257-279 | All inputs of a started run are in one state, bounded by the run's state; before the start they are reserved or validated. |
| Guarantees.BindingsAreMutual | internal/service/inference.go:135-143 | A snapshot's stored run id and the run-input table say the same, in both directions. |
| Guarantees.TotalsAreBounded | internal/domain/compute_pool.go:56-58 | A run total is the sum over its inputs, at least their number, and at most its pool's capacity. |
| Guarantees.QuarantineIsReviewed | internal/service/metrics.go:54-84 | A quarantined input means exactly one active incident; an active incident leaves no input materializing or materialized. |
| Guarantees.LooseSnapshotsAreUntouched | internal/storage/sqlite/migrations/001_initial.sql:102-107 | A snapshot that feeds no run is registered or validated and names no run. |
| Guarantees.DecisionEndsReview | internal/service/review.go:61-97 | After a decision the run has no active incident and no quarantined input. |
| Guarantees.DailyLimitHolds | internal/storage/sqlite/read_operations.go:113-122 | In every window of every zone, 86400 seconds from its beginning on, the runs not cancelled stay within the daily limit. |
| Idempotency.AnswersAreKept | internal/storage/sqlite/write_core.go:247-260 | A stored answer stays as it is for 24 hours, and is replaced only by a younger one. |
| Idempotency.CreationsAreADayApart | internal/service/inference.go:49-58 | With a clock that does not run backwards, runs planned under one key were planned at least 24 hours apart. |
| Idempotency.ReplaysAnswerAlike | internal/service/inference.go:49-58 | Within 24 hours the same request gets the first answer, another request under the key a conflict, and nothing changes. |
| Evidence.IncludeSummarises | internal/domain/drift.go:69-84 | Including an observation makes count, extremes and times those of one observation more. |
| Evidence.AlwaysInEvidence | internal/service/metrics.go:48-70 | In every reachable state exactly the observations with a score below the minimum or above the maximum of their workspace are absorbed, each by an incident of its run. |
| Evidence.IncidentsSumUp | internal/domain/drift.go:69-84 | An incident's count, minimum, maximum, first and last are those of the set of observations it absorbed, in whatever order they came. |
| Evidence.EvidenceIsConserved | internal/service/metrics.go:48-70 | The observation counts of a run's incidents add up to the number of its stored observations with a score below the minimum or above the maximum. |
| Settlements.DeadlinesAreKept | internal/domain/approval.go:56-72 | Accepted and rejected tasks were resolved before the deadline, expired ones at or after it; a run has at most one pending. |
| Settlements.ResolvedForGood | internal/service/approval.go:61-89 | A resolved task never changes again. |
| Settlements.PassRetiresABatch | internal/storage/sqlite/jobs.go:112-150 | A pass retires exactly the smaller of the batch size and the number overdue, oldest deadlines first. |
| Settlements.JobsAreAnOutbox | internal/worker/worker.go:48-81 | From any point of any history on, the platform's jobs are those of a possible outbox history that starts from the jobs stored by then, so the outbox theorems hold of every stored job. |
| Settlements.NoJobStarves | internal/storage/sqlite/jobs.go:22-24 | While the platform only enqueues newer jobs, a due job is left waiting at most as often as the untried jobs not newer than it fill whole batches. |
| Outbox.RestIsPossible | internal/storage/sqlite/jobs.go:21-61 | A possible outbox history may be cut anywhere: the rest is a possible history of the jobs stored by then and ends in the same jobs. |
| Settlements.NoJobEverFails | internal/worker/worker.go:83-99 | The payloads the services write are ones the worker can process: every job is untried or succeeded at its first claim. |
| RoundTrip.PlanThenCancel | internal/service/inference.go:181-232 | Planning, perhaps staging, and cancelling restores the run-input table and every snapshot's and pool's state and binding; the cancelling is accepted if and only if no input has expired. |
| RoundTrip.RunsKeepTheirInputs | internal/service/inference.go:135-149 | Whatever happens, a run keeps the inputs and the pool it was planned with until it is cancelled. |
| RoundTrip.CancellingUndoesPlanning | internal/service/inference.go:203-224 | With any requests between planning and cancelling, cancelling frees exactly what planning took, back to what it was. |
| Readiness.RunReadiness.Evaluate | internal/domain/readiness.go:30-48 | Rewrites the blockers and the verdict in place, and nothing else. |
| Readiness.ListedMeans | internal/domain/readiness.go:30-48 | The listed blockers are exactly those that hold, each once and in order. |
| Readiness.GetRunReadiness | internal/storage/sqlite/read_readiness.go:12-62 | An unknown run is not found; otherwise the report has the number of the run's inputs that are approved, rejected and so on and the latest observation time, and is complete exactly when nothing blocks and the run is completed or archived. |
| Readiness.CountsMean | internal/storage/sqlite/read_readiness.go:12-62 | Each count is the number of the run's inputs in that state, the materialized one also counting those approved, rejected or quarantined since; the two flags mean a pending approval and an active incident. |
| Readiness.CompletedIsMaterialized | internal/storage/sqlite/read_readiness.go:20-26 | For a completed run the materialized count equals the expected count. |
| Readiness.QuarantineBlocksWithIncident | internal/storage/sqlite/read_readiness.go:35-48 | The quarantine blocker never appears without the open-incident blocker. |
| Readiness.NoInputsMeansCancelled | internal/domain/readiness.go:41-43 | Exactly the cancelled runs are reported to have no snapshots. |
| Readiness.ArchivingNeedsReview | internal/service/inference.go:269-272 | A completed run can be archived if and only if no input is quarantined. |
| Readiness.CompleteMeansArchivable | internal/domain/readiness.go:30-48 | A completed run has no blocker if and only if archiving is refused by nothing and no approval or incident is open. |
| Batches.PickOldest | internal/storage/sqlite/jobs.go:22-39 | Picks the smaller of the limit and the number of candidates, in order, none left out being older than one taken. |
| Outbox.BetweenPasses | internal/storage/sqlite/jobs.go:40-60 | Between passes no job runs, pending jobs are untried, failed ones have tries left, dead ones none. |
| Outbox.PassUsesTries | internal/worker/worker.go:61-78 | A pass uses up at least one remaining try for each job it claims. |
| Outbox.NoStarvation | internal/storage/sqlite/jobs.go:22-24 | While only newer jobs arrive, a due job is passed over at most as often as the remaining tries of the jobs not newer fill whole batches. |
| Outbox.AttemptsCountClaims | internal/storage/sqlite/jobs.go:42-58 | Attempts count claims; a job that keeps failing is dead exactly when it has used its maximum, a good one succeeds at the first. |
| Outbox.RetriesAreSpaced | internal/worker/worker.go:67-69 | The claim after the k-th comes at least k squared seconds after it. |
| Outbox.BackoffAddsUp | internal/worker/worker.go:67-69 | The k-th claim comes no earlier than the first plus (k-1)k(2k-1)/6 seconds. |
| WorkerService.Worker.ExpireApprovalTasks | internal/storage/sqlite/jobs.go:112-150 | The loop lapses exactly a batch of the oldest overdue tasks. |
| WorkerService.Worker.ClaimJobs | internal/storage/sqlite/jobs.go:21-61 | The loop marks exactly a batch of the oldest due jobs as running with one attempt more. |
| WorkerService.Worker.ProcessJobs | internal/worker/worker.go:65-78 | The loop leaves each claimed job succeeded, failed with its backoff, or dead, and every other job as it was. |
| WorkerService.Worker.RunOnce | internal/worker/worker.go:48-81 | One pass is one event: the oldest overdue tasks lapse and the oldest due jobs are settled. |
| Conditions.DueIff | internal/storage/sqlite/jobs.go:22-24 | Due are exactly the pending and the failed jobs whose time has come, ordered by creation. |
| Conditions.OverdueIff | internal/storage/sqlite/jobs.go:112-114 | Overdue are exactly the pending tasks whose deadline has come, ordered by deadline. |
| Effects.PassWritesTasks | internal/storage/sqlite/jobs.go:112-150 | A pass expires exactly the tasks taken, at that instant and with a note. |
| Effects.PassWritesJobs | internal/worker/worker.go:61-99 | Each job taken has one attempt more and succeeds, or is dead at its last attempt, or is put off by the square of its attempts in seconds; unreadable review payloads and unknown kinds fail. |
| StuckRuns.CancellableIff | internal/domain/dataset_snapshot.go:66-86 | In reachable states a run that has not started can be cancelled if and only if every input is reserved and unexpired. |
| StuckRuns.StartableIff | internal/service/inference.go:257-279 | And a staged run can be started if and only if every input is reserved and unexpired. |
| StuckRuns.ValidatedInputsBar | internal/domain/dataset_snapshot.go:66-86 | Once an input of an unstarted run is validated again, any further requests whatever leave the run unstarted and its pool, inputs and place in the daily limit held. |
| StuckRuns.ExpiredInputsBar | internal/domain/dataset_snapshot.go:66-86 | And once an input of an unstarted run has expired, the same holds of any further requests with a clock that does not run backwards. |
| StuckRuns.LeavesIff | internal/service/inference.go:187-224 | An unstarted run can be brought by some later requests to start or be cancelled if and only if every input is reserved and unexpired now. |
| Scenario.AStuckLife | internal/service/catalog.go:146-159 | Planning a run and validating its snapshot reaches a run that no further requests whatever move or free. |
| Scenario.AWholeLife | internal/service/inference.go:31-302 | The histories reasoned about do occur: a run is planned, found drifting, reviewed, cleared, found drifting again, completed and archived while the second incident is open, and its pool is free again. |
| TextOrder.DecimalOrder | internal/pet/store.go:191 | Decimals of one width are in byte order exactly as in number order. |
| Calendar.FieldsAreOrdered | internal/pet/store.go:191 | Comparing year, month, day, hour, minute and second in turn is comparing instants. |
| Calendar.CivilOf | internal/pet/store.go:191 | Every instant of the years 0 to 9999 has a valid civil reading that counts back to it. |
| TimeText.TextOrderIsTimeOrder | internal/storage/sqlite/store.go:95 | Byte order of stored instants is time order if and only if they do not share a second in which one fraction's digits continue the other's. |
| TimeText.PrefixInverts | internal/storage/sqlite/store.go:95 | In that one case the order is inverted. |
| TimeText.SameDigitCountOrders | internal/pet/orders.go:57 | With equally many fraction digits, whole seconds in particular, byte order is time order. |
| TimeText.MixedLengthsInvert | internal/pet/store.go:191 | Half past a second is stored as text that sorts before the second itself. |
| StoredTimes.OverlapReadsText | internal/pet/orders.go:56-57 | On whole seconds the text comparisons of the overlap query and the trigger count exactly the active orders that overlap. |
| StoredTimes.DayReadsText | internal/storage/sqlite/read_operations.go:113-122 | On whole seconds the text comparisons count exactly the runs of the business day. |
| StoredTimes.PassReadsText | internal/storage/sqlite/jobs.go:22-24 | On whole seconds the text comparisons find exactly the due jobs and the overdue approvals. |
| Fractions.MissedIff | internal/pet/orders.go:56-57 | The text test misses an overlap if and only if a start and an end share a second in which one fraction continues the other. |
| Fractions.FalseAlarmIff | internal/pet/orders.go:56-57 | It sees an overlap between stays that follow each other if and only if just the end and the start between them are so related. |
| Fractions.FractionsOverfill | internal/pet/store.go:80-86 | A stay that starts in the second in which another ends, its fraction continued by that of the end, is not counted against the other, though both hold the room at that start. |
| StoredTimes.LatestReadsText | internal/storage/sqlite/read_readiness.go:49-60 | On whole seconds the maximal text is that of the latest observation. |
| StoredTimes.StoredLandmarks | internal/pet/store.go:191 | The Unix epoch and the zero time, numbers in the model, are stored as the texts of 1970 and of year 1. |
| DayCounts.BoundaryIff | internal/storage/sqlite/read_operations.go:113-122 | Text puts a start on the right side of a day's boundary if and only if it is not in the first second after the boundary, off it; otherwise it puts it before. |
| DayCounts.CountedTextIs | internal/storage/sqlite/read_operations.go:113-122 | The query counts the runs of the day without those just after its beginning and with those just after its end. |
| DayCounts.DayCountIff | internal/storage/sqlite/read_operations.go:113-122 | It counts exactly the day's runs if and only if none starts just after the day's beginning or its end; its number is right if and only if these are equally many. |
| DayCounts.DayBypassed | internal/storage/sqlite/read_operations.go:113-122 | Runs that all start just after a day's beginning are counted as none. |
| DayCounts.CountedRunsKeepLimit | internal/service/inference.go:80-90 | However runs are planned and cancelled, the runs of a day that do not start just after its beginning stay within the limit. |
| DayCounts.AnyNumberIsPlanned | internal/service/inference.go:80-90 | Any number of runs that start just after a day's beginning pass the check one after the other and all are runs of that day. |
| DayCounts.LimitIsKeptIff | internal/service/inference.go:80-90 | Planning only at certain instants keeps a day's limit in every history if and only if none of them lies just after the day's beginning. |
| Fractions.EarlyIff | internal/storage/sqlite/jobs.go:112-114 | A row is found before its moment if and only if its fraction continues the present one within the same second. |
| Fractions.LateIff | internal/storage/sqlite/jobs.go:112-114 | A due row is overlooked if and only if the present fraction continues its own. |
| Fractions.WithinASecond | internal/storage/sqlite/jobs.go:22-24 | Either error is less than a second. |
| Fractions.FoundIff | internal/storage/sqlite/jobs.go:22-24 | The query finds exactly the due rows if and only if no row's moment is so related to the present. |
| Fractions.AnEarlyLapse | internal/storage/sqlite/jobs.go:112-150 | A task whose deadline has a fraction is found, and so expires, on the whole second before it. |
| Fractions.GuardAgreesIff | internal/storage/sqlite/write_core.go:247-260 | Lookup and upsert agree on whether an answer has expired if and only if the expiry and the present are not so related. |
| Fractions.GuardRefusesIff | internal/service/inference.go:49-58 | A request finds no live answer and is yet refused its place if and only if the present fraction continues that of the expiry. |
| Fractions.ARefusedGuard | internal/storage/sqlite/write_core.go:247-260 | A key that expired on a second is refused for the rest of that second. |
| Fractions.RetriesKeepSeconds | internal/storage/sqlite/jobs.go:40-60 | Whatever the fractions, the claim after the k-th comes k squared seconds later counted in whole seconds, and before it is due if and only if its fraction is continued. |
| Fractions.BackoffKeepsSeconds | internal/worker/worker.go:67-69 | Counted in whole seconds, the sum of all delays is kept too, so nothing is lost from claim to claim. |
| Fractions.TextLatestIff | internal/storage/sqlite/read_readiness.go:49-60 | The maximal text is the latest instant if and only if no observation's fraction continues its own. |
| TimeText.ParseUndoesFormat | internal/pet/store.go:183-191 | Parsing undoes printing for every instant. |
| Billing.DaysCoverTheStay | internal/pet/orders.go:64-67 | Billed days are the least number of whole days that cover the stay, and at least one. |
| Billing.SplittingRaisesByOne | internal/pet/orders.go:64-67 | Splitting a stay keeps the billed days or raises them by one. |
| Billing.TotalIsDaysTimesPerDay | internal/pet/orders.go:68-95 | Room charge plus stored subtotals is the days times the daily price of room and services. |
| Booking.SelectionCheckMeans | internal/pet/orders.go:69-91 | The service loop refuses nothing exactly when every selected service exists, is on offer and is selected once. |
| BookingInvariant.CreatedTotal | internal/pet/orders.go:64-110 | A created order's total is the billed days times (room price plus, over the request, service price times quantity), and room charge plus its rows' subtotals, at the prices stored; a quantity is the one asked for if at least one, else one. |
| BookingInvariant.CreatedTerms | internal/pet/orders.go:96-101 | The order stored is pending, for the pet and its owner, in the room and for the stay asked for, and nothing else is written. |
| BookingInvariant.AdmissionRefusals | internal/pet/orders.go:24-91 | What each refusal of an order means: not signed in, not the owner, something missing, an empty stay or a service twice, a room taken or full or a service off offer. |
| BookingInvariant.OverlappingIff | internal/pet/orders.go:56-57 | An order is counted against a stay if and only if it is pending, confirmed or in progress in that room and some instant lies in both. |
| BookingInvariant.StatusMovesIff | internal/pet/orders.go:120-162 | The five moves of an order's status, made by administrators, and nothing else changes. |
| BookingInvariant.WithinStayIff | internal/pet/records.go:26-33 | A record's instant is accepted if and only if it lies between the midnight at or before the start and the midnight after the finish. |
| BookingInvariant.SameDateIff | internal/pet/records.go:26-33 | Two records have one date if and only if no midnight lies between them. |
| BookingInvariant.AddsRoomIff | internal/pet/catalog.go:10-39 | A room is stored if and only if it has a kind, a number nobody has and a price not negative; its capacity becomes at least one. |
| BookingInvariant.DropsRoomIff | internal/pet/catalog.go:66-82 | In one step a room is deleted if and only if no order refers to it. |
| BookingInvariant.CountIsSafe | internal/pet/orders.go:56-63 | A stay the overlap count admits has room at every instant. |
| BookingInvariant.RoomThroughoutIsExact | internal/pet/store.go:80-86 | Inserting an active order keeps the capacity if and only if there is room at every instant of its stay. |
| BookingInvariant.CountIsExactForOne | internal/pet/orders.go:56-63 | For capacity one the count admits exactly the stays there is room for. |
| BookingInvariant.CountOverRefuses | internal/pet/orders.go:56-63 | For every larger capacity the count refuses some stay that there is room for throughout. |
| BookingInvariant.InsertKeepsInv | internal/pet/store.go:80-86 | The trigger and the references alone keep the booking facts and the capacity, however long ago the order was checked. |
| BookingInvariant.StatusKeepsInv | internal/pet/orders.go:120-162 | Status changes free capacity only and never strand records. |
| BookingInvariant.UpdateRoomKeepsInv | internal/pet/catalog.go:40-65 | Changing a room, its capacity included, keeps the booking facts when counting and writing are one step. |
| BookingInvariant.RoomChangeFitsIff | internal/pet/catalog.go:50-57 | Whatever count an accepted room change was based on, no room is overfilled by it if and only if no instant has more orders than the new capacity. |
| BookingInvariant.CountIsSafeIff | internal/pet/catalog.go:50-56 | Every room change that a count lets through fits if and only if no instant has more orders than the larger of the count and one. |
| BookingInvariant.StaleCountOverfills | internal/pet/catalog.go:50-57 | A count read before another order came in can overfill the room. |
| BookingInvariant.RoomStatusKeepsInv | internal/pet/catalog.go:102-123 | Changing a room's status keeps the booking facts and the capacity, whatever count it was based on. |
| BookingInvariant.DeleteRoomKeepsInv | internal/pet/catalog.go:66-82 | Deleting a room keeps the booking facts and the capacity of the others, whatever count it was based on; orders it still had lose the reference. |
| BookingInvariant.ElsewhereKeepsInv | internal/pet/store.go:70-72 | Any change to services and pets keeps the booking facts; orders of pets that are gone lose the reference. |
| BookingInvariant.UpdateRecordKeepsInv | internal/pet/records.go:46-82 | Editing a record keeps one record a day, within the stay. |
| BookingHistory.AlwaysKept | internal/pet/orders.go:24-118 | After any history of booking requests, with counts and checks as stale as may be and any changes to services and pets, prices, references and records are in order. |
| BookingHistory.NeverOverfilledIff | internal/pet/catalog.go:40-65 | Over any history no room is ever overfilled if and only if each accepted room change leaves room for the orders held at that moment. |
| BookingHistory.AStaleCountOverfills | internal/pet/catalog.go:50-57 | A history from the empty tables in which a stale count overfills a room. |
| BookingHistory.RoomsAreNeverOverfilled | internal/pet/store.go:80-86 | After any history whose room changes fit, so whenever their counts are not stale, no instant has more active orders than capacity, and the orders can be given places below the capacity with no overlap in a place. |
| BookingHistory.CleaningIsIdleIff | internal/pet/catalog.go:54-56 | Over any history no room being cleaned ever has an active order if and only if no late insert puts one there and no accepted change with a stale count starts cleaning an occupied room. |
| BookingHistory.CleaningIsUndisturbed | internal/pet/catalog.go:111-117 | So while every request is one step, a room being cleaned has no active order. |
| BookingHistory.RecordsAreBounded | internal/pet/records.go:23-36 | An order has at most one record for each calendar day of its stay, at most one more than its billed days. |
| BookingHistory.ReadingsLast | internal/pet/records.go:16-36 | What a record was checked against still covers it at any later point of any history, so writing it late is harmless. |
| BookingHistory.OnlyBegunOrdersHaveRecords | internal/pet/records.go:23-25 | Pending, confirmed and cancelled orders have no records, over any history, late writes included. |
| BookingHistory.TermsNeverChange | internal/pet/store.go:72 | An order never disappears, its terms never change, completed and cancelled orders are final; it keeps its pet if and only if the pet is kept throughout, and its room likewise. |
| BookingHistory.RoomsOfOrdersStay | internal/pet/catalog.go:66-82 | While every request is one step, an order never loses its room. |
| BookingHistory.AnOrderLosesItsPet | internal/pet/store.go:70-72 | A history in which an order's pet goes with its owner and the order keeps the rest. |
| Slots.PlacesIffNeverMore | internal/pet/store.go:80-86 | Stays fit in k places without overlap if and only if no instant has more than k of them. |
| BookingService.Service.CreateOrder | internal/pet/orders.go:24-118 | Succeeds exactly for admissible requests under a new id and adds exactly the priced pending order; otherwise reports the first error and changes nothing. |
| BookingService.Service.PriceSelections | internal/pet/orders.go:69-95 | The loop prices each service once, with the quantity asked for or one, and returns the rows and the running total, or the first error. |
| BookingService.Service.UpdateOrderStatus | internal/pet/orders.go:120-150 | Succeeds exactly for administrators and moves of the transition table, and changes exactly that order's status. |
| BookingService.Service.CancelOrder | internal/pet/orders.go:163-177 | Succeeds exactly for pending or confirmed orders of the caller, or of anyone for an administrator. |
| BookingService.Service.UpdateRoom | internal/pet/catalog.go:40-65 | Succeeds exactly for administrators and rooms that are valid, untaken, large enough for the active orders and not cleaned over them; stores exactly the trimmed room. |
| BookingService.Service.UpdateRoomStatus | internal/pet/catalog.go:102-123 | Succeeds exactly for administrators and rooms without active orders, or for making a room available; changes exactly that status. |
| BookingService.Service.AddRecord | internal/pet/records.go:12-45 | Succeeds exactly for callers who may see the order, while it is in progress, on a day of the stay without a record, and adds exactly that record. |
| BookingService.Service.UpdateRecord | internal/pet/records.go:46-82 | Succeeds exactly for callers who may see the order, while it is in progress, for a day of the stay that no other record has, and moves exactly that record. |

## Left out

- HTTP handlers, middleware, JSON, configuration, logging, the Vue frontend and Docker: input and output only.
- Passwords, tokens, sessions, hashing and random identifiers: identifiers and clock readings are parameters, an
  insert under a used identifier is a conflict, and idempotency compares the request itself instead of its hash.
- Role checks of the platform services: callers are taken to have the role; booking roles are modelled.
- Audit events and operation logs, and the metadata written with them: they are written in the same transaction and
  never read back by these operations.
- The text of error messages; each error is known by its sentinel only.
- Codes, names and serial numbers with their uniqueness and format rules; target zone rows play no part after planning.
- Bulk registration, listing, filtering, paging, and the CRUD of users, pets and service items; the booking histories
  let services and pets change in any way between requests.
- The order in which a run's inputs are listed, and so which of several objecting inputs gives the error.
- Machine integers, floating-point prices and scores: integers without bound (cents, thousandths, seconds).
- Time zones with changing offsets: a zone has a fixed offset, since a clock change at the cutoff hour breaks the
  partition into windows; an unknown zone name is not modelled.
- Time texts other than UTC ones of the years 0 to 9999, such as those with another offset or more than nine digits.
- Lock stamps, last errors and update stamps of jobs; cancelled contexts, which roll back like any error; a
  non-positive batch size of the worker.
- Row-level interleaving inside one transaction: each is one atomic step. Checking and inserting an order, and
  counting orders and writing a room, and checking and writing a daily record, are also modelled apart.
- The requests that delete users and pets: in histories pets come and go in any way, and orders lose those that go.
  The re-reading of a row after it was written.
- Fractions of a second in the tables and their histories; `Fractions` and `DayCounts` say what they do.
- Entities changed through pointers are modelled as new values; each request reads its own copies of the rows, so no
  two names for one row arise. Readiness reports, stores and services are objects.
- BusinessDay.ZoneClock.WindowsPartition: proved for fixed offsets only, because with a clock change near the cutoff
  hour the source's windows need not partition time.
- BusinessDay.ZoneClock.WindowsEqualOrDisjoint: proved for fixed offsets only, as above.
- BusinessDay.ZoneClock.WindowBeginsAtCutoff: proved for fixed offsets only; a cutoff hour skipped by a clock change
  has no such beginning.
- Guarantees.DailyLimitHolds: on whole seconds; runs that start just after a day's beginning get past its limit, see
  DayCounts.LimitIsKeptIff.
- Services.InferenceService.HoldAndAnswer: on whole seconds; in the second of expiry the answer can be refused, exactly
  as Fractions.GuardRefusesIff says.
- Settlements.DeadlinesAreKept: on whole seconds; a task can expire within the second before its deadline, exactly as
  Fractions.EarlyIff says.
- Outbox.RetriesAreSpaced: on whole seconds; with fractions Fractions.RetriesKeepSeconds.
- Outbox.BackoffAddsUp: on whole seconds; with fractions Fractions.BackoffKeepsSeconds.
