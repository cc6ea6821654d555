/**
  What one planning, transition or cancellation request does to the tables, stated for the
  whole set of affected rows at once: a check that names the first reason to refuse, and the
  state after an accepted request. The service's row-by-row loops are proved equal to these.
 */
module Lifecycle {
  import opened Base
  import opened BusinessDay
  import opened Domain
  import opened Jobs
  import opened Tables

  const ANSWER_TTL := 24 * HOUR
  const START_GRACE := 15 * MINUTE
  const JOB_ATTEMPTS := 5

  // ---------------------------------------------------------------- planning

  predicate HasLiveAnswer(db: Db, key: string, now: Time) {
    key in db.answers && db.answers[key].expiresAt > now
  }

  /** The first thing wrong with the i-th or a later requested snapshot. */
  function InputCheck(db: Db, q: PlanRequest, now: Time, i: nat): Check
    requires i <= |q.snapshotIds|
    decreases |q.snapshotIds| - i
  {
    if i == |q.snapshotIds| then None else
      var s := q.snapshotIds[i];
      if s in q.snapshotIds[..i] then Some(Conflict)
      else if s !in db.snapshots then Some(NotFound)
      else if db.snapshots[s].workspaceId != q.workspaceId || db.snapshots[s].sourceZoneId != q.sourceZoneId
        then Some(Conflict)
      else match db.snapshots[s].Transition(Reserved, now)
        case Failure(e) => Some(e)
        case Success(_) => InputCheck(db, q, now, i + 1)
  }

  /** A snapshot that may be planned: in the right place, validated and not yet expired. */
  predicate Reservable(db: Db, q: PlanRequest, now: Time, s: Id) {
    && s in db.snapshots
    && db.snapshots[s].workspaceId == q.workspaceId
    && db.snapshots[s].sourceZoneId == q.sourceZoneId
    && db.snapshots[s].state.Validated?
    && db.snapshots[s].expiresAt > now
  }

  /** Nothing is wrong from i on exactly when each remaining snapshot is reservable and not named before. */
  lemma {:induction false} InputCheckMeans(db: Db, q: PlanRequest, now: Time, i: nat)
    requires i <= |q.snapshotIds|
    ensures InputCheck(db, q, now, i).None? <==>
            && (forall k :: i <= k < |q.snapshotIds| ==> Reservable(db, q, now, q.snapshotIds[k]))
            && (forall j, k :: 0 <= j < k < |q.snapshotIds| && i <= k ==> q.snapshotIds[j] != q.snapshotIds[k])
    decreases |q.snapshotIds| - i
  {
    if i == |q.snapshotIds| {
    } else {
      InputCheckMeans(db, q, now, i + 1);
    }
  }

  function WindowCheck(db: Db, q: PlanRequest, now: Time): Check
    requires q.workspaceId in db.workspaces
  {
    if q.start == ZERO_TIME || q.finish == ZERO_TIME || q.finish <= q.start then Some(Validation)
    else if q.finish - q.start > db.workspaces[q.workspaceId].maxExecution then Some(Conflict)
    else if q.start < now - START_GRACE then Some(Conflict)
    else if exists s :: s in q.snapshotIds && s in db.snapshots && db.snapshots[s].expiresAt <= q.finish
      then Some(Conflict)
    else None
  }

  function RouteCheck(db: Db, q: PlanRequest): Check {
    if q.workspaceId !in db.workspaces then Some(NotFound)
    else if !db.workspaces[q.workspaceId].status.Active? then Some(Conflict)
    else if q.sourceZoneId !in db.zones || q.targetZoneId !in db.zones then Some(NotFound)
    else if !db.zones[q.sourceZoneId].status.ZoneActive? || !db.zones[q.targetZoneId].status.ZoneActive?
      then Some(Conflict)
    else if q.sourceZoneId == q.targetZoneId then Some(Validation)
    else
      var zone := db.zones[q.sourceZoneId];
      if |RunsInDay(db.runs, q.sourceZoneId, zone.clock, q.start)| >= zone.dailyLimit then Some(Conflict)
      else if q.poolId !in db.pools then Some(NotFound)
      else None
  }

  function OrElse(first: Check, second: Check): Check {
    if first.Some? then first else second
  }

  ghost function CapacityCheck(db: Db, q: PlanRequest, now: Time): Check
    requires RouteCheck(db, q).None?
  {
    var pool := db.pools[q.poolId];
    OrElse(pool.EligibleFor(q.start, 1),
           OrElse(InputCheck(db, q, now, 0),
                  OrElse(WindowCheck(db, q, now),
                         pool.EligibleFor(q.start, Volume(db.snapshots, IdSet(q.snapshotIds))))))
  }

  function WriteCheck(db: Db, q: PlanRequest, runId: Id, jobId: Id): Check {
    if Blank(Trim(q.reference)) then Some(Validation)
    else if runId in db.runs || ReferenceTaken(db.runs, Trim(q.reference)) then Some(Conflict)
    else if InputTaken(db.inputs, q.snapshotIds) then Some(Conflict)
    else if jobId in db.jobs then Some(Conflict)
    else None
  }

  /** Why a new run cannot be planned; None when it can. */
  ghost function PlanCheck(db: Db, q: PlanRequest, now: Time, runId: Id, jobId: Id): Check {
    if RouteCheck(db, q).Some? then RouteCheck(db, q)
    else OrElse(CapacityCheck(db, q, now), WriteCheck(db, q, runId, jobId))
  }

  function RequestCheck(q: PlanRequest): Check {
    if q.snapshotIds == [] || !ValidKey(q.key) then Some(Validation) else None
  }

  function NewRun(q: PlanRequest, now: Time, volume: int): Run {
    Run(q.workspaceId, q.sourceZoneId, q.targetZoneId, q.poolId, Trim(q.reference), Queued,
        q.start, q.finish, None, None, None, volume, now, now, 1)
  }

  function ReserveRows(rows: map<Id, Snapshot>, ids: set<Id>, runId: Id, now: Time): map<Id, Snapshot> {
    map s | s in rows ::
      if s in ids then rows[s].(state := Reserved, runId := Some(runId), updatedAt := now,
                                version := rows[s].version + 1)
      else rows[s]
  }

  function BindInputs(inputs: map<Id, Input>, ids: set<Id>, runId: Id, now: Time): map<Id, Input> {
    inputs + map s | s in ids :: Input(runId, now)
  }

  function HoldPool(pool: Pool, runId: Id, now: Time): Pool {
    pool.(state := PoolReserved, reservedRun := Some(runId), updatedAt := now, version := pool.version + 1)
  }

  function PlannedJob(runId: Id, now: Time): Job {
    Job(RunPlanned, runId, JsonObject, JobPending, 0, JOB_ATTEMPTS, now, now)
  }

  ghost function PlanPost(db: Db, q: PlanRequest, now: Time, runId: Id, jobId: Id): (after: Db)
    requires q.poolId in db.pools
    ensures after == db.(snapshots := after.snapshots, inputs := after.inputs, runs := after.runs, pools := after.pools,
                         answers := after.answers, jobs := after.jobs)
  {
    var ids := IdSet(q.snapshotIds);
    var run := NewRun(q, now, Volume(db.snapshots, ids));
    db.(snapshots := ReserveRows(db.snapshots, ids, runId, now),
        inputs := BindInputs(db.inputs, ids, runId, now),
        runs := db.runs[runId := run],
        pools := db.pools[q.poolId := HoldPool(db.pools[q.poolId], runId, now)],
        answers := db.answers[q.key := Answer(q, runId, run, now + ANSWER_TTL, now)],
        jobs := db.jobs[jobId := PlannedJob(runId, now)])
  }

  /** A request that creates a run: well formed, not answered already, and nothing in the way. */
  ghost predicate Plans(db: Db, q: PlanRequest, now: Time, runId: Id, jobId: Id) {
    RequestCheck(q).None? && !HasLiveAnswer(db, q.key, now) && PlanCheck(db, q, now, runId, jobId).None?
  }

  /** What the caller of a planning request is told. */
  ghost function PlanOutcome(db: Db, q: PlanRequest, now: Time, runId: Id, jobId: Id): Result<Run> {
    if RequestCheck(q).Some? then Failure(RequestCheck(q).value)
    else if HasLiveAnswer(db, q.key, now) then
      if db.answers[q.key].request == q then Success(db.answers[q.key].run) else Failure(Conflict)
    else match PlanCheck(db, q, now, runId, jobId)
      case Some(e) => Failure(e)
      case None => Success(NewRun(q, now, Volume(db.snapshots, IdSet(q.snapshotIds))))
  }

  // ---------------------------------------------------------------- staging, starting, completing, archiving

  /** Whether an input lets its run move on to the target state. */
  function InputObjection(row: Snapshot, target: RunState, now: Time): Check {
    match target
    case Running => Objection(row.Transition(Materializing, now))
    case Completed =>
      if row.state.Quarantined? || row.state.Rejected? || row.state.Approved? then None
      else Objection(row.Transition(Materialized, now))
    case Archived =>
      if row.state.Approved? || row.state.Rejected? || row.state.Materialized? then None else Some(Conflict)
    case _ => None
  }

  function Objection(r: Result<Snapshot>): Check {
    match r case Failure(e) => Some(e) case Success(_) => None
  }

  predicate Advances(db: Db, runId: Id, target: RunState, now: Time) {
    && runId in db.runs
    && !target.Cancelled?
    && db.runs[runId].state.MayMove(target)
    && db.runs[runId].poolId in db.pools
    && forall s :: s in db.inputs && db.inputs[s].runId == runId && s in db.snapshots
                   ==> InputObjection(db.snapshots[s], target, now).None?
  }

  function AdvancedState(state: SnapshotState, target: RunState): SnapshotState {
    match target
    case Running => Materializing
    case Completed => if state.Quarantined? || state.Rejected? || state.Approved? then state else Materialized
    case _ => state
  }

  function AdvanceRow(row: Snapshot, target: RunState, now: Time): Snapshot {
    var next := AdvancedState(row.state, target);
    if target.Running? || target.Completed? then
      row.(state := next, updatedAt := if next == row.state then row.updatedAt else now, version := row.version + 1)
    else row
  }

  function AdvanceRows(rows: map<Id, Snapshot>, ids: set<Id>, target: RunState, now: Time): map<Id, Snapshot> {
    map s | s in rows :: if s in ids then AdvanceRow(rows[s], target, now) else rows[s]
  }

  function AdvancePool(pool: Pool, target: RunState, now: Time): Pool {
    var touched := pool.(updatedAt := now, version := pool.version + 1);
    match target
    case Running => touched.(state := Allocated)
    case Archived => touched.(state := Available, reservedRun := None)
    case _ => touched
  }

  /** The clock is read twice: `began` stamps the run, `now` the other rows. */
  function AdvancePost(db: Db, runId: Id, target: RunState, began: Time, now: Time): (after: Db)
    requires runId in db.runs && db.runs[runId].poolId in db.pools
    ensures after == db.(snapshots := after.snapshots, runs := after.runs, pools := after.pools)
  {
    var run := db.runs[runId];
    var moved := run.Stamped(target, began).(state := target, updatedAt := began, version := run.version + 1);
    db.(snapshots := AdvanceRows(db.snapshots, InputsOf(db.inputs, runId), target, now),
        runs := db.runs[runId := moved],
        pools := db.pools[run.poolId := AdvancePool(db.pools[run.poolId], target, now)])
  }

  // ---------------------------------------------------------------- cancelling

  predicate Cancels(db: Db, runId: Id, now: Time) {
    && runId in db.runs
    && db.runs[runId].state.MayMove(RunState.Cancelled)
    && db.runs[runId].poolId in db.pools
    && forall s :: s in db.inputs && db.inputs[s].runId == runId && s in db.snapshots
                   ==> db.snapshots[s].Transition(Validated, now).Success?
  }

  function ReleaseRow(row: Snapshot, now: Time): Snapshot {
    row.(state := Validated, runId := None, updatedAt := now, version := row.version + 1)
  }

  function ReleaseRows(rows: map<Id, Snapshot>, ids: set<Id>, now: Time): map<Id, Snapshot> {
    map s | s in rows :: if s in ids then ReleaseRow(rows[s], now) else rows[s]
  }

  function CancelPost(db: Db, runId: Id, now: Time): (after: Db)
    requires runId in db.runs && db.runs[runId].poolId in db.pools
    ensures after == db.(snapshots := after.snapshots, inputs := after.inputs, runs := after.runs, pools := after.pools)
  {
    var run := db.runs[runId];
    var pool := db.pools[run.poolId];
    db.(snapshots := ReleaseRows(db.snapshots, InputsOf(db.inputs, runId), now),
        inputs := map s | s in db.inputs && db.inputs[s].runId != runId :: db.inputs[s],
        runs := db.runs[runId := run.(state := RunState.Cancelled, updatedAt := now, version := run.version + 1)],
        pools := db.pools[run.poolId :=
          pool.(state := Available, reservedRun := None, updatedAt := now, version := pool.version + 1)])
  }
}
