/** The inference platform's entities and the state machines they carry. */
module Domain {
  import opened Base
  import opened BusinessDay

  function IdSet(ids: seq<Id>): set<Id> {
    set i | i in ids
  }

  /** Nothing is named twice. */
  ghost predicate Distinct(ids: seq<Id>) {
    forall j, k :: 0 <= j < k < |ids| ==> ids[j] != ids[k]
  }

  // ---------------------------------------------------------------- workspaces and zones

  datatype WorkspaceStatus = Draft | Active | Shelved

  datatype QualityRange = QualityRange(minimum: int, maximum: int) {
    predicate Contains(score: int) {
      minimum <= score <= maximum
    }
  }

  datatype Workspace = Workspace(
    status: WorkspaceStatus,
    score: QualityRange,
    maxExecution: int,
    reviewDeadline: int)
  {
    predicate Valid() {
      && score.minimum < score.maximum
      && 0 < maxExecution <= 14 * DAY
      && 0 < reviewDeadline <= 7 * DAY
    }
  }

  datatype ZoneStatus = ZoneActive | ZoneSuspended

  datatype Zone = Zone(status: ZoneStatus, clock: ZoneClock, dailyLimit: int) {
    predicate Valid() {
      1 <= dailyLimit <= 10000 && clock.Valid()
    }
  }

  // ---------------------------------------------------------------- dataset snapshots

  datatype SnapshotState =
    | Registered | Validated | Reserved | Materializing
    | Materialized | Quarantined | Approved | Rejected
  {
    predicate MayMove(to: SnapshotState) {
      match this
      case Registered => to.Validated? || to.Rejected?
      case Validated => to.Reserved? || to.Rejected?
      case Reserved => to.Validated? || to.Materializing?
      case Materializing => to.Materialized? || to.Quarantined?
      case Materialized => to.Approved? || to.Quarantined?
      case Quarantined => to.Approved? || to.Rejected?
      case _ => false
    }
  }

  datatype Note = NoNote | DriftNote(incidentId: Id) | Rationale(text: string)

  datatype Snapshot = Snapshot(
    workspaceId: Id,
    sourceZoneId: Id,
    revision: string,
    family: string,
    partitions: int,
    rows: int,
    state: SnapshotState,
    expiresAt: Time,
    runId: Option<Id>,
    note: Note,
    updatedAt: Time,
    version: int)
  {
    predicate Valid() {
      && !Blank(revision) && !Blank(family)
      && partitions >= 1 && rows >= 1
      && expiresAt != ZERO_TIME
    }

    predicate IsUsableAt(at: Time) {
      expiresAt > at && !state.Rejected?
    }

    function Transition(to: SnapshotState, now: Time): Result<Snapshot> {
      if !state.MayMove(to) then Failure(InvalidTransition)
      else if !IsUsableAt(now) && !to.Rejected? && !to.Quarantined? then Failure(Conflict)
      else Success(this.(state := to, updatedAt := now))
    }
  }

  // ---------------------------------------------------------------- compute pools

  datatype PoolState = Available | PoolReserved | Allocated | Reconciling | Retired

  datatype Pool = Pool(
    state: PoolState,
    capacity: int,
    attestationDue: Time,
    lastReconciled: Time,
    reservedRun: Option<Id>,
    updatedAt: Time,
    version: int)
  {
    predicate Valid() {
      100 <= capacity <= 1000000 && attestationDue != ZERO_TIME && lastReconciled != ZERO_TIME
    }

    predicate IsAttestedAt(at: Time) {
      attestationDue > at && lastReconciled <= at
    }

    function EligibleFor(plannedStart: Time, volume: int): Check {
      if !state.Available? then Some(Conflict)
      else if !IsAttestedAt(plannedStart) then Some(Conflict)
      else if capacity < volume then Some(CapacityExceeded)
      else None
    }

    function StartReconciliation(now: Time): Result<Pool> {
      if !state.Available? then Failure(InvalidTransition)
      else Success(this.(state := Reconciling, updatedAt := now))
    }

    function CompleteReconciliation(now: Time): Result<Pool> {
      if !state.Reconciling? then Failure(InvalidTransition)
      else Success(this.(state := Available, lastReconciled := now, updatedAt := now))
    }

    function Retire(now: Time): Result<Pool> {
      if !state.Available? && !state.Reconciling? then Failure(Conflict)
      else Success(this.(state := Retired, reservedRun := None, updatedAt := now))
    }
  }

  // ---------------------------------------------------------------- inference runs

  datatype RunState = Queued | Staged | Running | Completed | Archived | Cancelled {
    predicate MayMove(to: RunState) {
      match this
      case Queued => to.Staged? || to.Cancelled?
      case Staged => to.Running? || to.Cancelled?
      case Running => to.Completed?
      case Completed => to.Archived?
      case _ => false
    }

    /** A live run holds its compute pool. */
    predicate Live() {
      Queued? || Staged? || Running? || Completed?
    }
  }

  datatype Run = Run(
    workspaceId: Id,
    sourceZoneId: Id,
    targetZoneId: Id,
    poolId: Id,
    reference: string,
    state: RunState,
    start: Time,
    finish: Time,
    startedAt: Option<Time>,
    completedAt: Option<Time>,
    archivedAt: Option<Time>,
    totalRows: int,
    createdAt: Time,
    updatedAt: Time,
    version: int)
  {
    predicate Valid() {
      && sourceZoneId != targetZoneId
      && !Blank(reference)
      && finish > start
      && totalRows >= 1
    }

    function Transition(to: RunState, now: Time): Result<Run> {
      if !state.MayMove(to) then Failure(InvalidTransition)
      else Success(Stamped(to, now).(state := to, updatedAt := now))
    }

    function Stamped(to: RunState, now: Time): Run {
      match to
      case Running => this.(startedAt := Some(now))
      case Completed => this.(completedAt := Some(now))
      case Archived => this.(archivedAt := Some(now))
      case _ => this
    }
  }

  datatype Input = Input(runId: Id, addedAt: Time)

  // ---------------------------------------------------------------- drift

  datatype IncidentStatus = Open | Reviewing | Cleared | Refused {
    predicate IsOpen() {
      Open? || Reviewing?
    }
  }

  datatype Observation = Observation(
    runId: Id, metric: string, sequence: int, score: int, recordedAt: Time, receivedAt: Time)
  {
    predicate Valid() {
      !Blank(metric) && sequence >= 1 && recordedAt != ZERO_TIME
    }
  }

  datatype Incident = Incident(
    runId: Id,
    status: IncidentStatus,
    first: Time,
    last: Time,
    minimum: int,
    maximum: int,
    count: int,
    reviewDue: Time,
    updatedAt: Time,
    version: int)
  {
    function Include(o: Observation, now: Time): Incident {
      this.(first := if count == 0 || o.recordedAt < first then o.recordedAt else first,
            last := if count == 0 || o.recordedAt > last then o.recordedAt else last,
            minimum := if count == 0 || o.score < minimum then o.score else minimum,
            maximum := if count == 0 || o.score > maximum then o.score else maximum,
            count := count + 1,
            updatedAt := now)
    }

    function StartReview(now: Time): Result<Incident> {
      if !status.Open? then Failure(InvalidTransition)
      else Success(this.(status := Reviewing, updatedAt := now))
    }

    function Decide(decision: IncidentStatus, now: Time): Result<Incident> {
      if !status.IsOpen() then Failure(InvalidTransition)
      else if decision.IsOpen() then Failure(Validation)
      else Success(this.(status := decision, updatedAt := now))
    }
  }

  datatype Decision = Decision(incidentId: Id, reviewer: Id, decision: IncidentStatus, rationale: string,
                               createdAt: Time)

  // ---------------------------------------------------------------- approvals

  datatype ApprovalStatus = Pending | Accepted | Declined | Lapsed

  datatype Approval = Approval(
    runId: Id,
    requester: Id,
    reviewer: Id,
    queue: string,
    status: ApprovalStatus,
    expiresAt: Time,
    resolvedAt: Option<Time>,
    note: string,
    updatedAt: Time,
    version: int)
  {
    predicate Valid() {
      requester != reviewer && !Blank(queue) && expiresAt != ZERO_TIME
    }

    function Resolve(outcome: ApprovalStatus, text: string, now: Time): Result<Approval> {
      if !status.Pending? then Failure(InvalidTransition)
      else if now >= expiresAt && !outcome.Lapsed? then Failure(Err.Expired)
      else if outcome.Pending? then Failure(Validation)
      else Success(this.(status := outcome, note := Trim(text), resolvedAt := Some(now), updatedAt := now))
    }
  }

  // ---------------------------------------------------------------- planning requests

  datatype PlanRequest = PlanRequest(
    workspaceId: Id,
    sourceZoneId: Id,
    targetZoneId: Id,
    poolId: Id,
    reference: string,
    snapshotIds: seq<Id>,
    start: Time,
    finish: Time,
    key: string)

  /** A stored answer to a planning request, kept under the request's idempotency key. */
  datatype Answer = Answer(request: PlanRequest, runId: Id, run: Run, expiresAt: Time, createdAt: Time)

  predicate ValidKey(key: string) {
    var k := Trim(key);
    8 <= Bytes(k) <= 128 && '\r' !in k && '\n' !in k
  }
}
