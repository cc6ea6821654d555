/** The catalogue, pool, drift-review and approval requests, each as a check and a resulting state. */
module Operations {
  import opened Base
  import opened Domain
  import opened Batches
  import opened Jobs
  import opened Tables
  import opened Lifecycle

  // ---------------------------------------------------------------- catalogue

  function AddWorkspace(db: Db, id: Id, row: Workspace): (r: Result<Db>)
    ensures r.Success? ==> r.value == db.(workspaces := r.value.workspaces)
  {
    var created := row.(status := Draft);
    if !created.Valid() then Failure(Validation)
    else if id in db.workspaces then Failure(Conflict)
    else Success(db.(workspaces := db.workspaces[id := created]))
  }

  function ActivateWorkspace(db: Db, id: Id): (r: Result<Db>)
    ensures r.Success? ==> r.value == db.(workspaces := r.value.workspaces)
  {
    var row :- Get(db.workspaces, id);
    if !row.status.Draft? then Failure(InvalidTransition)
    else Success(db.(workspaces := db.workspaces[id := row.(status := Active)]))
  }

  function AddZone(db: Db, id: Id, row: Zone): (r: Result<Db>)
    ensures r.Success? ==> r.value == db.(zones := r.value.zones)
  {
    var created := row.(status := ZoneActive);
    if !created.Valid() then Failure(Validation)
    else if id in db.zones then Failure(Conflict)
    else Success(db.(zones := db.zones[id := created]))
  }

  /** Neither a new pool's nor a new snapshot's run id is cleared: it is stored as the caller gave it. */
  function AddPool(db: Db, id: Id, row: Pool, now: Time): (r: Result<Db>)
    ensures r.Success? ==> r.value == db.(pools := r.value.pools)
  {
    db.InsertPool(id, row.(state := Available, version := 1, updatedAt := now))
  }

  function RegisterSnapshot(db: Db, id: Id, row: Snapshot, now: Time): (r: Result<Db>)
    ensures r.Success? ==> r.value == db.(snapshots := r.value.snapshots)
  {
    db.InsertSnapshot(id, row.(state := Registered, version := 1, updatedAt := now))
  }

  function ValidateSnapshot(db: Db, id: Id, now: Time): (r: Result<Db>)
    ensures r.Success? ==> r.value == db.(snapshots := r.value.snapshots)
  {
    var row :- Get(db.snapshots, id);
    var moved :- row.Transition(Validated, now);
    db.UpdateSnapshot(id, moved, row.version)
  }

  // ---------------------------------------------------------------- pool maintenance

  datatype PoolChange = BeginReconciling | EndReconciling | RetirePool(reason: string) {
    function On(pool: Pool, now: Time): Result<Pool> {
      match this
      case BeginReconciling => pool.StartReconciliation(now)
      case EndReconciling => pool.CompleteReconciliation(now)
      case RetirePool(reason) => if Blank(reason) then Failure(Validation) else pool.Retire(now)
    }
  }

  function ChangePool(db: Db, id: Id, change: PoolChange, now: Time): (r: Result<Db>)
    ensures r.Success? ==> r.value == db.(pools := r.value.pools)
  {
    if change.RetirePool? && Blank(change.reason) then Failure(Validation) else
      var pool :- Get(db.pools, id);
      var changed :- change.On(pool, now);
      db.UpdatePool(id, changed, pool.version)
  }

  // ---------------------------------------------------------------- drift

  /** A quality observation as submitted, with the identifiers its rows would get. */
  datatype Report = Report(observationId: Id, observation: Observation, incidentId: Id, jobId: Id)

  predicate InRange(db: Db, o: Observation) {
    o.runId in db.runs && db.runs[o.runId].workspaceId in db.workspaces
    && db.workspaces[db.runs[o.runId].workspaceId].score.Contains(o.score)
  }

  ghost function ActiveIncident(incidents: map<Id, Incident>, runId: Id): Option<Id> {
    if exists i :: i in incidents && ActiveFor(incidents, i, runId) then
      var i :| i in incidents && ActiveFor(incidents, i, runId);
      Some(i)
    else None
  }

  /** Why an observation cannot be stored. */
  function AdmitCheck(db: Db, r: Report): Check {
    var o := r.observation;
    if !o.Valid() then Some(Validation)
    else if o.runId !in db.runs || db.runs[o.runId].workspaceId !in db.workspaces then Some(NotFound)
    else if !db.runs[o.runId].state.Running? && !db.runs[o.runId].state.Completed? then Some(Conflict)
    else if db.InsertObservation(r.observationId, o).Failure? then Some(Conflict)
    else None
  }

  /** Whether the identifiers meant for an incident and its review job are free. */
  ghost function DriftCheck(db: Db, r: Report): Check {
    if ActiveIncident(db.incidents, r.observation.runId).None? && r.incidentId in db.incidents then Some(Conflict)
    else if r.jobId in db.jobs then Some(Conflict)
    else None
  }

  ghost function ObserveCheck(db: Db, r: Report): Check {
    if AdmitCheck(db, r).Some? then AdmitCheck(db, r)
    else if InRange(db, r.observation) then None
    else DriftCheck(db, r)
  }

  /** The incident an out-of-range observation goes to: the run's active one, or else a new one. */
  ghost function Absorber(db: Db, r: Report): Id {
    match ActiveIncident(db.incidents, r.observation.runId)
    case Some(i) => i
    case None => r.incidentId
  }

  ghost function AbsorbedInto(db: Db, r: Report, now: Time): Incident
    requires r.observation.runId in db.runs && db.runs[r.observation.runId].workspaceId in db.workspaces
  {
    match ActiveIncident(db.incidents, r.observation.runId)
    case Some(i) =>
      db.incidents[i].Include(r.observation, now).(version := db.incidents[i].version + 1)
    case None =>
      var deadline := db.workspaces[db.runs[r.observation.runId].workspaceId].reviewDeadline;
      Incident(r.observation.runId, Open, 0, 0, 0, 0, 0, now + deadline, now, 1).Include(r.observation, now)
  }

  function QuarantineRow(row: Snapshot, incidentId: Id, now: Time): Snapshot {
    if row.state.Materializing? || row.state.Materialized? then
      row.(state := Quarantined, note := DriftNote(incidentId), updatedAt := now, version := row.version + 1)
    else row
  }

  function QuarantineRows(rows: map<Id, Snapshot>, ids: set<Id>, incidentId: Id, now: Time): map<Id, Snapshot> {
    map s | s in rows :: if s in ids then QuarantineRow(rows[s], incidentId, now) else rows[s]
  }

  function ReviewJob(incidentId: Id, now: Time): Job {
    Job(DriftReview, incidentId, JsonString(incidentId), JobPending, 0, JOB_ATTEMPTS, now, now)
  }

  ghost function ObservePost(db: Db, r: Report, now: Time): (after: Db)
    requires r.observation.runId in db.runs && db.runs[r.observation.runId].workspaceId in db.workspaces
    ensures after == db.(observations := after.observations, incidents := after.incidents,
                         snapshots := after.snapshots, jobs := after.jobs)
  {
    var stored := db.(observations := db.observations[r.observationId := r.observation]);
    if InRange(db, r.observation) then stored else
      var i := Absorber(db, r);
      stored.(incidents := db.incidents[i := AbsorbedInto(db, r, now)],
              snapshots := QuarantineRows(db.snapshots, InputsOf(db.inputs, r.observation.runId), i, now),
              jobs := db.jobs[r.jobId := ReviewJob(i, now)])
  }

  // ---------------------------------------------------------------- review

  function StartReview(db: Db, id: Id, now: Time): (r: Result<Db>)
    ensures r.Success? ==> r.value == db.(incidents := r.value.incidents)
  {
    var row :- Get(db.incidents, id);
    var moved :- row.StartReview(now);
    db.UpdateIncident(id, moved, row.version)
  }

  datatype Ruling = Ruling(incidentId: Id, decision: IncidentStatus, rationale: string, reviewer: Id, decisionId: Id)

  function DecideCheck(db: Db, r: Ruling): Check {
    if Blank(r.rationale) then Some(Validation)
    else if r.incidentId !in db.incidents then Some(NotFound)
    else if !db.incidents[r.incidentId].status.IsOpen() then Some(InvalidTransition)
    else if r.decision.IsOpen() then Some(Validation)
    else if db.incidents[r.incidentId].runId !in db.runs then Some(NotFound)
    else if r.decisionId in db.decisions then Some(Conflict)
    else None
  }

  function RuleRow(row: Snapshot, r: Ruling, now: Time): Snapshot {
    if !row.state.Quarantined? then row
    else if r.decision.Cleared?
      then row.(state := Approved, note := NoNote, updatedAt := now, version := row.version + 1)
    else row.(state := Rejected, note := Rationale(Trim(r.rationale)), updatedAt := now, version := row.version + 1)
  }

  function RuleRows(rows: map<Id, Snapshot>, ids: set<Id>, r: Ruling, now: Time): map<Id, Snapshot> {
    map s | s in rows :: if s in ids then RuleRow(rows[s], r, now) else rows[s]
  }

  /** The clock is read twice: `began` stamps the incident, `now` the other rows. */
  function DecidePost(db: Db, r: Ruling, began: Time, now: Time): (after: Db)
    requires r.incidentId in db.incidents
    ensures after == db.(incidents := after.incidents, snapshots := after.snapshots, decisions := after.decisions)
  {
    var incident := db.incidents[r.incidentId];
    db.(incidents := db.incidents[r.incidentId :=
          incident.(status := r.decision, updatedAt := began, version := incident.version + 1)],
        snapshots := RuleRows(db.snapshots, InputsOf(db.inputs, incident.runId), r, now),
        decisions := db.decisions[r.decisionId :=
          Decision(r.incidentId, r.reviewer, r.decision, Trim(r.rationale), now)])
  }

  // ---------------------------------------------------------------- approvals

  datatype Principal = Principal(userId: Id, engineer: bool)

  function RequestApproval(
      db: Db, id: Id, runId: Id, requester: Id, reviewer: Id, queue: string, expiresAt: Time,
      now: Time): (r: Result<Db>)
    ensures r.Success? ==> r.value == db.(approvals := r.value.approvals)
  {
    var run :- Get(db.runs, runId);
    if !run.state.Running? && !run.state.Completed? then Failure(Conflict)
    else if exists a :: a in db.approvals && PendingFor(db.approvals, a, runId) then Failure(Conflict)
    else db.InsertApproval(id, Approval(runId, requester, reviewer, Trim(queue), Pending, expiresAt, None, "", now, 1))
  }

  function ResolveApproval(db: Db, id: Id, accepted: bool, note: string, who: Principal, now: Time): (r: Result<Db>)
    ensures r.Success? ==> r.value == db.(approvals := r.value.approvals)
  {
    var task :- Get(db.approvals, id);
    if task.reviewer != who.userId && !who.engineer then Failure(Conflict) else
      var resolved :- task.Resolve(if accepted then Accepted else Declined, note, now);
      db.UpdateApproval(id, resolved, task.version)
  }

  // ---------------------------------------------------------------- the worker

  const EXPIRY_NOTE := "approval_task expired before acceptance"

  /** The pending approvals whose deadline has come, keyed by that deadline. */
  function Overdue(approvals: map<Id, Approval>, now: Time): map<Id, Time> {
    map a | a in approvals && approvals[a].status.Pending? && approvals[a].expiresAt <= now :: approvals[a].expiresAt
  }

  function Lapse(a: Approval, now: Time): Approval {
    a.(status := Lapsed, resolvedAt := Some(now), note := Trim(EXPIRY_NOTE), updatedAt := now, version := a.version + 1)
  }

  function LapseAll(approvals: map<Id, Approval>, ids: set<Id>, now: Time): map<Id, Approval> {
    map a | a in approvals :: if a in ids then Lapse(approvals[a], now) else approvals[a]
  }

  /** A pass takes the oldest deadlines and the oldest due jobs, each up to its batch size. */
  ghost predicate PassMayTake(db: Db, limit: nat, lapsed: seq<Id>, claimed: seq<Id>, now: Time) {
    OldestFirst(Overdue(db.approvals, now), limit, lapsed) && OldestFirst(Due(db.jobs, now), limit, claimed)
  }

  function PassPost(db: Db, lapsed: seq<Id>, claimed: seq<Id>, now: Time): (after: Db)
    ensures after == db.(approvals := after.approvals, jobs := after.jobs)
  {
    db.(approvals := LapseAll(db.approvals, IdSet(lapsed), now), jobs := SettleAll(db.jobs, IdSet(claimed), now))
  }
}
