/** What each accepted platform request writes, row by row and field by field. */
module Effects {
  import opened Base
  import opened Domain
  import opened Batches
  import opened Jobs
  import opened Tables
  import opened Lifecycle
  import opened Operations
  import opened Invariant
  import opened Histories
  import opened Conditions

  /** Whether a snapshot is an input of a run. */
  predicate Feeds(db: Db, s: Id, r: Id) {
    s in db.inputs && db.inputs[s].runId == r
  }

  // ---------------------------------------------------------------- planning

  /** Exactly the named snapshots become reserved inputs of the run, and only the run, its pool, its answer and its job
      are written beside them. */
  lemma {:induction false} PlanWrites(db: Db, q: PlanRequest, now: Time, runId: Id, jobId: Id)
    requires q.poolId in db.pools && Distinct(q.snapshotIds)
    requires forall k :: 0 <= k < |q.snapshotIds| ==> q.snapshotIds[k] in db.snapshots
    ensures var after, pool := PlanPost(db, q, now, runId, jobId), db.pools[q.poolId];
            var run := Run(q.workspaceId, q.sourceZoneId, q.targetZoneId, q.poolId, Trim(q.reference), RunState.Queued,
                           q.start, q.finish, None, None, None, RowsNamed(db.snapshots, q.snapshotIds), now, now, 1);
            && after.runs == db.runs[runId := run]
            && after.pools == db.pools[q.poolId := pool.(
                 state := PoolReserved, reservedRun := Some(runId), updatedAt := now, version := pool.version + 1)]
            && after.answers == db.answers[q.key := Domain.Answer(q, runId, run, now + 86400, now)]
            && after.jobs == db.jobs[jobId := Job(RunPlanned, runId, JsonObject, JobPending, 0, 5, now, now)]
    ensures var after := PlanPost(db, q, now, runId, jobId);
            && after.snapshots.Keys == db.snapshots.Keys
            && forall s :: s in db.snapshots ==>
                 after.snapshots[s] ==
                 if s in q.snapshotIds
                 then db.snapshots[s].(state := SnapshotState.Reserved, runId := Some(runId), updatedAt := now,
                                       version := db.snapshots[s].version + 1)
                 else db.snapshots[s]
    ensures var after := PlanPost(db, q, now, runId, jobId);
            && (forall s :: s in after.inputs <==> s in db.inputs || s in q.snapshotIds)
            && (forall s :: s in after.inputs ==>
                              after.inputs[s] == if s in q.snapshotIds then Input(runId, now) else db.inputs[s])
  {
    hide Volume, RowsNamed, Trim;
    RowsNamedIsVolume(db.snapshots, q.snapshotIds);
  }

  // ---------------------------------------------------------------- moving and cancelling

  /** The run is stamped with the instant it was started, completed or archived; its pool becomes allocated at the start
      and free at the end. */
  lemma {:induction false} AdvanceWrites(db: Db, r: Id, target: RunState, began: Time, now: Time)
    requires r in db.runs && db.runs[r].poolId in db.pools
    ensures var after, run := AdvancePost(db, r, target, began, now), db.runs[r];
            var pool := db.pools[run.poolId];
            && after.runs == db.runs[r := run.(
                 state := target, updatedAt := began, version := run.version + 1,
                 startedAt := if target == RunState.Running then Some(began) else run.startedAt,
                 completedAt := if target == RunState.Completed then Some(began) else run.completedAt,
                 archivedAt := if target == RunState.Archived then Some(began) else run.archivedAt)]
            && after.pools == db.pools[run.poolId := pool.(
                 state := if target == RunState.Running then Allocated
                          else if target == RunState.Archived then Available else pool.state,
                 reservedRun := if target == RunState.Archived then None else pool.reservedRun,
                 updatedAt := now, version := pool.version + 1)]
  {
  }

  /** Starting materializes every input; completing ends that for those still at it; staging and archiving leave the
      inputs alone. */
  lemma {:induction false} AdvanceWritesInputs(h: History, r: Id, target: RunState, began: Time, now: Time, s: Id)
    requires Advances(After(h), r, target, now) && s in After(h).snapshots
    ensures var db := After(h);
            && r in db.runs && db.runs[r].poolId in db.pools
            && var after, row := AdvancePost(db, r, target, began, now), db.snapshots[s];
            && after.snapshots.Keys == db.snapshots.Keys
            && after.snapshots[s] ==
               if !Feeds(db, s, r) || target == RunState.Staged || target == RunState.Archived then row
               else if target == RunState.Running then
                 row.(state := SnapshotState.Materializing, updatedAt := now, version := row.version + 1)
               else if row.state == SnapshotState.Materializing then
                 row.(state := SnapshotState.Materialized, updatedAt := now, version := row.version + 1)
               else row.(version := row.version + 1)
  {
    hide After, Inv, InputObjection;
    AlwaysInv(h);
    InputsFit(After(h), r);
  }

  /** The inputs become validated and belong to nobody, the pool is free, and the run is cancelled. */
  lemma {:induction false} CancelWrites(db: Db, r: Id, now: Time)
    requires r in db.runs && db.runs[r].poolId in db.pools
    ensures var after, run := CancelPost(db, r, now), db.runs[r];
            var pool := db.pools[run.poolId];
            && after.runs == db.runs[r :=
                 run.(state := RunState.Cancelled, updatedAt := now, version := run.version + 1)]
            && after.pools == db.pools[run.poolId :=
                 pool.(state := Available, reservedRun := None, updatedAt := now, version := pool.version + 1)]
            && after.snapshots.Keys == db.snapshots.Keys
            && (forall s :: s in db.snapshots ==>
                  after.snapshots[s] ==
                  if Feeds(db, s, r)
                  then db.snapshots[s].(state := SnapshotState.Validated, runId := None, updatedAt := now,
                                        version := db.snapshots[s].version + 1)
                  else db.snapshots[s])
            && (forall s :: s in after.inputs <==> s in db.inputs && db.inputs[s].runId != r)
            && (forall s :: s in after.inputs ==> after.inputs[s] == db.inputs[s])
  {
  }

  // ---------------------------------------------------------------- drift

  /** The first out-of-range observation of a run opens an incident that is due for review when the workspace says. */
  lemma {:induction false} ObserveOpens(db: Db, r: Report, now: Time)
    requires r.observation.runId in db.runs && db.runs[r.observation.runId].workspaceId in db.workspaces
    requires forall i :: i in db.incidents && db.incidents[i].runId == r.observation.runId ==>
                           db.incidents[i].status == Cleared || db.incidents[i].status == Refused
    ensures var o := r.observation; var workspace := db.workspaces[db.runs[o.runId].workspaceId];
            o.score < workspace.score.minimum || workspace.score.maximum < o.score ==>
              ObservePost(db, r, now).incidents ==
              db.incidents[r.incidentId :=
                Incident(o.runId, Open, o.recordedAt, o.recordedAt, o.score, o.score, 1,
                         now + workspace.reviewDeadline, now, 1)]
  {
    hide QuarantineRows, InputsOf, ReviewJob;
    assert forall i :: i in db.incidents ==> !ActiveFor(db.incidents, i, r.observation.runId);
  }

  /** A later one extends the incident that is active. */
  lemma {:induction false} ObserveExtends(h: History, r: Report, now: Time, i: Id)
    requires r.observation.runId in After(h).runs
    requires After(h).runs[r.observation.runId].workspaceId in After(h).workspaces
    requires i in After(h).incidents && After(h).incidents[i].runId == r.observation.runId
    requires After(h).incidents[i].status == Open || After(h).incidents[i].status == Reviewing
    ensures var db, o := After(h), r.observation;
            var range, was := db.workspaces[db.runs[o.runId].workspaceId].score, db.incidents[i];
            o.score < range.minimum || range.maximum < o.score ==>
              && i in ObservePost(db, r, now).incidents
              && var row := ObservePost(db, r, now).incidents[i];
              && ObservePost(db, r, now).incidents == db.incidents[i := row]
              && row.runId == was.runId && row.status == was.status && row.reviewDue == was.reviewDue
              && row.count == was.count + 1 && row.updatedAt == now && row.version == was.version + 1
  {
    hide After, Inv, QuarantineRows, InputsOf, ReviewJob;
    AlwaysInv(h);
    OnlyActive(After(h), r.observation.runId, i);
  }

  lemma {:induction false} OnlyActive(db: Db, runId: Id, i: Id)
    requires Inv(db) && ActiveFor(db.incidents, i, runId)
    ensures ActiveIncident(db.incidents, runId) == Some(i)
  {
    hide RowsKept, InputsKept, PoolsHeld, DaysWithinLimit, ApprovalsSettled, AnswersKept, DriftContained, Executed;
  }

  /** Either way the observation is stored, the run's inputs that are materializing or materialized are quarantined with
      the incident noted, and a job asks for its review; an observation in range only is stored. */
  lemma {:induction false} ObserveWrites(db: Db, r: Report, now: Time)
    requires r.observation.runId in db.runs && db.runs[r.observation.runId].workspaceId in db.workspaces
    ensures var o := r.observation; var range := db.workspaces[db.runs[o.runId].workspaceId].score;
            var after, i := ObservePost(db, r, now), Absorber(db, r);
            if range.minimum <= o.score <= range.maximum
            then after == db.(observations := db.observations[r.observationId := o])
            else
              && after.observations == db.observations[r.observationId := o]
              && after.jobs == db.jobs[r.jobId := Job(DriftReview, i, JsonString(i), JobPending, 0, 5, now, now)]
              && after.snapshots.Keys == db.snapshots.Keys
              && forall s :: s in db.snapshots ==>
                   after.snapshots[s] ==
                   if Feeds(db, s, o.runId) && (db.snapshots[s].state == SnapshotState.Materializing
                                                || db.snapshots[s].state == SnapshotState.Materialized)
                   then db.snapshots[s].(state := SnapshotState.Quarantined, note := DriftNote(i), updatedAt := now,
                                         version := db.snapshots[s].version + 1)
                   else db.snapshots[s]
  {
    hide AbsorbedInto, ActiveIncident;
  }

  // ---------------------------------------------------------------- review

  /** The incident and a new decision row say what was decided, by whom and why; the run's quarantined inputs become
      approved without a note, or rejected with the rationale. */
  lemma {:induction false} DecideWrites(db: Db, r: Ruling, began: Time, now: Time)
    requires r.incidentId in db.incidents && (r.decision == Cleared || r.decision == Refused)
    ensures var after, incident := DecidePost(db, r, began, now), db.incidents[r.incidentId];
            && after.incidents == db.incidents[r.incidentId :=
                 incident.(status := r.decision, updatedAt := began, version := incident.version + 1)]
            && after.decisions == db.decisions[r.decisionId :=
                 Decision(r.incidentId, r.reviewer, r.decision, Trim(r.rationale), now)]
            && after.snapshots.Keys == db.snapshots.Keys
            && forall s :: s in db.snapshots ==>
                 var row := db.snapshots[s];
                 after.snapshots[s] ==
                 if !Feeds(db, s, incident.runId) || row.state != SnapshotState.Quarantined then row
                 else row.(
                   state := if r.decision == Cleared then SnapshotState.Approved else SnapshotState.Rejected,
                   note := if r.decision == Cleared then NoNote else Rationale(Trim(r.rationale)),
                   updatedAt := now, version := row.version + 1)
  {
    hide Trim;
  }

  // ---------------------------------------------------------------- the worker

  /** The tasks taken expire, with the instant and a note; all others stay. */
  lemma {:induction false} PassWritesTasks(db: Db, lapsed: seq<Id>, claimed: seq<Id>, now: Time, a: Id)
    requires a in db.approvals
    ensures var after, task := PassPost(db, lapsed, claimed, now), db.approvals[a];
            && after.approvals.Keys == db.approvals.Keys
            && after.approvals[a] ==
               if a in lapsed
               then task.(status := Lapsed, resolvedAt := Some(now), updatedAt := now, version := task.version + 1,
                          note := "approval_task expired before acceptance")
               else task
  {
    hide Trim, SettleAll;
    NotBlank("approval_task expired before acceptance");
  }

  /** A review job needs an incident's name or nothing; a job of a kind the worker does not know always fails. */
  predicate IsReadable(job: Job) {
    job.kind == RunPlanned || (job.kind == DriftReview && job.payload != Malformed && job.payload != JsonObject)
  }

  /** The jobs taken have one attempt more; they succeed if they can be read, are dead at their last attempt, and are
      otherwise put off by the square of their attempts in seconds. */
  lemma {:induction false} PassWritesJobs(db: Db, lapsed: seq<Id>, claimed: seq<Id>, now: Time, j: Id)
    requires j in db.jobs
    ensures var after, job := PassPost(db, lapsed, claimed, now), db.jobs[j];
            var tried := job.attempts + 1;
            && after.jobs.Keys == db.jobs.Keys
            && after.jobs[j] ==
               if j !in claimed then job
               else if IsReadable(job) then job.(attempts := tried, status := JobSucceeded)
               else job.(attempts := tried, availableAt := now + tried * tried,
                         status := if tried < job.maxAttempts then JobFailed else JobDead)
  {
    hide LapseAll;
  }
}
