/** Planning a run keeps every cross-table fact. */
module PlanInvariant {
  import opened Base
  import opened BusinessDay
  import opened Domain
  import opened Tables
  import opened Lifecycle
  import opened Invariant

  /** What an accepted plan says about the tables it was checked against. */
  ghost predicate Sound(db: Db, q: PlanRequest, now: Time, runId: Id) {
    var ids := IdSet(q.snapshotIds);
    && q.workspaceId in db.workspaces && q.sourceZoneId in db.zones && q.poolId in db.pools
    && q.sourceZoneId != q.targetZoneId && q.finish > q.start
    && Fresh(db.snapshots, db.inputs, ids)
    && (forall s :: s in ids ==> Reservable(db, q, now, s))
    && db.pools[q.poolId].state.Available?
    && Volume(db.snapshots, ids) <= db.pools[q.poolId].capacity
    && |RunsInDay(db.runs, q.sourceZoneId, db.zones[q.sourceZoneId].clock, q.start)| <
       db.zones[q.sourceZoneId].dailyLimit
    && runId !in db.runs
    && !Blank(Trim(q.reference))
    && (forall r :: r in db.runs ==> db.runs[r].reference != Trim(q.reference))
  }

  /** Snapshots that no run has taken yet. */
  ghost predicate Fresh(snapshots: map<Id, Snapshot>, inputs: map<Id, Input>, ids: set<Id>) {
    && ids != {} && ids <= snapshots.Keys
    && (forall s :: s in ids ==> s !in inputs && snapshots[s].state.Validated?)
  }

  lemma {:induction false} AcceptedPlan(db: Db, q: PlanRequest, now: Time, runId: Id, jobId: Id)
    requires Plans(db, q, now, runId, jobId)
    ensures Sound(db, q, now, runId)
    ensures Distinct(q.snapshotIds)
    ensures forall s :: s in IdSet(q.snapshotIds) ==> db.snapshots[s].expiresAt > q.finish
    ensures jobId !in db.jobs
  {
    assert CapacityCheck(db, q, now).None? && WriteCheck(db, q, runId, jobId).None?;
    AcceptedInputs(db, q, now);
  }

  lemma {:induction false} AcceptedInputs(db: Db, q: PlanRequest, now: Time)
    requires RequestCheck(q).None? && RouteCheck(db, q).None? && CapacityCheck(db, q, now).None?
    ensures IdSet(q.snapshotIds) != {} && IdSet(q.snapshotIds) <= db.snapshots.Keys
    ensures forall s :: s in IdSet(q.snapshotIds) ==> Reservable(db, q, now, s) && db.snapshots[s].expiresAt > q.finish
    ensures Distinct(q.snapshotIds)
    ensures db.pools[q.poolId].state.Available? && q.finish > q.start
    ensures Volume(db.snapshots, IdSet(q.snapshotIds)) <= db.pools[q.poolId].capacity
  {
    InputCheckMeans(db, q, now, 0);
    assert q.snapshotIds[0] in IdSet(q.snapshotIds);
    assert WindowCheck(db, q, now).None?;
  }

  lemma {:induction false} PlanKeepsStates(rows: map<Id, Snapshot>, inputs: map<Id, Input>, runs: map<Id, Run>,
                        ids: set<Id>, runId: Id, run: Run, now: Time)
    requires BindingsAgree(rows, inputs, runs.Keys) && StatesFit(rows, inputs, runs)
    requires Fresh(rows, inputs, ids) && runId !in runs && run.state.Queued?
    ensures BindingsAgree(ReserveRows(rows, ids, runId, now), BindInputs(inputs, ids, runId, now),
                          runs[runId := run].Keys)
    ensures StatesFit(ReserveRows(rows, ids, runId, now), BindInputs(inputs, ids, runId, now), runs[runId := run])
  {
  }

  lemma {:induction false} PlanKeepsStep(rows: map<Id, Snapshot>, inputs: map<Id, Input>, runs: map<Id, Run>,
                                         ids: set<Id>, runId: Id, run: Run, now: Time)
    requires BindingsAgree(rows, inputs, runs.Keys) && InputsInStep(rows, inputs, runs)
    requires Fresh(rows, inputs, ids) && runId !in runs && run.state.Queued?
    ensures InputsInStep(ReserveRows(rows, ids, runId, now), BindInputs(inputs, ids, runId, now), runs[runId := run])
  {
  }

  lemma {:induction false} PlanKeepsTotals(rows: map<Id, Snapshot>, inputs: map<Id, Input>, runs: map<Id, Run>,
                        ids: set<Id>, runId: Id, run: Run, now: Time)
    requires BindingsAgree(rows, inputs, runs.Keys) && TotalsAddUp(rows, inputs, runs)
    requires Fresh(rows, inputs, ids) && runId !in runs && run.totalRows == Volume(rows, ids)
    ensures TotalsAddUp(ReserveRows(rows, ids, runId, now), BindInputs(inputs, ids, runId, now), runs[runId := run])
  {
    var rows' := ReserveRows(rows, ids, runId, now);
    var inputs' := BindInputs(inputs, ids, runId, now);
    assert RowCounts(rows') == RowCounts(rows) && rows'.Keys == rows.Keys;
    forall r | r in runs[runId := run] ensures InputsOf(inputs', r) == if r == runId then ids else InputsOf(inputs, r) {
    }
  }

  lemma {:induction false} PlanKeepsPools(pools: map<Id, Pool>, runs: map<Id, Run>, runId: Id, run: Run, now: Time)
    requires PoolsHeld(pools, runs)
    requires runId !in runs && run.state.Queued?
    requires run.poolId in pools && pools[run.poolId].state.Available?
    ensures PoolsHeld(pools[run.poolId := HoldPool(pools[run.poolId], runId, now)], runs[runId := run])
  {
  }

  lemma {:induction false} NoIncidentYet(incidents: map<Id, Incident>, runs: map<Id, Run>, runId: Id)
    requires OneActive(incidents, runs) && runId !in runs
    ensures !HasActive(incidents, runId)
  {
  }

  /** The new run adds one to the days that contain its start, and all of those are the one day that was counted. */
  lemma {:induction false} PlanKeepsDays(zones: map<Id, Zone>, runs: map<Id, Run>, runId: Id, run: Run)
    requires ZonesValid(zones)
    requires DaysWithinLimit(zones, runs)
    requires runId !in runs && run.sourceZoneId in zones
    requires |RunsInDay(runs, run.sourceZoneId, zones[run.sourceZoneId].clock, run.start)| <
             zones[run.sourceZoneId].dailyLimit
    ensures DaysWithinLimit(zones, runs[runId := run])
  {
    var runs' := runs[runId := run];
    forall z, at | z in zones
      ensures |RunsInDay(runs', z, zones[z].clock, at)| <= zones[z].dailyLimit
    {
      var clock := zones[z].clock;
      var before := RunsInDay(runs, z, clock, at);
      var after := RunsInDay(runs', z, clock, at);
      if z == run.sourceZoneId && clock.InWindow(run.start, at) {
        SameDay(runs, z, clock, run.start, at);
        assert after <= before + {runId};
        SubsetCardinality(after, before + {runId});
      } else {
        assert after == before;
      }
    }
  }

  lemma SameDay(runs: map<Id, Run>, z: Id, clock: ZoneClock, a: Time, b: Time)
    requires clock.Valid() && clock.InWindow(a, b)
    ensures RunsInDay(runs, z, clock, a) == RunsInDay(runs, z, clock, b)
  {
    clock.WindowsPartition(a, b);
  }

  lemma {:induction false} NewRunValid(rows: map<Id, Snapshot>, ids: set<Id>, q: PlanRequest, now: Time)
    requires SnapshotsValid(rows) && ids != {} && ids <= rows.Keys
    requires q.sourceZoneId != q.targetZoneId && q.finish > q.start && !Blank(Trim(q.reference))
    ensures NewRun(q, now, Volume(rows, ids)).Valid()
    ensures Volume(rows, ids) >= |ids|
  {
    assert ids * rows.Keys == ids;
    SumAtLeastSize(ids, RowCounts(rows));
  }

  // ---------------------------------------------------------------- the whole step

  lemma {:induction false} PlanKeepsRows(workspaces: map<Id, Workspace>, zones: map<Id, Zone>, rows: map<Id, Snapshot>,
                                         pools: map<Id, Pool>, runs: map<Id, Run>, ids: set<Id>, runId: Id, run: Run,
                                           now: Time)
    requires RowsInv(workspaces, zones, rows, pools, runs) && run.Valid()
    requires run.workspaceId in workspaces && run.sourceZoneId in zones && run.poolId in pools
    requires run.totalRows <= pools[run.poolId].capacity && runId !in runs
    requires forall r :: r in runs ==> runs[r].reference != run.reference
    ensures RowsInv(workspaces, zones, ReserveRows(rows, ids, runId, now),
                    pools[run.poolId := HoldPool(pools[run.poolId], runId, now)], runs[runId := run])
  {
    hide Blank;
  }

  lemma {:induction false} PlanStepKeepsRows(db: Db, q: PlanRequest, now: Time, runId: Id, jobId: Id)
    requires RowsKept(db) && q.poolId in db.pools && Sound(db, q, now, runId)
    ensures RowsKept(PlanPost(db, q, now, runId, jobId))
  {
    hide WorkspacesValid, ZonesValid, PoolsValid, RunsValid, RunsPlaced, ReferencesUnique, SnapshotsValid;
    hide Blank, Trim, RunsInDay, Volume, Reservable;
    var ids := IdSet(q.snapshotIds);
    NewRunValid(db.snapshots, ids, q, now);
    PlanKeepsRows(db.workspaces, db.zones, db.snapshots, db.pools, db.runs, ids, runId,
                  NewRun(q, now, Volume(db.snapshots, ids)), now);
  }

  lemma {:induction false} PlanStepKeepsInputs(db: Db, q: PlanRequest, now: Time, runId: Id, jobId: Id)
    requires InputsKept(db) && Sound(db, q, now, runId)
    ensures InputsKept(PlanPost(db, q, now, runId, jobId))
  {
    hide BindingsAgree, StatesFit, InputsInStep, TotalsAddUp, Fresh, Volume, Blank, Trim, RunsInDay, Reservable;
    var ids := IdSet(q.snapshotIds);
    var run := NewRun(q, now, Volume(db.snapshots, ids));
    PlanKeepsStates(db.snapshots, db.inputs, db.runs, ids, runId, run, now);
    PlanKeepsStep(db.snapshots, db.inputs, db.runs, ids, runId, run, now);
    PlanKeepsTotals(db.snapshots, db.inputs, db.runs, ids, runId, run, now);
  }

  lemma {:induction false} PlanStepKeepsPools(db: Db, q: PlanRequest, now: Time, runId: Id, jobId: Id)
    requires PoolsHeld(db.pools, db.runs) && Sound(db, q, now, runId)
    ensures PoolsHeld(PlanPost(db, q, now, runId, jobId).pools, PlanPost(db, q, now, runId, jobId).runs)
  {
    hide PoolsHeld, Fresh, Volume, Blank, Trim, RunsInDay, Reservable;
    PlanKeepsPools(db.pools, db.runs, runId, NewRun(q, now, Volume(db.snapshots, IdSet(q.snapshotIds))), now);
  }

  lemma {:induction false} PlanKeepsDrift(rows: map<Id, Snapshot>, inputs: map<Id, Input>, incidents: map<Id, Incident>,
                                          runs: map<Id, Run>, ids: set<Id>, runId: Id, run: Run, now: Time)
    requires BindingsAgree(rows, inputs, runs.Keys) && DriftInv(rows, inputs, incidents, runs)
    requires Fresh(rows, inputs, ids) && runId !in runs
    ensures DriftInv(ReserveRows(rows, ids, runId, now), BindInputs(inputs, ids, runId, now), incidents,
                     runs[runId := run])
  {
    hide HasActive;
    NoIncidentYet(incidents, runs, runId);
  }

  lemma {:induction false} PlanStepKeepsDrift(db: Db, q: PlanRequest, now: Time, runId: Id, jobId: Id)
    requires InputsKept(db) && DriftKept(db) && q.poolId in db.pools && Sound(db, q, now, runId)
    ensures DriftKept(PlanPost(db, q, now, runId, jobId))
  {
    hide DriftInv, BindingsAgree, StatesFit, InputsInStep, TotalsAddUp, Fresh, Volume, Blank, Trim, RunsInDay;
    hide Reservable;
    var ids := IdSet(q.snapshotIds);
    PlanKeepsDrift(db.snapshots, db.inputs, db.incidents, db.runs, ids, runId,
                   NewRun(q, now, Volume(db.snapshots, ids)), now);
  }

  lemma {:induction false} PlanStepKeepsDays(db: Db, q: PlanRequest, now: Time, runId: Id, jobId: Id)
    requires RowsKept(db) && DaysWithinLimit(db.zones, db.runs) && Sound(db, q, now, runId)
    ensures DaysWithinLimit(db.zones, PlanPost(db, q, now, runId, jobId).runs)
  {
    hide WorkspacesValid, SnapshotsValid, PoolsValid, RunsValid, RunsPlaced, ReferencesUnique, ZonesValid;
    hide DaysWithinLimit, Volume, RunsInDay, Fresh, Reservable, Blank, Trim;
    PlanKeepsDays(db.zones, db.runs, runId, NewRun(q, now, Volume(db.snapshots, IdSet(q.snapshotIds))));
  }

  lemma {:induction false} PutKeepsAnswers(answers: map<string, Answer>, a: Answer)
    requires AnswersKept(answers) && a.expiresAt == a.createdAt + ANSWER_TTL
    ensures AnswersKept(answers[a.request.key := a])
  {
  }

  lemma {:induction false} PlanStepKeepsRest(db: Db, q: PlanRequest, now: Time, runId: Id, jobId: Id)
    requires ApprovalsSettled(db.approvals) && AnswersKept(db.answers) && q.poolId in db.pools
    ensures ApprovalsSettled(PlanPost(db, q, now, runId, jobId).approvals)
    ensures AnswersKept(PlanPost(db, q, now, runId, jobId).answers)
  {
    hide ApprovalsSettled, AnswersKept;
    var run := NewRun(q, now, Volume(db.snapshots, IdSet(q.snapshotIds)));
    PutKeepsAnswers(db.answers, Answer(q, runId, run, now + ANSWER_TTL, now));
  }

  lemma {:induction false} PlanKeepsInv(db: Db, q: PlanRequest, now: Time, runId: Id, jobId: Id)
    requires Inv(db) && q.poolId in db.pools && Sound(db, q, now, runId)
    ensures Inv(PlanPost(db, q, now, runId, jobId))
  {
    hide RowsKept, InputsKept, PoolsHeld, DriftKept, DaysWithinLimit, ApprovalsSettled, AnswersKept, Sound;
    PlanStepKeepsRows(db, q, now, runId, jobId);
    PlanStepKeepsInputs(db, q, now, runId, jobId);
    PlanStepKeepsPools(db, q, now, runId, jobId);
    PlanStepKeepsDrift(db, q, now, runId, jobId);
    PlanStepKeepsDays(db, q, now, runId, jobId);
    PlanStepKeepsRest(db, q, now, runId, jobId);
  }
}
