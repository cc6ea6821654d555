/** Moving a run on, or cancelling it, keeps every cross-table fact. */
module RunInvariant {
  import opened Base
  import opened BusinessDay
  import opened Domain
  import opened Tables
  import opened Lifecycle
  import opened Invariant

  // ---------------------------------------------------------------- updates that leave the data alone

  predicate SameData(a: Snapshot, b: Snapshot) {
    && a.workspaceId == b.workspaceId && a.sourceZoneId == b.sourceZoneId && a.revision == b.revision
    && a.family == b.family && a.partitions == b.partitions && a.rows == b.rows && a.expiresAt == b.expiresAt
  }

  ghost predicate SnapshotsRestated(rows: map<Id, Snapshot>, rows': map<Id, Snapshot>) {
    rows'.Keys == rows.Keys && forall s :: s in rows ==> SameData(rows[s], rows'[s])
  }

  /** The run's plan is untouched; its state and stamps may differ. */
  predicate SamePlan(a: Run, b: Run) {
    && a.workspaceId == b.workspaceId && a.sourceZoneId == b.sourceZoneId && a.targetZoneId == b.targetZoneId
    && a.poolId == b.poolId && a.reference == b.reference && a.start == b.start && a.finish == b.finish
    && a.totalRows == b.totalRows
  }

  ghost predicate PoolsRestated(pools: map<Id, Pool>, pools': map<Id, Pool>) {
    pools'.Keys == pools.Keys && forall p :: p in pools ==> pools'[p].Valid() && pools'[p].capacity == pools[p].capacity
  }

  lemma {:induction false} RestatingKeepsRows(
      workspaces: map<Id, Workspace>, zones: map<Id, Zone>, rows: map<Id, Snapshot>, rows': map<Id, Snapshot>,
      pools: map<Id, Pool>, pools': map<Id, Pool>, runs: map<Id, Run>, runId: Id, run: Run)
    requires RowsInv(workspaces, zones, rows, pools, runs)
    requires SnapshotsRestated(rows, rows') && PoolsRestated(pools, pools')
    requires runId in runs && SamePlan(runs[runId], run)
    ensures RowsInv(workspaces, zones, rows', pools', runs[runId := run])
  {
    hide Blank;
  }

  lemma {:induction false} RestatingKeepsVolume(rows: map<Id, Snapshot>, rows': map<Id, Snapshot>, ids: set<Id>)
    requires SnapshotsRestated(rows, rows')
    ensures Volume(rows', ids) == Volume(rows, ids)
  {
    assert RowCounts(rows') == RowCounts(rows);
  }

  lemma {:induction false} RestatingKeepsDays(zones: map<Id, Zone>, runs: map<Id, Run>, runId: Id, run: Run)
    requires DaysWithinLimit(zones, runs)
    requires runId in runs && SamePlan(runs[runId], run) && (runs[runId].state.Cancelled? ==> run.state.Cancelled?)
    ensures DaysWithinLimit(zones, runs[runId := run])
  {
    var runs' := runs[runId := run];
    forall z, at | z in zones
      ensures |RunsInDay(runs', z, zones[z].clock, at)| <= zones[z].dailyLimit
    {
      SubsetCardinality(RunsInDay(runs', z, zones[z].clock, at), RunsInDay(runs, z, zones[z].clock, at));
    }
  }

  // ---------------------------------------------------------------- moving on

  /** What an accepted move says about the run and its inputs. */
  ghost predicate Moves(
      rows: map<Id, Snapshot>, inputs: map<Id, Input>, runs: map<Id, Run>, runId: Id, run: Run, now: Time) {
    && runId in runs && SamePlan(runs[runId], run)
    && runs[runId].state.MayMove(run.state) && !run.state.Cancelled?
    && (forall s :: s in InputsOf(inputs, runId) && s in rows ==> InputObjection(rows[s], run.state, now).None?)
  }

  lemma {:induction false} MoveFits(row: Snapshot, from: RunState, to: RunState, now: Time)
    requires Fits(from, row.state) && from.MayMove(to) && !to.Cancelled? && InputObjection(row, to, now).None?
    ensures Fits(to, AdvanceRow(row, to, now).state)
    ensures SameData(row, AdvanceRow(row, to, now))
    ensures to.Running? ==> AdvanceRow(row, to, now).state.Materializing?
    ensures AdvanceRow(row, to, now).runId == row.runId
  {
  }

  lemma {:induction false} AdvanceKeepsStates(rows: map<Id, Snapshot>, inputs: map<Id, Input>, runs: map<Id, Run>,
                                              runId: Id, run: Run, now: Time)
    requires BindingsAgree(rows, inputs, runs.Keys) && StatesFit(rows, inputs, runs)
    requires Moves(rows, inputs, runs, runId, run, now)
    ensures BindingsAgree(AdvanceRows(rows, InputsOf(inputs, runId), run.state, now), inputs, runs[runId := run].Keys)
    ensures StatesFit(AdvanceRows(rows, InputsOf(inputs, runId), run.state, now), inputs, runs[runId := run])
  {
    hide Fits, InputObjection, AdvanceRow, SamePlan;
    forall s | s in InputsOf(inputs, runId)
      ensures Fits(run.state, AdvanceRow(rows[s], run.state, now).state)
      ensures AdvanceRow(rows[s], run.state, now).runId == rows[s].runId
    {
      MoveFits(rows[s], runs[runId].state, run.state, now);
    }
  }

  lemma {:induction false} AdvanceKeepsStep(rows: map<Id, Snapshot>, inputs: map<Id, Input>, runs: map<Id, Run>,
                                            runId: Id, run: Run, now: Time)
    requires BindingsAgree(rows, inputs, runs.Keys) && StatesFit(rows, inputs, runs) && InputsInStep(rows, inputs, runs)
    requires Moves(rows, inputs, runs, runId, run, now)
    ensures InputsInStep(AdvanceRows(rows, InputsOf(inputs, runId), run.state, now), inputs, runs[runId := run])
  {
    hide Fits, InputObjection, SamePlan, AdvanceRow;
    var rows' := AdvanceRows(rows, InputsOf(inputs, runId), run.state, now);
    forall s, t | s in InputsOf(inputs, runId) && t in InputsOf(inputs, runId) && Executed(run.state)
      ensures rows'[s].state == rows'[t].state
    {
      MoveFits(rows[s], runs[runId].state, run.state, now);
      MoveFits(rows[t], runs[runId].state, run.state, now);
      if !run.state.Running? {
        AdvanceByState(rows[s], rows[t], run.state, now);
      }
    }
  }

  lemma {:induction false} AdvanceByState(a: Snapshot, b: Snapshot, to: RunState, now: Time)
    requires a.state == b.state
    ensures AdvanceRow(a, to, now).state == AdvanceRow(b, to, now).state
  {
  }

  lemma {:induction false} AdvanceRestates(rows: map<Id, Snapshot>, ids: set<Id>, to: RunState, now: Time)
    ensures SnapshotsRestated(rows, AdvanceRows(rows, ids, to, now))
  {
  }

  lemma {:induction false} AdvanceKeepsTotals(rows: map<Id, Snapshot>, inputs: map<Id, Input>, runs: map<Id, Run>,
                                              runId: Id, run: Run, now: Time)
    requires TotalsAddUp(rows, inputs, runs) && Moves(rows, inputs, runs, runId, run, now)
    ensures TotalsAddUp(AdvanceRows(rows, InputsOf(inputs, runId), run.state, now), inputs, runs[runId := run])
  {
    hide InputObjection, AdvanceRow, Volume, SnapshotsRestated;
    var rows' := AdvanceRows(rows, InputsOf(inputs, runId), run.state, now);
    AdvanceRestates(rows, InputsOf(inputs, runId), run.state, now);
    forall r | r in runs ensures Volume(rows', InputsOf(inputs, r)) == Volume(rows, InputsOf(inputs, r)) {
      RestatingKeepsVolume(rows, rows', InputsOf(inputs, r));
    }
  }

  lemma {:induction false} AdvanceKeepsPools(pools: map<Id, Pool>, runs: map<Id, Run>, runId: Id, run: Run, now: Time)
    requires PoolsHeld(pools, runs)
    requires runId in runs && run.poolId == runs[runId].poolId && run.poolId in pools
    requires runs[runId].state.MayMove(run.state) && !run.state.Cancelled?
    ensures PoolsHeld(pools[run.poolId := AdvancePool(pools[run.poolId], run.state, now)], runs[runId := run])
  {
  }

  lemma {:induction false} AdvanceKeepsDrift(
      rows: map<Id, Snapshot>, inputs: map<Id, Input>, incidents: map<Id, Incident>, runs: map<Id, Run>, runId: Id,
      run: Run, now: Time)
    requires BindingsAgree(rows, inputs, runs.Keys) && StatesFit(rows, inputs, runs)
    requires DriftInv(rows, inputs, incidents, runs)
    requires Moves(rows, inputs, runs, runId, run, now)
    ensures DriftInv(AdvanceRows(rows, InputsOf(inputs, runId), run.state, now), inputs, incidents, runs[runId := run])
  {
    hide HasActive, InputObjection, SamePlan, AdvanceRow;
    var rows' := AdvanceRows(rows, InputsOf(inputs, runId), run.state, now);
    assert OneActive(incidents, runs[runId := run]);
    if !Executed(runs[runId].state) {
      NotStartedNotActive(incidents, runs, runId);
    }
    forall s | s in InputsOf(inputs, runId)
      ensures rows'[s].state.Quarantined? ==> rows[s].state.Quarantined?
      ensures HasActive(incidents, runId) ==> !rows'[s].state.Materializing? && !rows'[s].state.Materialized?
    {
      MoveBesideIncident(rows[s], runs[runId].state, run.state, now);
    }
  }

  lemma {:induction false} NotStartedNotActive(incidents: map<Id, Incident>, runs: map<Id, Run>, runId: Id)
    requires OneActive(incidents, runs) && runId in runs && !Executed(runs[runId].state)
    ensures !HasActive(incidents, runId)
  {
  }

  lemma {:induction false} MoveBesideIncident(row: Snapshot, from: RunState, to: RunState, now: Time)
    requires Fits(from, row.state) && from.MayMove(to) && !to.Cancelled? && InputObjection(row, to, now).None?
    ensures AdvanceRow(row, to, now).state.Quarantined? ==> row.state.Quarantined?
    ensures Executed(from) && !row.state.Materializing? && !row.state.Materialized? ==>
              AdvanceRow(row, to, now).state == row.state
  {
  }

  // ---------------------------------------------------------------- the whole move

  function Moved(db: Db, runId: Id, target: RunState, began: Time): Run
    requires runId in db.runs
  {
    db.runs[runId].Stamped(target, began).(state := target, updatedAt := began, version := db.runs[runId].version + 1)
  }

  lemma {:induction false} AcceptedMove(db: Db, runId: Id, target: RunState, began: Time, now: Time)
    requires Advances(db, runId, target, now)
    ensures Moves(db.snapshots, db.inputs, db.runs, runId, Moved(db, runId, target, began), now)
    ensures Moved(db, runId, target, began).state == target
  {
  }

  lemma {:induction false} MovedPoolRestated(pools: map<Id, Pool>, p: Id, target: RunState, now: Time)
    requires PoolsValid(pools) && p in pools
    ensures PoolsRestated(pools, pools[p := AdvancePool(pools[p], target, now)])
  {
  }

  lemma {:induction false} AdvanceStepKeepsRows(db: Db, runId: Id, target: RunState, began: Time, now: Time)
    requires RowsKept(db) && runId in db.runs && db.runs[runId].poolId in db.pools
    ensures RowsKept(AdvancePost(db, runId, target, began, now))
  {
    hide WorkspacesValid, ZonesValid, RunsValid, RunsPlaced, ReferencesUnique, SnapshotsValid, SnapshotsRestated;
    hide PoolsRestated, PoolsValid;
    hide AdvanceRows, AdvancePool;
    AdvanceRestates(db.snapshots, InputsOf(db.inputs, runId), target, now);
    MovedPoolRestated(db.pools, db.runs[runId].poolId, target, now);
    RestatingKeepsRows(db.workspaces, db.zones, db.snapshots,
                       AdvanceRows(db.snapshots, InputsOf(db.inputs, runId), target, now),
                       db.pools,
                       db.pools[db.runs[runId].poolId := AdvancePool(db.pools[db.runs[runId].poolId], target, now)],
                       db.runs, runId, Moved(db, runId, target, began));
  }

  lemma {:induction false} AdvanceStepKeepsInputs(db: Db, runId: Id, target: RunState, began: Time, now: Time)
    requires InputsKept(db) && runId in db.runs && db.runs[runId].poolId in db.pools && Advances(db, runId, target, now)
    ensures InputsKept(AdvancePost(db, runId, target, began, now))
  {
    hide Advances, Moves, BindingsAgree, StatesFit, InputsInStep, TotalsAddUp, AdvanceRows;
    AcceptedMove(db, runId, target, began, now);
    var run := Moved(db, runId, target, began);
    AdvanceKeepsStates(db.snapshots, db.inputs, db.runs, runId, run, now);
    AdvanceKeepsStep(db.snapshots, db.inputs, db.runs, runId, run, now);
    AdvanceKeepsTotals(db.snapshots, db.inputs, db.runs, runId, run, now);
  }

  lemma {:induction false} AdvanceStepKeepsPools(db: Db, runId: Id, target: RunState, began: Time, now: Time)
    requires PoolsHeld(db.pools, db.runs) && Advances(db, runId, target, now)
    ensures PoolsHeld(AdvancePost(db, runId, target, began, now).pools, AdvancePost(db, runId, target, began, now).runs)
  {
    hide PoolsHeld, AdvancePool, AdvanceRows;
    AdvanceKeepsPools(db.pools, db.runs, runId, Moved(db, runId, target, began), now);
  }

  lemma {:induction false} AdvanceStepKeepsDrift(db: Db, runId: Id, target: RunState, began: Time, now: Time)
    requires InputsKept(db) && DriftKept(db)
    requires runId in db.runs && db.runs[runId].poolId in db.pools && Advances(db, runId, target, now)
    ensures DriftKept(AdvancePost(db, runId, target, began, now))
  {
    hide Advances, Moves, BindingsAgree, StatesFit, InputsInStep, TotalsAddUp, AdvanceRows, DriftInv;
    AcceptedMove(db, runId, target, began, now);
    AdvanceKeepsDrift(db.snapshots, db.inputs, db.incidents, db.runs, runId, Moved(db, runId, target, began), now);
  }

  lemma {:induction false} AdvanceStepKeepsDays(db: Db, runId: Id, target: RunState, began: Time, now: Time)
    requires DaysWithinLimit(db.zones, db.runs) && Advances(db, runId, target, now)
    ensures DaysWithinLimit(db.zones, AdvancePost(db, runId, target, began, now).runs)
  {
    hide DaysWithinLimit, AdvanceRows, AdvancePool;
    RestatingKeepsDays(db.zones, db.runs, runId, Moved(db, runId, target, began));
  }

  lemma {:induction false} AdvanceKeepsInv(db: Db, runId: Id, target: RunState, began: Time, now: Time)
    requires Inv(db) && runId in db.runs && db.runs[runId].poolId in db.pools && Advances(db, runId, target, now)
    ensures Inv(AdvancePost(db, runId, target, began, now))
  {
    hide RowsKept, InputsKept, PoolsHeld, DriftKept, DaysWithinLimit, ApprovalsSettled, AnswersKept, Advances;
    hide AdvanceRows, AdvancePool;
    AdvanceStepKeepsRows(db, runId, target, began, now);
    AdvanceStepKeepsInputs(db, runId, target, began, now);
    AdvanceStepKeepsPools(db, runId, target, began, now);
    AdvanceStepKeepsDrift(db, runId, target, began, now);
    AdvanceStepKeepsDays(db, runId, target, began, now);
  }

  // ---------------------------------------------------------------- cancelling

  predicate Unstarted(run: RunState) {
    run.Queued? || run.Staged?
  }

  lemma {:induction false} CancelKeepsInputs(rows: map<Id, Snapshot>, inputs: map<Id, Input>, inputs': map<Id, Input>,
                                             runs: map<Id, Run>, runId: Id, run: Run, now: Time)
    requires InputsInv(rows, inputs, runs)
    requires runId in runs && SamePlan(runs[runId], run) && run.state.Cancelled?
    requires inputs' == map s | s in inputs && inputs[s].runId != runId :: inputs[s]
    ensures BindingsAgree(ReleaseRows(rows, InputsOf(inputs, runId), now), inputs', runs[runId := run].Keys)
    ensures StatesFit(ReleaseRows(rows, InputsOf(inputs, runId), now), inputs', runs[runId := run])
    ensures InputsInStep(ReleaseRows(rows, InputsOf(inputs, runId), now), inputs', runs[runId := run])
  {
    hide TotalsAddUp, Fits;
  }

  lemma {:induction false} ReleaseRestates(rows: map<Id, Snapshot>, ids: set<Id>, now: Time)
    ensures SnapshotsRestated(rows, ReleaseRows(rows, ids, now))
  {
  }

  lemma {:induction false} CancelKeepsTotals(rows: map<Id, Snapshot>, inputs: map<Id, Input>, inputs': map<Id, Input>,
                                             runs: map<Id, Run>, runId: Id, run: Run, now: Time)
    requires TotalsAddUp(rows, inputs, runs)
    requires runId in runs && run.state.Cancelled?
    requires inputs' == map s | s in inputs && inputs[s].runId != runId :: inputs[s]
    ensures TotalsAddUp(ReleaseRows(rows, InputsOf(inputs, runId), now), inputs', runs[runId := run])
  {
    hide Volume, SnapshotsRestated, ReleaseRows;
    var rows' := ReleaseRows(rows, InputsOf(inputs, runId), now);
    ReleaseRestates(rows, InputsOf(inputs, runId), now);
    forall r | r in runs && r != runId
      ensures InputsOf(inputs', r) == InputsOf(inputs, r)
      ensures Volume(rows', InputsOf(inputs, r)) == Volume(rows, InputsOf(inputs, r))
    {
      RestatingKeepsVolume(rows, rows', InputsOf(inputs, r));
    }
  }

  lemma {:induction false} CancelKeepsPools(pools: map<Id, Pool>, pool: Pool, runs: map<Id, Run>, runId: Id, run: Run)
    requires PoolsHeld(pools, runs)
    requires runId in runs && run.poolId == runs[runId].poolId && run.poolId in pools
    requires Unstarted(runs[runId].state) && run.state.Cancelled?
    requires pool.state.Available? && pool.reservedRun.None?
    ensures PoolsHeld(pools[run.poolId := pool], runs[runId := run])
  {
  }

  lemma {:induction false} CancelKeepsDrift(rows: map<Id, Snapshot>, inputs: map<Id, Input>, inputs': map<Id, Input>,
                                            incidents: map<Id, Incident>, runs: map<Id, Run>, runId: Id, run: Run,
                                              now: Time)
    requires BindingsAgree(rows, inputs, runs.Keys) && DriftInv(rows, inputs, incidents, runs)
    requires runId in runs && Unstarted(runs[runId].state)
    requires inputs' == map s | s in inputs && inputs[s].runId != runId :: inputs[s]
    ensures DriftInv(ReleaseRows(rows, InputsOf(inputs, runId), now), inputs', incidents, runs[runId := run])
  {
    hide HasActive;
  }

  function Dropped(db: Db, runId: Id, now: Time): Run
    requires runId in db.runs
  {
    db.runs[runId].(state := RunState.Cancelled, updatedAt := now, version := db.runs[runId].version + 1)
  }

  function Freed(pool: Pool, now: Time): Pool {
    pool.(state := Available, reservedRun := None, updatedAt := now, version := pool.version + 1)
  }

  lemma {:induction false} CancelStepKeepsRows(db: Db, runId: Id, now: Time)
    requires RowsKept(db) && runId in db.runs && db.runs[runId].poolId in db.pools
    ensures RowsKept(CancelPost(db, runId, now))
  {
    hide WorkspacesValid, ZonesValid, RunsValid, RunsPlaced, ReferencesUnique, SnapshotsValid, SnapshotsRestated;
    hide ReleaseRows;
    ReleaseRestates(db.snapshots, InputsOf(db.inputs, runId), now);
    var pools' := db.pools[db.runs[runId].poolId := Freed(db.pools[db.runs[runId].poolId], now)];
    RestatingKeepsRows(db.workspaces, db.zones, db.snapshots,
                       ReleaseRows(db.snapshots, InputsOf(db.inputs, runId), now),
                       db.pools, pools', db.runs, runId, Dropped(db, runId, now));
  }

  lemma {:induction false} CancelStepKeepsInputs(db: Db, runId: Id, now: Time)
    requires InputsKept(db) && runId in db.runs && db.runs[runId].poolId in db.pools
    ensures InputsKept(CancelPost(db, runId, now))
  {
    hide BindingsAgree, StatesFit, InputsInStep, TotalsAddUp, ReleaseRows;
    var inputs' := CancelPost(db, runId, now).inputs;
    CancelKeepsInputs(db.snapshots, db.inputs, inputs', db.runs, runId, Dropped(db, runId, now), now);
    CancelKeepsTotals(db.snapshots, db.inputs, inputs', db.runs, runId, Dropped(db, runId, now), now);
  }

  lemma {:induction false} CancelStepKeepsPools(db: Db, runId: Id, now: Time)
    requires PoolsHeld(db.pools, db.runs) && Cancels(db, runId, now)
    ensures PoolsHeld(CancelPost(db, runId, now).pools, CancelPost(db, runId, now).runs)
  {
    hide PoolsHeld, ReleaseRows;
    CancelKeepsPools(db.pools, Freed(db.pools[db.runs[runId].poolId], now), db.runs, runId, Dropped(db, runId, now));
  }

  lemma {:induction false} CancelStepKeepsDrift(db: Db, runId: Id, now: Time)
    requires InputsKept(db) && DriftKept(db) && Cancels(db, runId, now)
    ensures DriftKept(CancelPost(db, runId, now))
  {
    hide BindingsAgree, StatesFit, InputsInStep, TotalsAddUp, ReleaseRows, DriftInv;
    CancelKeepsDrift(db.snapshots, db.inputs, CancelPost(db, runId, now).inputs, db.incidents, db.runs, runId,
                     Dropped(db, runId, now), now);
  }

  lemma {:induction false} CancelStepKeepsDays(db: Db, runId: Id, now: Time)
    requires DaysWithinLimit(db.zones, db.runs) && runId in db.runs && db.runs[runId].poolId in db.pools
    ensures DaysWithinLimit(db.zones, CancelPost(db, runId, now).runs)
  {
    hide DaysWithinLimit, ReleaseRows;
    RestatingKeepsDays(db.zones, db.runs, runId, Dropped(db, runId, now));
  }

  lemma {:induction false} CancelKeepsInv(db: Db, runId: Id, now: Time)
    requires Inv(db) && runId in db.runs && db.runs[runId].poolId in db.pools && Cancels(db, runId, now)
    ensures Inv(CancelPost(db, runId, now))
  {
    hide RowsKept, InputsKept, PoolsHeld, DriftKept, DaysWithinLimit, ApprovalsSettled, AnswersKept, Cancels;
    hide ReleaseRows;
    CancelStepKeepsRows(db, runId, now);
    CancelStepKeepsInputs(db, runId, now);
    CancelStepKeepsPools(db, runId, now);
    CancelStepKeepsDrift(db, runId, now);
    CancelStepKeepsDays(db, runId, now);
  }
}
