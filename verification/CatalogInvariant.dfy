/** Catalogue, pool, approval and worker steps keep every cross-table fact. */
module CatalogInvariant {
  import opened Base
  import opened BusinessDay
  import opened Domain
  import opened Batches
  import opened Jobs
  import opened Tables
  import opened Lifecycle
  import opened Operations
  import opened Invariant

  // ---------------------------------------------------------------- snapshots

  /** A snapshot that no started run uses becomes validated. */
  lemma {:induction false} ValidatingKeepsInputs(
      rows: map<Id, Snapshot>, inputs: map<Id, Input>, runs: map<Id, Run>, s: Id, row: Snapshot)
    requires BindingsAgree(rows, inputs, runs.Keys) && StatesFit(rows, inputs, runs)
    requires s in rows && (rows[s].state.Registered? || rows[s].state.Reserved?)
    requires row.state.Validated? && row.runId == rows[s].runId
    ensures BindingsAgree(rows[s := row], inputs, runs.Keys) && StatesFit(rows[s := row], inputs, runs)
    ensures s in inputs && inputs[s].runId in runs ==> !Executed(runs[inputs[s].runId].state)
  {
  }

  lemma {:induction false} ValidatingKeepsStep(
      rows: map<Id, Snapshot>, inputs: map<Id, Input>, runs: map<Id, Run>, s: Id, row: Snapshot)
    requires InputsInStep(rows, inputs, runs) && s in rows
    requires s in inputs && inputs[s].runId in runs ==> !Executed(runs[inputs[s].runId].state)
    ensures InputsInStep(rows[s := row], inputs, runs)
  {
  }

  lemma {:induction false} ReplacingKeepsTotals(
      rows: map<Id, Snapshot>, inputs: map<Id, Input>, runs: map<Id, Run>, s: Id, row: Snapshot)
    requires TotalsAddUp(rows, inputs, runs) && (s in rows ==> row.rows == rows[s].rows)
    requires forall t :: t in inputs ==> t in rows
    ensures TotalsAddUp(rows[s := row], inputs, runs)
  {
    var rows' := rows[s := row];
    forall r | r in runs ensures Volume(rows', InputsOf(inputs, r)) == Volume(rows, InputsOf(inputs, r)) {
      var ids := InputsOf(inputs, r);
      assert ids * rows.Keys == ids && ids * rows'.Keys == ids;
      if s in rows || s !in ids {
        SumAgree(ids, RowCounts(rows), RowCounts(rows'));
      }
    }
  }

  lemma {:induction false} ValidatingKeepsDrift(
      rows: map<Id, Snapshot>, inputs: map<Id, Input>, incidents: map<Id, Incident>, runs: map<Id, Run>, s: Id,
      row: Snapshot)
    requires DriftInv(rows, inputs, incidents, runs) && row.state.Validated?
    ensures DriftInv(rows[s := row], inputs, incidents, runs)
  {
    hide OneActive, HasActive;
  }

  lemma {:induction false} StoringKeepsRows(
      workspaces: map<Id, Workspace>, zones: map<Id, Zone>, rows: map<Id, Snapshot>, pools: map<Id, Pool>,
      runs: map<Id, Run>, s: Id, row: Snapshot)
    requires RowsInv(workspaces, zones, rows, pools, runs) && row.Valid()
    ensures RowsInv(workspaces, zones, rows[s := row], pools, runs)
  {
    hide Blank, WorkspacesValid, ZonesValid, PoolsValid, RunsValid, RunsPlaced, ReferencesUnique;
  }

  lemma {:induction false} ValidatingKeepsTables(
      workspaces: map<Id, Workspace>, zones: map<Id, Zone>, rows: map<Id, Snapshot>, inputs: map<Id, Input>,
      pools: map<Id, Pool>, runs: map<Id, Run>, incidents: map<Id, Incident>, s: Id, row: Snapshot)
    requires RowsInv(workspaces, zones, rows, pools, runs) && InputsInv(rows, inputs, runs)
    requires DriftInv(rows, inputs, incidents, runs)
    requires s in rows && (rows[s].state.Registered? || rows[s].state.Reserved?) && row.Valid()
    requires row == rows[s].(state := Validated, updatedAt := row.updatedAt, version := row.version)
    ensures RowsInv(workspaces, zones, rows[s := row], pools, runs) && InputsInv(rows[s := row], inputs, runs)
    ensures DriftInv(rows[s := row], inputs, incidents, runs)
  {
    assert forall t :: t in inputs ==> t in rows;
    hide RowsInv, DriftInv, BindingsAgree, StatesFit, InputsInStep, TotalsAddUp, Blank;
    StoringKeepsRows(workspaces, zones, rows, pools, runs, s, row);
    ValidatingKeepsInputs(rows, inputs, runs, s, row);
    ValidatingKeepsStep(rows, inputs, runs, s, row);
    ReplacingKeepsTotals(rows, inputs, runs, s, row);
    ValidatingKeepsDrift(rows, inputs, incidents, runs, s, row);
  }

  lemma {:induction false} ValidateKeepsInv(db: Db, id: Id, now: Time)
    requires Inv(db) && ValidateSnapshot(db, id, now).Success?
    ensures Inv(ValidateSnapshot(db, id, now).value)
  {
    hide RowsInv, InputsInv, PoolsHeld, DriftInv, DaysWithinLimit, ApprovalsSettled, AnswersKept, Blank;
    ValidatingKeepsTables(db.workspaces, db.zones, db.snapshots, db.inputs, db.pools, db.runs, db.incidents,
                          id, ValidateSnapshot(db, id, now).value.snapshots[id]);
  }

  lemma {:induction false} RegisteringKeepsInputs(
      rows: map<Id, Snapshot>, inputs: map<Id, Input>, runs: map<Id, Run>, s: Id, row: Snapshot)
    requires BindingsAgree(rows, inputs, runs.Keys) && StatesFit(rows, inputs, runs) && InputsInStep(rows, inputs, runs)
    requires s !in rows && row.state.Registered?
    ensures BindingsAgree(rows[s := row], inputs, runs.Keys) <==> row.runId.None?
    ensures StatesFit(rows[s := row], inputs, runs) && InputsInStep(rows[s := row], inputs, runs)
  {
    var rows' := rows[s := row];
    assert s in rows' && s !in inputs && rows'[s] == row;
  }

  /** Registering a snapshot keeps the tables in agreement exactly when its caller names no run. */
  lemma {:induction false} RegisterKeepsInv(db: Db, id: Id, row: Snapshot, now: Time)
    requires Inv(db) && RegisterSnapshot(db, id, row, now).Success?
    ensures Inv(RegisterSnapshot(db, id, row, now).value) <==> row.runId.None?
  {
    var stored := row.(state := Registered, version := 1, updatedAt := now);
    hide PoolsHeld, DaysWithinLimit, ApprovalsSettled, AnswersKept, Volume, Blank, TotalsAddUp;
    hide WorkspacesValid, ZonesValid, PoolsValid, RunsValid, RunsPlaced, ReferencesUnique, OneActive, HasActive;
    RegisteringKeepsInputs(db.snapshots, db.inputs, db.runs, id, stored);
    ReplacingKeepsTotals(db.snapshots, db.inputs, db.runs, id, stored);
  }

  // ---------------------------------------------------------------- pools

  lemma {:induction false} NewPoolKeepsHeld(pools: map<Id, Pool>, runs: map<Id, Run>, p: Id, pool: Pool)
    requires PoolsHeld(pools, runs) && p !in pools && pool.state.Available?
    requires forall r :: r in runs ==> runs[r].poolId in pools
    ensures PoolsHeld(pools[p := pool], runs) <==> pool.reservedRun.None?
  {
    var pools' := pools[p := pool];
    assert p in pools' && pools'[p] == pool;
  }

  /** Adding a pool keeps pools and runs in agreement exactly when its caller names no run. */
  lemma {:induction false} AddPoolKeepsInv(db: Db, id: Id, row: Pool, now: Time)
    requires Inv(db) && AddPool(db, id, row, now).Success?
    ensures Inv(AddPool(db, id, row, now).value) <==> row.reservedRun.None?
  {
    var stored := row.(state := Available, version := 1, updatedAt := now);
    hide PoolsHeld, DaysWithinLimit, ApprovalsSettled, AnswersKept, InputsInv, DriftInv;
    hide WorkspacesValid, ZonesValid, SnapshotsValid, RunsValid, ReferencesUnique;
    assert forall r :: r in db.runs ==> db.runs[r].poolId in db.pools;
    NewPoolKeepsHeld(db.pools, db.runs, id, stored);
  }

  /** Maintenance touches only pools that no run holds. */
  lemma {:induction false} MaintenanceKeepsHeld(pools: map<Id, Pool>, runs: map<Id, Run>, p: Id, pool: Pool)
    requires PoolsHeld(pools, runs) && p in pools
    requires pools[p].state.Available? || pools[p].state.Reconciling?
    requires pool.state.Available? || pool.state.Reconciling? || pool.state.Retired?
    requires pool.reservedRun.None? || pool.reservedRun == pools[p].reservedRun
    ensures PoolsHeld(pools[p := pool], runs)
  {
  }

  lemma {:induction false} ChangePoolKeepsInv(db: Db, id: Id, change: PoolChange, now: Time)
    requires Inv(db) && ChangePool(db, id, change, now).Success?
    ensures Inv(ChangePool(db, id, change, now).value)
  {
    hide PoolsHeld, DaysWithinLimit, ApprovalsSettled, AnswersKept, InputsInv, DriftInv, Blank;
    hide WorkspacesValid, ZonesValid, SnapshotsValid, RunsValid, ReferencesUnique;
    MaintenanceKeepsHeld(db.pools, db.runs, id, ChangePool(db, id, change, now).value.pools[id]);
  }

  // ---------------------------------------------------------------- workspaces and zones

  lemma {:induction false} WorkspaceKeepsInv(db: Db, id: Id, row: Workspace)
    requires Inv(db) && row.Valid()
    ensures Inv(db.(workspaces := db.workspaces[id := row]))
  {
    hide PoolsHeld, DaysWithinLimit, ApprovalsSettled, AnswersKept, InputsInv, DriftInv;
    hide ZonesValid, SnapshotsValid, PoolsValid, RunsValid, ReferencesUnique;
  }

  lemma {:induction false} AddWorkspaceKeepsInv(db: Db, id: Id, row: Workspace)
    requires Inv(db) && AddWorkspace(db, id, row).Success?
    ensures Inv(AddWorkspace(db, id, row).value)
  {
    hide Inv;
    WorkspaceKeepsInv(db, id, row.(status := Draft));
  }

  lemma {:induction false} ActivateKeepsInv(db: Db, id: Id)
    requires Inv(db) && ActivateWorkspace(db, id).Success?
    ensures Inv(ActivateWorkspace(db, id).value)
  {
    assert WorkspacesValid(db.workspaces);
    hide Inv;
    WorkspaceKeepsInv(db, id, db.workspaces[id].(status := Active));
  }

  lemma {:induction false} NewZoneKeepsDays(zones: map<Id, Zone>, runs: map<Id, Run>, z: Id, zone: Zone)
    requires DaysWithinLimit(zones, runs) && z !in zones && zone.dailyLimit >= 0
    requires forall r :: r in runs ==> runs[r].sourceZoneId in zones
    ensures DaysWithinLimit(zones[z := zone], runs)
  {
    forall at ensures RunsInDay(runs, z, zone.clock, at) == {} {}
  }

  lemma {:induction false} AddZoneKeepsInv(db: Db, id: Id, row: Zone)
    requires Inv(db) && AddZone(db, id, row).Success?
    ensures Inv(AddZone(db, id, row).value)
  {
    hide PoolsHeld, DaysWithinLimit, ApprovalsSettled, AnswersKept, InputsInv, DriftInv;
    hide WorkspacesValid, SnapshotsValid, PoolsValid, RunsValid, ReferencesUnique;
    assert forall r :: r in db.runs ==> db.runs[r].sourceZoneId in db.zones;
    NewZoneKeepsDays(db.zones, db.runs, id, row.(status := ZoneActive));
  }

  // ---------------------------------------------------------------- approvals and jobs

  lemma {:induction false} RequestKeepsApprovals(approvals: map<Id, Approval>, a: Id, row: Approval)
    requires ApprovalsSettled(approvals) && a !in approvals
    requires row.Valid() && row.status.Pending? && row.resolvedAt.None?
    requires forall b :: !PendingFor(approvals, b, row.runId)
    ensures ApprovalsSettled(approvals[a := row])
  {
    var approvals' := approvals[a := row];
    forall b, r ensures b != a ==> PendingFor(approvals', b, r) == PendingFor(approvals, b, r) {}
  }

  /** Pending approvals may be resolved, each in keeping with its deadline. */
  lemma {:induction false} ResolvingKeepsApprovals(approvals: map<Id, Approval>, approvals': map<Id, Approval>)
    requires ApprovalsSettled(approvals) && approvals'.Keys == approvals.Keys
    requires forall a :: a in approvals ==>
               || approvals'[a] == approvals[a]
               || (approvals'[a].Valid() && Settled(approvals'[a]) && !approvals'[a].status.Pending?)
    ensures ApprovalsSettled(approvals')
  {
    forall b, r ensures PendingFor(approvals', b, r) ==> PendingFor(approvals, b, r) {}
  }

  lemma {:induction false} RequestApprovalKeepsInv(
      db: Db, id: Id, runId: Id, requester: Id, reviewer: Id, queue: string, expiresAt: Time, now: Time)
    requires Inv(db) && RequestApproval(db, id, runId, requester, reviewer, queue, expiresAt, now).Success?
    ensures Inv(RequestApproval(db, id, runId, requester, reviewer, queue, expiresAt, now).value)
  {
    hide RowsInv, InputsInv, PoolsHeld, DriftInv, DaysWithinLimit, ApprovalsSettled, AnswersKept, Blank, Trim;
    var after := RequestApproval(db, id, runId, requester, reviewer, queue, expiresAt, now).value;
    RequestKeepsApprovals(db.approvals, id, after.approvals[id]);
  }

  lemma {:induction false} ResolveApprovalKeepsInv(
      db: Db, id: Id, accepted: bool, note: string, who: Principal, now: Time)
    requires Inv(db) && ResolveApproval(db, id, accepted, note, who, now).Success?
    ensures Inv(ResolveApproval(db, id, accepted, note, who, now).value)
  {
    hide RowsInv, InputsInv, PoolsHeld, DriftInv, DaysWithinLimit, ApprovalsSettled, AnswersKept, Blank, Trim;
    var after := ResolveApproval(db, id, accepted, note, who, now).value;
    ResolvingKeepsApprovals(db.approvals, after.approvals);
  }

  lemma {:induction false} PassKeepsInv(db: Db, limit: nat, lapsed: seq<Id>, claimed: seq<Id>, now: Time)
    requires Inv(db) && PassMayTake(db, limit, lapsed, claimed, now)
    ensures Inv(PassPost(db, lapsed, claimed, now))
  {
    hide RowsInv, InputsInv, PoolsHeld, DriftInv, DaysWithinLimit, AnswersKept, Blank, Trim, SettleAll;
    forall a | a in lapsed ensures a in Overdue(db.approvals, now) {}
    ResolvingKeepsApprovals(db.approvals, LapseAll(db.approvals, IdSet(lapsed), now));
  }
}
