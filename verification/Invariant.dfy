/** The cross-table facts that hold between requests, and that no single request re-checks. */
module Invariant {
  import opened Base
  import opened BusinessDay
  import opened Domain
  import opened Tables
  import opened Lifecycle

  // ---------------------------------------------------------------- rows and foreign keys

  ghost predicate WorkspacesValid(workspaces: map<Id, Workspace>) {
    forall w :: w in workspaces ==> workspaces[w].Valid()
  }

  ghost predicate ZonesValid(zones: map<Id, Zone>) {
    forall z :: z in zones ==> zones[z].Valid()
  }

  ghost predicate SnapshotsValid(snapshots: map<Id, Snapshot>) {
    forall s :: s in snapshots ==> snapshots[s].Valid()
  }

  ghost predicate PoolsValid(pools: map<Id, Pool>) {
    forall p :: p in pools ==> pools[p].Valid()
  }

  ghost predicate RunsValid(runs: map<Id, Run>) {
    forall r :: r in runs ==> runs[r].Valid()
  }

  /** A run's workspace, zone and pool exist, and its rows fit the pool. */
  ghost predicate RunsPlaced(workspaces: set<Id>, zones: set<Id>, pools: map<Id, Pool>, runs: map<Id, Run>) {
    forall r :: r in runs ==>
                  && runs[r].workspaceId in workspaces
                  && runs[r].sourceZoneId in zones
                  && runs[r].poolId in pools
                  && runs[r].totalRows <= pools[runs[r].poolId].capacity
  }

  ghost predicate ReferencesUnique(runs: map<Id, Run>) {
    forall r, t :: r in runs && t in runs && runs[r].reference == runs[t].reference ==> r == t
  }

  // ---------------------------------------------------------------- inputs

  /** A snapshot's stored run id and the run-input table agree in both directions. */
  ghost predicate BindingsAgree(snapshots: map<Id, Snapshot>, inputs: map<Id, Input>, runs: set<Id>) {
    && (forall s :: s in inputs ==>
               s in snapshots && inputs[s].runId in runs && snapshots[s].runId == Some(inputs[s].runId))
    && (forall s :: s in snapshots && snapshots[s].runId.Some? ==> s in inputs)
  }

  /** The snapshot states an input may have while its run is in the given state. */
  predicate Fits(run: RunState, input: SnapshotState) {
    match run
    case Queued => input.Reserved? || input.Validated?
    case Staged => input.Reserved? || input.Validated?
    case Running => input.Materializing? || input.Quarantined? || input.Approved? || input.Rejected?
    case Completed => input.Materialized? || input.Quarantined? || input.Approved? || input.Rejected?
    case Archived => input.Materialized? || input.Approved? || input.Rejected?
    case Cancelled => false
  }

  predicate Executed(run: RunState) {
    run.Running? || run.Completed? || run.Archived?
  }

  ghost predicate StatesFit(snapshots: map<Id, Snapshot>, inputs: map<Id, Input>, runs: map<Id, Run>) {
    && (forall s :: s in snapshots && s !in inputs ==> snapshots[s].state.Registered? || snapshots[s].state.Validated?)
    && (forall s :: s in inputs && s in snapshots && inputs[s].runId in runs
                    ==> Fits(runs[inputs[s].runId].state, snapshots[s].state))
  }

  /** Once a run has started, all its inputs are in one and the same state. */
  ghost predicate InputsInStep(snapshots: map<Id, Snapshot>, inputs: map<Id, Input>, runs: map<Id, Run>) {
    forall s, t :: s in inputs && t in inputs && s in snapshots && t in snapshots && inputs[s].runId == inputs[t].runId
                   && inputs[s].runId in runs && Executed(runs[inputs[s].runId].state)
                   ==> snapshots[s].state == snapshots[t].state
  }

  /** Every run not cancelled has inputs, and its total is the sum of their rows. */
  ghost predicate TotalsAddUp(snapshots: map<Id, Snapshot>, inputs: map<Id, Input>, runs: map<Id, Run>) {
    forall r :: r in runs && !runs[r].state.Cancelled? ==>
                  InputsOf(inputs, r) != {} && runs[r].totalRows == Volume(snapshots, InputsOf(inputs, r))
  }

  // ---------------------------------------------------------------- pools

  predicate Holds(run: RunState, pool: PoolState) {
    match run
    case Queued => pool.PoolReserved?
    case Staged => pool.PoolReserved?
    case Running => pool.Allocated?
    case Completed => pool.Allocated?
    case _ => false
  }

  /** A pool is reserved or allocated exactly for the one live run that names it. */
  ghost predicate PoolsHeld(pools: map<Id, Pool>, runs: map<Id, Run>) {
    && (forall p :: p in pools ==>
               (pools[p].reservedRun.Some? <==> pools[p].state.PoolReserved? || pools[p].state.Allocated?))
    && (forall p :: p in pools && pools[p].reservedRun.Some? ==>
                      var r := pools[p].reservedRun.value;
                      r in runs && runs[r].poolId == p && Holds(runs[r].state, pools[p].state))
    && (forall r :: r in runs && runs[r].state.Live() && runs[r].poolId in pools ==>
               pools[runs[r].poolId].reservedRun == Some(r))
  }

  // ---------------------------------------------------------------- drift

  ghost predicate OneActive(incidents: map<Id, Incident>, runs: map<Id, Run>) {
    && (forall i :: i in incidents ==> incidents[i].runId in runs && Executed(runs[incidents[i].runId].state))
    && (forall i, j, r :: ActiveFor(incidents, i, r) && ActiveFor(incidents, j, r) ==> i == j)
  }

  ghost predicate HasActive(incidents: map<Id, Incident>, r: Id) {
    exists i :: ActiveFor(incidents, i, r)
  }

  /** Inputs are quarantined only under an active incident, and none is left unresolved beside one. */
  ghost predicate DriftContained(snapshots: map<Id, Snapshot>, inputs: map<Id, Input>, incidents: map<Id, Incident>) {
    && (forall s :: s in inputs && s in snapshots && snapshots[s].state.Quarantined? ==>
               HasActive(incidents, inputs[s].runId))
    && (forall s :: s in inputs && s in snapshots && HasActive(incidents, inputs[s].runId) ==>
                      !snapshots[s].state.Materializing? && !snapshots[s].state.Materialized?)
  }

  // ---------------------------------------------------------------- limits, approvals, answers

  /** In every business day of a zone the runs not cancelled stay within the zone's daily limit. */
  ghost predicate DaysWithinLimit(zones: map<Id, Zone>, runs: map<Id, Run>) {
    forall z, at :: z in zones ==> |RunsInDay(runs, z, zones[z].clock, at)| <= zones[z].dailyLimit
  }

  /** Accepted and declined strictly before the deadline, lapsed at or after it. */
  predicate Settled(a: Approval) {
    match a.status
    case Pending => a.resolvedAt == None
    case Lapsed => a.resolvedAt.Some? && a.resolvedAt.value >= a.expiresAt
    case _ => a.resolvedAt.Some? && a.resolvedAt.value < a.expiresAt
  }

  ghost predicate ApprovalsSettled(approvals: map<Id, Approval>) {
    && (forall a :: a in approvals ==> approvals[a].Valid() && Settled(approvals[a]))
    && (forall a, b, r :: PendingFor(approvals, a, r) && PendingFor(approvals, b, r) ==> a == b)
  }

  ghost predicate AnswersKept(answers: map<string, Answer>) {
    forall k :: k in answers ==>
      answers[k].request.key == k && answers[k].expiresAt == answers[k].createdAt + ANSWER_TTL
  }

  // ---------------------------------------------------------------- all of it

  /** Rows are valid and refer to rows that exist. */
  ghost predicate RowsInv(workspaces: map<Id, Workspace>, zones: map<Id, Zone>, snapshots: map<Id, Snapshot>,
                          pools: map<Id, Pool>, runs: map<Id, Run>)
  {
    && WorkspacesValid(workspaces) && ZonesValid(zones) && SnapshotsValid(snapshots)
    && PoolsValid(pools) && RunsValid(runs)
    && RunsPlaced(workspaces.Keys, zones.Keys, pools, runs)
    && ReferencesUnique(runs)
  }

  /** Runs and the snapshots they use agree on who uses what, in which state, and how much it is. */
  ghost predicate InputsInv(snapshots: map<Id, Snapshot>, inputs: map<Id, Input>, runs: map<Id, Run>) {
    && BindingsAgree(snapshots, inputs, runs.Keys)
    && StatesFit(snapshots, inputs, runs)
    && InputsInStep(snapshots, inputs, runs)
    && TotalsAddUp(snapshots, inputs, runs)
  }

  ghost predicate DriftInv(
      snapshots: map<Id, Snapshot>, inputs: map<Id, Input>, incidents: map<Id, Incident>, runs: map<Id, Run>) {
    OneActive(incidents, runs) && DriftContained(snapshots, inputs, incidents)
  }

  ghost predicate RowsKept(db: Db) {
    RowsInv(db.workspaces, db.zones, db.snapshots, db.pools, db.runs)
  }

  ghost predicate InputsKept(db: Db) {
    InputsInv(db.snapshots, db.inputs, db.runs)
  }

  ghost predicate DriftKept(db: Db) {
    DriftInv(db.snapshots, db.inputs, db.incidents, db.runs)
  }

  ghost predicate Inv(db: Db) {
    && RowsKept(db)
    && InputsKept(db)
    && PoolsHeld(db.pools, db.runs)
    && DriftKept(db)
    && DaysWithinLimit(db.zones, db.runs)
    && ApprovalsSettled(db.approvals)
    && AnswersKept(db.answers)
  }
}
