/** What holds after any history of requests, in the terms of the platform's users. */
module Guarantees {
  import opened Base
  import opened BusinessDay
  import opened Domain
  import opened Jobs
  import opened Tables
  import opened Lifecycle
  import opened Operations
  import opened Invariant
  import opened PlanInvariant
  import opened DriftInvariant
  import opened Histories
  import opened Conditions

  /** A live run's pool is held for that run, as reserved before the start and allocated after it, and by no other. */
  lemma {:induction false} PoolsAreExclusive(h: History, r: Id)
    requires r in After(h).runs && After(h).runs[r].state != RunState.Cancelled
    requires After(h).runs[r].state != RunState.Archived
    ensures var db := After(h); var p := db.runs[r].poolId;
            && p in db.pools && db.pools[p].reservedRun == Some(r)
            && (if db.runs[r].state.Queued? || db.runs[r].state.Staged? then db.pools[p].state.PoolReserved?
                else db.pools[p].state.Allocated?)
            && forall t :: t in db.runs && db.runs[t].poolId == p && t != r ==>
                             db.runs[t].state == RunState.Cancelled || db.runs[t].state == RunState.Archived
  {
    AlwaysInv(h);
    hide After, InputsKept, DriftKept, DaysWithinLimit, ApprovalsSettled, AnswersKept;
    hide WorkspacesValid, ZonesValid, SnapshotsValid, PoolsValid, RunsValid, ReferencesUnique;
  }

  /** And a pool that is reserved or allocated, or names a run at all, is held by a live run. */
  lemma {:induction false} HeldPoolsHaveHolders(h: History, p: Id)
    requires p in After(h).pools
    ensures var db := After(h); var pool := db.pools[p];
            (pool.state.PoolReserved? || pool.state.Allocated? || pool.reservedRun.Some?)
            <==> exists r :: && r in db.runs && db.runs[r].poolId == p
                             && db.runs[r].state != RunState.Cancelled && db.runs[r].state != RunState.Archived
  {
    AlwaysInv(h);
    hide After, InputsKept, DriftKept, DaysWithinLimit, ApprovalsSettled, AnswersKept, RowsKept;
  }

  /** All inputs of a started run are in one state, which the run's state bounds. */
  lemma {:induction false} InputsShareOneState(h: History, s: Id, t: Id)
    requires s in After(h).inputs && t in After(h).inputs && After(h).inputs[s].runId == After(h).inputs[t].runId
    ensures var db := After(h); var r := db.inputs[s].runId;
            && r in db.runs && s in db.snapshots && t in db.snapshots
            && Fits(db.runs[r].state, db.snapshots[s].state)
            && (Executed(db.runs[r].state) ==> db.snapshots[s].state == db.snapshots[t].state)
  {
    AlwaysInv(h);
    hide After, PoolsHeld, DriftKept, DaysWithinLimit, ApprovalsSettled, AnswersKept, RowsKept, TotalsAddUp, Fits;
  }

  /** The run-input table and the snapshots' stored run ids say the same. */
  lemma {:induction false} BindingsAreMutual(h: History, s: Id, r: Id)
    ensures var db := After(h);
            (s in db.inputs && db.inputs[s].runId == r) <==> (s in db.snapshots && db.snapshots[s].runId == Some(r))
  {
    AlwaysInv(h);
    hide After, PoolsHeld, DriftKept, DaysWithinLimit, ApprovalsSettled, AnswersKept, RowsKept, TotalsAddUp;
    hide StatesFit, InputsInStep;
  }

  /** A run's total is the sum of its inputs' rows: at least one for each input and at most its pool's capacity. */
  lemma {:induction false} TotalsAreBounded(h: History, r: Id)
    requires r in After(h).runs && !After(h).runs[r].state.Cancelled?
    ensures var db := After(h); var total := db.runs[r].totalRows;
            && total == Volume(db.snapshots, InputsOf(db.inputs, r))
            && 1 <= |InputsOf(db.inputs, r)| <= total
            && db.runs[r].poolId in db.pools && total <= db.pools[db.runs[r].poolId].capacity
  {
    AlwaysInv(h);
    hide After, PoolsHeld, DriftKept, DaysWithinLimit, ApprovalsSettled, AnswersKept, StatesFit, InputsInStep;
    hide WorkspacesValid, ZonesValid, PoolsValid, RunsValid, ReferencesUnique, SnapshotsValid, BindingsAgree;
    hide InputsOf, Volume;
    EachInputCounts(After(h).snapshots, After(h).inputs, After(h).runs.Keys, r);
  }

  lemma {:induction false} EachInputCounts(rows: map<Id, Snapshot>, inputs: map<Id, Input>, runs: set<Id>, r: Id)
    requires BindingsAgree(rows, inputs, runs) && SnapshotsValid(rows)
    ensures |InputsOf(inputs, r)| <= Volume(rows, InputsOf(inputs, r))
  {
    hide Blank;
    var ids := InputsOf(inputs, r);
    assert ids * rows.Keys == ids;
    SumAtLeastSize(ids, RowCounts(rows));
  }

  /** Quarantine means one active incident; an active incident leaves no input that could pass as good. */
  lemma {:induction false} QuarantineIsReviewed(h: History, s: Id)
    requires s in After(h).inputs
    ensures var db := After(h); var r := db.inputs[s].runId;
            && s in db.snapshots
            && (db.snapshots[s].state.Quarantined? ==>
                  exists i :: ActiveFor(db.incidents, i, r) && forall j :: ActiveFor(db.incidents, j, r) ==> i == j)
            && (HasActive(db.incidents, r) ==>
                !db.snapshots[s].state.Materializing? && !db.snapshots[s].state.Materialized?)
  {
    AlwaysInv(h);
    hide After, PoolsHeld, DaysWithinLimit, ApprovalsSettled, AnswersKept, RowsKept, TotalsAddUp, StatesFit;
    hide InputsInStep;
  }

  /** Only inputs of runs are ever quarantined, decided on or executed. */
  lemma {:induction false} LooseSnapshotsAreUntouched(h: History, s: Id)
    requires s in After(h).snapshots && s !in After(h).inputs
    ensures After(h).snapshots[s].state.Registered? || After(h).snapshots[s].state.Validated?
    ensures After(h).snapshots[s].runId.None?
  {
    AlwaysInv(h);
    hide After, PoolsHeld, DriftKept, DaysWithinLimit, ApprovalsSettled, AnswersKept, RowsKept, TotalsAddUp;
    hide InputsInStep;
  }

  /** One decision ends the run's review: no active incident is left, and no quarantined input. */
  lemma {:induction false} DecisionEndsReview(h: History, e: Event, s: Id)
    requires e.request.Decide? && DecideCheck(After(h), e.request.ruling).None?
    ensures var db := After(h); var r := db.incidents[e.request.ruling.incidentId].runId; var after := Apply(db, e);
            && !HasActive(after.incidents, r)
            && (s in InputsOf(db.inputs, r) ==> s in after.snapshots && !after.snapshots[s].state.Quarantined?)
  {
    AlwaysInv(h);
    Applies(After(h), e);
    DecidesOpen(After(h), e.request.ruling);
    hide After, Apply, DecideCheck, DecidePost, RowsKept, PoolsHeld, DaysWithinLimit, ApprovalsSettled, AnswersKept;
    hide BindingsAgree, StatesFit, InputsInStep, TotalsAddUp, OneActive, DriftContained, HasActive, InputsOf;
    DecisionLeavesNoActive(After(h), e.request.ruling, e.request.began, e.now);
    DecisionLeavesNoneQuarantined(After(h), e.request.ruling, e.request.began, e.now, s);
  }

  lemma {:induction false} DecidesOpen(db: Db, r: Ruling)
    requires DecideCheck(db, r).None?
    ensures r.incidentId in db.incidents && db.incidents[r.incidentId].status.IsOpen() && !r.decision.IsOpen()
  {
    hide Blank;
  }

  lemma {:induction false} DecisionLeavesNoActive(db: Db, r: Ruling, began: Time, now: Time)
    requires OneActive(db.incidents, db.runs) && r.incidentId in db.incidents
    requires db.incidents[r.incidentId].status.IsOpen() && !r.decision.IsOpen()
    ensures !HasActive(DecidePost(db, r, began, now).incidents, db.incidents[r.incidentId].runId)
  {
    hide OneActive, HasActive, RuleRows, InputsOf, Trim;
    var incident := db.incidents[r.incidentId];
    ActiveIsActive(db.incidents, r.incidentId);
    CloseKeepsOneActive(db.incidents, db.runs, r.incidentId,
                        incident.(status := r.decision, updatedAt := began, version := incident.version + 1));
  }

  lemma {:induction false} DecisionLeavesNoneQuarantined(db: Db, r: Ruling, began: Time, now: Time, s: Id)
    requires BindingsAgree(db.snapshots, db.inputs, db.runs.Keys) && r.incidentId in db.incidents
    requires DecideCheck(db, r).None?
    ensures s in InputsOf(db.inputs, db.incidents[r.incidentId].runId)
            ==> && s in DecidePost(db, r, began, now).snapshots
                && !DecidePost(db, r, began, now).snapshots[s].state.Quarantined?
  {
    if s in InputsOf(db.inputs, db.incidents[r.incidentId].runId) {
      assert s in db.snapshots;
      hide DecideCheck, BindingsAgree, RuleRow, Trim, Blank;
      DecisionSettlesInputs(db, r, began, now, s);
    }
  }

  /** In each business day of a zone, the runs that start there and are not cancelled stay within the daily limit. */
  lemma {:induction false} DailyLimitHolds(h: History, z: Id, at: Time)
    requires z in After(h).zones
    ensures var db := After(h); var from := db.zones[z].clock.WindowStart(at);
            |StartingFrom(db.runs, z, from)| <= db.zones[z].dailyLimit
  {
    hide After, RowsKept, InputsKept, PoolsHeld, DriftKept, ApprovalsSettled, AnswersKept, RunsInDay, StartingFrom;
    AlwaysInv(h);
    DayHasRoomIff(After(h), z, at);
  }

  /** Only its own cancelling or archiving ends a run's hold on a pool, although neither checks who holds it. */
  lemma {:induction false} FreesOnlyItsOwnPool(h: History, e: Event, p: Id)
    requires p in After(h).pools && After(h).pools[p].reservedRun.Some?
    ensures var held := After(h).pools[p].reservedRun; var after := Apply(After(h), e);
            && p in after.pools
            && (after.pools[p].reservedRun != held ==>
                  && (e.request.Cancel? || (e.request.Advance? && e.request.target.Archived?))
                  && held == Some(e.request.runId))
  {
    AlwaysInv(h);
    hide After, Apply, PoolsHeld, RowsKept, InputsKept, DriftKept, DaysWithinLimit, ApprovalsSettled, AnswersKept;
    match e.request
    case CreatePool(_, _) => MaintenanceSparesHeld(After(h), e, p);
    case Maintain(_, _) => MaintenanceSparesHeld(After(h), e, p);
    case Plan(_, _, _) => PlanSparesHeld(After(h), e, p);
    case Advance(_, _, _) => MoveSparesOthers(After(h), e, p);
    case Cancel(_) => MoveSparesOthers(After(h), e, p);
    case _ => StepFramed(After(h), e);
  }

  lemma {:induction false} MaintenanceSparesHeld(db: Db, e: Event, p: Id)
    requires PoolsHeld(db.pools, db.runs) && p in db.pools && db.pools[p].reservedRun.Some?
    requires e.request.CreatePool? || e.request.Maintain?
    ensures p in Apply(db, e).pools && Apply(db, e).pools[p].reservedRun == db.pools[p].reservedRun
  {
    hide Apply, Blank;
    Applies(db, e);
  }

  lemma {:induction false} PlanSparesHeld(db: Db, e: Event, p: Id)
    requires PoolsHeld(db.pools, db.runs) && p in db.pools && db.pools[p].reservedRun.Some?
    requires e.request.Plan?
    ensures p in Apply(db, e).pools && Apply(db, e).pools[p].reservedRun == db.pools[p].reservedRun
  {
    hide Apply, Plans, Volume, RunsInDay, Blank, Trim, ReserveRows, BindInputs, Fresh, Reservable, IdSet;
    Applies(db, e);
    var q := e.request.plan;
    if Plans(db, q, e.now, e.request.runId, e.request.jobId) {
      AcceptedPlan(db, q, e.now, e.request.runId, e.request.jobId);
    }
  }

  lemma {:induction false} MoveSparesOthers(db: Db, e: Event, p: Id)
    requires PoolsHeld(db.pools, db.runs) && p in db.pools && db.pools[p].reservedRun.Some?
    requires e.request.Advance? || e.request.Cancel?
    ensures p in Apply(db, e).pools
    ensures Apply(db, e).pools[p].reservedRun != db.pools[p].reservedRun ==>
              && (e.request.Cancel? || (e.request.Advance? && e.request.target.Archived?))
              && db.pools[p].reservedRun == Some(e.request.runId)
  {
    hide Apply, AdvanceRows, ReleaseRows, InputsOf, InputObjection;
    Applies(db, e);
  }
}
