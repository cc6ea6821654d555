/** Cancelling a planned run gives back what planning took. */
module RoundTrip {
  import opened Base
  import opened Domain
  import opened Tables
  import opened Lifecycle
  import opened Operations
  import opened Invariant
  import opened PlanInvariant
  import opened Histories
  import opened Idempotency

  /** Equal but for the stamp and the version. */
  predicate SameSnapshot(a: Snapshot, b: Snapshot) {
    a == b.(updatedAt := a.updatedAt, version := a.version)
  }

  predicate SamePool(a: Pool, b: Pool) {
    a == b.(updatedAt := a.updatedAt, version := a.version)
  }

  ghost predicate Restored(db: Db, after: Db) {
    && after.inputs == db.inputs
    && after.snapshots.Keys == db.snapshots.Keys
    && (forall s :: s in db.snapshots ==> SameSnapshot(after.snapshots[s], db.snapshots[s]))
    && after.pools.Keys == db.pools.Keys
    && (forall p :: p in db.pools ==> SamePool(after.pools[p], db.pools[p]))
  }

  // ---------------------------------------------------------------- plan, stage, cancel

  ghost predicate RowsBound(rows: map<Id, Snapshot>, after: map<Id, Snapshot>, ids: set<Id>) {
    && after.Keys == rows.Keys
    && (forall s :: s in rows ==>
                      if s in ids
                      then
                        && after[s].state.Reserved?
                        && SameSnapshot(after[s].(state := Validated, runId := None), rows[s])
                      else after[s] == rows[s])
  }

  ghost predicate PoolsBound(pools: map<Id, Pool>, after: map<Id, Pool>, poolId: Id) {
    && after.Keys == pools.Keys
    && (forall p :: p in pools ==>
                      if p == poolId then SamePool(after[p].(state := Available, reservedRun := None), pools[p])
                        else after[p] == pools[p])
  }

  ghost predicate InputsBound(inputs: map<Id, Input>, after: map<Id, Input>, ids: set<Id>, runId: Id) {
    InputsOf(after, runId) == ids && (map s | s in after && after[s].runId != runId :: after[s]) == inputs
  }

  /** What planning leaves behind, as far as staging and cancelling look at it. */
  ghost predicate Bound(db: Db, after: Db, ids: set<Id>, poolId: Id, runId: Id) {
    && runId in after.runs && after.runs[runId].poolId == poolId && poolId in after.pools
    && InputsBound(db.inputs, after.inputs, ids, runId)
    && RowsBound(db.snapshots, after.snapshots, ids)
    && PoolsBound(db.pools, after.pools, poolId)
  }

  lemma {:induction false} BindingBinds(inputs: map<Id, Input>, ids: set<Id>, runId: Id, now: Time)
    requires forall s :: s in ids ==> s !in inputs
    requires forall s :: s in inputs ==> inputs[s].runId != runId
    ensures InputsBound(inputs, BindInputs(inputs, ids, runId, now), ids, runId)
  {
  }

  lemma {:induction false} ReservingBinds(rows: map<Id, Snapshot>, ids: set<Id>, runId: Id, now: Time)
    requires forall s :: s in ids && s in rows ==> rows[s].state.Validated? && rows[s].runId.None?
    ensures RowsBound(rows, ReserveRows(rows, ids, runId, now), ids)
  {
  }

  lemma {:induction false} HoldingBinds(pools: map<Id, Pool>, p: Id, runId: Id, now: Time)
    requires p in pools && pools[p].state.Available? && pools[p].reservedRun.None?
    ensures PoolsBound(pools, pools[p := HoldPool(pools[p], runId, now)], p)
  {
  }

  /** Whatever a plan takes is free of any binding before. */
  lemma {:induction false} TakenAreFree(db: Db, q: PlanRequest, now: Time, runId: Id)
    requires Inv(db) && Sound(db, q, now, runId)
    ensures forall s :: s in db.inputs ==> db.inputs[s].runId != runId
    ensures forall s :: s in IdSet(q.snapshotIds) ==>
              && s in db.snapshots && s !in db.inputs
              && db.snapshots[s].state.Validated? && db.snapshots[s].runId.None?
    ensures db.pools[q.poolId].state.Available? && db.pools[q.poolId].reservedRun.None?
  {
    hide RowsKept, DriftKept, DaysWithinLimit, ApprovalsSettled, AnswersKept, StatesFit, InputsInStep, TotalsAddUp;
    hide Volume, Trim, Blank, RunsInDay, Reservable, IdSet;
  }

  lemma {:induction false} PlanBinds(db: Db, q: PlanRequest, now: Time, runId: Id, jobId: Id)
    requires Inv(db) && q.poolId in db.pools && Sound(db, q, now, runId)
    ensures Bound(db, PlanPost(db, q, now, runId, jobId), IdSet(q.snapshotIds), q.poolId, runId)
    ensures PlanPost(db, q, now, runId, jobId).runs[runId].state.Queued?
  {
    hide Inv, Sound, Volume, Trim, IdSet, BindInputs, ReserveRows, HoldPool, RowsBound, PoolsBound, InputsBound;
    TakenAreFree(db, q, now, runId);
    BindingBinds(db.inputs, IdSet(q.snapshotIds), runId, now);
    ReservingBinds(db.snapshots, IdSet(q.snapshotIds), runId, now);
    HoldingBinds(db.pools, q.poolId, runId, now);
  }

  lemma {:induction false} StageKeepsBound(
      db: Db, planned: Db, ids: set<Id>, poolId: Id, runId: Id, began: Time, now: Time)
    requires Bound(db, planned, ids, poolId, runId) && planned.runs[runId].state.Queued?
    ensures Advances(planned, runId, Staged, now)
    ensures Bound(db, AdvancePost(planned, runId, Staged, began, now), ids, poolId, runId)
    ensures AdvancePost(planned, runId, Staged, began, now).runs[runId].state.Staged?
  {
  }

  lemma {:induction false} CancelAccepted(db: Db, bound: Db, ids: set<Id>, poolId: Id, runId: Id, now: Time)
    requires Bound(db, bound, ids, poolId, runId) && ids <= db.snapshots.Keys
    requires bound.runs[runId].state.Queued? || bound.runs[runId].state.Staged?
    ensures Cancels(bound, runId, now) <==> forall s :: s in ids ==> now < db.snapshots[s].expiresAt
  {
    forall s | s in ids
      ensures bound.snapshots[s].Transition(Validated, now).Success? <==> now < db.snapshots[s].expiresAt {}
    forall s ensures s in ids <==> s in bound.inputs && bound.inputs[s].runId == runId {
      assert s in ids <==> s in InputsOf(bound.inputs, runId);
    }
  }

  lemma {:induction false} CancelUnbinds(db: Db, bound: Db, ids: set<Id>, poolId: Id, runId: Id, now: Time)
    requires Bound(db, bound, ids, poolId, runId)
    ensures Restored(db, CancelPost(bound, runId, now))
  {
  }

  /**
    A run planned, perhaps staged, and cancelled leaves the run-input table, and every snapshot's and
    pool's state and binding, as they were before. The cancelling is accepted until an input expires.
   */
  lemma {:induction false} PlanThenCancel(
      db: Db, q: PlanRequest, now: Time, runId: Id, jobId: Id, staged: bool, began: Time, mid: Time, later: Time)
    requires Inv(db) && q.poolId in db.pools && Plans(db, q, now, runId, jobId)
    ensures var planned := PlanPost(db, q, now, runId, jobId);
            && runId in planned.runs && planned.runs[runId].poolId in planned.pools
            && Advances(planned, runId, Staged, mid)
            && var waiting := if staged then AdvancePost(planned, runId, Staged, began, mid) else planned;
               && runId in waiting.runs && waiting.runs[runId].poolId in waiting.pools
               && (Cancels(waiting, runId, later) <==> forall s :: s in q.snapshotIds ==>
                   s in db.snapshots && later < db.snapshots[s].expiresAt)
               && Restored(db, CancelPost(waiting, runId, later))
  {
    AcceptedPlan(db, q, now, runId, jobId);
    var ids := IdSet(q.snapshotIds);
    assert ids <= db.snapshots.Keys;
    hide Plans, Inv, PlanPost, Sound, AdvancePost, CancelPost, Advances, Cancels, Restored;
    PlanBinds(db, q, now, runId, jobId);
    var planned := PlanPost(db, q, now, runId, jobId);
    StageKeepsBound(db, planned, ids, q.poolId, runId, began, mid);
    var waiting := if staged then AdvancePost(planned, runId, Staged, began, mid) else planned;
    CancelAccepted(db, waiting, ids, q.poolId, runId, later);
    CancelUnbinds(db, waiting, ids, q.poolId, runId, later);
  }

  // ---------------------------------------------------------------- with anything in between

  /** The run is still bound to the inputs and the pool it was planned with, unless it was cancelled. */
  ghost predicate StillBound(runs: map<Id, Run>, inputs: map<Id, Input>, r: Id, ids: set<Id>, poolId: Id) {
    r in runs && runs[r].poolId == poolId && (!runs[r].state.Cancelled? ==> InputsOf(inputs, r) == ids)
  }

  lemma {:induction false} PlanningSpares(
      db: Db, q: PlanRequest, now: Time, runId: Id, jobId: Id, r: Id, ids: set<Id>, poolId: Id)
    requires Plans(db, q, now, runId, jobId) && StillBound(db.runs, db.inputs, r, ids, poolId)
    ensures q.poolId in db.pools
    ensures var after := PlanPost(db, q, now, runId, jobId); StillBound(after.runs, after.inputs, r, ids, poolId)
  {
    hide Plans, Reservable, RunsInDay, Blank, Trim, Volume, ReserveRows, HoldPool, BindInputs, InputsOf, IdSet;
    AcceptedPlan(db, q, now, runId, jobId);
    BindingSpares(db.inputs, IdSet(q.snapshotIds), runId, now, r);
  }

  lemma {:induction false} BindingSpares(inputs: map<Id, Input>, ids: set<Id>, runId: Id, now: Time, r: Id)
    requires r != runId && forall s :: s in ids ==> s !in inputs
    ensures InputsOf(BindInputs(inputs, ids, runId, now), r) == InputsOf(inputs, r)
  {
  }

  lemma {:induction false} AdvancingSpares(
      db: Db, runId: Id, target: RunState, began: Time, now: Time, r: Id, ids: set<Id>, poolId: Id)
    requires Advances(db, runId, target, now) && StillBound(db.runs, db.inputs, r, ids, poolId)
    ensures StillBound(AdvancePost(db, runId, target, began, now).runs,
                       AdvancePost(db, runId, target, began, now).inputs, r, ids, poolId)
  {
    hide AdvanceRows, AdvancePool, InputObjection;
  }

  lemma {:induction false} CancellingSpares(db: Db, runId: Id, now: Time, r: Id, ids: set<Id>, poolId: Id)
    requires Cancels(db, runId, now) && StillBound(db.runs, db.inputs, r, ids, poolId)
    ensures StillBound(CancelPost(db, runId, now).runs, CancelPost(db, runId, now).inputs, r, ids, poolId)
  {
    hide ReleaseRows;
    assert r != runId ==> InputsOf(CancelPost(db, runId, now).inputs, r) == InputsOf(db.inputs, r);
  }

  lemma {:induction false} SomeSpareBindings(q: Request, db: Db, after: Db)
    requires Framed(q, db, after) && !MovesRuns(q)
    ensures after.runs == db.runs && after.inputs == db.inputs
  {
  }

  lemma {:induction false} StepSpares(db: Db, e: Event, r: Id, ids: set<Id>, poolId: Id)
    requires StillBound(db.runs, db.inputs, r, ids, poolId)
    ensures StillBound(Apply(db, e).runs, Apply(db, e).inputs, r, ids, poolId)
  {
    hide Apply, Framed, StillBound, Plans, PlanPost, Advances, AdvancePost, Cancels, CancelPost;
    StepFramed(db, e);
    Applies(db, e);
    if MovesRuns(e.request) {
      match e.request
      case Plan(q, runId, jobId) =>
        if Plans(db, q, e.now, runId, jobId) { PlanningSpares(db, q, e.now, runId, jobId, r, ids, poolId); }
      case Advance(runId, target, began) =>
        if Advances(db, runId, target, e.now) { AdvancingSpares(db, runId, target, began, e.now, r, ids, poolId); }
      case Cancel(runId) =>
        if Cancels(db, runId, e.now) { CancellingSpares(db, runId, e.now, r, ids, poolId); }
    } else {
      SomeSpareBindings(e.request, db, Apply(db, e));
    }
  }

  lemma {:induction false} RunsKeepTheirInputs(h: History, k: nat, n: nat)
    requires Creates(h, k) && k < n <= |h|
    ensures StillBound(After(h[..n]).runs, After(h[..n]).inputs, h[k].request.runId,
                       IdSet(h[k].request.plan.snapshotIds), h[k].request.plan.poolId)
    decreases n
  {
    hide After, Apply, StillBound, Plans, Inv, IdSet;
    OneMoreStep(h, n - 1);
    if n == k + 1 {
      AlwaysInv(h[..k]);
      PlanningBinds(After(h[..k]), h[k]);
    } else {
      RunsKeepTheirInputs(h, k, n - 1);
      StepSpares(After(h[..n - 1]), h[n - 1], h[k].request.runId, IdSet(h[k].request.plan.snapshotIds),
                 h[k].request.plan.poolId);
    }
  }

  lemma {:induction false} PlanningBinds(db: Db, e: Event)
    requires Inv(db) && e.request.Plan? && Plans(db, e.request.plan, e.now, e.request.runId, e.request.jobId)
    ensures StillBound(Apply(db, e).runs, Apply(db, e).inputs, e.request.runId, IdSet(e.request.plan.snapshotIds),
                       e.request.plan.poolId)
  {
    hide Apply, Plans, Inv, Sound, PlanPost, RowsBound, PoolsBound, IdSet;
    AcceptedPlan(db, e.request.plan, e.now, e.request.runId, e.request.jobId);
    Applies(db, e);
    PlanBinds(db, e.request.plan, e.now, e.request.runId, e.request.jobId);
  }

  /**
    Whatever happens between a run's planning and its cancelling, cancelling frees exactly what
    planning took: its snapshots are validated and unbound, and its pool available, as both were.
   */
  lemma {:induction false} CancellingUndoesPlanning(h: History, k: nat, e: Event)
    requires Creates(h, k) && e.request.Cancel? && e.request.runId == h[k].request.runId
    requires Cancels(After(h), e.request.runId, e.now)
    ensures var ids := IdSet(h[k].request.plan.snapshotIds);
            var p := h[k].request.plan.poolId;
            var after := Apply(After(h), e);
            && (forall s :: s in ids ==> Loose(After(h[..k]), s) && Loose(after, s))
            && (forall s :: s in After(h).inputs && s !in ids ==>
                       s in after.inputs && after.inputs[s] == After(h).inputs[s])
            && Idle(After(h[..k]), p) && Idle(after, p)
  {
    hide After, Apply, CancelPost, Inv, Plans, StillBound, IdSet, Loose, Idle;
    assert h[..|h|] == h;
    RunsKeepTheirInputs(h, k, |h|);
    AlwaysInv(h);
    BoundInputsExist(After(h), e.request.runId, e.now, IdSet(h[k].request.plan.snapshotIds), h[k].request.plan.poolId);
    AlwaysInv(h[..k]);
    PlannedFromLoose(After(h[..k]), h[k]);
    Applies(After(h), e);
    CancelledToLoose(After(h), e.request.runId, e.now, IdSet(h[k].request.plan.snapshotIds), h[k].request.plan.poolId);
  }

  /** Validated and bound to no run. */
  predicate Loose(db: Db, s: Id) {
    s in db.snapshots && db.snapshots[s].state.Validated? && db.snapshots[s].runId.None? && s !in db.inputs
  }

  predicate Idle(db: Db, p: Id) {
    p in db.pools && db.pools[p].state.Available? && db.pools[p].reservedRun.None?
  }

  lemma {:induction false} PlannedFromLoose(db: Db, e: Event)
    requires Inv(db) && e.request.Plan? && Plans(db, e.request.plan, e.now, e.request.runId, e.request.jobId)
    ensures forall s :: s in IdSet(e.request.plan.snapshotIds) ==> Loose(db, s)
    ensures Idle(db, e.request.plan.poolId)
  {
    AcceptedPlan(db, e.request.plan, e.now, e.request.runId, e.request.jobId);
    TakenAreFree(db, e.request.plan, e.now, e.request.runId);
    hide Plans, Inv, IdSet, Reservable, RunsInDay, Volume, Trim, Blank, Fresh;
  }

  lemma {:induction false} CancelledToLoose(db: Db, runId: Id, now: Time, ids: set<Id>, p: Id)
    requires ids <= db.snapshots.Keys && Cancels(db, runId, now) && StillBound(db.runs, db.inputs, runId, ids, p)
    ensures var after := CancelPost(db, runId, now);
            && (forall s :: s in ids ==> Loose(after, s))
            && (forall s :: s in db.inputs && s !in ids ==> s in after.inputs && after.inputs[s] == db.inputs[s])
            && Idle(after, p)
  {
    assert InputsOf(db.inputs, runId) == ids;
    hide Cancels, StillBound;
  }

  lemma {:induction false} BoundInputsExist(db: Db, r: Id, now: Time, ids: set<Id>, p: Id)
    requires Inv(db) && Cancels(db, r, now) && StillBound(db.runs, db.inputs, r, ids, p)
    ensures ids <= db.snapshots.Keys
  {
    hide RowsKept, DriftKept, DaysWithinLimit, ApprovalsSettled, AnswersKept, StatesFit, InputsInStep, TotalsAddUp;
    hide PoolsHeld;
    forall s | s in ids ensures s in db.snapshots {
      assert s in InputsOf(db.inputs, r);
    }
  }
}
