/** Observing, reviewing and deciding keep every cross-table fact. */
module DriftInvariant {
  import opened Base
  import opened BusinessDay
  import opened Domain
  import opened Tables
  import opened Lifecycle
  import opened Operations
  import opened Invariant
  import opened RunInvariant

  // ---------------------------------------------------------------- rows that only change state

  /** Inputs of one run change state, all by one rule that its run's state allows. */
  ghost predicate Shifted(
      rows: map<Id, Snapshot>, rows': map<Id, Snapshot>, inputs: map<Id, Input>, runs: map<Id, Run>, runId: Id) {
    && SnapshotsRestated(rows, rows')
    && (forall s :: s in rows ==> rows'[s].runId == rows[s].runId)
    && (forall s :: s in rows && s !in InputsOf(inputs, runId) ==> rows'[s].state == rows[s].state)
    && (forall s :: s in rows && s in InputsOf(inputs, runId) && runId in runs && Fits(runs[runId].state, rows[s].state)
                    ==> Fits(runs[runId].state, rows'[s].state))
    && (forall s, t :: s in rows && t in rows && s in InputsOf(inputs, runId) && t in InputsOf(inputs, runId) ==>
                         rows[s].state == rows[t].state ==> rows'[s].state == rows'[t].state)
  }

  lemma {:induction false} ShiftKeepsStates(
      rows: map<Id, Snapshot>, rows': map<Id, Snapshot>, inputs: map<Id, Input>, runs: map<Id, Run>, runId: Id)
    requires BindingsAgree(rows, inputs, runs.Keys) && StatesFit(rows, inputs, runs)
    requires Shifted(rows, rows', inputs, runs, runId)
    ensures BindingsAgree(rows', inputs, runs.Keys) && StatesFit(rows', inputs, runs)
  {
    hide Fits, SameData;
  }

  lemma {:induction false} ShiftKeepsStep(
      rows: map<Id, Snapshot>, rows': map<Id, Snapshot>, inputs: map<Id, Input>, runs: map<Id, Run>, runId: Id)
    requires BindingsAgree(rows, inputs, runs.Keys) && InputsInStep(rows, inputs, runs)
    requires Shifted(rows, rows', inputs, runs, runId)
    ensures InputsInStep(rows', inputs, runs)
  {
    hide Fits, SameData;
  }

  lemma {:induction false} ShiftKeepsTotals(
      rows: map<Id, Snapshot>, rows': map<Id, Snapshot>, inputs: map<Id, Input>, runs: map<Id, Run>)
    requires TotalsAddUp(rows, inputs, runs) && SnapshotsRestated(rows, rows')
    ensures TotalsAddUp(rows', inputs, runs)
  {
    hide Volume, SnapshotsRestated;
    forall r | r in runs ensures Volume(rows', InputsOf(inputs, r)) == Volume(rows, InputsOf(inputs, r)) {
      RestatingKeepsVolume(rows, rows', InputsOf(inputs, r));
    }
  }

  lemma {:induction false} ShiftKeepsInputs(
      rows: map<Id, Snapshot>, rows': map<Id, Snapshot>, inputs: map<Id, Input>, runs: map<Id, Run>, runId: Id)
    requires InputsInv(rows, inputs, runs) && Shifted(rows, rows', inputs, runs, runId)
    ensures InputsInv(rows', inputs, runs)
  {
    assert SnapshotsRestated(rows, rows');
    hide BindingsAgree, StatesFit, InputsInStep, TotalsAddUp, Shifted, SnapshotsRestated;
    ShiftKeepsStates(rows, rows', inputs, runs, runId);
    ShiftKeepsStep(rows, rows', inputs, runs, runId);
    ShiftKeepsTotals(rows, rows', inputs, runs);
  }

  lemma {:induction false} ShiftKeepsRows(workspaces: map<Id, Workspace>, zones: map<Id, Zone>, rows: map<Id, Snapshot>,
                                          rows': map<Id, Snapshot>, pools: map<Id, Pool>, runs: map<Id, Run>)
    requires RowsInv(workspaces, zones, rows, pools, runs) && SnapshotsRestated(rows, rows')
    ensures RowsInv(workspaces, zones, rows', pools, runs)
  {
    hide Blank, WorkspacesValid, ZonesValid, PoolsValid, RunsValid, RunsPlaced, ReferencesUnique;
  }

  // ---------------------------------------------------------------- observing

  lemma {:induction false} QuarantineShifts(
      rows: map<Id, Snapshot>, inputs: map<Id, Input>, runs: map<Id, Run>, runId: Id, i: Id, now: Time)
    requires runId in runs && (runs[runId].state.Running? || runs[runId].state.Completed?)
    ensures Shifted(rows, QuarantineRows(rows, InputsOf(inputs, runId), i, now), inputs, runs, runId)
  {
    forall s | s in rows && Fits(runs[runId].state, rows[s].state)
      ensures Fits(runs[runId].state, QuarantineRow(rows[s], i, now).state)
    {
    }
  }

  /** The incident an out-of-range observation ends in is the run's one active incident afterwards. */
  ghost predicate Absorbs(incidents: map<Id, Incident>, i: Id, incident: Incident, runId: Id) {
    && incident.runId == runId && incident.status.IsOpen()
    && (if HasActive(incidents, runId) then ActiveFor(incidents, i, runId) else i !in incidents)
  }

  lemma {:induction false} AbsorbKeepsOneActive(
      incidents: map<Id, Incident>, runs: map<Id, Run>, i: Id, incident: Incident, runId: Id)
    requires OneActive(incidents, runs) && runId in runs && Executed(runs[runId].state)
    requires Absorbs(incidents, i, incident, runId)
    ensures OneActive(incidents[i := incident], runs)
    ensures forall r :: HasActive(incidents[i := incident], r) <==> r == runId || HasActive(incidents, r)
  {
    var incidents' := incidents[i := incident];
    assert ActiveFor(incidents', i, runId);
    forall j, r ensures j != i ==> (ActiveFor(incidents', j, r) <==> ActiveFor(incidents, j, r)) {}
    forall r ensures HasActive(incidents', r) <==> r == runId || HasActive(incidents, r) {
      if HasActive(incidents, r) {
        var j :| ActiveFor(incidents, j, r);
        assert ActiveFor(incidents', j, r) || r == runId;
      }
      if HasActive(incidents', r) && r != runId {
        var j :| ActiveFor(incidents', j, r);
        assert ActiveFor(incidents, j, r);
      }
    }
  }

  lemma {:induction false} ObserveKeepsDrift(
      rows: map<Id, Snapshot>, inputs: map<Id, Input>, incidents: map<Id, Incident>, runs: map<Id, Run>, i: Id,
      incident: Incident, runId: Id, now: Time)
    requires BindingsAgree(rows, inputs, runs.Keys) && DriftInv(rows, inputs, incidents, runs)
    requires runId in runs && Executed(runs[runId].state) && Absorbs(incidents, i, incident, runId)
    ensures DriftInv(QuarantineRows(rows, InputsOf(inputs, runId), i, now), inputs, incidents[i := incident], runs)
  {
    hide HasActive;
    AbsorbKeepsOneActive(incidents, runs, i, incident, runId);
  }

  // ---------------------------------------------------------------- deciding

  lemma {:induction false} RulingShifts(
      rows: map<Id, Snapshot>, inputs: map<Id, Input>, runs: map<Id, Run>, runId: Id, r: Ruling, now: Time)
    ensures Shifted(rows, RuleRows(rows, InputsOf(inputs, runId), r, now), inputs, runs, runId)
  {
    if runId in runs {
      forall s | s in rows && Fits(runs[runId].state, rows[s].state)
        ensures Fits(runs[runId].state, RuleRow(rows[s], r, now).state)
      {
      }
    }
  }

  lemma {:induction false} CloseKeepsOneActive(
      incidents: map<Id, Incident>, runs: map<Id, Run>, i: Id, incident: Incident)
    requires OneActive(incidents, runs) && i in incidents && incidents[i].status.IsOpen()
    requires incident.runId == incidents[i].runId && !incident.status.IsOpen()
    ensures OneActive(incidents[i := incident], runs)
    ensures forall r :: HasActive(incidents[i := incident], r) <==> r != incident.runId && HasActive(incidents, r)
  {
    var incidents' := incidents[i := incident];
    assert ActiveFor(incidents, i, incident.runId);
    forall j, r ensures ActiveFor(incidents', j, r) <==> j != i && ActiveFor(incidents, j, r) {}
    forall r ensures HasActive(incidents', r) <==> r != incident.runId && HasActive(incidents, r) {
      if r != incident.runId && HasActive(incidents, r) {
        var j :| ActiveFor(incidents, j, r);
        assert ActiveFor(incidents', j, r);
      }
      if HasActive(incidents', r) {
        var j :| ActiveFor(incidents', j, r);
        assert ActiveFor(incidents, j, r);
      }
    }
  }

  lemma {:induction false} DecideKeepsDrift(
      rows: map<Id, Snapshot>, inputs: map<Id, Input>, incidents: map<Id, Incident>, runs: map<Id, Run>, r: Ruling,
      incident: Incident, now: Time)
    requires BindingsAgree(rows, inputs, runs.Keys) && DriftInv(rows, inputs, incidents, runs)
    requires r.incidentId in incidents && incidents[r.incidentId].status.IsOpen()
    requires incident.runId == incidents[r.incidentId].runId && !incident.status.IsOpen()
    ensures DriftInv(RuleRows(rows, InputsOf(inputs, incident.runId), r, now), inputs,
                     incidents[r.incidentId := incident], runs)
  {
    hide HasActive;
    CloseKeepsOneActive(incidents, runs, r.incidentId, incident);
  }

  /** A change of an incident that stays active, such as the start of its review. */
  lemma {:induction false} TouchKeepsDrift(
      rows: map<Id, Snapshot>, inputs: map<Id, Input>, incidents: map<Id, Incident>, runs: map<Id, Run>, i: Id,
      incident: Incident)
    requires DriftInv(rows, inputs, incidents, runs)
    requires i in incidents && incidents[i].status.IsOpen()
    requires incident.runId == incidents[i].runId && incident.status.IsOpen()
    ensures DriftInv(rows, inputs, incidents[i := incident], runs)
  {
    hide HasActive;
    assert HasActive(incidents, incident.runId) by {
      ActiveIsActive(incidents, i);
    }
    AbsorbKeepsOneActive(incidents, runs, i, incident, incident.runId);
  }

  lemma {:induction false} ActiveIsActive(incidents: map<Id, Incident>, i: Id)
    requires i in incidents && incidents[i].status.IsOpen()
    ensures HasActive(incidents, incidents[i].runId)
  {
    assert ActiveFor(incidents, i, incidents[i].runId);
  }

  // ---------------------------------------------------------------- the whole steps

  lemma {:induction false} ObservationIsAbsorbed(db: Db, r: Report, now: Time)
    requires r.observation.runId in db.runs && db.runs[r.observation.runId].workspaceId in db.workspaces
    requires ObserveCheck(db, r).None? && !InRange(db, r.observation)
    ensures Absorbs(db.incidents, Absorber(db, r), AbsorbedInto(db, r, now), r.observation.runId)
    ensures db.runs[r.observation.runId].state.Running? || db.runs[r.observation.runId].state.Completed?
  {
    hide Blank;
  }

  lemma {:induction false} QuarantineRestates(rows: map<Id, Snapshot>, ids: set<Id>, i: Id, now: Time)
    ensures SnapshotsRestated(rows, QuarantineRows(rows, ids, i, now))
  {
  }

  lemma {:induction false} RulingRestates(rows: map<Id, Snapshot>, ids: set<Id>, r: Ruling, now: Time)
    ensures SnapshotsRestated(rows, RuleRows(rows, ids, r, now))
  {
    hide Trim;
  }

  lemma {:induction false} ObserveStepKeepsRows(db: Db, r: Report, now: Time)
    requires r.observation.runId in db.runs && db.runs[r.observation.runId].workspaceId in db.workspaces
    requires RowsKept(db)
    ensures RowsKept(ObservePost(db, r, now))
  {
    hide RowsInv, SnapshotsRestated, QuarantineRows, InRange, Absorber, AbsorbedInto;
    if !InRange(db, r.observation) {
      var rows' := QuarantineRows(db.snapshots, InputsOf(db.inputs, r.observation.runId), Absorber(db, r), now);
      QuarantineRestates(db.snapshots, InputsOf(db.inputs, r.observation.runId), Absorber(db, r), now);
      ShiftKeepsRows(db.workspaces, db.zones, db.snapshots, rows', db.pools, db.runs);
    }
  }

  lemma {:induction false} ObserveStepKeepsInputs(db: Db, r: Report, now: Time)
    requires r.observation.runId in db.runs && db.runs[r.observation.runId].workspaceId in db.workspaces
    requires InputsKept(db) && ObserveCheck(db, r).None?
    ensures InputsKept(ObservePost(db, r, now))
  {
    hide InputsInv, QuarantineRows, Shifted, Absorbs, Absorber, AbsorbedInto, InRange, ObserveCheck;
    if !InRange(db, r.observation) {
      ObservationIsAbsorbed(db, r, now);
      QuarantineShifts(db.snapshots, db.inputs, db.runs, r.observation.runId, Absorber(db, r), now);
      ShiftKeepsInputs(db.snapshots,
                       QuarantineRows(db.snapshots, InputsOf(db.inputs, r.observation.runId), Absorber(db, r), now),
                       db.inputs, db.runs, r.observation.runId);
    }
  }

  lemma {:induction false} ObserveStepKeepsDrift(db: Db, r: Report, now: Time)
    requires r.observation.runId in db.runs && db.runs[r.observation.runId].workspaceId in db.workspaces
    requires InputsKept(db) && DriftKept(db) && ObserveCheck(db, r).None?
    ensures DriftKept(ObservePost(db, r, now))
  {
    hide BindingsAgree, StatesFit, InputsInStep, TotalsAddUp, DriftInv, QuarantineRows, Absorbs, Absorber;
    hide AbsorbedInto, InRange, ObserveCheck;
    if !InRange(db, r.observation) {
      ObservationIsAbsorbed(db, r, now);
      ObserveKeepsDrift(db.snapshots, db.inputs, db.incidents, db.runs, Absorber(db, r), AbsorbedInto(db, r, now),
                        r.observation.runId, now);
    }
  }

  lemma {:induction false} ObservationHasRun(db: Db, r: Report)
    requires ObserveCheck(db, r).None?
    ensures r.observation.runId in db.runs && db.runs[r.observation.runId].workspaceId in db.workspaces
  {
  }

  lemma {:induction false} ObserveTouches(db: Db, r: Report, now: Time)
    requires r.observation.runId in db.runs && db.runs[r.observation.runId].workspaceId in db.workspaces
    ensures var after := ObservePost(db, r, now);
            after.pools == db.pools && after.runs == db.runs && after.zones == db.zones
            && after.workspaces == db.workspaces && after.approvals == db.approvals && after.answers == db.answers
  {
    hide InRange, Absorber, AbsorbedInto, ActiveIncident, QuarantineRows, InputsOf, ReviewJob;
    if InRange(db, r.observation) {
    } else {
    }
  }

  lemma {:induction false} ObserveKeepsInv(db: Db, r: Report, now: Time)
    requires r.observation.runId in db.runs && db.runs[r.observation.runId].workspaceId in db.workspaces
    requires Inv(db) && ObserveCheck(db, r).None?
    ensures Inv(ObservePost(db, r, now))
  {
    hide RowsKept, InputsKept, PoolsHeld, DriftKept, DaysWithinLimit, ApprovalsSettled, AnswersKept;
    hide ObserveCheck, ObservePost;
    ObserveTouches(db, r, now);
    ObserveStepKeepsRows(db, r, now);
    ObserveStepKeepsInputs(db, r, now);
    ObserveStepKeepsDrift(db, r, now);
  }

  lemma {:induction false} ReviewKeepsInv(db: Db, id: Id, now: Time)
    requires Inv(db) && StartReview(db, id, now).Success?
    ensures Inv(StartReview(db, id, now).value)
  {
    hide RowsInv, InputsInv, PoolsHeld, DriftInv, DaysWithinLimit, ApprovalsSettled, AnswersKept;
    TouchKeepsDrift(db.snapshots, db.inputs, db.incidents, db.runs, id, StartReview(db, id, now).value.incidents[id]);
  }

  lemma {:induction false} DecideStepKeepsRows(db: Db, r: Ruling, began: Time, now: Time)
    requires RowsKept(db) && r.incidentId in db.incidents
    ensures RowsKept(DecidePost(db, r, began, now))
  {
    hide RowsInv, SnapshotsRestated, RuleRows, Trim;
    var ids := InputsOf(db.inputs, db.incidents[r.incidentId].runId);
    var rows' := RuleRows(db.snapshots, ids, r, now);
    RulingRestates(db.snapshots, ids, r, now);
    ShiftKeepsRows(db.workspaces, db.zones, db.snapshots, rows', db.pools, db.runs);
  }

  lemma {:induction false} DecideStepKeepsInputs(db: Db, r: Ruling, began: Time, now: Time)
    requires InputsKept(db) && r.incidentId in db.incidents
    ensures InputsKept(DecidePost(db, r, began, now))
  {
    hide InputsInv, RuleRows, Shifted, Trim;
    var runId := db.incidents[r.incidentId].runId;
    RulingShifts(db.snapshots, db.inputs, db.runs, runId, r, now);
    ShiftKeepsInputs(db.snapshots, RuleRows(db.snapshots, InputsOf(db.inputs, runId), r, now), db.inputs, db.runs,
                     runId);
  }

  lemma {:induction false} DecideStepKeepsDrift(db: Db, r: Ruling, began: Time, now: Time)
    requires InputsKept(db) && DriftKept(db) && r.incidentId in db.incidents && DecideCheck(db, r).None?
    ensures DriftKept(DecidePost(db, r, began, now))
  {
    assert db.incidents[r.incidentId].status.IsOpen() && !r.decision.IsOpen();
    hide BindingsAgree, StatesFit, InputsInStep, TotalsAddUp, DriftInv, RuleRows, Trim, Blank, DecideCheck;
    DecideKeepsDrift(db.snapshots, db.inputs, db.incidents, db.runs, r,
                     DecidePost(db, r, began, now).incidents[r.incidentId], now);
  }

  lemma {:induction false} DecideKeepsInv(db: Db, r: Ruling, began: Time, now: Time)
    requires Inv(db) && r.incidentId in db.incidents && DecideCheck(db, r).None?
    ensures Inv(DecidePost(db, r, began, now))
  {
    hide RowsKept, InputsKept, PoolsHeld, DriftKept, DaysWithinLimit, ApprovalsSettled, AnswersKept, DecideCheck;
    hide RuleRows;
    DecideStepKeepsRows(db, r, began, now);
    DecideStepKeepsInputs(db, r, began, now);
    DecideStepKeepsDrift(db, r, began, now);
  }

  /** A decision leaves none of the run's inputs quarantined, and what it settles depends on the decision alone. */
  lemma {:induction false} DecisionSettlesInputs(db: Db, r: Ruling, began: Time, now: Time, s: Id)
    requires r.incidentId in db.incidents && DecideCheck(db, r).None?
    requires s in InputsOf(db.inputs, db.incidents[r.incidentId].runId) && s in db.snapshots
    ensures var after := DecidePost(db, r, began, now).snapshots[s].state;
            && !after.Quarantined?
            && (db.snapshots[s].state.Quarantined? ==> if r.decision.Cleared? then after.Approved? else after.Rejected?)
  {
    hide Trim, Blank;
  }
}
