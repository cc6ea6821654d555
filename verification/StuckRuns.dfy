/** When an unstarted run can still move, and when it never will: a hold that no request can end. */
module StuckRuns {
  import opened Base
  import opened BusinessDay
  import opened Domain
  import opened Jobs
  import opened Tables
  import opened Lifecycle
  import opened Operations
  import opened Invariant
  import opened PlanInvariant
  import opened RunInvariant
  import opened DriftInvariant
  import opened Histories
  import opened Guarantees

  /** Still as planning left it and not expired: what starting and cancelling ask of every input. */
  predicate Takes(rows: map<Id, Snapshot>, s: Id, now: Time) {
    s in rows && rows[s].state.Reserved? && rows[s].expiresAt > now
  }

  // ---------------------------------------------------------------- when the next step is possible

  /** What reachable states say of an unstarted run's inputs and pool. */
  lemma {:induction false} UnstartedInputs(db: Db, r: Id)
    requires Inv(db) && r in db.runs && Unstarted(db.runs[r].state)
    ensures db.runs[r].poolId in db.pools
    ensures forall s :: s in InputsOf(db.inputs, r) ==>
                          s in db.snapshots && (db.snapshots[s].state.Reserved? || db.snapshots[s].state.Validated?)
  {
    hide PoolsHeld, DriftKept, DaysWithinLimit, ApprovalsSettled, AnswersKept, InputsInStep, TotalsAddUp;
    hide WorkspacesValid, ZonesValid, SnapshotsValid, PoolsValid, RunsValid, ReferencesUnique;
  }

  lemma {:induction false} CancelsIffTaking(db: Db, r: Id, now: Time)
    requires r in db.runs && Unstarted(db.runs[r].state) && db.runs[r].poolId in db.pools
    requires forall s :: s in InputsOf(db.inputs, r) ==>
                           s in db.snapshots && (db.snapshots[s].state.Reserved? || db.snapshots[s].state.Validated?)
    ensures Cancels(db, r, now) <==> forall s :: s in InputsOf(db.inputs, r) ==> Takes(db.snapshots, s, now)
  {
    forall s | s in InputsOf(db.inputs, r)
      ensures db.snapshots[s].Transition(Validated, now).Success? <==> Takes(db.snapshots, s, now)
    {
    }
    forall s ensures s in InputsOf(db.inputs, r) <==> s in db.inputs && db.inputs[s].runId == r {}
  }

  lemma {:induction false} StartsIffTaking(db: Db, r: Id, now: Time)
    requires r in db.runs && db.runs[r].state.Staged? && db.runs[r].poolId in db.pools
    requires forall s :: s in InputsOf(db.inputs, r) ==>
                           s in db.snapshots && (db.snapshots[s].state.Reserved? || db.snapshots[s].state.Validated?)
    ensures Advances(db, r, Running, now) <==> forall s :: s in InputsOf(db.inputs, r) ==> Takes(db.snapshots, s, now)
  {
    forall s | s in InputsOf(db.inputs, r)
      ensures InputObjection(db.snapshots[s], Running, now).None? <==> Takes(db.snapshots, s, now)
    {
    }
    forall s ensures s in InputsOf(db.inputs, r) <==> s in db.inputs && db.inputs[s].runId == r {}
  }

  /** A run that has not started can be cancelled exactly while every input is reserved and unexpired. */
  lemma {:induction false} CancellableIff(h: History, r: Id, now: Time)
    requires r in After(h).runs && Unstarted(After(h).runs[r].state)
    ensures Cancels(After(h), r, now) <==>
            forall s :: s in InputsOf(After(h).inputs, r) ==> Takes(After(h).snapshots, s, now)
  {
    hide After, Inv, Cancels, InputsOf, Takes;
    AlwaysInv(h);
    UnstartedInputs(After(h), r);
    CancelsIffTaking(After(h), r, now);
  }

  /** And a staged run can be started exactly then. */
  lemma {:induction false} StartableIff(h: History, r: Id, now: Time)
    requires r in After(h).runs && After(h).runs[r].state.Staged?
    ensures Advances(After(h), r, Running, now) <==>
            forall s :: s in InputsOf(After(h).inputs, r) ==> Takes(After(h).snapshots, s, now)
  {
    hide After, Inv, Advances, InputsOf, Takes;
    AlwaysInv(h);
    UnstartedInputs(After(h), r);
    StartsIffTaking(After(h), r, now);
  }

  // ---------------------------------------------------------------- an input that bars its run

  /** An input of an unstarted run that is as yet unused. */
  ghost predicate Waits(db: Db, r: Id, s: Id) {
    && r in db.runs && Unstarted(db.runs[r].state)
    && s in db.inputs && db.inputs[s].runId == r
    && s in db.snapshots && (db.snapshots[s].state.Reserved? || db.snapshots[s].state.Validated?)
  }

  /** Validated again, or expired: such an input lets its run neither start nor be cancelled. */
  predicate Bars(row: Snapshot, now: Time) {
    row.state.Validated? || row.expiresAt <= now
  }

  /** The run waits on, planned as it was, and the input's row is not touched. */
  ghost predicate WaitsOn(db: Db, after: Db, r: Id, s: Id)
    requires Waits(db, r, s)
  {
    && Waits(after, r, s)
    && after.snapshots[s] == db.snapshots[s]
    && SamePlan(db.runs[r], after.runs[r])
  }

  lemma {:induction false} PlanningPasses(db: Db, q: PlanRequest, now: Time, runId: Id, jobId: Id, r: Id, s: Id)
    requires Waits(db, r, s) && Plans(db, q, now, runId, jobId)
    ensures q.poolId in db.pools && WaitsOn(db, PlanPost(db, q, now, runId, jobId), r, s)
  {
    hide Plans, Reservable, RunsInDay, Blank, Trim, Volume, HoldPool, NewRun;
    AcceptedPlan(db, q, now, runId, jobId);
    assert s !in IdSet(q.snapshotIds);
    hide IdSet;
  }

  lemma {:induction false} AdvancingPasses(db: Db, runId: Id, target: RunState, began: Time, now: Time, r: Id, s: Id)
    requires Waits(db, r, s) && Bars(db.snapshots[s], now) && Advances(db, runId, target, now)
    ensures WaitsOn(db, AdvancePost(db, runId, target, began, now), r, s)
  {
    if runId == r {
      assert InputObjection(db.snapshots[s], target, now).None?;
      assert target.Staged?;
    }
    hide AdvancePool, Advances;
  }

  lemma {:induction false} CancellingPasses(db: Db, runId: Id, now: Time, r: Id, s: Id)
    requires Waits(db, r, s) && Bars(db.snapshots[s], now) && Cancels(db, runId, now)
    ensures WaitsOn(db, CancelPost(db, runId, now), r, s)
  {
    assert runId != r by {
      assert db.snapshots[s].Transition(Validated, now).Failure?;
    }
    hide Cancels;
  }

  lemma {:induction false} ObservingPasses(db: Db, report: Report, now: Time, r: Id, s: Id)
    requires Waits(db, r, s)
    requires report.observation.runId in db.runs && db.runs[report.observation.runId].workspaceId in db.workspaces
    ensures WaitsOn(db, ObservePost(db, report, now), r, s)
  {
    hide InRange, Absorber, AbsorbedInto, ActiveIncident, ReviewJob, InputsOf;
    if InRange(db, report.observation) {
    } else {
    }
  }

  lemma {:induction false} DecidingPasses(db: Db, ruling: Ruling, began: Time, now: Time, r: Id, s: Id)
    requires Waits(db, r, s) && ruling.incidentId in db.incidents
    ensures WaitsOn(db, DecidePost(db, ruling, began, now), r, s)
  {
    hide Trim, InputsOf;
  }

  lemma {:induction false} RegisteringPasses(db: Db, id: Id, row: Snapshot, now: Time, r: Id, s: Id)
    requires Waits(db, r, s)
    ensures WaitsOn(db, OrKeep(RegisterSnapshot(db, id, row, now), db), r, s)
  {
    hide Blank;
  }

  lemma {:induction false} ValidatingPasses(db: Db, id: Id, now: Time, r: Id, s: Id)
    requires Waits(db, r, s) && Bars(db.snapshots[s], now)
    ensures WaitsOn(db, OrKeep(ValidateSnapshot(db, id, now), db), r, s)
  {
    hide Blank;
  }

  lemma {:induction false} OthersPass(q: Request, db: Db, after: Db, r: Id, s: Id)
    requires Waits(db, r, s) && Framed(q, db, after)
    requires !q.Register? && !q.Validate? && !MovesRuns(q) && !q.Observe? && !q.Decide?
    ensures WaitsOn(db, after, r, s)
  {
  }

  lemma {:induction false} StepPasses(db: Db, e: Event, r: Id, s: Id)
    requires Waits(db, r, s) && Bars(db.snapshots[s], e.now)
    ensures WaitsOn(db, Apply(db, e), r, s)
  {
    hide Apply, Framed, Plans, PlanPost, Advances, AdvancePost, Cancels, CancelPost, ObserveCheck, ObservePost;
    hide DecideCheck, DecidePost;
    hide RegisterSnapshot, ValidateSnapshot, Bars;
    StepFramed(db, e);
    Applies(db, e);
    match e.request
    case Plan(q, runId, jobId) =>
      if Plans(db, q, e.now, runId, jobId) { PlanningPasses(db, q, e.now, runId, jobId, r, s); }
    case Advance(runId, target, began) =>
      if Advances(db, runId, target, e.now) { AdvancingPasses(db, runId, target, began, e.now, r, s); }
    case Cancel(runId) => if Cancels(db, runId, e.now) { CancellingPasses(db, runId, e.now, r, s); }
    case Observe(report) => if ObserveCheck(db, report).None? { ObservingPasses(db, report, e.now, r, s); }
    case Decide(ruling, began) => if DecideCheck(db, ruling).None? { DecidingPasses(db, ruling, began, e.now, r, s); }
    case Register(id, row) => RegisteringPasses(db, id, row.(runId := None), e.now, r, s);
    case Validate(id) => ValidatingPasses(db, id, e.now, r, s);
    case _ => OthersPass(e.request, db, Apply(db, e), r, s);
  }

  // ---------------------------------------------------------------- for good

  lemma {:induction false} BarredFromThenOn(h: History, n: nat, r: Id, s: Id)
    requires n <= |h| && Waits(After(h[..n]), r, s)
    requires forall k :: n <= k < |h| ==> Bars(After(h[..n]).snapshots[s], h[k].now)
    ensures WaitsOn(After(h[..n]), After(h), r, s)
    decreases |h|
  {
    hide Apply, Bars;
    if n == |h| {
      assert h[..n] == h;
    } else {
      var before := h[..|h| - 1];
      assert before[..n] == h[..n];
      BarredFromThenOn(before, n, r, s);
      StepPasses(After(before), h[|h| - 1], r, s);
    }
  }

  /** What a run that waits for good keeps from others: its pool, its inputs and its place in every business day. */
  ghost predicate HeldForGood(db: Db, after: Db, r: Id, s: Id)
    requires Waits(db, r, s)
  {
    && WaitsOn(db, after, r, s)
    && after.runs[r].poolId in after.pools && after.pools[after.runs[r].poolId].reservedRun == Some(r)
    && forall zone, clock: ZoneClock, at ::
         r in RunsInDay(after.runs, zone, clock, at) <==> r in RunsInDay(db.runs, zone, clock, at)
  }

  lemma {:induction false} WaitingHolds(h: History, db: Db, r: Id, s: Id)
    requires Waits(db, r, s) && WaitsOn(db, After(h), r, s)
    ensures HeldForGood(db, After(h), r, s)
  {
    PoolsAreExclusive(h, r);
    hide After;
  }

  /** Once an input of an unstarted run has been validated again, no sequence of requests ever moves or frees the
      run. */
  lemma {:induction false} ValidatedInputsBar(h: History, n: nat, r: Id, s: Id)
    requires n <= |h| && Waits(After(h[..n]), r, s) && After(h[..n]).snapshots[s].state.Validated?
    ensures HeldForGood(After(h[..n]), After(h), r, s)
  {
    hide After, HeldForGood, WaitsOn;
    BarredFromThenOn(h, n, r, s);
    WaitingHolds(h, After(h[..n]), r, s);
  }

  /** And once an input has expired before the run started, none does while time goes forward. */
  lemma {:induction false} ExpiredInputsBar(h: History, n: nat, r: Id, s: Id)
    requires Chronological(h) && n < |h| && Waits(After(h[..n]), r, s)
    requires After(h[..n]).snapshots[s].expiresAt <= h[n].now
    ensures HeldForGood(After(h[..n]), After(h), r, s)
  {
    hide After, HeldForGood, WaitsOn;
    BarredFromThenOn(h, n, r, s);
    WaitingHolds(h, After(h[..n]), r, s);
  }

  /** Requests made no earlier than an instant. */
  ghost predicate From(more: History, now: Time) {
    forall k :: 0 <= k < |more| ==> more[k].now >= now
  }

  ghost predicate Leaves(h: History, more: History, r: Id) {
    r in After(h + more).runs && !Unstarted(After(h + more).runs[r].state)
  }

  lemma {:induction false} BarredNeverLeaves(h: History, more: History, r: Id, s: Id, now: Time)
    requires Waits(After(h), r, s) && Bars(After(h).snapshots[s], now) && From(more, now)
    ensures !Leaves(h, more, r)
  {
    hide After;
    var all := h + more;
    assert all[..|h|] == h;
    forall k | |h| <= k < |all| ensures Bars(After(h).snapshots[s], all[k].now) {
      assert all[k] == more[k - |h|];
    }
    BarredFromThenOn(all, |h|, r, s);
  }

  lemma {:induction false} CancellingLeaves(h: History, r: Id, now: Time)
    requires Cancels(After(h), r, now)
    ensures From([Event(now, Cancel(r))], now) && Leaves(h, [Event(now, Cancel(r))], r)
  {
    hide After, Apply, Cancels, ReleaseRows, InputsOf;
    var e := Event(now, Cancel(r));
    var all := h + [e];
    assert all[..|h|] == h;
    assert all[..|h| + 1] == all;
    OneMoreStep(all, |h|);
    Applies(After(h), e);
  }

  /**
    From an instant on, an unstarted run can ever start or be cancelled, by whatever requests, exactly
    when at that instant all its inputs are still reserved and unexpired.
   */
  lemma {:induction false} LeavesIff(h: History, r: Id, now: Time)
    requires r in After(h).runs && Unstarted(After(h).runs[r].state)
    ensures (exists more :: From(more, now) && Leaves(h, more, r)) <==>
            forall s :: s in InputsOf(After(h).inputs, r) ==> Takes(After(h).snapshots, s, now)
  {
    hide After, Cancels, Inv, Leaves, From;
    CancellableIff(h, r, now);
    if Cancels(After(h), r, now) {
      CancellingLeaves(h, r, now);
    } else {
      AlwaysInv(h);
      UnstartedInputs(After(h), r);
      var s :| s in InputsOf(After(h).inputs, r) && !Takes(After(h).snapshots, s, now);
      forall more | From(more, now) ensures !Leaves(h, more, r) {
        BarredNeverLeaves(h, more, r, s, now);
      }
    }
  }
}
