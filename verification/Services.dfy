/**
  The services as the program runs them: each request works on a copy of the tables, row by row,
  and commits the copy only when every step succeeded. A committed request is one event of the
  store's history, so whatever holds after every history holds of every store.
 */
module Services {
  import opened Base
  import opened Domain
  import opened Batches
  import opened Jobs
  import opened Tables
  import opened Lifecycle
  import opened Operations
  import opened Invariant
  import opened PlanInvariant
  import opened DriftInvariant
  import opened Histories
  import opened RowWork

  class Store {
    var db: Db
    ghost var history: History

    ghost predicate Valid()
      reads this
    {
      db == After(history)
    }

    constructor ()
      ensures Valid() && db == EMPTY && history == []
    {
      db := EMPTY;
      history := [];
    }

    /** Makes a transaction's working copy the store's state. */
    method Commit(tx: Db, ghost e: Event)
      requires Valid() && tx == Apply(db, e)
      modifies this
      ensures Valid() && db == tx && history == old(history) + [e]
    {
      hide Apply;
      assert (history + [e])[..|history|] == history;
      db := tx;
      history := history + [e];
    }
  }

  /** A valid store's tables satisfy every cross-table fact. */
  lemma {:induction false} ValidStoresKeepInv(store: Store)
    requires store.Valid()
    ensures Inv(store.db)
  {
    AlwaysInv(store.history);
  }

  lemma {:induction false} TablesAreValid(db: Db)
    requires Inv(db)
    ensures SnapshotsValid(db.snapshots) && PoolsValid(db.pools) && RunsValid(db.runs)
  {
    hide InputsKept, PoolsHeld, DriftKept, DaysWithinLimit, ApprovalsSettled, AnswersKept;
    hide SnapshotsValid, PoolsValid, RunsValid, RunsPlaced, ReferencesUnique;
  }

  lemma {:induction false} RowsAreValid(db: Db, id: Id)
    requires Inv(db)
    ensures id in db.snapshots ==> db.snapshots[id].Valid()
    ensures id in db.pools ==> db.pools[id].Valid()
  {
    hide Inv, Blank;
    TablesAreValid(db);
  }

  lemma {:induction false} NewRunInserts(db: Db, q: PlanRequest, now: Time, runId: Id)
    requires SnapshotsValid(db.snapshots) && RouteCheck(db, q).None? && CapacityCheck(db, q, now).None?
    requires RequestCheck(q).None?
    ensures Distinct(q.snapshotIds)
    ensures var run := NewRun(q, now, Volume(db.snapshots, IdSet(q.snapshotIds)));
            db.InsertRun(runId, run)
            == if Blank(Trim(q.reference)) then Failure(Validation)
               else if runId in db.runs || ReferenceTaken(db.runs, Trim(q.reference)) then Failure(Conflict)
               else Success(db.(runs := db.runs[runId := run]))
  {
    assert q.sourceZoneId != q.targetZoneId;
    hide Blank, Trim, RouteCheck, CapacityCheck, Reservable, RequestCheck;
    AcceptedInputs(db, q, now);
    if !Blank(Trim(q.reference)) {
      NewRunValid(db.snapshots, IdSet(q.snapshotIds), q, now);
    }
  }

  // ---------------------------------------------------------------- checks before planning

  predicate NamesExist(db: Db, q: PlanRequest) {
    && q.workspaceId in db.workspaces && q.poolId in db.pools
    && q.sourceZoneId in db.zones && q.targetZoneId in db.zones
  }

  /** The zone's business day around an instant already has all the runs it may have. */
  predicate DayIsFull(db: Db, zoneId: Id, start: Time) {
    zoneId in db.zones && |RunsInDay(db.runs, zoneId, db.zones[zoneId].clock, start)| >= db.zones[zoneId].dailyLimit
  }

  /** Passes exactly the requests between two active zones, on a day below its limit, that name rows that exist. */
  method CheckRoute(db: Db, q: PlanRequest) returns (c: Check)
    ensures c == RouteCheck(db, q)
    ensures c.None? <==>
            && q.workspaceId in db.workspaces && db.workspaces[q.workspaceId].status.Active?
            && q.sourceZoneId in db.zones && db.zones[q.sourceZoneId].status.ZoneActive?
            && q.targetZoneId in db.zones && db.zones[q.targetZoneId].status.ZoneActive?
            && q.sourceZoneId != q.targetZoneId && !DayIsFull(db, q.sourceZoneId, q.start)
            && q.poolId in db.pools
    ensures c == Some(NotFound) ==> !NamesExist(db, q)
    ensures c == Some(Validation) ==> q.sourceZoneId == q.targetZoneId
    ensures c == Some(Conflict) ==>
              || (q.workspaceId in db.workspaces && !db.workspaces[q.workspaceId].status.Active?)
              || (q.sourceZoneId in db.zones && !db.zones[q.sourceZoneId].status.ZoneActive?)
              || (q.targetZoneId in db.zones && !db.zones[q.targetZoneId].status.ZoneActive?)
              || DayIsFull(db, q.sourceZoneId, q.start)
    ensures c.Some? ==> c.value.NotFound? || c.value.Validation? || c.value.Conflict?
  {
    hide RunsInDay;
    if q.workspaceId !in db.workspaces {
      return Some(NotFound);
    }
    if !db.workspaces[q.workspaceId].status.Active? {
      return Some(Conflict);
    }
    if q.sourceZoneId !in db.zones || q.targetZoneId !in db.zones {
      return Some(NotFound);
    }
    var source, target := db.zones[q.sourceZoneId], db.zones[q.targetZoneId];
    if !source.status.ZoneActive? || !target.status.ZoneActive? {
      return Some(Conflict);
    }
    if q.sourceZoneId == q.targetZoneId {
      return Some(Validation);
    }
    if |RunsInDay(db.runs, q.sourceZoneId, source.clock, q.start)| >= source.dailyLimit {
      return Some(Conflict);
    }
    return if q.poolId in db.pools then None else Some(NotFound);
  }

  /** Checks the execution window against the workspace and, batch by batch, against the snapshots' expiry. */
  method ValidateWindow(db: Db, q: PlanRequest, batches: seq<Snapshot>, now: Time) returns (c: Check)
    requires q.workspaceId in db.workspaces && ReservedRows(db.snapshots, q.snapshotIds, now, batches)
    ensures c == WindowCheck(db, q, now)
    ensures c.None? <==>
            && q.start != -62135596800 && q.finish != -62135596800 && q.start < q.finish
            && q.finish - q.start <= db.workspaces[q.workspaceId].maxExecution
            && q.start >= now - 900
            && forall s :: s in q.snapshotIds ==> s in db.snapshots && q.finish < db.snapshots[s].expiresAt
    ensures c == Some(Validation) <==> q.start == -62135596800 || q.finish == -62135596800 || q.finish <= q.start
    ensures c.Some? ==> c.value.Validation? || c.value.Conflict?
  {
    if q.start == ZERO_TIME || q.finish == ZERO_TIME || q.finish <= q.start {
      return Some(Validation);
    }
    if q.finish - q.start > db.workspaces[q.workspaceId].maxExecution {
      return Some(Conflict);
    }
    if q.start < now - START_GRACE {
      return Some(Conflict);
    }
    for i := 0 to |batches|
      invariant forall k :: 0 <= k < i ==> db.snapshots[q.snapshotIds[k]].expiresAt > q.finish
    {
      if batches[i].expiresAt <= q.finish {
        assert q.snapshotIds[i] in q.snapshotIds;
        return Some(Conflict);
      }
    }
    return None;
  }

  // ---------------------------------------------------------------- inference runs

  class InferenceService {
    const store: Store

    constructor (store: Store)
      ensures this.store == store
    {
      this.store := store;
    }

    method PlanInferenceRun(q: PlanRequest, now: Time, runId: Id, jobId: Id) returns (outcome: Result<Run>)
      requires store.Valid()
      modifies store
      ensures store.Valid()
      ensures outcome == PlanOutcome(old(store.db), q, now, runId, jobId)
      ensures Plans(old(store.db), q, now, runId, jobId) ==>
                && q.poolId in old(store.db).pools && store.db == PlanPost(old(store.db), q, now, runId, jobId)
                && store.history == old(store.history) + [Event(now, Plan(q, runId, jobId))]
      ensures !Plans(old(store.db), q, now, runId, jobId) ==> unchanged(store)
    {
      hide After, Apply, PlanPost, RouteCheck, WindowCheck, InputCheck, RunsInDay, Blank, Trim, ValidKey, ReserveRows;
      hide BindInputs, Volume;
      if q.snapshotIds == [] || !ValidKey(q.key) {
        return Failure(Validation);
      }
      var tx := store.db;
      if q.key in tx.answers {
        var existing := tx.answers[q.key];
        if existing.expiresAt > now {
          if existing.request != q {
            return Failure(Conflict);
          }
          return Success(existing.run);
        }
      }
      var refused := CheckRoute(tx, q);
      if refused.Some? {
        return Failure(refused.value);
      }
      ValidStoresKeepInv(store);
      TablesAreValid(tx);
      outcome, tx := WritePlan(tx, q, now, runId, jobId);
      if outcome.Success? {
        Applies(store.db, Event(now, Plan(q, runId, jobId)));
        store.Commit(tx, Event(now, Plan(q, runId, jobId)));
      }
    }

    /** The transaction of a request that is new: checks the pool, the snapshots and the window, then writes. */
    method WritePlan(db: Db, q: PlanRequest, now: Time, runId: Id, jobId: Id) returns (outcome: Result<Run>, tx: Db)
      requires SnapshotsValid(db.snapshots) && PoolsValid(db.pools)
      requires RouteCheck(db, q).None? && RequestCheck(q).None? && !HasLiveAnswer(db, q.key, now)
      ensures match PlanCheck(db, q, now, runId, jobId)
              case Some(e) => outcome == Failure(e)
              case None => outcome == Success(NewRun(q, now, Volume(db.snapshots, IdSet(q.snapshotIds))))
                           && q.poolId in db.pools && tx == PlanPost(db, q, now, runId, jobId)
    {
      tx := db;
      var pool := db.pools[q.poolId];
      var refused := pool.EligibleFor(q.start, 1);
      if refused.Some? {
        return Failure(refused.value), db;
      }
      var gathered, volume := GatherInputs(db, q, now);
      if gathered.Failure? {
        return Failure(gathered.error), db;
      }
      var batches := gathered.value;
      refused := ValidateWindow(db, q, batches, now);
      if refused.Some? {
        return Failure(refused.value), db;
      }
      refused := pool.EligibleFor(q.start, volume);
      if refused.Some? {
        return Failure(refused.value), db;
      }
      outcome, tx := InsertPlan(db, q, batches, volume, now, runId, jobId);
    }

    method InsertPlan(db: Db, q: PlanRequest, batches: seq<Snapshot>, volume: int, now: Time, runId: Id, jobId: Id)
      returns (outcome: Result<Run>, tx: Db)
      requires SnapshotsValid(db.snapshots) && PoolsValid(db.pools)
      requires RouteCheck(db, q).None? && RequestCheck(q).None? && !HasLiveAnswer(db, q.key, now)
      requires CapacityCheck(db, q, now).None?
      requires ReservedRows(db.snapshots, q.snapshotIds, now, batches)
      requires volume == Volume(db.snapshots, IdSet(q.snapshotIds))
      ensures match WriteCheck(db, q, runId, jobId)
              case Some(e) => outcome == Failure(e)
              case None => outcome == Success(NewRun(q, now, Volume(db.snapshots, IdSet(q.snapshotIds))))
                           && q.poolId in db.pools && tx == PlanPost(db, q, now, runId, jobId)
    {
      assert db.pools[q.poolId].Valid();
      hide SnapshotsValid, PoolsValid, Blank, Trim, Volume, RouteCheck, CapacityCheck, RequestCheck, ReserveRows;
      hide BindInputs, IdSet, NewRun, HoldPool;
      hide HasLiveAnswer, ReservedRows, InputTaken, ReferenceTaken;
      var run := NewRun(q, now, volume);
      var written := WriteRows(db, q, run, batches, now, runId);
      if written.Failure? {
        return Failure(written.error), db;
      }
      PlanAssembles(db, q, now, runId, jobId);
      hide PlanPost;
      outcome, tx := HoldAndAnswer(written.value, q, run, now, runId, jobId);
    }

    lemma {:induction false} PlanAssembles(db: Db, q: PlanRequest, now: Time, runId: Id, jobId: Id)
      requires q.poolId in db.pools
      ensures var ids := IdSet(q.snapshotIds); var run := NewRun(q, now, Volume(db.snapshots, ids));
              var written := db.(snapshots := ReserveRows(db.snapshots, ids, runId, now),
                                 inputs := BindInputs(db.inputs, ids, runId, now),
                                 runs := db.runs[runId := run]);
              written.(pools := written.pools[q.poolId := HoldPool(written.pools[q.poolId], runId, now)],
                       answers := written.answers[q.key := Domain.Answer(q, runId, run, now + ANSWER_TTL, now)],
                       jobs := written.jobs[jobId := PlannedJob(runId, now)])
              == PlanPost(db, q, now, runId, jobId)
    {
      hide IdSet, NewRun, Volume, ReserveRows, BindInputs, HoldPool, PlannedJob;
    }

    /** The run, the snapshots and the run-input table. */
    method WriteRows(db: Db, q: PlanRequest, run: Run, batches: seq<Snapshot>, now: Time, runId: Id)
      returns (r: Result<Db>)
      requires SnapshotsValid(db.snapshots) && RouteCheck(db, q).None? && CapacityCheck(db, q, now).None?
      requires RequestCheck(q).None?
      requires ReservedRows(db.snapshots, q.snapshotIds, now, batches)
      requires run == NewRun(q, now, Volume(db.snapshots, IdSet(q.snapshotIds)))
      ensures r == if Blank(Trim(q.reference)) then Failure(Validation)
                   else if runId in db.runs || ReferenceTaken(db.runs, Trim(q.reference)) then Failure(Conflict)
                   else if InputTaken(db.inputs, q.snapshotIds) then Failure(Conflict)
                   else Success(db.(snapshots := ReserveRows(db.snapshots, IdSet(q.snapshotIds), runId, now),
                                    inputs := BindInputs(db.inputs, IdSet(q.snapshotIds), runId, now),
                                    runs := db.runs[runId := run]))
    {
      NewRunInserts(db, q, now, runId);
      hide SnapshotsValid, Blank, Trim, Volume, RouteCheck, CapacityCheck, RequestCheck, ReserveRows, BindInputs;
      hide IdSet, NewRun, HasLiveAnswer;
      hide InputTaken, ReferenceTaken, Distinct, ReservedRows, Db.InsertRun;
      var tx := db.InsertRun(runId, run);
      if tx.Failure? {
        return tx;
      }
      r := BindBatches(tx.value, q.snapshotIds, batches, runId, now);
    }

    /** The pool, the stored answer and the job. */
    method HoldAndAnswer(db: Db, q: PlanRequest, run: Run, now: Time, runId: Id, jobId: Id)
      returns (outcome: Result<Run>, tx: Db)
      requires q.poolId in db.pools && db.pools[q.poolId].Valid() && !HasLiveAnswer(db, q.key, now)
      ensures if jobId in db.jobs then outcome == Failure(Conflict) else
              outcome == Success(run)
              && tx == db.(pools := db.pools[q.poolId := HoldPool(db.pools[q.poolId], runId, now)],
                           answers := db.answers[q.key := Domain.Answer(q, runId, run, now + ANSWER_TTL, now)],
                           jobs := db.jobs[jobId := PlannedJob(runId, now)])
    {
      var pool := db.pools[q.poolId].(state := PoolReserved, reservedRun := Some(runId), updatedAt := now);
      tx := db.UpdatePool(q.poolId, pool, pool.version).Extract();
      tx := tx.PutAnswer(Domain.Answer(q, runId, run, now + ANSWER_TTL, now)).Extract();
      var inserted := tx.InsertJob(jobId, PlannedJob(runId, now));
      if inserted.Failure? {
        return Failure(inserted.error), db;
      }
      return Success(run), inserted.value;
    }

    /** Stages, starts, completes or archives a run; the clock is read once for the run and once for the rest. */
    method TransitionAny(runId: Id, target: RunState, began: Time, now: Time) returns (outcome: Result<Run>)
      requires store.Valid() && !target.Cancelled?
      modifies store
      ensures store.Valid()
      ensures outcome.Success? <==> Advances(old(store.db), runId, target, now)
      ensures outcome.Success? ==>
                && runId in old(store.db).runs && old(store.db).runs[runId].poolId in old(store.db).pools
                && outcome.value ==
                  old(store.db).runs[runId].Stamped(target, began).(state := target, updatedAt := began)
                && store.db == AdvancePost(old(store.db), runId, target, began, now)
                && store.history == old(store.history) + [Event(now, Advance(runId, target, began))]
      ensures outcome.Failure? ==> unchanged(store) && MayRefuse(old(store.db), runId, target, now, outcome.error)
    {
      hide After, Apply, AdvancePost, Advances, MayRefuse, InputsOf, SnapshotsValid;
      ValidStoresKeepInv(store);
      ReferencesResolve(store.db, runId);
      var tx;
      outcome, tx := WriteMove(store.db, runId, target, began, now);
      if outcome.Success? {
        Applies(store.db, Event(now, Advance(runId, target, began)));
        store.Commit(tx, Event(now, Advance(runId, target, began)));
      }
    }

    method WriteMove(db: Db, runId: Id, target: RunState, began: Time, now: Time) returns (outcome: Result<Run>, tx: Db)
      requires !target.Cancelled? && SnapshotsValid(db.snapshots) && InputsOf(db.inputs, runId) <= db.snapshots.Keys
      requires runId in db.runs ==>
                db.runs[runId].Valid() && db.runs[runId].poolId in db.pools && db.pools[db.runs[runId].poolId].Valid()
      ensures outcome.Success? <==> Advances(db, runId, target, now)
      ensures outcome.Success? ==>
                && runId in db.runs && db.runs[runId].poolId in db.pools
                && outcome.value == db.runs[runId].Stamped(target, began).(state := target, updatedAt := began)
                && tx == AdvancePost(db, runId, target, began, now)
      ensures outcome.Failure? ==> MayRefuse(db, runId, target, now, outcome.error)
    {
      hide AdvancePost, AdvanceRows, AdvancePool, InputObjection, InputsOf, Advances, MayRefuse, SnapshotsValid, Blank;
      RefusedMove(db, runId, target, now);
      AcceptedMove(db, runId, target, now);
      tx := db;
      if runId !in tx.runs {
        return Failure(NotFound), db;
      }
      var stored := tx.runs[runId];
      var moved := stored.Transition(target, began);
      if moved.Failure? {
        return Failure(moved.error), db;
      }
      var items := ListInputs(tx, runId);
      var advanced := AdvanceInputs(tx, items, target, now);
      if advanced.Failure? {
        return Failure(advanced.error), db;
      }
      // The pool exists: runs refer to it by a foreign key.
      var pool := MovePool(db.pools[stored.poolId], target, now);
      tx := advanced.value.UpdatePool(stored.poolId, pool, pool.version).Extract();
      tx := tx.UpdateRun(runId, moved.value, stored.version).Extract();
      MoveAssembles(db, runId, target, began, now);
      return Success(moved.value), tx;
    }

    method CancelInferenceRun(runId: Id, now: Time) returns (outcome: Result<Run>)
      requires store.Valid()
      modifies store
      ensures store.Valid()
      ensures outcome.Success? <==> Cancels(old(store.db), runId, now)
      ensures outcome.Success? ==>
                && runId in old(store.db).runs && old(store.db).runs[runId].poolId in old(store.db).pools
                && outcome.value == old(store.db).runs[runId].(state := RunState.Cancelled, updatedAt := now)
                && store.db == CancelPost(old(store.db), runId, now)
                && store.history == old(store.history) + [Event(now, Cancel(runId))]
      ensures outcome.Failure? ==> unchanged(store) && MayRefuseCancel(old(store.db), runId, now, outcome.error)
    {
      hide After, Apply, CancelPost, Cancels, MayRefuseCancel, InputsOf, SnapshotsValid;
      ValidStoresKeepInv(store);
      ReferencesResolve(store.db, runId);
      var tx;
      outcome, tx := WriteCancel(store.db, runId, now);
      if outcome.Success? {
        Applies(store.db, Event(now, Cancel(runId)));
        store.Commit(tx, Event(now, Cancel(runId)));
      }
    }

    method WriteCancel(db: Db, runId: Id, now: Time) returns (outcome: Result<Run>, tx: Db)
      requires SnapshotsValid(db.snapshots) && InputsOf(db.inputs, runId) <= db.snapshots.Keys
      requires runId in db.runs ==>
                db.runs[runId].Valid() && db.runs[runId].poolId in db.pools && db.pools[db.runs[runId].poolId].Valid()
      ensures outcome.Success? <==> Cancels(db, runId, now)
      ensures outcome.Success? ==>
                && runId in db.runs && db.runs[runId].poolId in db.pools
                && outcome.value == db.runs[runId].(state := RunState.Cancelled, updatedAt := now)
                && tx == CancelPost(db, runId, now)
      ensures outcome.Failure? ==> MayRefuseCancel(db, runId, now, outcome.error)
    {
      hide CancelPost, ReleaseRows, InputsOf, Cancels, MayRefuseCancel, SnapshotsValid, Blank;
      RefusedCancel(db, runId, now);
      AcceptedCancel(db, runId, now);
      tx := db;
      if runId !in tx.runs {
        return Failure(NotFound), db;
      }
      var stored := tx.runs[runId];
      if !stored.state.Queued? && !stored.state.Staged? {
        return Failure(InvalidTransition), db;
      }
      var items := ListInputs(tx, runId);
      var moved := stored.Transition(RunState.Cancelled, now).Extract();
      var released := ReleaseInputs(tx, items, now);
      if released.Failure? {
        return Failure(released.error), db;
      }
      tx := released.value.DeleteInputs(runId);
      var pool := db.pools[stored.poolId].(state := Available, reservedRun := None, updatedAt := now);
      tx := tx.UpdatePool(stored.poolId, pool, pool.version).Extract();
      tx := tx.UpdateRun(runId, moved, stored.version).Extract();
      CancelAssembles(db, runId, now);
      return Success(moved), tx;
    }

    method MovePool(stored: Pool, target: RunState, now: Time) returns (pool: Pool)
      ensures pool.(version := stored.version + 1) == AdvancePool(stored, target, now)
      ensures pool.version == stored.version && (stored.Valid() ==> pool.Valid())
    {
      pool := stored;
      match target {
        case Running =>
          pool := pool.(state := Allocated);
        case Archived =>
          pool := pool.(state := Available, reservedRun := None);
        case _ =>
      }
      pool := pool.(updatedAt := now);
    }
  }

  /** The reasons a move may be refused for. */
  ghost predicate MayRefuse(db: Db, runId: Id, target: RunState, now: Time, error: Err) {
    if runId !in db.runs then error == NotFound
    else if !db.runs[runId].state.MayMove(target) then error == InvalidTransition
    else exists s :: && s in InputsOf(db.inputs, runId) && s in db.snapshots
                     && InputObjection(db.snapshots[s], target, now) == Some(error)
  }

  lemma {:induction false} ReferencesResolve(db: Db, runId: Id)
    requires Inv(db)
    ensures SnapshotsValid(db.snapshots) && PoolsValid(db.pools) && RunsValid(db.runs)
    ensures runId in db.runs ==>
              db.runs[runId].Valid() && db.runs[runId].poolId in db.pools && db.pools[db.runs[runId].poolId].Valid()
    ensures InputsOf(db.inputs, runId) <= db.snapshots.Keys
  {
    hide DriftKept, DaysWithinLimit, ApprovalsSettled, AnswersKept, StatesFit, InputsInStep, TotalsAddUp, PoolsHeld;
    hide Blank, SnapshotsValid, ReferencesUnique;
  }

  /** The inputs decide, once the run and its state allow the move. */
  lemma {:induction false} AcceptedMove(db: Db, runId: Id, target: RunState, now: Time)
    requires InputsOf(db.inputs, runId) <= db.snapshots.Keys && !target.Cancelled?
    ensures Advances(db, runId, target, now) <==>
            && runId in db.runs && db.runs[runId].state.MayMove(target) && db.runs[runId].poolId in db.pools
            && forall s :: s in InputsOf(db.inputs, runId) ==> InputObjection(db.snapshots[s], target, now).None?
  {
    hide InputObjection;
  }

  lemma {:induction false} RefusedMove(db: Db, runId: Id, target: RunState, now: Time)
    requires InputsOf(db.inputs, runId) <= db.snapshots.Keys
    ensures runId !in db.runs ==> MayRefuse(db, runId, target, now, NotFound)
    ensures runId in db.runs && !db.runs[runId].state.MayMove(target) ==>
              MayRefuse(db, runId, target, now, InvalidTransition)
    ensures runId in db.runs && db.runs[runId].state.MayMove(target) ==>
              forall s :: s in InputsOf(db.inputs, runId) ==>
                            var c := InputObjection(db.snapshots[s], target, now); c.Some? ==>
                              MayRefuse(db, runId, target, now, c.value)
  {
    hide InputObjection;
  }

  lemma {:induction false} MoveAssembles(db: Db, runId: Id, target: RunState, began: Time, now: Time)
    requires runId in db.runs && db.runs[runId].poolId in db.pools
    ensures var run := db.runs[runId];
            var moved := run.Stamped(target, began).(state := target, updatedAt := began, version := run.version + 1);
            db.(snapshots := AdvanceRows(db.snapshots, InputsOf(db.inputs, runId), target, now),
                runs := db.runs[runId := moved],
                pools := db.pools[run.poolId := AdvancePool(db.pools[run.poolId], target, now)])
            == AdvancePost(db, runId, target, began, now)
  {
    hide AdvanceRows, InputsOf, AdvancePool;
  }

  ghost predicate MayRefuseCancel(db: Db, runId: Id, now: Time, error: Err) {
    if runId !in db.runs then error == NotFound
    else if !db.runs[runId].state.MayMove(RunState.Cancelled) then error == InvalidTransition
    else exists s :: && s in InputsOf(db.inputs, runId) && s in db.snapshots
                     && Objection(db.snapshots[s].Transition(Validated, now)) == Some(error)
  }

  lemma {:induction false} AcceptedCancel(db: Db, runId: Id, now: Time)
    requires InputsOf(db.inputs, runId) <= db.snapshots.Keys
    ensures Cancels(db, runId, now) <==>
            && runId in db.runs && db.runs[runId].state.MayMove(RunState.Cancelled) && db.runs[runId].poolId in db.pools
            && forall s :: s in InputsOf(db.inputs, runId) ==> db.snapshots[s].Transition(Validated, now).Success?
  {
  }

  lemma {:induction false} RefusedCancel(db: Db, runId: Id, now: Time)
    requires InputsOf(db.inputs, runId) <= db.snapshots.Keys
    ensures runId !in db.runs ==> MayRefuseCancel(db, runId, now, NotFound)
    ensures runId in db.runs && !db.runs[runId].state.MayMove(RunState.Cancelled) ==>
              MayRefuseCancel(db, runId, now, InvalidTransition)
    ensures runId in db.runs && db.runs[runId].state.MayMove(RunState.Cancelled) ==>
              forall s :: s in InputsOf(db.inputs, runId) ==>
                            var c := Objection(db.snapshots[s].Transition(Validated, now)); c.Some? ==>
                              MayRefuseCancel(db, runId, now, c.value)
  {
  }

  lemma {:induction false} CancelAssembles(db: Db, runId: Id, now: Time)
    requires runId in db.runs && db.runs[runId].poolId in db.pools
    ensures var run := db.runs[runId]; var pool := db.pools[run.poolId];
            db.(snapshots := ReleaseRows(db.snapshots, InputsOf(db.inputs, runId), now),
                inputs := db.DeleteInputs(runId).inputs,
                runs := db.runs[runId :=
                  run.(state := RunState.Cancelled, updatedAt := now, version := run.version + 1)],
                pools := db.pools[run.poolId :=
                  pool.(state := Available, reservedRun := None, updatedAt := now, version := pool.version + 1)])
            == CancelPost(db, runId, now)
  {
    hide ReleaseRows, InputsOf;
  }

  // ---------------------------------------------------------------- drift

  class MetricsService {
    const store: Store

    constructor (store: Store)
      ensures this.store == store
    {
      this.store := store;
    }

    /** Returns the observation and, when it is out of range, the incident as it was handed to the store. */
    method RecordObservation(r: Report, now: Time) returns (outcome: Result<Observation>, incident: Option<Raised>)
      requires store.Valid()
      modifies store
      ensures store.Valid()
      ensures match ObserveCheck(old(store.db), r)
              case Some(e) => outcome == Failure(e) && incident.None? && unchanged(store)
              case None =>
                && outcome == Success(r.observation)
                && r.observation.runId in old(store.db).runs
                && old(store.db).runs[r.observation.runId].workspaceId in old(store.db).workspaces
                && store.db == ObservePost(old(store.db), r, now)
                && incident == RaisedBy(old(store.db), r, now)
                && store.history == old(store.history) + [Event(now, Observe(r))]
      ensures outcome.Success? ==>
                && r.observation.runId in old(store.db).runs
                && old(store.db).runs[r.observation.runId].workspaceId in old(store.db).workspaces
                && var range := old(store.db).workspaces[old(store.db).runs[r.observation.runId].workspaceId].score;
                (incident.None? <==> range.minimum <= r.observation.score <= range.maximum)
    {
      hide After, Apply, ObserveCheck, ObservePost, SnapshotsValid, InputsOf, RaisedBy;
      RaisedIff(store.db, r, now);
      ValidStoresKeepInv(store);
      ReferencesResolve(store.db, r.observation.runId);
      OneActiveEach(store.db);
      var tx;
      outcome, incident, tx := WriteObservation(store.db, r, now);
      if outcome.Success? {
        Applies(store.db, Event(now, Observe(r)));
        store.Commit(tx, Event(now, Observe(r)));
      }
    }

    method WriteObservation(db: Db, r: Report, now: Time)
      returns (outcome: Result<Observation>, incident: Option<Raised>, tx: Db)
      requires OneActive(db.incidents, db.runs) && SnapshotsValid(db.snapshots)
      requires InputsOf(db.inputs, r.observation.runId) <= db.snapshots.Keys
      ensures match ObserveCheck(db, r)
              case Some(e) => outcome == Failure(e) && incident.None?
              case None =>
                && outcome == Success(r.observation)
                && r.observation.runId in db.runs && db.runs[r.observation.runId].workspaceId in db.workspaces
                && tx == ObservePost(db, r, now) && incident == RaisedBy(db, r, now)
    {
      hide OneActive, SnapshotsValid, InputsOf, AdmitCheck, DriftCheck, ObservePost, Drifted, AsHanded;
      tx := db;
      var refused := Admit(db, r);
      if refused.Some? {
        return Failure(refused.value), None, db;
      }
      AdmittedInserts(db, r, now);
      tx := tx.InsertObservation(r.observationId, r.observation).Extract();
      var workspace := tx.workspaces[tx.runs[r.observation.runId].workspaceId];
      if workspace.score.Contains(r.observation.score) {
        return Success(r.observation), None, tx;
      }
      var drifted, raised := WriteDrift(tx, r, workspace.reviewDeadline, now);
      if drifted.Failure? {
        return Failure(drifted.error), None, db;
      }
      SameHandling(db, tx, r, now);
      return Success(r.observation), Some(raised), drifted.value;
    }

    method Admit(db: Db, r: Report) returns (c: Check)
      ensures c == AdmitCheck(db, r)
    {
      var o := r.observation;
      if !o.Valid() {
        return Some(Validation);
      }
      if o.runId !in db.runs {
        return Some(NotFound);
      }
      var run := db.runs[o.runId];
      if run.workspaceId !in db.workspaces {
        return Some(NotFound);
      }
      if !run.state.Running? && !run.state.Completed? {
        return Some(Conflict);
      }
      return if db.InsertObservation(r.observationId, o).Failure? then Some(Conflict) else None;
    }

    /** What an out-of-range observation entails: the incident, the quarantine and the review job. */
    method WriteDrift(db: Db, r: Report, reviewDeadline: int, now: Time) returns (drifted: Result<Db>, raised: Raised)
      requires OneActive(db.incidents, db.runs) && SnapshotsValid(db.snapshots)
      requires InputsOf(db.inputs, r.observation.runId) <= db.snapshots.Keys
      requires r.observation.runId in db.runs && db.runs[r.observation.runId].workspaceId in db.workspaces
      requires reviewDeadline == db.workspaces[db.runs[r.observation.runId].workspaceId].reviewDeadline
      ensures match DriftCheck(db, r)
              case Some(e) => drifted == Failure(e)
              case None =>
                drifted == Success(Drifted(db, r, now)) && raised == Raised(Absorber(db, r), AsHanded(db, r, now))
    {
      hide OneActive, SnapshotsValid, InputsOf, QuarantineRows, ActiveIncident, AbsorbedInto, Absorber, AsHanded;
      hide ReviewJob, Distinct, IdSet;
      var absorbed;
      absorbed, raised := AbsorbObservation(db, r, reviewDeadline, now);
      if absorbed.Failure? {
        return absorbed, raised;
      }
      var i := raised.id;
      assert absorbed.value.snapshots == db.snapshots && absorbed.value.inputs == db.inputs;
      var items := ListInputs(absorbed.value, r.observation.runId);
      var tx := QuarantineInputs(absorbed.value, items, i, now);
      drifted := tx.InsertJob(r.jobId, ReviewJob(i, now));
    }

    /** Adds the observation to the run's active incident, or opens one. */
    method AbsorbObservation(db: Db, r: Report, reviewDeadline: int, now: Time)
      returns (absorbed: Result<Db>, raised: Raised)
      requires OneActive(db.incidents, db.runs)
      requires r.observation.runId in db.runs && db.runs[r.observation.runId].workspaceId in db.workspaces
      requires reviewDeadline == db.workspaces[db.runs[r.observation.runId].workspaceId].reviewDeadline
      ensures if ActiveIncident(db.incidents, r.observation.runId).None? && r.incidentId in db.incidents then
                absorbed == Failure(Conflict)
              else
                && raised == Raised(Absorber(db, r), AsHanded(db, r, now))
                && absorbed == Success(db.(incidents := db.incidents[raised.id := AbsorbedInto(db, r, now)]))
    {
      var active := FindActive(db, r.observation.runId);
      match active {
        case None =>
          var blank := Incident(r.observation.runId, Open, 0, 0, 0, 0, 0, now + reviewDeadline, now, 1);
          raised := Raised(r.incidentId, blank.Include(r.observation, now));
          absorbed := db.InsertIncident(raised.id, raised.row);
        case Some(found) =>
          var before := db.incidents[found].version;
          raised := Raised(found, db.incidents[found].Include(r.observation, now));
          absorbed := db.UpdateIncident(raised.id, raised.row, before);
      }
    }

    method FindActive(db: Db, runId: Id) returns (found: Option<Id>)
      requires OneActive(db.incidents, db.runs)
      ensures found == ActiveIncident(db.incidents, runId)
    {
      var active := set i | i in db.incidents && ActiveFor(db.incidents, i, runId);
      if active == {} {
        assert forall i :: i in db.incidents ==> (ActiveFor(db.incidents, i, runId) ==> i in active);
        return None;
      }
      var i :| i in active;
      return Some(i);
    }
  }

  ghost function Drifted(db: Db, r: Report, now: Time): Db
    requires r.observation.runId in db.runs && db.runs[r.observation.runId].workspaceId in db.workspaces
  {
    var i := Absorber(db, r);
    db.(incidents := db.incidents[i := AbsorbedInto(db, r, now)],
        snapshots := QuarantineRows(db.snapshots, InputsOf(db.inputs, r.observation.runId), i, now),
        jobs := db.jobs[r.jobId := ReviewJob(i, now)])
  }

  /** An incident with its identifier. */
  datatype Raised = Raised(id: Id, row: Incident)

  /** The incident before the store counts up the version of one that it updates. */
  ghost function AsHanded(db: Db, r: Report, now: Time): Incident
    requires r.observation.runId in db.runs && db.runs[r.observation.runId].workspaceId in db.workspaces
  {
    var row := AbsorbedInto(db, r, now);
    if ActiveIncident(db.incidents, r.observation.runId).Some? then row.(version := row.version - 1) else row
  }

  ghost function RaisedBy(db: Db, r: Report, now: Time): Option<Raised>
    requires r.observation.runId in db.runs && db.runs[r.observation.runId].workspaceId in db.workspaces
  {
    if InRange(db, r.observation) then None else Some(Raised(Absorber(db, r), AsHanded(db, r, now)))
  }

  lemma {:induction false} RaisedIff(db: Db, r: Report, now: Time)
    ensures r.observation.runId in db.runs && db.runs[r.observation.runId].workspaceId in db.workspaces ==>
              var range := db.workspaces[db.runs[r.observation.runId].workspaceId].score;
              (RaisedBy(db, r, now).None? <==> range.minimum <= r.observation.score <= range.maximum)
  {
    hide AsHanded, Absorber;
  }

  lemma {:induction false} SameHandling(db: Db, tx: Db, r: Report, now: Time)
    requires r.observation.runId in db.runs && db.runs[r.observation.runId].workspaceId in db.workspaces
    requires tx == db.(observations := tx.observations)
    ensures Absorber(tx, r) == Absorber(db, r) && AsHanded(tx, r, now) == AsHanded(db, r, now)
  {
  }

  lemma {:induction false} AdmittedInserts(db: Db, r: Report, now: Time)
    requires AdmitCheck(db, r).None?
    ensures var o := r.observation;
            && o.runId in db.runs && db.runs[o.runId].workspaceId in db.workspaces
            && var stored := db.(observations := db.observations[r.observationId := o]);
               && db.InsertObservation(r.observationId, o) == Success(stored)
               && (InRange(db, o) <==> db.workspaces[db.runs[o.runId].workspaceId].score.Contains(o.score))
               && ObservePost(db, r, now) == (if InRange(db, o) then stored else Drifted(stored, r, now))
               && DriftCheck(stored, r) == DriftCheck(db, r)
  {
    hide QuarantineRows, InputsOf, ReviewJob, ActiveIncident, Blank;
  }

  lemma {:induction false} OneActiveEach(db: Db)
    requires Inv(db)
    ensures OneActive(db.incidents, db.runs)
  {
    hide RowsKept, InputsKept, PoolsHeld, DaysWithinLimit, ApprovalsSettled, AnswersKept, OneActive, DriftContained;
  }

  // ---------------------------------------------------------------- review

  class ReviewService {
    const store: Store

    constructor (store: Store)
      ensures this.store == store
    {
      this.store := store;
    }

    method StartReview(id: Id, now: Time) returns (outcome: Result<Incident>)
      requires store.Valid()
      modifies store
      ensures store.Valid()
      ensures if id !in old(store.db).incidents then outcome == Failure(NotFound) && unchanged(store)
              else if !old(store.db).incidents[id].status.Open?
                then outcome == Failure(InvalidTransition) && unchanged(store)
              else outcome == Success(old(store.db).incidents[id].(status := Reviewing, updatedAt := now))
                   && store.db == old(store.db).(incidents :=
                        old(store.db).incidents[id := outcome.value.(version := outcome.value.version + 1)])
                   && store.history == old(store.history) + [Event(now, Review(id))]
    {
      hide After, Apply;
      var tx := store.db;
      var incident :- Get(tx.incidents, id);
      var before := incident.version;
      incident :- incident.StartReview(now);
      tx := tx.UpdateIncident(id, incident, before).Extract();
      Applies(store.db, Event(now, Review(id)));
      store.Commit(tx, Event(now, Review(id)));
      return Success(incident);
    }

    method Decide(r: Ruling, began: Time, now: Time) returns (outcome: Result<Incident>)
      requires store.Valid()
      modifies store
      ensures store.Valid()
      ensures match DecideCheck(old(store.db), r)
              case Some(e) => outcome == Failure(e) && unchanged(store)
              case None =>
                && r.incidentId in old(store.db).incidents
                && outcome == Success(old(store.db).incidents[r.incidentId].(status := r.decision, updatedAt := began))
                && store.db == DecidePost(old(store.db), r, began, now)
                && store.history == old(store.history) + [Event(now, Request.Decide(r, began))]
    {
      hide After, Apply, DecidePost, DecideCheck, SnapshotsValid, InputsOf;
      ValidStoresKeepInv(store);
      IncidentsHaveRuns(store.db);
      if r.incidentId in store.db.incidents {
        ReferencesResolve(store.db, store.db.incidents[r.incidentId].runId);
      }
      var tx;
      outcome, tx := WriteDecision(store.db, r, began, now);
      if outcome.Success? {
        Applies(store.db, Event(now, Request.Decide(r, began)));
        store.Commit(tx, Event(now, Request.Decide(r, began)));
      }
    }

    method WriteDecision(db: Db, r: Ruling, began: Time, now: Time) returns (outcome: Result<Incident>, tx: Db)
      requires forall i :: i in db.incidents ==> db.incidents[i].runId in db.runs
      requires r.incidentId in db.incidents ==>
                 && SnapshotsValid(db.snapshots)
                 && InputsOf(db.inputs, db.incidents[r.incidentId].runId) <= db.snapshots.Keys
      ensures match DecideCheck(db, r)
              case Some(e) => outcome == Failure(e)
              case None =>
                && r.incidentId in db.incidents
                && outcome == Success(db.incidents[r.incidentId].(status := r.decision, updatedAt := began))
                && tx == DecidePost(db, r, began, now)
    {
      hide SnapshotsValid, InputsOf, RuleRows, Blank, Trim;
      tx := db;
      if Blank(r.rationale) {
        return Failure(Validation), db;
      }
      if r.incidentId !in tx.incidents {
        return Failure(NotFound), db;
      }
      var stored := tx.incidents[r.incidentId];
      var decided := stored.Decide(r.decision, began);
      if decided.Failure? {
        return Failure(decided.error), db;
      }
      tx := tx.UpdateIncident(r.incidentId, decided.value, stored.version).Extract();
      assert tx.snapshots == db.snapshots && tx.inputs == db.inputs;
      var items := ListInputs(tx, stored.runId);
      tx := RuleInputs(tx, items, r, now);
      var recorded := tx.InsertDecision(r.decisionId,
                                        Decision(r.incidentId, r.reviewer, r.decision, Trim(r.rationale), now));
      if recorded.Failure? {
        return Failure(recorded.error), db;
      }
      return Success(decided.value), recorded.value;
    }
  }

  lemma {:induction false} IncidentsHaveRuns(db: Db)
    requires Inv(db)
    ensures forall i :: i in db.incidents ==> db.incidents[i].runId in db.runs
  {
    hide RowsKept, InputsKept, PoolsHeld, DaysWithinLimit, ApprovalsSettled, AnswersKept, DriftContained;
  }

  // ---------------------------------------------------------------- catalogue, pools and approvals

  class CatalogService {
    const store: Store

    constructor (store: Store)
      ensures this.store == store
    {
      this.store := store;
    }

    /** Registered snapshots become validated; and so do reserved ones, which the design does not say. */
    method ValidateSnapshot(id: Id, now: Time) returns (outcome: Result<Snapshot>)
      requires store.Valid()
      modifies store
      ensures store.Valid()
      ensures outcome.Success? <==>
              && id in old(store.db).snapshots && old(store.db).snapshots[id].expiresAt > now
              && (old(store.db).snapshots[id].state.Registered? || old(store.db).snapshots[id].state.Reserved?)
      ensures outcome.Failure? ==> unchanged(store)
      ensures outcome.Success? ==>
                && outcome.value == old(store.db).snapshots[id].(state := Validated, updatedAt := now)
                && store.db == old(store.db).(snapshots :=
                     old(store.db).snapshots[id := outcome.value.(version := outcome.value.version + 1)])
                && store.history == old(store.history) + [Event(now, Validate(id))]
    {
      hide After, Apply, Blank, Inv;
      ValidStoresKeepInv(store);
      RowsAreValid(store.db, id);
      var tx := store.db;
      var batch :- Get(tx.snapshots, id);
      batch :- batch.Transition(Validated, now);
      tx := tx.UpdateSnapshot(id, batch, batch.version).Extract();
      Applies(store.db, Event(now, Validate(id)));
      store.Commit(tx, Event(now, Validate(id)));
      return Success(batch);
    }
  }

  class ComputePoolService {
    const store: Store

    constructor (store: Store)
      ensures this.store == store
    {
      this.store := store;
    }

    /** Reconciling and retiring: the pool changes as its own state machine allows, and nothing else does. */
    method Change(id: Id, change: PoolChange, now: Time) returns (outcome: Result<Pool>)
      requires store.Valid()
      modifies store
      ensures store.Valid()
      ensures outcome.Success? <==>
              && id in old(store.db).pools
              && match change
                 case BeginReconciling => old(store.db).pools[id].state.Available?
                 case EndReconciling => old(store.db).pools[id].state.Reconciling? && now != ZERO_TIME
                 case RetirePool(reason) =>
                   !Blank(reason) && (old(store.db).pools[id].state.Available? ||
                                      old(store.db).pools[id].state.Reconciling?)
      ensures outcome.Success? ==>
                && id in old(store.db).pools && id in store.db.pools
                && outcome.value == store.db.pools[id].(version := old(store.db).pools[id].version)
                && store.db == old(store.db).(pools := old(store.db).pools[id := store.db.pools[id]])
                && (var was, stored := old(store.db).pools[id], store.db.pools[id];
                    match change
                    case BeginReconciling =>
                      stored == was.(state := Reconciling, updatedAt := now, version := was.version + 1)
                    case EndReconciling =>
                      stored == was.(state := Available, lastReconciled := now, updatedAt := now,
                                     version := was.version + 1)
                    case RetirePool(_) =>
                      stored == was.(state := Retired, reservedRun := None, updatedAt := now,
                                     version := was.version + 1))
                && store.history == old(store.history) + [Event(now, Maintain(id, change))]
      ensures outcome.Failure? ==>
                unchanged(store) && ChangePool(old(store.db), id, change, now) == Failure(outcome.error)
    {
      hide After, Apply, Blank, Inv;
      if change.RetirePool? && Blank(change.reason) {
        return Failure(Validation);
      }
      ValidStoresKeepInv(store);
      RowsAreValid(store.db, id);
      var tx := store.db;
      var pool :- Get(tx.pools, id);
      var before := pool.version;
      match change {
        case BeginReconciling =>
          pool :- pool.StartReconciliation(now);
        case EndReconciling =>
          pool :- pool.CompleteReconciliation(now);
        case RetirePool(_) =>
          pool :- pool.Retire(now);
      }
      var stored := tx.UpdatePool(id, pool, before);
      tx :- stored;
      Applies(store.db, Event(now, Maintain(id, change)));
      store.Commit(tx, Event(now, Maintain(id, change)));
      return Success(pool);
    }
  }

  class ApprovalService {
    const store: Store
    const taskTTL: int

    constructor (store: Store, taskTTL: int)
      ensures this.store == store && this.taskTTL == taskTTL
    {
      this.store := store;
      this.taskTTL := taskTTL;
    }

    /** A task without a named requester is requested by its caller. */
    method CreateApprovalTask(
        id: Id, runId: Id, requester: Option<Id>, reviewer: Id, queue: string, caller: Id, now: Time)
      returns (outcome: Result<Approval>)
      requires store.Valid()
      modifies store
      ensures store.Valid()
      ensures var asker := if requester.Some? then requester.value else caller;
              outcome.Success? <==>
              && runId in old(store.db).runs
              && (old(store.db).runs[runId].state.Running? || old(store.db).runs[runId].state.Completed?)
              && (forall a :: !PendingFor(old(store.db).approvals, a, runId)) && id !in old(store.db).approvals
              && asker != reviewer && !Blank(Trim(queue)) && now + taskTTL != ZERO_TIME
      ensures outcome.Success? ==>
                var asker := if requester.Some? then requester.value else caller;
                && outcome.value ==
                   Approval(runId, asker, reviewer, Trim(queue), Pending, now + taskTTL, None, "", now, 1)
                && store.db == old(store.db).(approvals := old(store.db).approvals[id := outcome.value])
                && store.history ==
                   old(store.history) + [Event(now, Ask(id, runId, asker, reviewer, queue, now + taskTTL))]
      ensures outcome.Failure? ==>
                var asker := if requester.Some? then requester.value else caller;
                && unchanged(store)
                && RequestApproval(old(store.db), id, runId, asker, reviewer, queue, now + taskTTL, now) ==
                   Failure(outcome.error)
    {
      hide After, Apply, Blank, Trim;
      var asker := caller;
      if requester.Some? {
        asker := requester.value;
      }
      var tx := store.db;
      var run :- Get(tx.runs, runId);
      if !run.state.Running? && !run.state.Completed? {
        return Failure(Conflict);
      }
      if exists a :: a in tx.approvals && PendingFor(tx.approvals, a, runId) {
        return Failure(Conflict);
      }
      var task := Approval(runId, asker, reviewer, Trim(queue), Pending, now + taskTTL, None, "", now, 1);
      tx :- tx.InsertApproval(id, task);
      Applies(store.db, Event(now, Ask(id, runId, asker, reviewer, queue, now + taskTTL)));
      store.Commit(tx, Event(now, Ask(id, runId, asker, reviewer, queue, now + taskTTL)));
      return Success(task);
    }

    method ResolveApprovalTask(id: Id, accepted: bool, note: string, who: Principal, now: Time)
      returns (outcome: Result<Approval>)
      requires store.Valid()
      modifies store
      ensures store.Valid()
      ensures outcome.Success? <==>
              && id in old(store.db).approvals && old(store.db).approvals[id].status.Pending?
              && now < old(store.db).approvals[id].expiresAt
              && (old(store.db).approvals[id].reviewer == who.userId || who.engineer)
      ensures outcome.Failure? ==>
                && unchanged(store)
                && outcome.error == if id !in old(store.db).approvals then NotFound
                   else if old(store.db).approvals[id].reviewer != who.userId && !who.engineer then Conflict
                   else if !old(store.db).approvals[id].status.Pending? then InvalidTransition
                   else Err.Expired
      ensures outcome.Success? ==>
                && outcome.value == old(store.db).approvals[id].(
                     status := if accepted then Accepted
                       else Declined, note := Trim(note), resolvedAt := Some(now), updatedAt := now)
                && store.db == old(store.db).(approvals :=
                     old(store.db).approvals[id := outcome.value.(version := outcome.value.version + 1)])
                && store.history == old(store.history) + [Event(now, Resolve(id, accepted, note, who))]
    {
      hide After, Apply, Blank, Trim;
      ValidStoresKeepInv(store);
      ApprovalsAreValid(store.db);
      hide Inv;
      var tx := store.db;
      var task :- Get(tx.approvals, id);
      if task.reviewer != who.userId && !who.engineer {
        return Failure(Conflict);
      }
      var status := Declined;
      if accepted {
        status := Accepted;
      }
      task :- task.Resolve(status, note, now);
      tx := tx.UpdateApproval(id, task, task.version).Extract();
      Applies(store.db, Event(now, Resolve(id, accepted, note, who)));
      store.Commit(tx, Event(now, Resolve(id, accepted, note, who)));
      return Success(task);
    }
  }

  lemma {:induction false} ApprovalsAreValid(db: Db)
    requires Inv(db)
    ensures forall a :: a in db.approvals ==> db.approvals[a].Valid()
  {
    hide RowsKept, InputsKept, PoolsHeld, DriftKept, DaysWithinLimit, AnswersKept, Blank;
  }
}
