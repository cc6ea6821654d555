/** When each platform request is accepted, told by the rows alone and with the numbers written out. */
module Conditions {
  import opened Base
  import opened BusinessDay
  import opened Domain
  import opened Jobs
  import opened Tables
  import opened Lifecycle
  import opened Operations
  import opened Invariant
  import opened PlanInvariant
  import opened DriftInvariant
  import opened Histories

  // ---------------------------------------------------------------- planning

  /** Eight to 128 bytes on one line. */
  ghost predicate KeyIsUsable(key: string) {
    var k := Trim(key);
    && 8 <= Bytes(k) <= 128
    && forall i :: 0 <= i < |k| ==> k[i] != '\r' && k[i] != '\n'
  }

  ghost predicate RouteIsOpen(db: Db, q: PlanRequest) {
    && q.workspaceId in db.workspaces && db.workspaces[q.workspaceId].status == Active
    && q.sourceZoneId in db.zones && db.zones[q.sourceZoneId].status == ZoneActive
    && q.targetZoneId in db.zones && db.zones[q.targetZoneId].status == ZoneActive
    && q.sourceZoneId != q.targetZoneId
  }

  /** The runs of a zone, not cancelled, that start within a day of an instant. */
  ghost function StartingFrom(runs: map<Id, Run>, zoneId: Id, from: Time): set<Id> {
    set r | r in runs && runs[r].sourceZoneId == zoneId && runs[r].state != RunState.Cancelled
            && from <= runs[r].start < from + 86400
  }

  ghost predicate DayHasRoom(db: Db, zoneId: Id, start: Time)
    requires zoneId in db.zones
  {
    |StartingFrom(db.runs, zoneId, db.zones[zoneId].clock.WindowStart(start))| < db.zones[zoneId].dailyLimit
  }

  /** The window is given, no longer than the workspace allows, and begins at most a quarter of an hour ago. */
  ghost predicate WindowIsAllowed(workspace: Workspace, start: Time, finish: Time, now: Time) {
    && start != -62135596800 && finish != -62135596800
    && start < finish && finish - start <= workspace.maxExecution
    && now - 900 <= start
  }

  /** The snapshot is where the request says, validated, outlives both the present and the finish, and feeds no run. */
  ghost predicate SnapshotIsFree(db: Db, q: PlanRequest, now: Time, s: Id) {
    && s in db.snapshots && s !in db.inputs
    && db.snapshots[s].workspaceId == q.workspaceId && db.snapshots[s].sourceZoneId == q.sourceZoneId
    && db.snapshots[s].state == SnapshotState.Validated
    && db.snapshots[s].expiresAt > now && db.snapshots[s].expiresAt > q.finish
  }

  ghost predicate SnapshotsAreFree(db: Db, q: PlanRequest, now: Time) {
    && q.snapshotIds != []
    && (forall k :: 0 <= k < |q.snapshotIds| ==> SnapshotIsFree(db, q, now, q.snapshotIds[k]))
    && (forall j, k :: 0 <= j < k < |q.snapshotIds| ==> q.snapshotIds[j] != q.snapshotIds[k])
  }

  /** The rows of the named snapshots, added up in the order of the request. */
  function RowsNamed(snapshots: map<Id, Snapshot>, ids: seq<Id>): int
    requires forall k :: 0 <= k < |ids| ==> ids[k] in snapshots
  {
    if ids == [] then 0 else RowsNamed(snapshots, ids[..|ids| - 1]) + snapshots[ids[|ids| - 1]].rows
  }

  /** The pool is free, attested from before the start until after it, and takes all the rows. */
  ghost predicate PoolIsReady(pool: Pool, start: Time, rows: int) {
    && pool.state == Available
    && pool.lastReconciled <= start < pool.attestationDue
    && rows <= pool.capacity
  }

  ghost predicate NamesAreFree(db: Db, q: PlanRequest, runId: Id, jobId: Id) {
    && runId !in db.runs && jobId !in db.jobs
    && Trim(q.reference) != [] && forall r :: r in db.runs ==> db.runs[r].reference != Trim(q.reference)
  }

  lemma {:induction false} RowsNamedIsVolume(snapshots: map<Id, Snapshot>, ids: seq<Id>)
    requires Distinct(ids) && forall k :: 0 <= k < |ids| ==> ids[k] in snapshots
    ensures RowsNamed(snapshots, ids) == Volume(snapshots, IdSet(ids))
  {
    if ids == [] {
      assert IdSet(ids) * snapshots.Keys == {};
    } else {
      var init, last := ids[..|ids| - 1], ids[|ids| - 1];
      RowsNamedIsVolume(snapshots, init);
      assert ids == init + [last];
      assert IdSet(ids) * snapshots.Keys == IdSet(init) * snapshots.Keys + {last};
      assert last !in IdSet(init);
      SumSplit(IdSet(ids) * snapshots.Keys, RowCounts(snapshots), last);
      assert IdSet(ids) * snapshots.Keys - {last} == IdSet(init) * snapshots.Keys;
    }
  }

  lemma {:induction false} DayHasRoomIff(db: Db, zoneId: Id, start: Time)
    requires zoneId in db.zones
    ensures RunsInDay(db.runs, zoneId, db.zones[zoneId].clock, start) ==
            StartingFrom(db.runs, zoneId, db.zones[zoneId].clock.WindowStart(start))
  {
    hide ZoneClock.WindowStart;
  }

  lemma {:induction false} RouteCheckIff(db: Db, q: PlanRequest)
    ensures RouteCheck(db, q).None? <==>
            RouteIsOpen(db, q) && DayHasRoom(db, q.sourceZoneId, q.start) && q.poolId in db.pools
  {
    hide RunsInDay, StartingFrom, ZoneClock.WindowStart;
    if q.sourceZoneId in db.zones {
      DayHasRoomIff(db, q.sourceZoneId, q.start);
    }
  }

  lemma {:induction false} WindowCheckIff(db: Db, q: PlanRequest, now: Time)
    requires q.workspaceId in db.workspaces && forall s :: s in q.snapshotIds ==> s in db.snapshots
    ensures WindowCheck(db, q, now).None? <==>
            && WindowIsAllowed(db.workspaces[q.workspaceId], q.start, q.finish, now)
            && forall s :: s in q.snapshotIds ==> db.snapshots[s].expiresAt > q.finish
  {
  }

  lemma {:induction false} InputCheckIff(db: Db, q: PlanRequest, now: Time)
    ensures InputCheck(db, q, now, 0).None? && !InputTaken(db.inputs, q.snapshotIds)
            && (forall s :: s in q.snapshotIds && s in db.snapshots ==> db.snapshots[s].expiresAt > q.finish)
            && q.snapshotIds != [] <==>
            SnapshotsAreFree(db, q, now)
  {
    InputCheckMeans(db, q, now, 0);
    hide InputCheck;
    if SnapshotsAreFree(db, q, now) {
      forall s | s in q.snapshotIds ensures SnapshotIsFree(db, q, now, s) {
        var k :| 0 <= k < |q.snapshotIds| && q.snapshotIds[k] == s;
      }
    } else if InputCheck(db, q, now, 0).None? && !InputTaken(db.inputs, q.snapshotIds) && q.snapshotIds != [] {
      forall k | 0 <= k < |q.snapshotIds| ensures q.snapshotIds[k] in q.snapshotIds {}
    }
  }

  lemma {:induction false} EligibleIff(pool: Pool, start: Time, rows: int)
    ensures pool.EligibleFor(start, rows).None? <==> PoolIsReady(pool, start, rows)
  {
  }

  lemma {:induction false} WriteCheckIff(db: Db, q: PlanRequest, runId: Id, jobId: Id)
    ensures WriteCheck(db, q, runId, jobId).None? <==>
            NamesAreFree(db, q, runId, jobId) && !InputTaken(db.inputs, q.snapshotIds)
  {
    hide Blank, Trim, InputTaken;
    BlankIff(q.reference);
  }

  lemma {:induction false} RequestCheckIff(q: PlanRequest)
    ensures RequestCheck(q).None? <==> q.snapshotIds != [] && KeyIsUsable(q.key)
  {
    hide Trim;
  }

  /** What the checks on pool, snapshots and window come to once the route is open. */
  ghost predicate SnapshotsFit(db: Db, q: PlanRequest, now: Time) {
    && SnapshotsAreFree(db, q, now)
    && q.poolId in db.pools
    && PoolIsReady(db.pools[q.poolId], q.start, RowsNamed(db.snapshots, q.snapshotIds))
  }

  lemma {:induction false} CapacityCheckIff(db: Db, q: PlanRequest, now: Time)
    requires RouteCheck(db, q).None? && PoolsValid(db.pools)
    ensures CapacityCheck(db, q, now).None? && !InputTaken(db.inputs, q.snapshotIds) && q.snapshotIds != [] <==>
            SnapshotsFit(db, q, now) && WindowIsAllowed(db.workspaces[q.workspaceId], q.start, q.finish, now)
  {
    assert q.poolId in db.pools && q.workspaceId in db.workspaces && db.pools[q.poolId].capacity >= 1;
    EligibleIff(db.pools[q.poolId], q.start, 1);
    EligibleIff(db.pools[q.poolId], q.start, Volume(db.snapshots, IdSet(q.snapshotIds)));
    InputCheckIff(db, q, now);
    hide RouteCheck, InputCheck, InputTaken, Volume, Pool.EligibleFor, PoolsValid;
    if SnapshotsAreFree(db, q, now) {
      NamedSnapshots(db, q, now);
      WindowCheckIff(db, q, now);
      RowsNamedIsVolume(db.snapshots, q.snapshotIds);
    } else if InputCheck(db, q, now, 0).None? && WindowCheck(db, q, now).None? {
      assert forall s :: s in q.snapshotIds && s in db.snapshots ==> db.snapshots[s].expiresAt > q.finish;
    }
  }

  lemma {:induction false} NamedSnapshots(db: Db, q: PlanRequest, now: Time)
    requires SnapshotsAreFree(db, q, now)
    ensures Distinct(q.snapshotIds)
    ensures forall s :: s in q.snapshotIds ==> s in db.snapshots && db.snapshots[s].expiresAt > q.finish
  {
    forall s | s in q.snapshotIds ensures s in db.snapshots && db.snapshots[s].expiresAt > q.finish {
      var k :| 0 <= k < |q.snapshotIds| && q.snapshotIds[k] == s;
      assert SnapshotIsFree(db, q, now, q.snapshotIds[k]);
    }
  }

  lemma {:induction false} PlansWhen(db: Db, q: PlanRequest, now: Time, runId: Id, jobId: Id)
    requires PoolsValid(db.pools)
    ensures Plans(db, q, now, runId, jobId) <==>
            && KeyIsUsable(q.key) && (q.key in db.answers ==> db.answers[q.key].expiresAt <= now)
            && RouteIsOpen(db, q) && DayHasRoom(db, q.sourceZoneId, q.start)
            && WindowIsAllowed(db.workspaces[q.workspaceId], q.start, q.finish, now)
            && SnapshotsFit(db, q, now)
            && NamesAreFree(db, q, runId, jobId)
  {
    hide RouteCheck, RequestCheck, WriteCheck, CapacityCheck, KeyIsUsable, SnapshotsFit, WindowIsAllowed, NamesAreFree;
    hide DayHasRoom, InputTaken, PoolsValid;
    RequestCheckIff(q);
    RouteCheckIff(db, q);
    WriteCheckIff(db, q, runId, jobId);
    if SnapshotsFit(db, q, now) {
      NamedAndFree(db, q, now);
    }
    if RouteCheck(db, q).None? {
      CapacityCheckIff(db, q, now);
    }
  }

  lemma {:induction false} NamedAndFree(db: Db, q: PlanRequest, now: Time)
    requires SnapshotsFit(db, q, now)
    ensures q.snapshotIds != [] && q.poolId in db.pools
  {
  }

  /** In reachable states a run is planned exactly when the key is usable and free, route, day, window and pool allow
      it, and the snapshots and names are free. */
  lemma {:induction false} PlansIff(h: History, q: PlanRequest, now: Time, runId: Id, jobId: Id)
    ensures var db := After(h);
            Plans(db, q, now, runId, jobId) <==>
            && KeyIsUsable(q.key) && (q.key in db.answers ==> db.answers[q.key].expiresAt <= now)
            && RouteIsOpen(db, q) && DayHasRoom(db, q.sourceZoneId, q.start)
            && WindowIsAllowed(db.workspaces[q.workspaceId], q.start, q.finish, now)
            && SnapshotsAreFree(db, q, now)
            && q.poolId in db.pools
            && PoolIsReady(db.pools[q.poolId], q.start, RowsNamed(db.snapshots, q.snapshotIds))
            && NamesAreFree(db, q, runId, jobId)
  {
    hide After, Plans, KeyIsUsable, RouteIsOpen, DayHasRoom, WindowIsAllowed, SnapshotsAreFree, NamesAreFree;
    AlwaysInv(h);
    PoolsAreValid(After(h));
    PlansWhen(After(h), q, now, runId, jobId);
  }

  lemma {:induction false} PoolsAreValid(db: Db)
    requires Inv(db)
    ensures PoolsValid(db.pools) && RunsPlaced(db.workspaces.Keys, db.zones.Keys, db.pools, db.runs)
  {
    hide InputsKept, PoolsHeld, DriftKept, DaysWithinLimit, ApprovalsSettled, AnswersKept, PoolsValid, RunsPlaced;
  }

  /** A snapshot that exists, but elsewhere, too short-lived or in another run. */
  ghost predicate IsUnfit(db: Db, q: PlanRequest, now: Time, s: Id) {
    && s in q.snapshotIds && s in db.snapshots
    && (|| db.snapshots[s].workspaceId != q.workspaceId || db.snapshots[s].sourceZoneId != q.sourceZoneId
        || db.snapshots[s].expiresAt <= now || db.snapshots[s].expiresAt <= q.finish || s in db.inputs)
  }

  /** Something named is inactive, full, busy or taken, or the window is too long or too late. */
  ghost predicate IsInTheWay(db: Db, q: PlanRequest, now: Time, runId: Id, jobId: Id) {
    || (q.workspaceId in db.workspaces
        && (|| db.workspaces[q.workspaceId].status != Active
            || q.finish - q.start > db.workspaces[q.workspaceId].maxExecution || q.start < now - 900))
    || (q.sourceZoneId in db.zones
        && (db.zones[q.sourceZoneId].status != ZoneActive || !DayHasRoom(db, q.sourceZoneId, q.start)))
    || (q.targetZoneId in db.zones && db.zones[q.targetZoneId].status != ZoneActive)
    || (q.poolId in db.pools
        && (|| db.pools[q.poolId].state != Available || q.start < db.pools[q.poolId].lastReconciled
            || db.pools[q.poolId].attestationDue <= q.start))
    || !Distinct(q.snapshotIds) || (exists s :: IsUnfit(db, q, now, s))
    || runId in db.runs || jobId in db.jobs || exists r :: r in db.runs && db.runs[r].reference == Trim(q.reference)
  }

  lemma {:induction false} InputRefusals(db: Db, q: PlanRequest, now: Time, i: nat)
    requires i <= |q.snapshotIds|
    ensures var c := InputCheck(db, q, now, i);
            && (c == Some(NotFound) ==> exists s :: s in q.snapshotIds && s !in db.snapshots)
            && (c == Some(InvalidTransition) ==>
                  exists s :: && s in q.snapshotIds && s in db.snapshots
                              && db.snapshots[s].state != SnapshotState.Validated)
            && (c == Some(Conflict) ==> !Distinct(q.snapshotIds) || exists s :: IsUnfit(db, q, now, s))
            && (c.Some? ==> c.value == NotFound || c.value == InvalidTransition || c.value == Conflict)
    decreases |q.snapshotIds| - i
  {
    if i == |q.snapshotIds| {
    } else {
      InputRefusals(db, q, now, i + 1);
      var s := q.snapshotIds[i];
      if s in q.snapshotIds[..i] {
        var j :| 0 <= j < i && q.snapshotIds[j] == q.snapshotIds[i];
      } else if s in db.snapshots {
        assert IsUnfit(db, q, now, s) || InputCheck(db, q, now, i) != Some(Conflict)
               || InputCheck(db, q, now, i) == InputCheck(db, q, now, i + 1);
      }
    }
  }

  lemma {:induction false} RouteConflicts(db: Db, q: PlanRequest, now: Time, runId: Id, jobId: Id)
    requires RouteCheck(db, q) == Some(Conflict)
    ensures IsInTheWay(db, q, now, runId, jobId)
  {
    hide RunsInDay, StartingFrom, ZoneClock.WindowStart, Trim;
    if q.sourceZoneId in db.zones {
      DayHasRoomIff(db, q.sourceZoneId, q.start);
    }
  }

  lemma {:induction false} WindowConflicts(db: Db, q: PlanRequest, now: Time, runId: Id, jobId: Id)
    requires q.workspaceId in db.workspaces && WindowCheck(db, q, now) == Some(Conflict)
    ensures IsInTheWay(db, q, now, runId, jobId)
  {
    hide RunsInDay, DayHasRoom, Trim;
    if s :| s in q.snapshotIds && s in db.snapshots && db.snapshots[s].expiresAt <= q.finish {
      assert IsUnfit(db, q, now, s);
    }
  }

  lemma {:induction false} WriteConflicts(db: Db, q: PlanRequest, now: Time, runId: Id, jobId: Id)
    requires WriteCheck(db, q, runId, jobId) == Some(Conflict)
    requires forall s :: s in q.snapshotIds ==> s in db.snapshots
    ensures IsInTheWay(db, q, now, runId, jobId)
  {
    hide RunsInDay, DayHasRoom, Trim, Blank;
    if InputTaken(db.inputs, q.snapshotIds) {
      var s :| s in q.snapshotIds && s in db.inputs;
      assert IsUnfit(db, q, now, s);
    }
  }

  lemma {:induction false} PlanConflicts(db: Db, q: PlanRequest, now: Time, runId: Id, jobId: Id)
    requires PlanCheck(db, q, now, runId, jobId) == Some(Conflict)
    ensures IsInTheWay(db, q, now, runId, jobId)
  {
    hide RouteCheck, InputCheck, WindowCheck, WriteCheck, DayHasRoom, Volume, Trim, IsUnfit, Distinct;
    if RouteCheck(db, q).Some? {
      RouteConflicts(db, q, now, runId, jobId);
    } else {
      InRoute(db, q);
      if InputCheck(db, q, now, 0).Some? {
        InputRefusals(db, q, now, 0);
      } else if WindowCheck(db, q, now) == Some(Conflict) {
        WindowConflicts(db, q, now, runId, jobId);
      } else if WriteCheck(db, q, runId, jobId) == Some(Conflict) {
        AllStored(db, q, now);
        WriteConflicts(db, q, now, runId, jobId);
      }
    }
  }

  lemma {:induction false} InRoute(db: Db, q: PlanRequest)
    requires RouteCheck(db, q).None?
    ensures q.workspaceId in db.workspaces && q.poolId in db.pools
  {
    hide RunsInDay;
  }

  lemma {:induction false} AllStored(db: Db, q: PlanRequest, now: Time)
    requires InputCheck(db, q, now, 0).None?
    ensures forall s :: s in q.snapshotIds ==> s in db.snapshots
  {
    InputCheckMeans(db, q, now, 0);
    forall s | s in q.snapshotIds ensures s in db.snapshots {
      var k :| 0 <= k < |q.snapshotIds| && q.snapshotIds[k] == s;
    }
  }

  /** What each refusal of a plan means: something named is missing; the two zones are one, the window is no window or
      the reference is empty; a snapshot is not validated; the rows do not fit the pool; something is in the way. */
  lemma {:induction false} PlanRefusals(db: Db, q: PlanRequest, now: Time, runId: Id, jobId: Id)
    requires PoolsValid(db.pools)
    ensures var c := PlanCheck(db, q, now, runId, jobId);
            && (c == Some(NotFound) ==>
                  || q.workspaceId !in db.workspaces || q.sourceZoneId !in db.zones || q.targetZoneId !in db.zones
                  || q.poolId !in db.pools || exists s :: s in q.snapshotIds && s !in db.snapshots)
            && (c == Some(Validation) ==>
                  || q.sourceZoneId == q.targetZoneId || Trim(q.reference) == []
                  || q.start == -62135596800 || q.finish == -62135596800 || q.finish <= q.start)
            && (c == Some(InvalidTransition) ==>
                  exists s :: && s in q.snapshotIds && s in db.snapshots
                              && db.snapshots[s].state != SnapshotState.Validated)
            && (c == Some(CapacityExceeded) ==>
                  && q.poolId in db.pools && Distinct(q.snapshotIds)
                  && (forall k :: 0 <= k < |q.snapshotIds| ==> q.snapshotIds[k] in db.snapshots)
                  && db.pools[q.poolId].capacity < RowsNamed(db.snapshots, q.snapshotIds))
            && (c == Some(Conflict) ==> IsInTheWay(db, q, now, runId, jobId))
            && (c.Some? ==>
                  c.value in {NotFound, Validation, InvalidTransition, CapacityExceeded, Conflict})
  {
    hide Trim, Blank, RunsInDay, InputCheck, Volume, RowsNamed, ReferenceTaken, InputTaken, IsInTheWay, IsUnfit;
    if PlanCheck(db, q, now, runId, jobId) == Some(Conflict) {
      PlanConflicts(db, q, now, runId, jobId);
    }
    BlankIff(q.reference);
    InputRefusals(db, q, now, 0);
    InputCheckMeans(db, q, now, 0);
    if InputCheck(db, q, now, 0).None? {
      assert forall k :: 0 <= k < |q.snapshotIds| ==> q.snapshotIds[k] in db.snapshots;
      RowsNamedIsVolume(db.snapshots, q.snapshotIds);
    }
  }

  // ---------------------------------------------------------------- moving and cancelling

  /** What reachable states say of a run's inputs and pool. */
  lemma {:induction false} InputsFit(db: Db, r: Id)
    requires Inv(db) && r in db.runs
    ensures db.runs[r].poolId in db.pools
    ensures forall s :: s in db.inputs && db.inputs[s].runId == r ==>
                          s in db.snapshots && Fits(db.runs[r].state, db.snapshots[s].state)
  {
    PoolsAreValid(db);
    hide RowsKept, PoolsHeld, DriftKept, DaysWithinLimit, ApprovalsSettled, AnswersKept, InputsInStep, TotalsAddUp;
    hide Fits;
  }

  /**
    A run is staged exactly when queued; started when staged with every input reserved and unexpired; completed
    when running with no input expired that is still materializing; archived when completed with none quarantined.
   */
  lemma {:induction false} AdvancesIff(h: History, r: Id, target: RunState, now: Time)
    ensures var db := After(h);
            Advances(db, r, target, now) <==>
            && r in db.runs
            && match target
               case Staged => db.runs[r].state == RunState.Queued
               case Running =>
                 && db.runs[r].state == RunState.Staged
                 && forall s :: s in db.inputs && db.inputs[s].runId == r ==>
                      && s in db.snapshots && db.snapshots[s].state == SnapshotState.Reserved
                      && now < db.snapshots[s].expiresAt
               case Completed =>
                 && db.runs[r].state == RunState.Running
                 && forall s :: s in db.inputs && db.inputs[s].runId == r ==>
                      && s in db.snapshots
                      && (db.snapshots[s].state == SnapshotState.Materializing ==> now < db.snapshots[s].expiresAt)
               case Archived =>
                 && db.runs[r].state == RunState.Completed
                 && forall s :: s in db.inputs && db.inputs[s].runId == r ==>
                      s in db.snapshots && db.snapshots[s].state != SnapshotState.Quarantined
               case _ => false
  {
    hide After, Inv, InputObjection, Fits;
    AlwaysInv(h);
    var db := After(h);
    if r in db.runs {
      InputsFit(db, r);
      forall s | s in db.inputs && db.inputs[s].runId == r && db.runs[r].state.MayMove(target)
        ensures s in db.snapshots && (InputObjection(db.snapshots[s], target, now).None? <==>
                                      Lets(db.snapshots[s], target, now))
      {
        ObjectionIff(db.runs[r].state, db.snapshots[s], target, now);
      }
    }
  }

  /** What an input must be for its run to move on, given that it fits the run so far. */
  predicate Lets(row: Snapshot, target: RunState, now: Time) {
    match target
    case Running => row.state == SnapshotState.Reserved && now < row.expiresAt
    case Completed => row.state == SnapshotState.Materializing ==> now < row.expiresAt
    case Archived => row.state != SnapshotState.Quarantined
    case _ => true
  }

  lemma {:induction false} ObjectionIff(state: RunState, row: Snapshot, target: RunState, now: Time)
    requires Fits(state, row.state) && state.MayMove(target)
    ensures InputObjection(row, target, now).None? <==> Lets(row, target, now)
  {
  }

  /** A run is cancelled exactly before its start, with every input reserved and unexpired. */
  lemma {:induction false} CancelsIff(h: History, r: Id, now: Time)
    ensures var db := After(h);
            Cancels(db, r, now) <==>
            && r in db.runs && (db.runs[r].state == RunState.Queued || db.runs[r].state == RunState.Staged)
            && forall s :: s in db.inputs && db.inputs[s].runId == r ==>
                 && s in db.snapshots && db.snapshots[s].state == SnapshotState.Reserved
                 && now < db.snapshots[s].expiresAt
  {
    hide After, Inv, Fits;
    AlwaysInv(h);
    var db := After(h);
    if r in db.runs {
      InputsFit(db, r);
      forall s | s in db.inputs && db.inputs[s].runId == r && db.runs[r].state.MayMove(RunState.Cancelled)
        ensures s in db.snapshots
        ensures db.snapshots[s].Transition(Validated, now).Success? <==>
                db.snapshots[s].state == SnapshotState.Reserved && now < db.snapshots[s].expiresAt
      {
        ReleasesIff(db.runs[r].state, db.snapshots[s], now);
      }
    }
  }

  lemma {:induction false} ReleasesIff(state: RunState, row: Snapshot, now: Time)
    requires Fits(state, row.state) && state.MayMove(RunState.Cancelled)
    ensures row.Transition(Validated, now).Success? <==>
            row.state == SnapshotState.Reserved && now < row.expiresAt
  {
  }

  // ---------------------------------------------------------------- drift

  /** An observation is recorded exactly when it is complete and new, its run is executing or done, and the rows it
      entails have free identifiers. */
  lemma {:induction false} ObservesIff(h: History, r: Report)
    ensures var db, o := After(h), r.observation;
            ObserveCheck(db, r).None? <==>
            && Trim(o.metric) != [] && o.sequence >= 1 && o.recordedAt != -62135596800
            && o.runId in db.runs && db.runs[o.runId].workspaceId in db.workspaces
            && (db.runs[o.runId].state == RunState.Running || db.runs[o.runId].state == RunState.Completed)
            && r.observationId !in db.observations
            && (forall p :: p in db.observations ==>
                  || db.observations[p].runId != o.runId
                  || db.observations[p].metric != o.metric
                  || db.observations[p].sequence != o.sequence)
            && var score := db.workspaces[db.runs[o.runId].workspaceId].score;
            (o.score < score.minimum || score.maximum < o.score ==>
               && r.jobId !in db.jobs
               && (r.incidentId in db.incidents ==>
                     exists i :: i in db.incidents && db.incidents[i].runId == o.runId
                                 && (db.incidents[i].status == Open || db.incidents[i].status == Reviewing)))
  {
    hide After, Blank, Trim;
    BlankIff(r.observation.metric);
    var db := After(h);
    forall i ensures ActiveFor(db.incidents, i, r.observation.runId) <==>
                     && i in db.incidents && db.incidents[i].runId == r.observation.runId
                     && (db.incidents[i].status == Open || db.incidents[i].status == Reviewing) {}
  }

  /** What each refusal of an observation means. */
  lemma {:induction false} ObserveRefusals(db: Db, r: Report)
    ensures var c, o := ObserveCheck(db, r), r.observation;
            && (c == Some(Validation) <==> Trim(o.metric) == [] || o.sequence < 1 || o.recordedAt == -62135596800)
            && (c == Some(NotFound) ==> o.runId !in db.runs || db.runs[o.runId].workspaceId !in db.workspaces)
            && (c.Some? ==> c.value == Validation || c.value == NotFound || c.value == Conflict)
            && (c == Some(Conflict) ==> o.runId in db.runs && db.runs[o.runId].workspaceId in db.workspaces)
  {
    hide Blank, Trim, ActiveIncident;
    BlankIff(r.observation.metric);
  }

  /** What each refusal of a decision means. */
  lemma {:induction false} DecideRefusals(db: Db, r: Ruling)
    requires Inv(db)
    ensures DecideCheck(db, r) ==
            if Trim(r.rationale) == [] then Some(Validation)
            else if r.incidentId !in db.incidents then Some(NotFound)
            else if db.incidents[r.incidentId].status in {Cleared, Refused} then Some(InvalidTransition)
            else if r.decision in {Open, Reviewing} then Some(Validation)
            else if r.decisionId in db.decisions then Some(Conflict) else None
  {
    hide Blank, Trim, Inv;
    BlankIff(r.rationale);
    IncidentsHaveRuns(db);
  }

  /** A decision is taken exactly with a rationale, on an incident that is open or under review, to clear or refuse. */
  lemma {:induction false} DecidesIff(h: History, r: Ruling)
    ensures var db := After(h);
            DecideCheck(db, r).None? <==>
            && Trim(r.rationale) != [] && (r.decision == Cleared || r.decision == Refused)
            && r.incidentId in db.incidents
            && (db.incidents[r.incidentId].status == Open || db.incidents[r.incidentId].status == Reviewing)
            && r.decisionId !in db.decisions
  {
    hide After, Blank, Trim, Inv;
    BlankIff(r.rationale);
    AlwaysInv(h);
    IncidentsHaveRuns(After(h));
  }

  lemma {:induction false} IncidentsHaveRuns(db: Db)
    requires Inv(db)
    ensures forall i :: i in db.incidents ==> db.incidents[i].runId in db.runs
  {
    hide RowsKept, InputsKept, PoolsHeld, DaysWithinLimit, ApprovalsSettled, AnswersKept, DriftContained, Executed;
  }

  // ---------------------------------------------------------------- catalogue

  /** A workspace needs a range, at most 14 days of execution and at most seven of review; it begins as a draft. */
  lemma {:induction false} AddsWorkspaceIff(db: Db, id: Id, row: Workspace)
    ensures AddWorkspace(db, id, row).Success? <==>
            && row.score.minimum < row.score.maximum
            && 0 < row.maxExecution <= 1209600 && 0 < row.reviewDeadline <= 604800
            && id !in db.workspaces
    ensures AddWorkspace(db, id, row).Success? ==>
              AddWorkspace(db, id, row).value == db.(workspaces := db.workspaces[id := row.(status := Draft)])
  {
  }

  /** A zone needs an hour of the day and a limit between one and 10000; it begins active. */
  lemma {:induction false} AddsZoneIff(db: Db, id: Id, row: Zone)
    ensures AddZone(db, id, row).Success? <==>
            0 <= row.clock.cutoffHour <= 23 && 1 <= row.dailyLimit <= 10000 && id !in db.zones
    ensures AddZone(db, id, row).Success? ==>
              AddZone(db, id, row).value == db.(zones := db.zones[id := row.(status := ZoneActive)])
  {
  }

  /** A pool takes between 100 and a million rows and needs both its attestation times; it begins available. */
  lemma {:induction false} AddsPoolIff(db: Db, id: Id, row: Pool, now: Time)
    ensures AddPool(db, id, row, now).Success? <==>
            && 100 <= row.capacity <= 1000000 && id !in db.pools
            && row.attestationDue != -62135596800 && row.lastReconciled != -62135596800
    ensures AddPool(db, id, row, now).Success? ==>
              AddPool(db, id, row, now).value ==
              db.(pools := db.pools[id := row.(state := Available, version := 1, updatedAt := now)])
  {
  }

  /** A snapshot needs its names, partitions, rows and expiry, an existing workspace and zone, and a revision that is
      new to the workspace; it begins registered. */
  lemma {:induction false} RegistersIff(db: Db, id: Id, row: Snapshot, now: Time)
    ensures RegisterSnapshot(db, id, row, now).Success? <==>
            && Trim(row.revision) != [] && Trim(row.family) != [] && row.partitions >= 1 && row.rows >= 1
            && row.expiresAt != -62135596800
            && id !in db.snapshots && row.workspaceId in db.workspaces && row.sourceZoneId in db.zones
            && forall s :: s in db.snapshots ==>
                 db.snapshots[s].workspaceId != row.workspaceId || db.snapshots[s].revision != row.revision
    ensures RegisterSnapshot(db, id, row, now).Success? ==>
              RegisterSnapshot(db, id, row, now).value ==
              db.(snapshots := db.snapshots[id := row.(state := Registered, version := 1, updatedAt := now)])
  {
    hide Blank, Trim;
    BlankIff(row.revision);
    BlankIff(row.family);
  }

  /** The moves a snapshot can make, and what they need: an expired one can only be rejected or quarantined. */
  lemma {:induction false} SnapshotMovesIff(row: Snapshot, to: SnapshotState, now: Time)
    ensures row.Transition(to, now).Success? <==>
            && (row.state, to) in {
                 (SnapshotState.Registered, SnapshotState.Validated),
                 (SnapshotState.Registered, SnapshotState.Rejected),
                 (SnapshotState.Validated, SnapshotState.Reserved),
                 (SnapshotState.Validated, SnapshotState.Rejected),
                 (SnapshotState.Reserved, SnapshotState.Validated),
                 (SnapshotState.Reserved, SnapshotState.Materializing),
                 (SnapshotState.Materializing, SnapshotState.Materialized),
                 (SnapshotState.Materializing, SnapshotState.Quarantined),
                 (SnapshotState.Materialized, SnapshotState.Approved),
                 (SnapshotState.Materialized, SnapshotState.Quarantined),
                 (SnapshotState.Quarantined, SnapshotState.Approved),
                 (SnapshotState.Quarantined, SnapshotState.Rejected)}
            && (to == SnapshotState.Rejected || to == SnapshotState.Quarantined || now < row.expiresAt)
    ensures match row.Transition(to, now)
            case Success(moved) => moved == row.(state := to, updatedAt := now)
            case Failure(e) => e == if row.state.MayMove(to) then Conflict else InvalidTransition
  {
  }

  /** Why an input stands in its run's way: it is not where the move expects it, or it has expired. */
  lemma {:induction false} ObjectionMeans(row: Snapshot, target: RunState, now: Time)
    ensures InputObjection(row, target, now) ==
            match target
            case Running =>
              if row.state != SnapshotState.Reserved then Some(InvalidTransition)
              else if row.expiresAt <= now then Some(Conflict) else None
            case Completed =>
              if row.state in {SnapshotState.Quarantined, SnapshotState.Approved, SnapshotState.Rejected} then None
              else if row.state != SnapshotState.Materializing then Some(InvalidTransition)
              else if row.expiresAt <= now then Some(Conflict) else None
            case Archived =>
              if row.state in {SnapshotState.Materialized, SnapshotState.Approved, SnapshotState.Rejected} then None
              else Some(Conflict)
            case _ => None
  {
  }

  // ---------------------------------------------------------------- the worker

  /** Due are the pending and the failed jobs whose time has come, in order of their creation. */
  lemma {:induction false} DueIff(jobs: map<Id, Job>, now: Time, j: Id)
    ensures j in Due(jobs, now) <==>
            && j in jobs && (jobs[j].status == JobPending || jobs[j].status == JobFailed)
            && jobs[j].availableAt <= now
    ensures j in Due(jobs, now) ==> Due(jobs, now)[j] == jobs[j].createdAt
  {
  }

  /** Overdue are the pending tasks whose deadline has come, in order of that deadline. */
  lemma {:induction false} OverdueIff(approvals: map<Id, Approval>, now: Time, a: Id)
    ensures a in Overdue(approvals, now) <==>
            a in approvals && approvals[a].status == ApprovalStatus.Pending && approvals[a].expiresAt <= now
    ensures a in Overdue(approvals, now) ==> Overdue(approvals, now)[a] == approvals[a].expiresAt
  {
  }
}
