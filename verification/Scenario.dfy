/**
  Histories that occur: a run's whole life from an empty platform through a drift review to its
  archiving beside a new incident, and a run that is stuck before its start.
 */
module Scenario {
  import opened Base
  import opened BusinessDay
  import opened Domain
  import opened Jobs
  import opened Tables
  import opened Lifecycle
  import opened Operations
  import opened Invariant
  import opened Histories
  import opened Idempotency
  import opened StuckRuns

  const LATER: Time := 1000000
  const KEY := "plan-key"

  const WORKSPACE := Workspace(Active, QualityRange(0, 10), DAY, DAY)
  const ZONE := Zone(ZoneActive, ZoneClock(0, 0), 1)
  const POOL := Pool(Available, 100, LATER, 0, None, 0, 1)
  const SNAPSHOT := Snapshot(1, 1, "r", "f", 1, 50, Validated, LATER, None, NoNote, 0, 2)
  const PLAN := PlanRequest(1, 1, 2, 1, "x", [1], 10, 20, KEY)

  /** A workspace, two zones, a pool and a validated snapshot. */
  const PREPARED := Db(map[1 := WORKSPACE], map[1 := ZONE, 2 := ZONE], map[1 := SNAPSHOT], map[1 := POOL],
                       map[], map[], map[], map[], map[], map[], map[], map[])

  const QUEUED := Run(1, 1, 2, 1, "x", RunState.Queued, 10, 20, None, None, None, 50, 0, 0, 1)
  const BAD := Observation(1, "m", 1, 99, 11, 11)
  const WORSE := Observation(1, "m", 2, 100, 14, 14)
  const INCIDENT := Incident(1, Open, 11, 11, 99, 99, 1, 11 + DAY, 11, 1)
  const SECOND := Incident(1, Open, 14, 14, 100, 100, 1, 14 + DAY, 14, 1)
  const RULING := Ruling(1, Cleared, "ok", 7, 1)

  /** The platform's states along the life, each reached from the one before by one request. */
  function State(n: nat): Db {
    if n == 0 then EMPTY
    else if n == 1 then EMPTY.(workspaces := map[1 := WORKSPACE.(status := Draft)])
    else if n == 2 then EMPTY.(workspaces := map[1 := WORKSPACE])
    else if n == 3 then EMPTY.(workspaces := map[1 := WORKSPACE], zones := map[1 := ZONE])
    else if n == 4 then EMPTY.(workspaces := map[1 := WORKSPACE], zones := map[1 := ZONE, 2 := ZONE])
    else if n == 5 then PREPARED.(snapshots := map[])
    else if n == 6 then PREPARED.(snapshots := map[1 := SNAPSHOT.(state := Registered, version := 1)])
    else if n == 7 then PREPARED
    else if n == 8 then PLANNED
    else if n == 9 then STAGED
    else if n == 10 then RUNNING
    else if n == 11 then DRIFTED
    else if n == 12 then REVIEWED
    else if n == 13 then DECIDED
    else if n == 14 then DRIFTED_AGAIN
    else if n == 15 then COMPLETED
    else ARCHIVED
  }

  const HELD := POOL.(state := PoolReserved, reservedRun := Some(1), version := 2)
  const TAKEN := SNAPSHOT.(state := SnapshotState.Reserved, runId := Some(1), version := 3)
  const PLANNED := PREPARED.(snapshots := map[1 := TAKEN], inputs := map[1 := Input(1, 0)], runs := map[1 := QUEUED],
                             pools := map[1 := HELD], answers := map[KEY := Domain.Answer(PLAN, 1, QUEUED, DAY, 0)],
                             jobs := map[1 := PlannedJob(1, 0)])
  const STAGED := PLANNED.(runs := map[1 := QUEUED.(state := RunState.Staged, version := 2)],
                           pools := map[1 := HELD.(version := 3)])
  const STARTED := QUEUED.(state := RunState.Running, startedAt := Some(10), updatedAt := 10, version := 3)
  const RUNNING := PLANNED.(snapshots := map[1 := TAKEN.(state := Materializing, updatedAt := 10, version := 4)],
                            runs := map[1 := STARTED],
                            pools := map[1 := HELD.(state := Allocated, updatedAt := 10, version := 4)])
  const DRIFTED := RUNNING.(observations := map[1 := BAD], incidents := map[1 := INCIDENT],
                            snapshots := map[1 := TAKEN.(state := Quarantined, note := DriftNote(1), updatedAt := 11,
                                                         version := 5)],
                            jobs := map[1 := PlannedJob(1, 0), 2 := ReviewJob(1, 11)])
  const REVIEWED := DRIFTED.(incidents := map[1 := INCIDENT.(status := Reviewing, updatedAt := 12, version := 2)])
  const DECIDED := DRIFTED.(incidents := map[1 := INCIDENT.(status := Cleared, updatedAt := 13, version := 3)],
                            snapshots := map[1 := TAKEN.(state := Approved, updatedAt := 13, version := 6)],
                            decisions := map[1 := Decision(1, 7, Cleared, "ok", 13)])
  const DRIFTED_AGAIN := DECIDED.(observations := map[1 := BAD, 2 := WORSE],
                                  incidents := map[1 := INCIDENT.(status := Cleared, updatedAt := 13, version := 3),
                                                   2 := SECOND],
                                  jobs := map[1 := PlannedJob(1, 0), 2 := ReviewJob(1, 11), 3 := ReviewJob(2, 14)])
  const FINISHED := STARTED.(state := RunState.Completed, completedAt := Some(20), updatedAt := 20, version := 4)
  const COMPLETED := DRIFTED_AGAIN.(snapshots := map[1 := TAKEN.(state := Approved, updatedAt := 13, version := 7)],
                              runs := map[1 := FINISHED],
                              pools := map[1 := HELD.(state := Allocated, updatedAt := 20, version := 5)])
  const ARCHIVED := COMPLETED.(runs := map[1 := FINISHED.(state := RunState.Archived, archivedAt := Some(21),
                                                          updatedAt := 21, version := 5)],
                               pools := map[1 := POOL.(updatedAt := 21, version := 6)])

  /** The requests that lead from each state to the next. */
  function Life(): History {
    [ Event(0, CreateWorkspace(1, WORKSPACE)),
      Event(0, Activate(1)),
      Event(0, CreateZone(1, ZONE)),
      Event(0, CreateZone(2, ZONE)),
      Event(0, CreatePool(1, POOL)),
      Event(0, Register(1, SNAPSHOT)),
      Event(0, Validate(1)),
      Event(0, Plan(PLAN, 1, 1)),
      Event(0, Advance(1, RunState.Staged, 0)),
      Event(10, Advance(1, RunState.Running, 10)),
      Event(11, Observe(Report(1, BAD, 1, 2))),
      Event(12, Review(1)),
      Event(13, Request.Decide(RULING, 13)),
      Event(14, Observe(Report(2, WORSE, 2, 3))),
      Event(20, Advance(1, RunState.Completed, 20)),
      Event(21, Advance(1, RunState.Archived, 21))]
  }

  lemma {:induction false} AddingWorkspace()
    ensures AddWorkspace(State(0), 1, WORKSPACE) == Success(State(1))
    ensures ActivateWorkspace(State(1), 1) == Success(State(2))
  {
    assert State(1).workspaces[1 := WORKSPACE] == State(2).workspaces;
  }

  lemma {:induction false} ZoneAdded(db: Db, id: Id)
    requires id !in db.zones
    ensures AddZone(db, id, ZONE) == Success(db.(zones := db.zones[id := ZONE]))
  {
  }

  lemma {:induction false} AddingZones()
    ensures AddZone(State(2), 1, ZONE) == Success(State(3))
    ensures AddZone(State(3), 2, ZONE) == Success(State(4))
  {
    hide AddZone;
    ZoneAdded(State(2), 1);
    ZoneAdded(State(3), 2);
  }

  lemma {:induction false} PoolAdded(db: Db)
    requires db.pools == map[]
    ensures AddPool(db, 1, POOL, 0) == Success(db.(pools := map[1 := POOL]))
  {
  }

  lemma {:induction false} AddingPool()
    ensures AddPool(State(4), 1, POOL, 0) == Success(State(5))
  {
    hide AddPool;
    PoolAdded(State(4));
  }

  lemma {:induction false} SnapshotAdded(db: Db)
    requires db.snapshots == map[] && 1 in db.workspaces && 1 in db.zones
    ensures RegisterSnapshot(db, 1, SNAPSHOT, 0) ==
            Success(db.(snapshots := map[1 := SNAPSHOT.(state := Registered, version := 1)]))
  {
    hide Blank, Trim;
    SnapshotIsValid();
  }

  lemma {:induction false} Registering()
    ensures RegisterSnapshot(State(5), 1, SNAPSHOT, 0) == Success(State(6))
  {
    hide RegisterSnapshot;
    SnapshotAdded(State(5));
  }

  lemma {:induction false} SnapshotIsValid()
    ensures SNAPSHOT.Valid()
  {
    hide Blank, Trim;
    NotBlank(SNAPSHOT.revision);
    NotBlank(SNAPSHOT.family);
  }

  lemma {:induction false} Validating()
    ensures ValidateSnapshot(PREPARED.(snapshots := map[1 := SNAPSHOT.(state := Registered, version := 1)]), 1,
                             0) == Success(PREPARED)
  {
    hide Blank, Trim;
    SnapshotIsValid();
    var registered := SNAPSHOT.(state := Registered, version := 1);
    assert registered.Valid() && registered.Transition(Validated, 0).Success?;
    assert map[1 := registered][1 := SNAPSHOT] == PREPARED.snapshots;
  }

  // ---------------------------------------------------------------- planning

  lemma {:induction false} PlanChecks()
    ensures RouteCheck(PREPARED, PLAN).None? && InputCheck(PREPARED, PLAN, 0, 0).None?
    ensures WindowCheck(PREPARED, PLAN, 0).None?
  {
    assert RunsInDay(PREPARED.runs, 1, ZONE.clock, 10) == {};
    assert InputCheck(PREPARED, PLAN, 0, 1).None?;
  }

  lemma {:induction false} PlanVolume()
    ensures IdSet(PLAN.snapshotIds) == {1} && Volume(PREPARED.snapshots, {1}) == 50
  {
    SumSplit({1}, RowCounts(PREPARED.snapshots), 1);
    assert {1} * PREPARED.snapshots.Keys == {1} && {1} - {1} == {};
  }

  lemma {:induction false} PlanWrites()
    ensures WriteCheck(PREPARED, PLAN, 1, 1).None? && RequestCheck(PLAN).None? && Trim(PLAN.reference) == "x"
  {
    hide Blank, Trim, Bytes;
    NotBlank(PLAN.key);
    NotBlank(PLAN.reference);
    BytesIff(PLAN.key);
  }

  lemma {:induction false} PoolSuffices()
    ensures RouteCheck(PREPARED, PLAN).None? && CapacityCheck(PREPARED, PLAN, 0).None?
  {
    hide RouteCheck, InputCheck, WindowCheck, Volume, IdSet;
    PlanChecks();
    PlanVolume();
  }

  lemma {:induction false} Planning()
    ensures Plans(PREPARED, PLAN, 0, 1, 1)
  {
    hide RouteCheck, CapacityCheck, WriteCheck, RequestCheck, Trim;
    PoolSuffices();
    PlanWrites();
  }

  lemma {:induction false} Planned()
    ensures PlanPost(PREPARED, PLAN, 0, 1, 1) == PLANNED
  {
    hide Volume, IdSet, Trim;
    PlanVolume();
    PlanWrites();
    assert ReserveRows(PREPARED.snapshots, {1}, 1, 0) == PLANNED.snapshots;
    assert BindInputs(PREPARED.inputs, {1}, 1, 0) == PLANNED.inputs;
  }

  // ---------------------------------------------------------------- moving on

  ghost predicate OneEach(db: Db, run: Run, row: Snapshot, pool: Pool) {
    && db.inputs == map[1 := Input(1, 0)] && db.snapshots == map[1 := row]
    && db.runs == map[1 := run] && db.pools == map[1 := pool] && run.poolId == 1
  }

  /** A run with one input and one pool moves when that input does not object. */
  lemma {:induction false} OneInputMoves(db: Db, run: Run, row: Snapshot, pool: Pool, target: RunState, at: Time)
    requires OneEach(db, run, row, pool)
    requires run.state.MayMove(target) && !target.Cancelled? && InputObjection(row, target, at).None?
    ensures Advances(db, 1, target, at)
  {
    hide InputObjection;
  }

  lemma {:induction false} OneInputMoved(db: Db, run: Run, row: Snapshot, pool: Pool, target: RunState, at: Time)
    requires OneEach(db, run, row, pool)
    ensures AdvancePost(db, 1, target, at, at)
            == db.(snapshots := map[1 := AdvanceRow(row, target, at)],
                   runs := map[1 := run.Stamped(target, at).(state := target, updatedAt := at,
                                                             version := run.version + 1)],
                   pools := map[1 := AdvancePool(pool, target, at)])
  {
    hide AdvanceRow, AdvancePool;
    assert InputsOf(db.inputs, 1) == {1};
    assert AdvanceRows(db.snapshots, {1}, target, at) == map[1 := AdvanceRow(row, target, at)];
    var moved := run.Stamped(target, at).(state := target, updatedAt := at, version := run.version + 1);
    assert map[1 := run][1 := moved] == map[1 := moved];
    assert map[1 := pool][1 := AdvancePool(pool, target, at)] == map[1 := AdvancePool(pool, target, at)];
    hide AdvanceRows, InputsOf;
  }

  lemma {:induction false} StagingAndStarting()
    ensures Advances(PLANNED, 1, RunState.Staged, 0) && AdvancePost(PLANNED, 1, RunState.Staged, 0, 0) == STAGED
    ensures Advances(STAGED, 1, RunState.Running, 10) && AdvancePost(STAGED, 1, RunState.Running, 10, 10) == RUNNING
  {
    hide Advances, AdvancePost;
    OneInputMoves(PLANNED, QUEUED, TAKEN, HELD, RunState.Staged, 0);
    OneInputMoved(PLANNED, QUEUED, TAKEN, HELD, RunState.Staged, 0);
    OneInputMoves(STAGED, STAGED.runs[1], TAKEN, STAGED.pools[1], RunState.Running, 10);
    OneInputMoved(STAGED, STAGED.runs[1], TAKEN, STAGED.pools[1], RunState.Running, 10);
  }

  lemma {:induction false} CompletingAndArchiving()
    ensures Advances(DRIFTED_AGAIN, 1, RunState.Completed, 20)
    ensures AdvancePost(DRIFTED_AGAIN, 1, RunState.Completed, 20, 20) == COMPLETED
    ensures Advances(COMPLETED, 1, RunState.Archived, 21)
    ensures AdvancePost(COMPLETED, 1, RunState.Archived, 21, 21) == ARCHIVED
  {
    hide Advances, AdvancePost;
    OneInputMoves(DRIFTED_AGAIN, STARTED, DECIDED.snapshots[1], DECIDED.pools[1], RunState.Completed, 20);
    OneInputMoved(DRIFTED_AGAIN, STARTED, DECIDED.snapshots[1], DECIDED.pools[1], RunState.Completed, 20);
    OneInputMoves(COMPLETED, FINISHED, COMPLETED.snapshots[1], COMPLETED.pools[1], RunState.Archived, 21);
    OneInputMoved(COMPLETED, FINISHED, COMPLETED.snapshots[1], COMPLETED.pools[1], RunState.Archived, 21);
  }

  // ---------------------------------------------------------------- drift

  const REPORT := Report(1, BAD, 1, 2)

  lemma {:induction false} FirstObservation(db: Db, id: Id, o: Observation)
    requires db.observations == map[] && o.Valid()
    ensures db.InsertObservation(id, o).Success?
  {
    hide Blank;
  }

  lemma {:induction false} BadIsValid()
    ensures BAD.Valid()
  {
    hide Blank;
    NotBlank(BAD.metric);
  }

  lemma {:induction false} ObservationAdmitted()
    ensures AdmitCheck(RUNNING, REPORT).None?
    ensures !InRange(RUNNING, BAD)
    ensures DriftCheck(RUNNING, REPORT).None?
  {
    hide Blank, Db.InsertObservation, ActiveIncident, Observation.Valid;
    BadIsValid();
    FirstObservation(RUNNING, 1, BAD);
    NoneActive();
  }

  lemma {:induction false} NoneActive()
    ensures RUNNING.incidents == map[] && ActiveIncident(RUNNING.incidents, 1).None?
  {
  }

  lemma {:induction false} Observing()
    ensures ObserveCheck(RUNNING, REPORT).None?
    ensures ObservePost(RUNNING, REPORT, 11) == DRIFTED
  {
    hide AdmitCheck, DriftCheck, InRange;
    ObservationAdmitted();
    assert ActiveIncident(RUNNING.incidents, 1).None?;
    assert InputsOf(RUNNING.inputs, 1) == {1};
    assert QuarantineRows(RUNNING.snapshots, {1}, 1, 11) == DRIFTED.snapshots;
    hide ActiveIncident, InputsOf, QuarantineRows;
  }

  lemma {:induction false} ReviewBegins()
    ensures StartReview(DRIFTED, 1, 12) == Success(REVIEWED)
  {
    assert DRIFTED.incidents[1 := REVIEWED.incidents[1]] == REVIEWED.incidents;
  }

  lemma {:induction false} Deciding()
    ensures DecideCheck(REVIEWED, RULING).None?
    ensures DecidePost(REVIEWED, RULING, 13, 13) == DECIDED
  {
    hide Blank, Trim;
    NotBlank(RULING.rationale);
    assert InputsOf(REVIEWED.inputs, 1) == {1};
    assert RuleRows(REVIEWED.snapshots, {1}, RULING, 13) == DECIDED.snapshots;
    assert REVIEWED.incidents[1 := DECIDED.incidents[1]] == DECIDED.incidents;
    hide RuleRows, InputsOf;
  }

  const REPORT_AGAIN := Report(2, WORSE, 2, 3)

  lemma {:induction false} NextObservation(db: Db, first: Observation, o: Observation)
    requires db.observations == map[1 := first] && o.Valid() && o.sequence != first.sequence
    ensures db.InsertObservation(2, o).Success?
  {
    hide Blank;
  }

  lemma {:induction false} WorseIsValid()
    ensures WORSE.Valid()
  {
    hide Blank;
    NotBlank(WORSE.metric);
  }

  lemma {:induction false} NoneActiveAgain()
    ensures ActiveIncident(DECIDED.incidents, 1).None? && 2 !in DECIDED.incidents
  {
  }

  lemma {:induction false} AdmittedAgain()
    ensures AdmitCheck(DECIDED, REPORT_AGAIN).None?
    ensures !InRange(DECIDED, WORSE)
    ensures DriftCheck(DECIDED, REPORT_AGAIN).None?
  {
    hide Blank, Db.InsertObservation, ActiveIncident, Observation.Valid;
    WorseIsValid();
    NextObservation(DECIDED, BAD, WORSE);
    NoneActiveAgain();
  }

  lemma {:induction false} ObservingAgain()
    ensures ObserveCheck(DECIDED, REPORT_AGAIN).None?
    ensures ObservePost(DECIDED, REPORT_AGAIN, 14) == DRIFTED_AGAIN
  {
    hide AdmitCheck, DriftCheck, InRange;
    AdmittedAgain();
    NoneActiveAgain();
    assert InputsOf(DECIDED.inputs, 1) == {1};
    assert QuarantineRows(DECIDED.snapshots, {1}, 2, 14) == DRIFTED_AGAIN.snapshots;
    assert DECIDED.observations[2 := WORSE] == DRIFTED_AGAIN.observations;
    assert DECIDED.incidents[2 := SECOND] == DRIFTED_AGAIN.incidents;
    assert DECIDED.jobs[3 := ReviewJob(2, 14)] == DRIFTED_AGAIN.jobs;
    hide ActiveIncident, InputsOf, QuarantineRows, ReviewJob;
  }

  // ---------------------------------------------------------------- the whole life

  lemma {:induction false} SettingUp(n: nat)
    requires n < 7
    ensures Apply(State(n), Life()[n]) == State(n + 1)
  {
    StateSeven();
    hide Apply, State, AddWorkspace, ActivateWorkspace, AddZone, AddPool, RegisterSnapshot, ValidateSnapshot;
    Applies(State(n), Life()[n]);
    if n < 2 {
      AddingWorkspace();
    } else if n < 4 {
      AddingZones();
    } else if n == 4 {
      AddingPool();
    } else if n == 5 {
      Registering();
    } else {
      Validating();
    }
  }

  lemma StateSeven()
    ensures State(6) == PREPARED.(snapshots := map[1 := SNAPSHOT.(state := Registered, version := 1)])
    ensures State(7) == PREPARED
  {
  }

  lemma {:induction false} Step7()
    ensures Apply(PREPARED, Life()[7]) == PLANNED
  {
    hide Apply, Plans, PlanPost;
    Planning();
    Planned();
    Applies(PREPARED, Event(0, Plan(PLAN, 1, 1)));
  }

  lemma {:induction false} Moved()
    ensures Apply(PLANNED, Life()[8]) == STAGED
    ensures Apply(STAGED, Life()[9]) == RUNNING
  {
    hide Apply, Advances, AdvancePost;
    StagingAndStarting();
    Applies(PLANNED, Event(0, Advance(1, RunState.Staged, 0)));
    Applies(STAGED, Event(10, Advance(1, RunState.Running, 10)));
  }

  lemma {:induction false} Ended()
    ensures Apply(DRIFTED_AGAIN, Life()[14]) == COMPLETED
    ensures Apply(COMPLETED, Life()[15]) == ARCHIVED
  {
    hide Apply, Advances, AdvancePost;
    CompletingAndArchiving();
    Applies(DRIFTED_AGAIN, Event(20, Advance(1, RunState.Completed, 20)));
    Applies(COMPLETED, Event(21, Advance(1, RunState.Archived, 21)));
  }

  lemma {:induction false} Drifting()
    ensures Apply(RUNNING, Life()[10]) == DRIFTED
    ensures Apply(DECIDED, Life()[13]) == DRIFTED_AGAIN
  {
    hide Apply, ObserveCheck, ObservePost;
    Observing();
    ObservingAgain();
    Applies(RUNNING, Event(11, Observe(REPORT)));
    Applies(DECIDED, Event(14, Observe(REPORT_AGAIN)));
  }

  lemma {:induction false} Reviewed()
    ensures Apply(DRIFTED, Life()[11]) == REVIEWED
    ensures Apply(REVIEWED, Life()[12]) == DECIDED
  {
    hide Apply, StartReview, DecideCheck, DecidePost;
    ReviewBegins();
    Deciding();
    Applies(DRIFTED, Event(12, Review(1)));
    Applies(REVIEWED, Event(13, Request.Decide(RULING, 13)));
  }

  lemma {:induction false} NextState(n: nat)
    requires n < 16
    ensures Apply(State(n), Life()[n]) == State(n + 1)
  {
    hide Apply;
    if n < 7 {
      SettingUp(n);
    } else {
      Step7();
      Moved();
      Drifting();
      Reviewed();
      Ended();
    }
  }

  /** Every request of the life is accepted, and leads through the states listed above. */
  lemma {:induction false} LifeGoesOn(n: nat)
    requires n <= 16
    ensures After(Life()[..n]) == State(n)
  {
    hide Apply, State, Life;
    assert |Life()| == 16 by { LifeIsLong(); }
    if n == 0 {
      StateZero();
    } else {
      LifeGoesOn(n - 1);
      OneMoreStep(Life(), n - 1);
      NextState(n - 1);
    }
  }

  lemma LifeIsLong()
    ensures |Life()| == 16
  {
  }

  lemma StateZero()
    ensures State(0) == EMPTY
  {
  }

  lemma LifeIsOrdered()
    ensures Chronological(Life())
  {
  }

  lemma {:induction false} LifeCreates()
    ensures Creates(Life(), 7)
  {
    hide After, Apply, Plans;
    LifeGoesOn(7);
    Planning();
  }

  /**
    A run can be planned, found drifting, reviewed, cleared, found drifting again, completed and
    archived, its pool free again. Completing and archiving find the second incident still open.
   */
  lemma {:induction false} AWholeLife()
    ensures Chronological(Life()) && Creates(Life(), 7)
    ensures var db := After(Life());
            && 1 in db.runs && db.runs[1].state.Archived?
            && 1 in db.incidents && db.incidents[1].status.Cleared? && db.incidents[1].count == 1
            && 1 in db.snapshots && db.snapshots[1].state.Approved? && 1 in db.inputs
            && 1 in db.pools && db.pools[1].state.Available?
            && HasActive(db.incidents, 1)
    ensures var db := After(Life()[..15]);
            && 1 in db.runs && db.runs[1].state.Completed? && HasActive(db.incidents, 1)
            && Advances(db, 1, RunState.Archived, 21)
  {
    LifeIsLong();
    hide After, Apply, Creates, Chronological, Life, Advances;
    assert Life()[..16] == Life();
    LifeGoesOn(16);
    LifeGoesOn(15);
    LifeIsOrdered();
    LifeCreates();
    CompletingAndArchiving();
    assert ActiveFor(COMPLETED.incidents, 2, 1);
  }

  // ---------------------------------------------------------------- a run that is stuck

  /** The same run, whose one input is validated again before the start. */
  function StuckLife(): History {
    Life()[..8] + [Event(0, Validate(1))]
  }

  const REVALIDATED := PLANNED.(snapshots := map[1 := TAKEN.(state := Validated, version := 4)])

  lemma {:induction false} Revalidating()
    ensures ValidateSnapshot(PLANNED, 1, 0) == Success(REVALIDATED)
  {
    hide Blank, Trim;
    SnapshotIsValid();
    assert TAKEN.Valid() && TAKEN.Transition(Validated, 0).Success?;
    assert map[1 := TAKEN][1 := TAKEN.(state := Validated, version := 4)] == REVALIDATED.snapshots;
  }

  lemma {:induction false} StuckState()
    ensures After(StuckLife()) == REVALIDATED
  {
    LifeIsLong();
    hide After, Apply, ValidateSnapshot, Life;
    LifeGoesOn(8);
    Revalidating();
    assert StuckLife()[..8] == Life()[..8] && StuckLife()[..9] == StuckLife();
    OneMoreStep(StuckLife(), 8);
    Applies(PLANNED, Event(0, Validate(1)));
  }

  /** Planning a run and then validating its snapshot is enough: whatever is asked afterwards, the run stays
      queued or staged. */
  lemma {:induction false} AStuckLife(more: History)
    ensures var db := After(StuckLife());
            && 1 in db.runs && db.runs[1].state.Queued? && Waits(db, 1, 1) && db.snapshots[1].state.Validated?
            && !Leaves(StuckLife(), more, 1)
            && HeldForGood(db, After(StuckLife() + more), 1, 1)
  {
    hide After, Leaves, HeldForGood, StuckLife;
    StuckState();
    ForGood(more);
  }

  lemma {:induction false} ForGood(more: History)
    requires Waits(After(StuckLife()), 1, 1) && After(StuckLife()).snapshots[1].state.Validated?
    ensures HeldForGood(After(StuckLife()), After(StuckLife() + more), 1, 1) && !Leaves(StuckLife(), more, 1)
  {
    hide After;
    var h := StuckLife() + more;
    hide StuckLife;
    assert h[..|StuckLife()|] == StuckLife();
    ValidatedInputsBar(h, |StuckLife()|, 1, 1);
  }
}
