/**
  The platform over whole histories: any requests, at any instants, in any order. A request that
  is refused leaves the tables as they were; an accepted one is a single atomic step.
 */
module Histories {
  import opened Base
  import opened BusinessDay
  import opened Domain
  import opened Jobs
  import opened Tables
  import opened Lifecycle
  import opened Operations
  import opened Invariant
  import opened PlanInvariant
  import opened RunInvariant
  import opened DriftInvariant
  import opened CatalogInvariant

  /** Requests, with the identifiers their new rows would get. */
  datatype Request =
    | CreateWorkspace(id: Id, workspace: Workspace)
    | Activate(id: Id)
    | CreateZone(id: Id, zone: Zone)
    | CreatePool(id: Id, pool: Pool)
    | Maintain(id: Id, change: PoolChange)
    | Register(id: Id, snapshot: Snapshot)
    | Validate(id: Id)
    | Plan(plan: PlanRequest, runId: Id, jobId: Id)
    | Advance(runId: Id, target: RunState, began: Time)
    | Cancel(runId: Id)
    | Observe(report: Report)
    | Review(id: Id)
    | Decide(ruling: Ruling, began: Time)
    | Ask(id: Id, runId: Id, requester: Id, reviewer: Id, queue: string, expiresAt: Time)
    | Resolve(id: Id, accepted: bool, note: string, who: Principal)
    | Pass(limit: nat, lapsed: seq<Id>, claimed: seq<Id>)

  datatype Event = Event(now: Time, request: Request)

  type History = seq<Event>

  ghost function Apply(db: Db, e: Event): Db {
    match e.request
    case CreateWorkspace(id, row) => OrKeep(AddWorkspace(db, id, row), db)
    case Activate(id) => OrKeep(ActivateWorkspace(db, id), db)
    case CreateZone(id, row) => OrKeep(AddZone(db, id, row), db)
    case CreatePool(id, row) => OrKeep(AddPool(db, id, row.(reservedRun := None), e.now), db)
    case Maintain(id, change) => OrKeep(ChangePool(db, id, change, e.now), db)
    case Register(id, row) => OrKeep(RegisterSnapshot(db, id, row.(runId := None), e.now), db)
    case Validate(id) => OrKeep(ValidateSnapshot(db, id, e.now), db)
    case Plan(q, runId, jobId) => if Plans(db, q, e.now, runId, jobId) then PlanPost(db, q, e.now, runId, jobId) else db
    case Advance(runId, target, began) =>
      if Advances(db, runId, target, e.now) then AdvancePost(db, runId, target, began, e.now) else db
    case Cancel(runId) => if Cancels(db, runId, e.now) then CancelPost(db, runId, e.now) else db
    case Observe(r) => if ObserveCheck(db, r).None? then ObservePost(db, r, e.now) else db
    case Review(id) => OrKeep(StartReview(db, id, e.now), db)
    case Decide(r, began) => if DecideCheck(db, r).None? then DecidePost(db, r, began, e.now) else db
    case Ask(id, runId, requester, reviewer, queue, expiresAt) =>
      OrKeep(RequestApproval(db, id, runId, requester, reviewer, queue, expiresAt, e.now), db)
    case Resolve(id, accepted, note, who) => OrKeep(ResolveApproval(db, id, accepted, note, who, e.now), db)
    case Pass(limit, lapsed, claimed) =>
      if PassMayTake(db, limit, lapsed, claimed, e.now) then PassPost(db, lapsed, claimed, e.now) else db
  }

  ghost function After(h: History): Db {
    if h == [] then EMPTY else Apply(After(h[..|h| - 1]), h[|h| - 1])
  }

  // ---------------------------------------------------------------- every reachable state

  lemma {:induction false} NothingStored()
    ensures RowsKept(EMPTY) && InputsKept(EMPTY) && DriftKept(EMPTY)
  {
  }

  lemma {:induction false} EmptyInv()
    ensures Inv(EMPTY)
  {
    hide RowsKept, InputsKept, DriftKept;
    NothingStored();
    forall z, at ensures z in EMPTY.zones ==>
      |RunsInDay(EMPTY.runs, z, EMPTY.zones[z].clock, at)| <= EMPTY.zones[z].dailyLimit {}
  }

  lemma {:induction false} CatalogStepKeepsInv(db: Db, e: Event)
    requires Inv(db) && (e.request.CreateWorkspace? || e.request.Activate? || e.request.CreateZone?)
    ensures Inv(Apply(db, e))
  {
    hide Inv, AddWorkspace, ActivateWorkspace, AddZone;
    match e.request
    case CreateWorkspace(id, row) => if AddWorkspace(db, id, row).Success? { AddWorkspaceKeepsInv(db, id, row); }
    case Activate(id) => if ActivateWorkspace(db, id).Success? { ActivateKeepsInv(db, id); }
    case CreateZone(id, row) => if AddZone(db, id, row).Success? { AddZoneKeepsInv(db, id, row); }
  }

  lemma {:induction false} RowStepKeepsInv(db: Db, e: Event)
    requires Inv(db)
    requires e.request.CreatePool? || e.request.Maintain? || e.request.Register? || e.request.Validate? ||
             e.request.Review?
             || e.request.Ask? || e.request.Resolve?
    ensures Inv(Apply(db, e))
  {
    hide Inv, AddPool, ChangePool, RegisterSnapshot, ValidateSnapshot, StartReview, RequestApproval, ResolveApproval;
    match e.request
    case CreatePool(id, row) =>
      if AddPool(db, id, row.(reservedRun := None),
                 e.now).Success? { AddPoolKeepsInv(db, id, row.(reservedRun := None), e.now); }
    case Maintain(id, change) =>
      if ChangePool(db, id, change, e.now).Success? { ChangePoolKeepsInv(db, id, change, e.now); }
    case Register(id, row) =>
      if RegisterSnapshot(db, id, row.(runId := None),
                          e.now).Success? { RegisterKeepsInv(db, id, row.(runId := None), e.now); }
    case Validate(id) => if ValidateSnapshot(db, id, e.now).Success? { ValidateKeepsInv(db, id, e.now); }
    case Review(id) => if StartReview(db, id, e.now).Success? { ReviewKeepsInv(db, id, e.now); }
    case Ask(id, runId, requester, reviewer, queue, expiresAt) =>
      if RequestApproval(db, id, runId, requester, reviewer, queue, expiresAt, e.now).Success? {
        RequestApprovalKeepsInv(db, id, runId, requester, reviewer, queue, expiresAt, e.now);
      }
    case Resolve(id, accepted, note, who) =>
      if ResolveApproval(db, id, accepted, note, who,
                         e.now).Success? { ResolveApprovalKeepsInv(db, id, accepted, note, who, e.now); }
  }

  lemma {:induction false} PlanStepKeepsInv(db: Db, q: PlanRequest, runId: Id, jobId: Id, now: Time)
    requires Inv(db) && Plans(db, q, now, runId, jobId)
    ensures q.poolId in db.pools && Inv(PlanPost(db, q, now, runId, jobId))
  {
    hide Inv;
    AcceptedPlan(db, q, now, runId, jobId);
    hide Plans, PlanCheck, PlanPost;
    PlanKeepsInv(db, q, now, runId, jobId);
  }

  lemma {:induction false} ObserveStepKeepsInv(db: Db, r: Report, now: Time)
    requires Inv(db) && ObserveCheck(db, r).None?
    ensures r.observation.runId in db.runs && db.runs[r.observation.runId].workspaceId in db.workspaces
    ensures Inv(ObservePost(db, r, now))
  {
    assert r.observation.runId in db.runs && db.runs[r.observation.runId].workspaceId in db.workspaces;
    hide Inv, ObserveCheck, ObservePost;
    ObserveKeepsInv(db, r, now);
  }

  lemma {:induction false} RunStepKeepsInv(db: Db, e: Event)
    requires Inv(db)
    requires e.request.Plan? || e.request.Advance? || e.request.Cancel? || e.request.Observe? || e.request.Decide? ||
             e.request.Pass?
    ensures Inv(Apply(db, e))
  {
    hide Inv, Plans, PlanPost, AdvancePost, CancelPost, ObserveCheck, ObservePost, DecidePost, PassMayTake, PassPost;
    match e.request
    case Plan(q, runId, jobId) => if Plans(db, q, e.now, runId, jobId) { PlanStepKeepsInv(db, q, runId, jobId, e.now); }
    case Advance(runId, target, began) =>
      if Advances(db, runId, target, e.now) { AdvanceKeepsInv(db, runId, target, began, e.now); }
    case Cancel(runId) => if Cancels(db, runId, e.now) { CancelKeepsInv(db, runId, e.now); }
    case Observe(r) => if ObserveCheck(db, r).None? { ObserveStepKeepsInv(db, r, e.now); }
    case Decide(r, began) => if DecideCheck(db, r).None? { DecideKeepsInv(db, r, began, e.now); }
    case Pass(limit, lapsed, claimed) =>
      if PassMayTake(db, limit, lapsed, claimed, e.now) { PassKeepsInv(db, limit, lapsed, claimed, e.now); }
  }

  lemma {:induction false} StepKeepsInv(db: Db, e: Event)
    requires Inv(db)
    ensures Inv(Apply(db, e))
  {
    hide Inv, Apply;
    match e.request
    case CreateWorkspace(_, _) => CatalogStepKeepsInv(db, e);
    case Activate(_) => CatalogStepKeepsInv(db, e);
    case CreateZone(_, _) => CatalogStepKeepsInv(db, e);
    case CreatePool(_, _) => RowStepKeepsInv(db, e);
    case Maintain(_, _) => RowStepKeepsInv(db, e);
    case Register(_, _) => RowStepKeepsInv(db, e);
    case Validate(_) => RowStepKeepsInv(db, e);
    case Review(_) => RowStepKeepsInv(db, e);
    case Ask(_, _, _, _, _, _) => RowStepKeepsInv(db, e);
    case Resolve(_, _, _, _) => RowStepKeepsInv(db, e);
    case _ => RunStepKeepsInv(db, e);
  }

  /** Whatever the platform is asked to do, the cross-table facts hold afterwards. */
  lemma {:induction false} AlwaysInv(h: History)
    ensures Inv(After(h))
  {
    hide Inv, Apply;
    if h == [] {
      EmptyInv();
    } else {
      AlwaysInv(h[..|h| - 1]);
      StepKeepsInv(After(h[..|h| - 1]), h[|h| - 1]);
    }
  }

  lemma {:induction false} OneMoreStep(h: History, n: nat)
    requires n < |h|
    ensures After(h[..n + 1]) == Apply(After(h[..n]), h[n])
  {
    hide Apply;
    assert h[..n + 1][..n] == h[..n];
  }

  /** Time does not run backwards. */
  ghost predicate Chronological(h: History) {
    forall j, k :: 0 <= j < k < |h| ==> h[j].now <= h[k].now
  }

  /** How each kind of request is applied, for proofs that need not look into the requests themselves. */
  lemma {:induction false} Applies(db: Db, e: Event)
    ensures match e.request
            case CreateWorkspace(id, row) => Apply(db, e) == OrKeep(AddWorkspace(db, id, row), db)
            case Activate(id) => Apply(db, e) == OrKeep(ActivateWorkspace(db, id), db)
            case CreateZone(id, row) => Apply(db, e) == OrKeep(AddZone(db, id, row), db)
            case CreatePool(id, row) => Apply(db, e) == OrKeep(AddPool(db, id, row.(reservedRun := None), e.now), db)
            case Maintain(id, change) => Apply(db, e) == OrKeep(ChangePool(db, id, change, e.now), db)
            case Register(id, row) => Apply(db, e) == OrKeep(RegisterSnapshot(db, id, row.(runId := None), e.now), db)
            case Validate(id) => Apply(db, e) == OrKeep(ValidateSnapshot(db, id, e.now), db)
            case Plan(q, runId, jobId) =>
              if Plans(db, q, e.now, runId, jobId)
              then q.poolId in db.pools && Apply(db, e) == PlanPost(db, q, e.now, runId, jobId)
              else Apply(db, e) == db
            case Advance(runId, target, began) =>
              if Advances(db, runId, target, e.now)
              then runId in db.runs && db.runs[runId].poolId in db.pools && Apply(db, e) ==
                AdvancePost(db, runId, target, began, e.now)
              else Apply(db, e) == db
            case Cancel(runId) =>
              if Cancels(db, runId, e.now)
              then runId in db.runs && db.runs[runId].poolId in db.pools && Apply(db, e) == CancelPost(db, runId, e.now)
              else Apply(db, e) == db
            case Observe(r) =>
              if ObserveCheck(db, r).None?
              then
                && r.observation.runId in db.runs && db.runs[r.observation.runId].workspaceId in db.workspaces
                && Apply(db, e) == ObservePost(db, r, e.now)
              else Apply(db, e) == db
            case Review(id) => Apply(db, e) == OrKeep(StartReview(db, id, e.now), db)
            case Decide(r, began) =>
              if DecideCheck(db, r).None?
              then r.incidentId in db.incidents && Apply(db, e) == DecidePost(db, r, began, e.now)
              else Apply(db, e) == db
            case Ask(id, runId, requester, reviewer, queue, expiresAt) =>
              Apply(db, e) == OrKeep(RequestApproval(db, id, runId, requester, reviewer, queue, expiresAt, e.now), db)
            case Resolve(id, accepted, note, who) =>
              Apply(db, e) == OrKeep(ResolveApproval(db, id, accepted, note, who, e.now), db)
            case Pass(limit, lapsed, claimed) =>
              Apply(db, e) == if PassMayTake(db, limit, lapsed, claimed, e.now)
                then PassPost(db, lapsed, claimed, e.now) else db
  {
    hide AddWorkspace, ActivateWorkspace, AddZone, AddPool, ChangePool, RegisterSnapshot, ValidateSnapshot;
    hide Plans, PlanPost, AdvancePost, CancelPost, ObserveCheck, ObservePost, StartReview, DecidePost;
    hide RequestApproval, ResolveApproval, PassMayTake, PassPost, OrKeep, InputObjection, Blank;
    match e.request
    case Plan(q, runId, jobId) => if Plans(db, q, e.now, runId, jobId) { PlannedPool(db, q, e.now, runId, jobId); }
    case Observe(r) => if ObserveCheck(db, r).None? { ObservationHasRun(db, r); }
    case _ =>
  }

  lemma {:induction false} PlannedPool(db: Db, q: PlanRequest, now: Time, runId: Id, jobId: Id)
    requires Plans(db, q, now, runId, jobId)
    ensures q.poolId in db.pools
  {
    hide Plans, Fresh, Reservable, RunsInDay, Blank, Trim, Volume;
    AcceptedPlan(db, q, now, runId, jobId);
  }

  // ---------------------------------------------------------------- what a request leaves alone

  ghost predicate Framed(q: Request, db: Db, after: Db) {
    after == Db(
      if q.CreateWorkspace? || q.Activate? then after.workspaces else db.workspaces,
      if q.CreateZone? then after.zones else db.zones,
      if q.Register? || q.Validate? || MovesRuns(q) || q.Observe? || q.Decide? then after.snapshots else db.snapshots,
      if q.CreatePool? || q.Maintain? || MovesRuns(q) then after.pools else db.pools,
      if MovesRuns(q) then after.runs else db.runs,
      if q.Plan? || q.Cancel? then after.inputs else db.inputs,
      if q.Observe? || q.Review? || q.Decide? then after.incidents else db.incidents,
      if q.Observe? then after.observations else db.observations,
      if q.Decide? then after.decisions else db.decisions,
      if q.Ask? || q.Resolve? || q.Pass? then after.approvals else db.approvals,
      if q.Plan? then after.answers else db.answers,
      if q.Plan? || q.Observe? || q.Pass? then after.jobs else db.jobs)
  }

  predicate MovesRuns(q: Request) {
    q.Plan? || q.Advance? || q.Cancel?
  }

  lemma {:induction false} StepFramed(db: Db, e: Event)
    ensures Framed(e.request, db, Apply(db, e))
  {
    hide AddWorkspace, ActivateWorkspace, AddZone, AddPool, ChangePool, RegisterSnapshot, ValidateSnapshot, Plans;
    hide PlanPost;
    hide Advances, AdvancePost, Cancels, CancelPost, ObserveCheck, ObservePost, StartReview, DecideCheck, DecidePost;
    hide RequestApproval, ResolveApproval, PassMayTake, PassPost;
  }
}
