/** Approvals and jobs over whole platform histories: deadlines kept, and the outbox refined. */
module Settlements {
  import opened Base
  import opened Domain
  import opened Batches
  import opened Jobs
  import opened Tables
  import opened Lifecycle
  import opened Operations
  import opened Invariant
  import opened PlanInvariant
  import opened DriftInvariant
  import opened Histories
  import opened Evidence
  import Outbox

  // ---------------------------------------------------------------- approvals

  /** Accepted and declined approvals met their deadline, lapsed ones did not, and a run has at most one pending. */
  lemma {:induction false} DeadlinesAreKept(h: History, a: Id, b: Id)
    requires a in After(h).approvals && b in After(h).approvals
    ensures var row := After(h).approvals[a];
            match row.status
            case Pending => row.resolvedAt.None?
            case Lapsed => row.resolvedAt.Some? && row.resolvedAt.value >= row.expiresAt
            case _ => row.resolvedAt.Some? && row.resolvedAt.value < row.expiresAt
    ensures (After(h).approvals[a].status.Pending? && After(h).approvals[b].status.Pending?
             && After(h).approvals[a].runId == After(h).approvals[b].runId) ==> a == b
  {
    AlwaysInv(h);
    hide After, RowsKept, InputsKept, PoolsHeld, DriftKept, DaysWithinLimit, AnswersKept, Blank;
    assert After(h).approvals[a].status.Pending? ==> PendingFor(After(h).approvals, a, After(h).approvals[a].runId);
    assert After(h).approvals[b].status.Pending? ==> PendingFor(After(h).approvals, b, After(h).approvals[b].runId);
  }

  ghost predicate StaysResolved(approvals: map<Id, Approval>, after: map<Id, Approval>) {
    forall a :: a in approvals && !approvals[a].status.Pending? ==> a in after && after[a] == approvals[a]
  }

  lemma {:induction false} WritingStays(approvals: map<Id, Approval>, a: Id, row: Approval)
    requires a !in approvals || approvals[a].status.Pending?
    ensures StaysResolved(approvals, approvals[a := row])
  {
  }

  lemma {:induction false} AskingStays(
      db: Db, id: Id, runId: Id, requester: Id, reviewer: Id, queue: string, expiresAt: Time, now: Time)
    ensures var r := RequestApproval(db, id, runId, requester, reviewer, queue, expiresAt, now);
            StaysResolved(db.approvals, OrKeep(r, db).approvals)
  {
    hide StaysResolved, Trim, Blank;
    var r := RequestApproval(db, id, runId, requester, reviewer, queue, expiresAt, now);
    if r.Success? {
      WritingStays(db.approvals, id, r.value.approvals[id]);
    } else {
      NothingStays(db.approvals);
    }
  }

  lemma {:induction false} ResolvingStays(db: Db, id: Id, accepted: bool, note: string, who: Principal, now: Time)
    ensures StaysResolved(db.approvals, OrKeep(ResolveApproval(db, id, accepted, note, who, now), db).approvals)
  {
    hide StaysResolved, Trim, Blank;
    var r := ResolveApproval(db, id, accepted, note, who, now);
    if r.Success? {
      WritingStays(db.approvals, id, r.value.approvals[id]);
    } else {
      NothingStays(db.approvals);
    }
  }

  lemma {:induction false} NothingStays(approvals: map<Id, Approval>)
    ensures StaysResolved(approvals, approvals)
  {
  }

  lemma {:induction false} LapsingStays(approvals: map<Id, Approval>, limit: nat, lapsed: seq<Id>, now: Time)
    requires OldestFirst(Overdue(approvals, now), limit, lapsed)
    ensures StaysResolved(approvals, LapseAll(approvals, IdSet(lapsed), now))
  {
    forall a | a in lapsed ensures a in Overdue(approvals, now) {}
  }

  lemma {:induction false} ApprovalStepStays(db: Db, e: Event)
    requires e.request.Ask? || e.request.Resolve? || e.request.Pass?
    ensures StaysResolved(db.approvals, Apply(db, e).approvals)
  {
    hide Apply, StaysResolved, RequestApproval, ResolveApproval, OldestFirst, LapseAll, IdSet, Overdue;
    Applies(db, e);
    match e.request
    case Ask(id, runId, requester, reviewer, queue, expiresAt) =>
      AskingStays(db, id, runId, requester, reviewer, queue, expiresAt, e.now);
    case Resolve(id, accepted, note, who) => ResolvingStays(db, id, accepted, note, who, e.now);
    case Pass(limit, lapsed, claimed) =>
      NothingStays(db.approvals);
      if PassMayTake(db, limit, lapsed, claimed, e.now) {
        LapsingStays(db.approvals, limit, lapsed, e.now);
      }
  }

  lemma {:induction false} SomeSpareApprovals(q: Request, db: Db, after: Db)
    requires Framed(q, db, after) && !q.Ask? && !q.Resolve? && !q.Pass?
    ensures after.approvals == db.approvals
  {
  }

  /** Whatever is resolved stays as it is. */
  lemma {:induction false} ResolvedForGood(h: History, n: nat, a: Id)
    requires n <= |h| && a in After(h[..n]).approvals && !After(h[..n]).approvals[a].status.Pending?
    ensures a in After(h).approvals && After(h).approvals[a] == After(h[..n]).approvals[a]
    decreases |h|
  {
    hide Apply, Framed;
    if n == |h| {
      assert h[..n] == h;
    } else {
      var before, e := h[..|h| - 1], h[|h| - 1];
      assert before[..n] == h[..n];
      ResolvedForGood(before, n, a);
      match e.request
      case Ask(_, _, _, _, _, _) => ApprovalStepStays(After(before), e);
      case Resolve(_, _, _, _) => ApprovalStepStays(After(before), e);
      case Pass(_, _, _) => ApprovalStepStays(After(before), e);
      case _ =>
        StepFramed(After(before), e);
        SomeSpareApprovals(e.request, After(before), After(h));
    }
  }

  /** A pass retires exactly the smaller of the batch size and the number overdue, oldest deadline first. */
  lemma {:induction false} PassRetiresABatch(db: Db, limit: nat, lapsed: seq<Id>, claimed: seq<Id>, now: Time)
    requires PassMayTake(db, limit, lapsed, claimed, now)
    ensures var due := Overdue(db.approvals, now);
            var left := Overdue(PassPost(db, lapsed, claimed, now).approvals, now);
            && |left| == (if |due| <= limit then 0 else |due| - limit)
            && left.Keys == due.Keys - IdSet(lapsed)
            && forall a, b :: a in lapsed && b in left ==> db.approvals[a].expiresAt <= db.approvals[b].expiresAt
  {
    var due := Overdue(db.approvals, now);
    var left := Overdue(PassPost(db, lapsed, claimed, now).approvals, now);
    hide SettleAll, Due, Trim;
    assert left.Keys == due.Keys - IdSet(lapsed);
    DistinctSize(lapsed);
    assert IdSet(lapsed) <= due.Keys;
    assert |due| == |due.Keys| && |left| == |left.Keys|;
    assert |due.Keys - IdSet(lapsed)| == |due.Keys| - |IdSet(lapsed)|;
  }

  // ---------------------------------------------------------------- the outbox

  /** What a request means to the outbox: a new job, a worker's pass, or nothing. */
  ghost function OutboxEvents(db: Db, e: Event): Outbox.History {
    match e.request
    case Plan(q, runId, jobId) =>
      if Plans(db, q, e.now, runId, jobId) then [Outbox.Enqueue(jobId, PlannedJob(runId, e.now))] else []
    case Observe(r) =>
      if Drifts(db, e) then [Outbox.Enqueue(r.jobId, ReviewJob(Absorber(db, r), e.now))] else []
    case Pass(limit, lapsed, claimed) =>
      if PassMayTake(db, limit, lapsed, claimed, e.now) then [Outbox.Pass(e.now, limit, claimed)] else []
    case _ => []
  }

  ghost function OutboxHistory(h: History): Outbox.History {
    if h == [] then [] else OutboxHistory(h[..|h| - 1]) + OutboxEvents(After(h[..|h| - 1]), h[|h| - 1])
  }

  /** One request does to the jobs what its outbox event does. */
  ghost predicate Refines(jobs: map<Id, Job>, events: Outbox.History, after: map<Id, Job>) {
    && |events| <= 1
    && (events == [] ==> after == jobs)
    && (|events| == 1 ==> Outbox.Happens(jobs, events[0]) && after == Outbox.Next(jobs, events[0]))
  }

  lemma {:induction false} PlanningEnqueues(db: Db, q: PlanRequest, now: Time, runId: Id, jobId: Id)
    requires Plans(db, q, now, runId, jobId)
    ensures q.poolId in db.pools && jobId !in db.jobs
    ensures PlanPost(db, q, now, runId, jobId).jobs == db.jobs[jobId := PlannedJob(runId, now)]
  {
    AcceptedPlan(db, q, now, runId, jobId);
    hide Plans, Fresh, Reservable, RunsInDay, Blank, Trim, Volume, ReserveRows, BindInputs, HoldPool, IdSet, NewRun;
  }

  lemma {:induction false} ObservingEnqueues(db: Db, r: Report, now: Time)
    requires ObserveCheck(db, r).None?
    requires r.observation.runId in db.runs && db.runs[r.observation.runId].workspaceId in db.workspaces
    ensures !InRange(db, r.observation) ==> r.jobId !in db.jobs
    ensures ObservePost(db, r, now).jobs == if InRange(db, r.observation) then db.jobs
             else db.jobs[r.jobId := ReviewJob(Absorber(db, r), now)]
  {
    assert !InRange(db, r.observation) ==> r.jobId !in db.jobs;
    hide ObserveCheck, InRange, Absorber, AbsorbedInto, ActiveIncident, QuarantineRows, InputsOf, ReviewJob;
    if InRange(db, r.observation) {
    } else {
    }
  }

  lemma {:induction false} ProducersRefine(db: Db, e: Event)
    requires e.request.Plan? || e.request.Observe? || e.request.Pass?
    ensures Refines(db.jobs, OutboxEvents(db, e), Apply(db, e).jobs)
  {
    hide Apply, Plans, PlanPost, ObserveCheck, ObservePost, OldestFirst, LapseAll, SettleAll, IdSet, Overdue, Due;
    hide InRange, Absorber;
    Applies(db, e);
    match e.request
    case Plan(q, runId, jobId) =>
      if Plans(db, q, e.now, runId, jobId) {
        PlanningEnqueues(db, q, e.now, runId, jobId);
      }
    case Observe(r) =>
      if ObserveCheck(db, r).None? {
        ObservationHasRun(db, r);
        ObservingEnqueues(db, r, e.now);
      }
    case Pass(_, _, _) =>
  }

  lemma {:induction false} SomeSpareJobs(q: Request, db: Db, after: Db)
    requires Framed(q, db, after) && !q.Plan? && !q.Observe? && !q.Pass?
    ensures after.jobs == db.jobs
  {
  }

  lemma {:induction false} StepRefines(db: Db, e: Event)
    ensures Refines(db.jobs, OutboxEvents(db, e), Apply(db, e).jobs)
  {
    hide Apply, Framed, Plans, ObserveCheck, InRange, Absorber, PassMayTake;
    match e.request
    case Plan(_, _, _) => ProducersRefine(db, e);
    case Observe(_) => ProducersRefine(db, e);
    case Pass(_, _, _) => ProducersRefine(db, e);
    case _ =>
      StepFramed(db, e);
      SomeSpareJobs(e.request, db, Apply(db, e));
  }

  lemma {:induction false} AppendedEvents(past: Outbox.History, events: Outbox.History, after: map<Id, Job>)
    requires Outbox.Possible(map[], past) && Refines(Outbox.After(map[], past), events, after)
    ensures Outbox.Possible(map[], past + events) && Outbox.After(map[], past + events) == after
  {
    hide Outbox.Happens, Outbox.Next;
    if events == [] {
      assert past + events == past;
    } else {
      var all, e := past + events, events[0];
      assert all == past + [e] && all[..|all| - 1] == past && all[|all| - 1] == e;
    }
  }

  lemma {:induction false} JobsFromTheStart(h: History)
    ensures Outbox.Possible(map[], OutboxHistory(h)) && Outbox.After(map[], OutboxHistory(h)) == After(h).jobs
  {
    hide Apply, OutboxEvents, Refines;
    if h == [] {
    } else {
      JobsFromTheStart(h[..|h| - 1]);
      StepRefines(After(h[..|h| - 1]), h[|h| - 1]);
      AppendedEvents(OutboxHistory(h[..|h| - 1]), OutboxEvents(After(h[..|h| - 1]), h[|h| - 1]), After(h).jobs);
    }
  }

  /** What the requests after the first n mean to the outbox. */
  ghost function OutboxSince(h: History, n: nat): Outbox.History
    requires n <= |h|
  {
    if n == |h| then [] else OutboxSince(h[..|h| - 1], n) + OutboxEvents(After(h[..|h| - 1]), h[|h| - 1])
  }

  lemma {:induction false} SinceIsTheRest(h: History, n: nat)
    requires n <= |h|
    ensures OutboxHistory(h) == OutboxHistory(h[..n]) + OutboxSince(h, n)
  {
    hide After, OutboxEvents;
    if n == |h| {
      assert h[..n] == h;
    } else {
      SinceIsTheRest(h[..|h| - 1], n);
      assert h[..|h| - 1][..n] == h[..n];
    }
  }

  /**
    From any point of any history on, the platform's jobs are those of a possible outbox history, so
    what is proved of the jobs in an outbox holds of every job of the platform from then on.
   */
  lemma {:induction false} JobsAreAnOutbox(h: History, n: nat)
    requires n <= |h|
    ensures Outbox.Possible(After(h[..n]).jobs, OutboxSince(h, n))
    ensures Outbox.After(After(h[..n]).jobs, OutboxSince(h, n)) == After(h).jobs
    ensures Outbox.AllSettled(After(h[..n]).jobs)
  {
    hide After, OutboxHistory, OutboxSince;
    JobsFromTheStart(h);
    JobsFromTheStart(h[..n]);
    SinceIsTheRest(h, n);
    Outbox.RestIsPossible(map[], OutboxHistory(h[..n]), OutboxSince(h, n));
    Outbox.BetweenPasses(map[], OutboxHistory(h[..n]));
  }

  /** Producers and worker agree on the payloads: each job is either still untried or succeeded at its first claim. */
  ghost predicate NeverFailed(jobs: map<Id, Job>) {
    forall j :: j in jobs ==>
                  && jobs[j].Processes() && jobs[j].maxAttempts == JOB_ATTEMPTS
                  && ((jobs[j].status.JobPending? && jobs[j].attempts == 0) ||
                      (jobs[j].status.JobSucceeded? && jobs[j].attempts == 1))
  }

  lemma {:induction false} RefiningNeverFails(db: Db, e: Event)
    requires NeverFailed(db.jobs)
    ensures NeverFailed(Apply(db, e).jobs)
  {
    StepRefines(db, e);
    hide Apply, Plans, ObserveCheck, InRange, Absorber;
    var events := OutboxEvents(db, e);
    if e.request.Pass? && events != [] {
      forall c | c in e.request.claimed ensures c in Due(db.jobs, e.now) {}
    }
  }

  lemma {:induction false} NoJobEverFails(h: History)
    ensures NeverFailed(After(h).jobs)
  {
    hide Apply, NeverFailed;
    if h == [] {
      assert NeverFailed(map[]) by { EmptyNeverFailed(); }
    } else {
      NoJobEverFails(h[..|h| - 1]);
      RefiningNeverFails(After(h[..|h| - 1]), h[|h| - 1]);
    }
  }

  lemma {:induction false} EmptyNeverFailed()
    ensures NeverFailed(map[])
  {
  }

  // ---------------------------------------------------------------- waiting

  /** A pass leaves a due job waiting. */
  ghost predicate LeavesWaiting(db: Db, e: Event, j: Id) {
    && e.request.Pass? && PassMayTake(db, e.request.limit, e.request.lapsed, e.request.claimed, e.now)
    && j in Due(db.jobs, e.now) && j !in e.request.claimed
  }

  /** How often that happens after the first n requests. */
  ghost function TimesWaiting(h: History, n: nat, j: Id): nat
    requires n <= |h|
  {
    if n == |h| then 0 else
      TimesWaiting(h[..|h| - 1], n, j) + if LeavesWaiting(After(h[..|h| - 1]), h[|h| - 1], j) then 1 else 0
  }

  /** The untried jobs that may be served before j: the others created no later. */
  function Ahead(jobs: map<Id, Job>, j: Id): set<Id>
    requires j in jobs
  {
    set k | k in jobs && k != j && jobs[k].createdAt <= jobs[j].createdAt && jobs[k].Claimable()
  }

  /** From request n on only newer jobs come in, and every pass has the same batch size. */
  ghost predicate OnlyNewer(h: History, n: nat, created: Time, limit: nat) {
    forall k :: n <= k < |h| ==> h[k].now > created && (h[k].request.Pass? ==> h[k].request.limit == limit)
  }

  lemma {:induction false} NewerStaysBehind(jobs: map<Id, Job>, id: Id, job: Job, j: Id)
    requires j in jobs && id !in jobs && job.createdAt > jobs[j].createdAt
    ensures Ahead(jobs[id := job], j) == Ahead(jobs, j)
  {
  }

  lemma {:induction false} ServedAreGone(jobs: map<Id, Job>, taken: set<Id>, j: Id, now: Time)
    requires NeverFailed(jobs) && j in jobs
    ensures Ahead(SettleAll(jobs, taken, now), j) == Ahead(jobs, j) - taken
  {
  }

  lemma {:induction false} WaitingMeansServed(jobs: map<Id, Job>, limit: nat, claimed: seq<Id>, j: Id, now: Time)
    requires j in jobs && OldestFirst(Due(jobs, now), limit, claimed) && j in Due(jobs, now) && j !in claimed
    ensures IdSet(claimed) <= Ahead(jobs, j) && |IdSet(claimed)| == limit
  {
    LeftOutMeansFull(Due(jobs, now), limit, claimed, j);
    forall c | c in claimed ensures c in Due(jobs, now) {}
  }

  /** What a pass claims succeeds, and where it leaves j waiting it claims a whole batch from ahead of j. */
  lemma {:induction false} PassServesAhead(jobs: map<Id, Job>, limit: nat, claimed: seq<Id>, j: Id, now: Time)
    requires NeverFailed(jobs) && j in jobs && OldestFirst(Due(jobs, now), limit, claimed)
    ensures (if j in Due(jobs, now) && j !in claimed then limit else 0) +
             |Ahead(SettleAll(jobs, IdSet(claimed), now), j)| <= |Ahead(jobs, j)|
  {
    hide SettleAll, NeverFailed, OldestFirst, Ahead, Due, IdSet;
    var ahead, taken := Ahead(jobs, j), IdSet(claimed);
    ServedAreGone(jobs, taken, j, now);
    SubsetCardinality(ahead - taken, ahead);
    if j in Due(jobs, now) && j !in claimed {
      WaitingMeansServed(jobs, limit, claimed, j, now);
      assert |ahead - taken| == |ahead| - |taken|;
    }
  }

  lemma {:induction false} WaitingStep(db: Db, e: Event, j: Id, limit: nat)
    requires NeverFailed(db.jobs) && j in db.jobs && e.now > db.jobs[j].createdAt
    requires e.request.Pass? ==> e.request.limit == limit
    ensures j in Apply(db, e).jobs && Apply(db, e).jobs[j].createdAt == db.jobs[j].createdAt
    ensures (if LeavesWaiting(db, e, j) then limit else 0) + |Ahead(Apply(db, e).jobs, j)| <= |Ahead(db.jobs, j)|
  {
    StepRefines(db, e);
    hide Apply, NeverFailed, Plans, ObserveCheck, InRange, Absorber, OldestFirst, Ahead;
    match e.request
    case Plan(_, runId, jobId) =>
      if OutboxEvents(db, e) != [] { NewerStaysBehind(db.jobs, jobId, PlannedJob(runId, e.now), j); }
    case Observe(r) =>
      if OutboxEvents(db, e) != [] { NewerStaysBehind(db.jobs, r.jobId, ReviewJob(Absorber(db, r), e.now), j); }
    case Pass(l, lapsed, claimed) =>
      if OutboxEvents(db, e) != [] { PassServesAhead(db.jobs, l, claimed, j, e.now); }
    case _ =>
  }

  lemma {:induction false} ServedPayForWaiting(h: History, n: nat, j: Id, limit: nat)
    requires n <= |h| && j in After(h[..n]).jobs && OnlyNewer(h, n, After(h[..n]).jobs[j].createdAt, limit)
    ensures j in After(h).jobs && After(h).jobs[j].createdAt == After(h[..n]).jobs[j].createdAt
    ensures TimesWaiting(h, n, j) * limit + |Ahead(After(h).jobs, j)| <= |Ahead(After(h[..n]).jobs, j)|
    decreases |h|
  {
    hide Apply, LeavesWaiting, Ahead;
    if n == |h| {
      assert h[..n] == h;
    } else {
      var before, e := h[..|h| - 1], h[|h| - 1];
      assert before[..n] == h[..n];
      assert OnlyNewer(before, n, After(h[..n]).jobs[j].createdAt, limit);
      ServedPayForWaiting(before, n, j, limit);
      NoJobEverFails(before);
      WaitingStep(After(before), e, j, limit);
      OneMoreWait(h, n, j, limit);
    }
  }

  lemma {:induction false} OneMoreWait(h: History, n: nat, j: Id, limit: nat)
    requires n < |h|
    ensures var before := h[..|h| - 1];
            TimesWaiting(h, n, j) * limit
            == TimesWaiting(before, n, j) * limit + if LeavesWaiting(After(before), h[|h| - 1], j) then limit else 0
  {
    hide After, LeavesWaiting;
  }

  /**
    No job of the platform starves: while only newer jobs come in, a due job is left waiting at most
    as often as the untried jobs not newer than it fill whole batches.
   */
  lemma {:induction false} NoJobStarves(h: History, n: nat, j: Id, limit: nat)
    requires n <= |h| && j in After(h[..n]).jobs && OnlyNewer(h, n, After(h[..n]).jobs[j].createdAt, limit)
    ensures TimesWaiting(h, n, j) * limit <= |Ahead(After(h[..n]).jobs, j)|
  {
    hide After, TimesWaiting, Ahead;
    ServedPayForWaiting(h, n, j, limit);
  }
}
