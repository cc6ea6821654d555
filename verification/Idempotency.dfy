/** Idempotency keys over whole histories. */
module Idempotency {
  import opened Base
  import opened Domain
  import opened Jobs
  import opened Tables
  import opened Lifecycle
  import opened Operations
  import opened Invariant
  import opened PlanInvariant
  import opened DriftInvariant
  import opened Histories
  import opened Guarantees

  /** The k-th request plans a run, rather than being refused or answered from store. */
  ghost predicate Creates(h: History, k: nat) {
    && k < |h| && h[k].request.Plan?
    && Plans(After(h[..k]), h[k].request.plan, h[k].now, h[k].request.runId, h[k].request.jobId)
  }

  /** The answer that the k-th request stores. */
  ghost function Stored(h: History, k: nat): Answer
    requires Creates(h, k)
  {
    var q := h[k].request.plan;
    var run := NewRun(q, h[k].now, Volume(After(h[..k]).snapshots, IdSet(q.snapshotIds)));
    Domain.Answer(q, h[k].request.runId, run, h[k].now + ANSWER_TTL, h[k].now)
  }

  lemma {:induction false} CreatingStores(h: History, k: nat)
    requires Creates(h, k)
    ensures After(h[..k + 1]).answers == After(h[..k]).answers[h[k].request.plan.key := Stored(h, k)]
  {
    hide After, Apply, Plans, Volume, Trim;
    OneMoreStep(h, k);
    PlanningStores(After(h[..k]), h[k]);
  }

  lemma {:induction false} PlanningStores(db: Db, e: Event)
    requires e.request.Plan? && Plans(db, e.request.plan, e.now, e.request.runId, e.request.jobId)
    ensures var q := e.request.plan;
            var run := NewRun(q, e.now, Volume(db.snapshots, IdSet(q.snapshotIds)));
            Apply(db, e).answers ==
            db.answers[q.key := Domain.Answer(q, e.request.runId, run, e.now + ANSWER_TTL, e.now)]
  {
    hide Volume, Trim, Plans, IdSet, ReserveRows, BindInputs, HoldPool;
  }

  lemma {:induction false} OthersStoreNothing(h: History, k: nat)
    requires k < |h| && !Creates(h, k)
    ensures After(h[..k + 1]).answers == After(h[..k]).answers
  {
    hide After, Apply, Plans, Framed;
    OneMoreStep(h, k);
    if h[k].request.Plan? {
      RefusedPlan(After(h[..k]), h[k]);
    } else {
      StepFramed(After(h[..k]), h[k]);
      OnlyPlansStore(h[k].request, After(h[..k]), After(h[..k + 1]));
    }
  }

  lemma {:induction false} OnlyPlansStore(q: Request, db: Db, after: Db)
    requires Framed(q, db, after) && !q.Plan?
    ensures after.answers == db.answers
  {
  }

  lemma {:induction false} RefusedPlan(db: Db, e: Event)
    requires e.request.Plan? && !Plans(db, e.request.plan, e.now, e.request.runId, e.request.jobId)
    ensures Apply(db, e) == db
  {
    hide Plans, PlanPost;
  }

  // ---------------------------------------------------------------- keys

  /** A stored answer stays until its time is up, and is then replaced only by a younger one. */
  lemma {:induction false} AnswersAreKept(h: History, j: nat, n: nat)
    requires Chronological(h) && Creates(h, j) && j < n <= |h|
    ensures var key := h[j].request.plan.key; var answers := After(h[..n]).answers;
            && key in answers && answers[key].createdAt >= h[j].now
            && (h[n - 1].now < h[j].now + 86400 ==> answers[key] == Stored(h, j))
    decreases n
  {
    hide After, Apply, Plans, Volume, Trim, Inv;
    if n == j + 1 {
      CreatingStores(h, j);
    } else {
      AnswersAreKept(h, j, n - 1);
      if Creates(h, n - 1) {
        CreatingStores(h, n - 1);
        AlwaysInv(h[..n - 1]);
        NoLiveAnswer(h, n - 1);
      } else {
        OthersStoreNothing(h, n - 1);
      }
    }
  }

  lemma {:induction false} NoLiveAnswer(h: History, k: nat)
    requires Creates(h, k) && Inv(After(h[..k]))
    ensures var key := h[k].request.plan.key; var answers := After(h[..k]).answers;
            key in answers ==> h[k].now >= answers[key].createdAt + ANSWER_TTL
  {
    hide After, PlanCheck, RowsKept, InputsKept, PoolsHeld, DriftKept, DaysWithinLimit, ApprovalsSettled;
  }

  /** Any two runs planned under one key were planned at least 24 hours apart. */
  lemma {:induction false} CreationsAreADayApart(h: History, j: nat, k: nat)
    requires Chronological(h) && Creates(h, j) && Creates(h, k) && j < k
    requires h[j].request.plan.key == h[k].request.plan.key
    ensures h[k].now >= h[j].now + 24 * 3600
  {
    hide After, Apply, Plans, Volume, Trim, Inv;
    AnswersAreKept(h, j, k);
    AlwaysInv(h[..k]);
    NoLiveAnswer(h, k);
  }

  /**
    Within 24 hours the same request is answered with the run first planned, a different one under
    the same key is refused, and neither changes anything.
   */
  lemma {:induction false} ReplaysAnswerAlike(h: History, j: nat, e: Event)
    requires Chronological(h) && Creates(h, j) && e.request.Plan? && h[|h| - 1].now <= e.now < h[j].now + 86400
    requires e.request.plan.key == h[j].request.plan.key && RequestCheck(e.request.plan).None?
    ensures Apply(After(h), e) == After(h)
    ensures PlanOutcome(After(h), e.request.plan, e.now, e.request.runId, e.request.jobId)
            == if e.request.plan == h[j].request.plan then Success(Stored(h, j).run) else Failure(Conflict)
  {
    hide After, Apply, PlanCheck, Volume, Trim, RequestCheck, Chronological, Creates, IdSet;
    StillStored(h, j);
    RefusedPlan(After(h), e);
  }

  lemma {:induction false} StillStored(h: History, j: nat)
    requires Chronological(h) && Creates(h, j) && h[|h| - 1].now < h[j].now + ANSWER_TTL
    ensures var key := h[j].request.plan.key; var answers := After(h).answers;
            && key in answers && answers[key] == Stored(h, j)
            && answers[key].expiresAt == h[j].now + ANSWER_TTL && answers[key].request == h[j].request.plan
  {
    hide After, Plans, Volume, Trim;
    assert h[..|h|] == h;
    AnswersAreKept(h, j, |h|);
  }
}
