/** Oldest-first batches: what ORDER BY ... LIMIT picks, ties in any order. */
module Batches {
  import opened Base
  import opened Domain

  ghost predicate OldestFirst(keys: map<Id, Time>, limit: nat, chosen: seq<Id>) {
    && |chosen| == (if limit < |keys| then limit else |keys|)
    && Ascending(keys, chosen)
    && (forall c, d :: c in chosen && d in keys && d !in chosen ==> keys[c] <= keys[d])
  }

  ghost predicate Ascending(keys: map<Id, Time>, ids: seq<Id>) {
    && (forall c :: c in ids ==> c in keys)
    && Distinct(ids)
    && (forall j, k :: 0 <= j < k < |ids| ==> keys[ids[j]] <= keys[ids[k]])
  }

  /** Repeatedly takes a candidate with the least key. */
  method PickOldest(keys: map<Id, Time>, limit: nat) returns (chosen: seq<Id>)
    ensures OldestFirst(keys, limit, chosen)
  {
    chosen := [];
    var rest := keys.Keys;
    while |chosen| < limit && rest != {}
      invariant |chosen| <= limit && rest <= keys.Keys && Taken(keys, chosen, rest)
      decreases rest
    {
      hide Taken;
      var least := Least(keys, rest);
      TakeLeast(keys, chosen, rest, least);
      chosen := chosen + [least];
      rest := rest - {least};
    }
    TakenBatch(keys, limit, chosen, rest);
  }

  /** The rest of the candidates come no earlier than those chosen. */
  ghost predicate Taken(keys: map<Id, Time>, chosen: seq<Id>, rest: set<Id>) {
    && rest == keys.Keys - IdSet(chosen)
    && Ascending(keys, chosen)
    && (forall c, d :: c in chosen && d in rest ==> keys[c] <= keys[d])
  }

  lemma {:induction false} TakeLeast(keys: map<Id, Time>, chosen: seq<Id>, rest: set<Id>, least: Id)
    requires Taken(keys, chosen, rest) && least in rest && rest <= keys.Keys
    requires forall d :: d in rest ==> keys[least] <= keys[d]
    ensures Taken(keys, chosen + [least], rest - {least})
  {
    AppendAscending(keys, chosen, least);
    hide Ascending, IdSet;
  }

  lemma {:induction false} AppendAscending(keys: map<Id, Time>, ids: seq<Id>, id: Id)
    requires Ascending(keys, ids) && id in keys && id !in ids
    requires forall c :: c in ids ==> keys[c] <= keys[id]
    ensures Ascending(keys, ids + [id]) && IdSet(ids + [id]) == IdSet(ids) + {id}
  {
  }

  lemma {:induction false} TakenBatch(keys: map<Id, Time>, limit: nat, chosen: seq<Id>, rest: set<Id>)
    requires Taken(keys, chosen, rest)
    requires |chosen| == limit || (rest == {} && |chosen| < limit)
    ensures OldestFirst(keys, limit, chosen)
  {
    FullBatch(keys, limit, chosen, rest);
    hide Ascending;
  }

  lemma {:induction false} FullBatch(keys: map<Id, Time>, limit: nat, chosen: seq<Id>, rest: set<Id>)
    requires Ascending(keys, chosen) && rest == keys.Keys - IdSet(chosen)
    requires |chosen| == limit || (rest == {} && |chosen| < limit)
    ensures |chosen| == if limit < |keys| then limit else |keys|
  {
    DistinctSize(chosen);
    assert |keys| == |keys.Keys|;
    assert IdSet(chosen) <= keys.Keys;
    SubsetCardinality(IdSet(chosen), keys.Keys);
    if rest == {} {
      forall k | k in keys.Keys ensures k in IdSet(chosen) {
        assert k !in rest;
      }
      assert IdSet(chosen) == keys.Keys;
    }
  }

  method Least(keys: map<Id, Time>, from: set<Id>) returns (least: Id)
    requires from != {} && from <= keys.Keys
    ensures least in from && forall d :: d in from ==> keys[least] <= keys[d]
  {
    least :| least in from;
    var todo := from - {least};
    while todo != {}
      invariant least in from && todo <= from
      invariant forall d :: d in from - todo ==> keys[least] <= keys[d]
      decreases todo
    {
      var d :| d in todo;
      if keys[d] < keys[least] {
        least := d;
      }
      todo := todo - {d};
    }
  }

  /** A batch that leaves a candidate out is full. */
  lemma {:induction false} LeftOutMeansFull(keys: map<Id, Time>, limit: nat, chosen: seq<Id>, d: Id)
    requires OldestFirst(keys, limit, chosen) && d in keys && d !in chosen
    ensures |IdSet(chosen)| == limit
    ensures forall c :: c in chosen ==> keys[c] <= keys[d]
  {
    DistinctSize(chosen);
    assert |keys| == |keys.Keys|;
    SubsetCardinality(IdSet(chosen), keys.Keys - {d});
  }

  lemma {:induction false} DistinctSize(ids: seq<Id>)
    requires Distinct(ids)
    ensures |IdSet(ids)| == |ids|
  {
    if ids == [] {
    } else {
      var init, last := ids[..|ids| - 1], ids[|ids| - 1];
      DistinctSize(init);
      assert ids == init + [last];
      assert IdSet(ids) == IdSet(init) + {last};
    }
  }
}

module Jobs {
  import opened Base
  import opened Domain

  datatype JobKind = RunPlanned | DriftReview | Unsupported(name: string)

  /** A job's payload as far as decoding it as a JSON string goes. */
  datatype Payload = NoPayload | JsonString(id: Id) | JsonObject | Malformed

  datatype JobStatus = JobPending | JobRunning | JobSucceeded | JobFailed | JobDead

  datatype Job = Job(
    kind: JobKind,
    aggregate: Id,
    payload: Payload,
    status: JobStatus,
    attempts: int,
    maxAttempts: int,
    availableAt: Time,
    createdAt: Time)
  {
    predicate Claimable() {
      status.JobPending? || status.JobFailed?
    }

    /** Planned-run jobs need no readable payload; review jobs need a string or nothing; other kinds fail. */
    predicate Processes() {
      match kind
      case RunPlanned => true
      case DriftReview => payload.JsonString? || payload.NoPayload?
      case Unsupported(_) => false
    }

    function Claimed(): Job {
      this.(status := JobRunning, attempts := attempts + 1)
    }

    /** What one pass makes of a job it claims. */
    function Settle(now: Time): Job {
      var tried := attempts + 1;
      if Processes() then this.(status := JobSucceeded, attempts := tried)
      else
        var failed := if tried >= maxAttempts then JobDead else JobFailed;
        this.(status := failed, attempts := tried, availableAt := now + tried * tried)
    }

    /** How often the job may still be claimed. */
    function Remaining(): int {
      if Claimable() then maxAttempts - attempts else 0
    }

    /** What holds of a job between passes. */
    predicate Settled() {
      && maxAttempts >= 1
      && match status
         case JobPending => attempts == 0
         case JobRunning => false
         case JobFailed => 0 < attempts < maxAttempts
         case JobDead => attempts == maxAttempts
         case JobSucceeded => 0 < attempts <= maxAttempts
    }
  }

  function Due(jobs: map<Id, Job>, now: Time): map<Id, Time> {
    map j | j in jobs && jobs[j].Claimable() && jobs[j].availableAt <= now :: jobs[j].createdAt
  }

  function SettleAll(jobs: map<Id, Job>, claimed: set<Id>, now: Time): map<Id, Job> {
    map j | j in jobs :: if j in claimed then jobs[j].Settle(now) else jobs[j]
  }
}

/** The outbox over whole histories of enqueued jobs and worker passes. */
module Outbox {
  import opened Base
  import opened Domain
  import opened Batches
  import opened Jobs

  datatype Event = Enqueue(id: Id, job: Job) | Pass(now: Time, limit: nat, claimed: seq<Id>)

  type History = seq<Event>

  predicate NewJob(job: Job) {
    job.status.JobPending? && job.attempts == 0 && job.maxAttempts >= 1
  }

  ghost predicate Happens(jobs: map<Id, Job>, e: Event) {
    match e
    case Enqueue(id, job) => id !in jobs && NewJob(job)
    case Pass(now, limit, claimed) => OldestFirst(Due(jobs, now), limit, claimed)
  }

  function Next(jobs: map<Id, Job>, e: Event): map<Id, Job> {
    match e
    case Enqueue(id, job) => jobs[id := job]
    case Pass(now, _, claimed) => SettleAll(jobs, IdSet(claimed), now)
  }

  function After(jobs: map<Id, Job>, h: History): map<Id, Job> {
    if h == [] then jobs else Next(After(jobs, h[..|h| - 1]), h[|h| - 1])
  }

  /** A history each of whose events can happen where it stands. */
  ghost predicate Possible(jobs: map<Id, Job>, h: History) {
    h == [] || (Possible(jobs, h[..|h| - 1]) && Happens(After(jobs, h[..|h| - 1]), h[|h| - 1]))
  }

  /** What follows a possible beginning is possible from where the beginning ends. */
  lemma {:induction false} RestIsPossible(jobs: map<Id, Job>, p: History, q: History)
    requires Possible(jobs, p + q)
    ensures Possible(jobs, p) && Possible(After(jobs, p), q) && After(jobs, p + q) == After(After(jobs, p), q)
    decreases |q|
  {
    hide Happens, Next;
    if q == [] {
      assert p + q == p;
    } else {
      var before, e := q[..|q| - 1], q[|q| - 1];
      assert (p + q)[..|p + q| - 1] == p + before && (p + q)[|p + q| - 1] == e;
      RestIsPossible(jobs, p, before);
    }
  }

  // ---------------------------------------------------------------- between passes

  ghost predicate AllSettled(jobs: map<Id, Job>) {
    forall j :: j in jobs ==> jobs[j].Settled()
  }

  /** Between passes no job runs, pending jobs are untried, failed ones have tries left and dead ones none. */
  lemma {:induction false} BetweenPasses(jobs: map<Id, Job>, h: History)
    requires AllSettled(jobs) && Possible(jobs, h)
    ensures AllSettled(After(jobs, h))
  {
    if h == [] {
    } else {
      BetweenPasses(jobs, h[..|h| - 1]);
      NextSettles(After(jobs, h[..|h| - 1]), h[|h| - 1]);
    }
  }

  lemma {:induction false} NextSettles(jobs: map<Id, Job>, e: Event)
    requires AllSettled(jobs) && Happens(jobs, e)
    ensures AllSettled(Next(jobs, e))
  {
  }

  // ---------------------------------------------------------------- progress

  function Tries(jobs: map<Id, Job>): map<Id, int> {
    map j | j in jobs :: jobs[j].Remaining()
  }

  /** The tries left to a set of jobs, together. */
  ghost function TriesLeft(jobs: map<Id, Job>, ids: set<Id>): int {
    Sum(ids * jobs.Keys, Tries(jobs))
  }

  /** A pass uses up at least one try for each job it claims. */
  lemma {:induction false} PassUsesTries(jobs: map<Id, Job>, ids: set<Id>, claimed: set<Id>, now: Time)
    requires AllSettled(jobs) && ids <= jobs.Keys
    requires forall c :: c in claimed ==> c in jobs && jobs[c].Claimable()
    ensures TriesLeft(SettleAll(jobs, claimed, now), ids) + |claimed * ids| <= TriesLeft(jobs, ids)
  {
    var jobs' := SettleAll(jobs, claimed, now);
    assert ids * jobs.Keys == ids && ids * jobs'.Keys == ids;
    forall x | x in ids ensures Tries(jobs')[x] <= Tries(jobs)[x] - (if x in claimed * ids then 1 else 0) {
      SettlingUsesATry(jobs[x], now);
    }
    SumFalls(ids, Tries(jobs), Tries(jobs'), claimed * ids);
  }

  lemma {:induction false} SettlingUsesATry(job: Job, now: Time)
    requires job.Settled()
    ensures job.Claimable() ==> job.Settle(now).Remaining() <= job.Remaining() - 1
    ensures job.Remaining() >= 0
  {
  }

  lemma {:induction false} TriesNeverNegative(jobs: map<Id, Job>, ids: set<Id>)
    requires AllSettled(jobs)
    ensures TriesLeft(jobs, ids) >= 0
  {
    SumNonNegative(ids * jobs.Keys, Tries(jobs));
  }

  /** The jobs that may be served before j: the others created no later. */
  function Rivals(jobs: map<Id, Job>, j: Id): set<Id>
    requires j in jobs
  {
    set k | k in jobs && k != j && jobs[k].createdAt <= jobs[j].createdAt
  }

  predicate PassesOver(jobs: map<Id, Job>, e: Event, j: Id) {
    e.Pass? && j in Due(jobs, e.now) && j !in e.claimed
  }

  /** How often a pass left j waiting although j was due. */
  function TimesPassedOver(jobs: map<Id, Job>, h: History, j: Id): nat {
    if h == [] then 0 else
      var before := h[..|h| - 1];
      TimesPassedOver(jobs, before, j) + if PassesOver(After(jobs, before), h[|h| - 1], j) then 1 else 0
  }

  ghost predicate NewerOnly(jobs: map<Id, Job>, h: History, j: Id, limit: nat)
    requires j in jobs
  {
    forall k :: 0 <= k < |h| ==>
                  match h[k]
                  case Enqueue(_, job) => job.createdAt > jobs[j].createdAt
                  case Pass(_, l, _) => l == limit
  }

  /**
    No starvation: while only newer jobs arrive, a due job is passed over at most as often as its
    rivals' remaining tries fill whole batches.
   */
  lemma {:induction false} NoStarvation(jobs: map<Id, Job>, h: History, j: Id, limit: nat)
    requires AllSettled(jobs) && j in jobs && Possible(jobs, h) && NewerOnly(jobs, h, j, limit)
    ensures TimesPassedOver(jobs, h, j) * limit <= TriesLeft(jobs, Rivals(jobs, j))
  {
    TriesPayForWaiting(jobs, h, j, limit);
    BetweenPasses(jobs, h);
    TriesNeverNegative(After(jobs, h), Rivals(jobs, j));
  }

  lemma {:induction false} TriesPayForWaiting(jobs: map<Id, Job>, h: History, j: Id, limit: nat)
    requires AllSettled(jobs) && j in jobs && Possible(jobs, h) && NewerOnly(jobs, h, j, limit)
    ensures TimesPassedOver(jobs, h, j) * limit + TriesLeft(After(jobs, h), Rivals(jobs, j)) <=
            TriesLeft(jobs, Rivals(jobs, j))
    ensures j in After(jobs, h) && Rivals(After(jobs, h), j) == Rivals(jobs, j)
    ensures After(jobs, h)[j].createdAt == jobs[j].createdAt
  {
    if h == [] {
    } else {
      var before, e := h[..|h| - 1], h[|h| - 1];
      var mid := After(jobs, before);
      assert Possible(jobs, before) && Happens(mid, e) && After(jobs, h) == Next(mid, e);
      assert NewerOnly(jobs, before, j, limit);
      hide Possible, Happens, After, Next, Rivals, TriesLeft, PassesOver, AllSettled;
      TriesPayForWaiting(jobs, before, j, limit);
      BetweenPasses(jobs, before);
      WaitingStep(mid, e, j, limit, jobs[j].createdAt);
      CountOneMore(jobs, h, j, limit);
    }
  }

  lemma {:induction false} CountOneMore(jobs: map<Id, Job>, h: History, j: Id, limit: nat)
    requires h != []
    ensures var before := h[..|h| - 1];
            TimesPassedOver(jobs, h, j) * limit
            == TimesPassedOver(jobs, before, j) * limit +
              (if PassesOver(After(jobs, before), h[|h| - 1], j) then limit else 0)
  {
    hide After, PassesOver;
  }

  /** One event: being passed over is paid for with the rivals' tries. */
  lemma {:induction false} WaitingStep(jobs: map<Id, Job>, e: Event, j: Id, limit: nat, created: Time)
    requires AllSettled(jobs) && j in jobs && jobs[j].createdAt == created && Happens(jobs, e)
    requires match e case Enqueue(_, job) => job.createdAt > created case Pass(_, l, _) => l == limit
    ensures j in Next(jobs, e) && Next(jobs, e)[j].createdAt == created && Rivals(Next(jobs, e), j) == Rivals(jobs, j)
    ensures (if PassesOver(jobs, e, j) then limit else 0) + TriesLeft(Next(jobs, e), Rivals(jobs, j)) <=
             TriesLeft(jobs, Rivals(jobs, j))
  {
    match e
    case Enqueue(id, job) => EnqueueStep(jobs, id, job, j);
    case Pass(now, l, claimed) => PassStep(jobs, now, l, claimed, j);
  }

  lemma {:induction false} EnqueueStep(jobs: map<Id, Job>, id: Id, job: Job, j: Id)
    requires j in jobs && id !in jobs && job.createdAt > jobs[j].createdAt
    ensures Rivals(jobs[id := job], j) == Rivals(jobs, j)
    ensures TriesLeft(jobs[id := job], Rivals(jobs, j)) == TriesLeft(jobs, Rivals(jobs, j))
  {
    var rivals, jobs' := Rivals(jobs, j), jobs[id := job];
    assert rivals * jobs.Keys == rivals && rivals * jobs'.Keys == rivals;
    SumAgree(rivals, Tries(jobs), Tries(jobs'));
  }

  lemma {:induction false} PassStep(jobs: map<Id, Job>, now: Time, limit: nat, claimed: seq<Id>, j: Id)
    requires AllSettled(jobs) && j in jobs && OldestFirst(Due(jobs, now), limit, claimed)
    ensures Rivals(SettleAll(jobs, IdSet(claimed), now), j) == Rivals(jobs, j)
    ensures TriesLeft(SettleAll(jobs, IdSet(claimed), now), Rivals(jobs, j)) +
             (if j in Due(jobs, now) && j !in claimed then limit else 0)
            <= TriesLeft(jobs, Rivals(jobs, j))
  {
    var rivals, taken := Rivals(jobs, j), IdSet(claimed);
    RivalsStay(jobs, taken, now, j);
    hide SettleAll, TriesLeft, AllSettled;
    PassUsesTries(jobs, rivals, taken, now);
    if j in Due(jobs, now) && j !in claimed {
      LeftOutMeansFull(Due(jobs, now), limit, claimed, j);
      assert taken * rivals == taken;
    }
  }

  lemma {:induction false} RivalsStay(jobs: map<Id, Job>, taken: set<Id>, now: Time, j: Id)
    requires j in jobs
    ensures Rivals(SettleAll(jobs, taken, now), j) == Rivals(jobs, j)
  {
  }

  // ---------------------------------------------------------------- tries and backoff

  /** The instants at which a history claims j. */
  function Claims(h: History, j: Id): seq<Time> {
    if h == [] then [] else
      var e := h[|h| - 1];
      Claims(h[..|h| - 1], j) + if e.Pass? && j in e.claimed then [e.now] else []
  }

  /**
    What the claims so far tell of a job first enqueued as `first`: its attempts are their number;
    one that keeps failing is dead exactly when it has used all its attempts, and otherwise not due
    again before the last claim plus the square of the attempts.
   */
  ghost predicate Tracks(first: Job, job: Job, claims: seq<Time>) {
    && job.attempts == |claims| <= first.maxAttempts == job.maxAttempts
    && job.Processes() == first.Processes()
    && (first.Processes() ==> |claims| <= 1 && (job.status.JobSucceeded? <==> |claims| == 1))
    && (!first.Processes() ==> (job.status.JobDead? <==> |claims| == first.maxAttempts) && !job.status.JobSucceeded?)
    && (job.status.JobFailed? ==> |claims| > 0 && job.availableAt == claims[|claims| - 1] + |claims| * |claims|)
  }

  lemma {:induction false} ClaimTracks(first: Job, job: Job, claims: seq<Time>, now: Time)
    requires Tracks(first, job, claims) && job.Settled() && job.Claimable()
    ensures Tracks(first, job.Settle(now), claims + [now])
  {
  }

  lemma {:induction false} LastEvent(jobs: map<Id, Job>, h: History, j: Id)
    requires h != [] && Possible(jobs, h)
    ensures var before, e := h[..|h| - 1], h[|h| - 1];
            && Possible(jobs, before) && Happens(After(jobs, before), e)
            && After(jobs, h) == Next(After(jobs, before), e)
            && Claims(h, j) == Claims(before, j) + if e.Pass? && j in e.claimed then [e.now] else []
  {
    hide Next, Happens;
  }

  lemma NothingClaimed(jobs: map<Id, Job>, j: Id)
    requires j in jobs && jobs[j].status.JobPending? && jobs[j].Settled()
    ensures After(jobs, []) == jobs && Claims([], j) == [] && Tracks(jobs[j], jobs[j], [])
  {
  }

  lemma {:induction false} AttemptsCountClaims(jobs: map<Id, Job>, h: History, j: Id)
    requires AllSettled(jobs) && j in jobs && jobs[j].status.JobPending? && Possible(jobs, h)
    ensures j in After(jobs, h) && Tracks(jobs[j], After(jobs, h)[j], Claims(h, j))
  {
    hide Possible, After, Claims, Tracks;
    if h == [] {
      NothingClaimed(jobs, j);
    } else {
      var before, e := h[..|h| - 1], h[|h| - 1];
      var mid := After(jobs, before);
      LastEvent(jobs, h, j);
      AttemptsCountClaims(jobs, before, j);
      BetweenPasses(jobs, before);
      if e.Pass? && j in e.claimed {
        assert j in Due(mid, e.now);
        ClaimTracks(jobs[j], mid[j], Claims(before, j), e.now);
      } else {
        assert Claims(h, j) == Claims(before, j);
      }
    }
  }

  /** Each retry waits at least the square of the attempts so far. */
  lemma {:induction false} RetriesAreSpaced(jobs: map<Id, Job>, h: History, j: Id, k: nat)
    requires AllSettled(jobs) && j in jobs && jobs[j].status.JobPending? && Possible(jobs, h)
    requires 0 < k < |Claims(h, j)|
    ensures Claims(h, j)[k] >= Claims(h, j)[k - 1] + k * k
  {
    hide Possible, After, Claims;
    if h == [] {
      NothingClaimed(jobs, j);
    }
    var before, e := h[..|h| - 1], h[|h| - 1];
    LastEvent(jobs, h, j);
    if k < |Claims(before, j)| {
      RetriesAreSpaced(jobs, before, j, k);
    } else {
      AttemptsCountClaims(jobs, before, j);
      BetweenPasses(jobs, before);
      assert j in e.claimed && j in Due(After(jobs, before), e.now);
      assert Claims(h, j)[k] == e.now && After(jobs, before)[j].attempts == k;
    }
  }

  /** 1 + 4 + 9 + ... + n * n. */
  function Squares(n: nat): nat {
    if n == 0 then 0 else Squares(n - 1) + n * n
  }

  lemma {:induction false} SquaresClosedForm(n: nat)
    ensures 6 * Squares(n) == n * (n + 1) * (2 * n + 1)
  {
    if n == 0 {
    } else {
      SquaresClosedForm(n - 1);
      assert n * (n + 1) * (2 * n + 1) == (n - 1) * n * (2 * n - 1) + 6 * (n * n);
    }
  }

  /** The k-th claim comes no earlier than the first plus 1 + 4 + ... + (k-1)(k-1) seconds. */
  lemma {:induction false} BackoffAddsUp(jobs: map<Id, Job>, h: History, j: Id, k: nat)
    requires AllSettled(jobs) && j in jobs && jobs[j].status.JobPending? && Possible(jobs, h)
    requires 0 < k <= |Claims(h, j)|
    ensures Claims(h, j)[k - 1] >= Claims(h, j)[0] + Squares(k - 1)
    ensures 6 * (Claims(h, j)[k - 1] - Claims(h, j)[0]) >= (k - 1) * k * (2 * k - 1)
  {
    SquaresClosedForm(k - 1);
    hide AllSettled, Possible, Claims;
    if k > 1 {
      BackoffAddsUp(jobs, h, j, k - 1);
      RetriesAreSpaced(jobs, h, j, k - 1);
    }
  }
}
