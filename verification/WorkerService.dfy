/** The background worker's pass: lapse overdue approvals, claim due jobs, process each. */
module WorkerService {
  import opened Base
  import opened Domain
  import opened Batches
  import opened Jobs
  import opened Tables
  import opened Lifecycle
  import opened Operations
  import opened Invariant
  import opened Histories
  import opened Services
  import opened RowWork

  /** Part-way through a pass: claimed jobs run until they are processed. */
  function UnderWay(jobs: map<Id, Job>, claimed: set<Id>, done: set<Id>, now: Time): map<Id, Job> {
    map j | j in jobs :: if j in done then jobs[j].Settle(now) else if j in claimed then jobs[j].Claimed() else jobs[j]
  }

  class Worker {
    const store: Store
    const batch: nat

    constructor (store: Store, batch: nat)
      ensures this.store == store && this.batch == batch
    {
      this.store := store;
      this.batch := batch;
    }

    /** One pass is one atomic step: the oldest deadlines lapse, the oldest due jobs are settled, each up to a batch. */
    method RunOnce(now: Time) returns (lapsed: seq<Id>, claimed: seq<Id>)
      requires store.Valid()
      modifies store
      ensures store.Valid()
      ensures PassMayTake(old(store.db), batch, lapsed, claimed, now)
      ensures store.db == PassPost(old(store.db), lapsed, claimed, now)
      ensures store.history == old(store.history) + [Event(now, Pass(batch, lapsed, claimed))]
    {
      hide After, Apply, OldestFirst, LapseAll, SettleAll, Overdue, Due, UnderWay, IdSet;
      var tx := store.db;
      tx, lapsed := ExpireApprovalTasks(tx, now, batch);
      tx, claimed := ClaimJobs(tx, now, batch);
      BatchIsDistinct(Due(store.db.jobs, now), batch, claimed);
      DueAreJobs(store.db.jobs, now);
      tx := ProcessJobs(tx, store.db.jobs, claimed, now);
      Applies(store.db, Event(now, Pass(batch, lapsed, claimed)));
      store.Commit(tx, Event(now, Pass(batch, lapsed, claimed)));
    }

    method ExpireApprovalTasks(db: Db, now: Time, limit: nat) returns (tx: Db, expired: seq<Id>)
      ensures OldestFirst(Overdue(db.approvals, now), limit, expired)
      ensures tx == db.(approvals := LapseAll(db.approvals, IdSet(expired), now))
    {
      hide LapseAll, IdSet, Trim;
      expired := PickOldest(Overdue(db.approvals, now), limit);
      BatchIsDistinct(Overdue(db.approvals, now), limit, expired);
      tx := db;
      var i := 0;
      NoIds(expired);
      LapseNone(db.approvals, IdSet(expired[..0]), now);
      while i < |expired|
        invariant i <= |expired|
        invariant tx == db.(approvals := LapseAll(db.approvals, IdSet(expired[..i]), now))
      {
        assert expired[i] in Overdue(db.approvals, now);
        OneMoreId(expired, i);
        LapseOne(db.approvals, IdSet(expired[..i]), expired[i], now);
        var task := tx.approvals[expired[i]];
        var expected := task.version;
        task := task.Resolve(Lapsed, EXPIRY_NOTE, now).Extract();
        if tx.approvals[expired[i]].version == expected && tx.approvals[expired[i]].status.Pending? {
          tx := tx.(approvals := tx.approvals[expired[i] := task.(version := expected + 1)]);
        }
        i := i + 1;
      }
      assert expired[..i] == expired;
    }

    method ClaimJobs(db: Db, now: Time, limit: nat) returns (tx: Db, claimed: seq<Id>)
      ensures OldestFirst(Due(db.jobs, now), limit, claimed)
      ensures tx == db.(jobs := UnderWay(db.jobs, IdSet(claimed), {}, now))
    {
      hide UnderWay, IdSet;
      claimed := PickOldest(Due(db.jobs, now), limit);
      BatchIsDistinct(Due(db.jobs, now), limit, claimed);
      tx := db;
      var i := 0;
      NoIds(claimed);
      NoneUnderWay(db.jobs, IdSet(claimed[..0]), now);
      while i < |claimed|
        invariant i <= |claimed|
        invariant tx == db.(jobs := UnderWay(db.jobs, IdSet(claimed[..i]), {}, now))
      {
        assert claimed[i] in Due(db.jobs, now);
        OneMoreId(claimed, i);
        ClaimOne(db.jobs, IdSet(claimed[..i]), claimed[i], now);
        var job := tx.jobs[claimed[i]];
        if job.Claimable() {
          tx := tx.(jobs := tx.jobs[claimed[i] := job.Claimed()]);
        }
        i := i + 1;
      }
      assert claimed[..i] == claimed;
    }

    /** Completes each claimed job, or schedules its retry after the square of its attempts in seconds. */
    method ProcessJobs(db: Db, ghost before: map<Id, Job>, claimed: seq<Id>, now: Time) returns (tx: Db)
      requires db.jobs == UnderWay(before, IdSet(claimed), {}, now)
      requires Distinct(claimed) && IdSet(claimed) <= before.Keys
      ensures tx == db.(jobs := SettleAll(before, IdSet(claimed), now))
    {
      hide UnderWay, IdSet, SettleAll;
      tx := db;
      var i := 0;
      NoIds(claimed);
      while i < |claimed|
        invariant i <= |claimed|
        invariant tx == db.(jobs := UnderWay(before, IdSet(claimed), IdSet(claimed[..i]), now))
      {
        MemberOf(claimed, i);
        OneMoreId(claimed, i);
        SettleOne(before, IdSet(claimed), IdSet(claimed[..i]), claimed[i], now);
        var job := tx.jobs[claimed[i]];
        if !job.Processes() {
          var dead := job.attempts >= job.maxAttempts;
          var backoff := job.attempts * job.attempts;
          job := job.(status := if dead then JobDead else JobFailed, availableAt := now + backoff);
        } else {
          job := job.(status := JobSucceeded);
        }
        tx := tx.(jobs := tx.jobs[claimed[i] := job]);
        i := i + 1;
      }
      assert claimed[..i] == claimed;
      AllSettledNow(before, IdSet(claimed), now);
    }
  }

  // ---------------------------------------------------------------- one row more

  lemma {:induction false} NoIds(ids: seq<Id>)
    ensures IdSet(ids[..0]) == {}
  {
  }

  lemma {:induction false} MemberOf(ids: seq<Id>, i: nat)
    requires i < |ids|
    ensures ids[i] in IdSet(ids)
  {
  }

  lemma {:induction false} DueAreJobs(jobs: map<Id, Job>, now: Time)
    ensures Due(jobs, now).Keys <= jobs.Keys
  {
  }

  lemma {:induction false} BatchIsDistinct(keys: map<Id, Time>, limit: nat, chosen: seq<Id>)
    requires OldestFirst(keys, limit, chosen)
    ensures Distinct(chosen) && IdSet(chosen) <= keys.Keys
  {
  }

  lemma {:induction false} LapseNone(approvals: map<Id, Approval>, none: set<Id>, now: Time)
    requires none == {}
    ensures LapseAll(approvals, none, now) == approvals
  {
    hide Trim;
  }

  lemma {:induction false} LapseOne(approvals: map<Id, Approval>, done: set<Id>, a: Id, now: Time)
    requires a in approvals && a !in done
    ensures a in LapseAll(approvals, done, now) && LapseAll(approvals, done, now)[a] == approvals[a]
    ensures LapseAll(approvals, done + {a}, now) == LapseAll(approvals, done, now)[a := Lapse(approvals[a], now)]
  {
    hide Trim;
  }

  lemma {:induction false} NoneUnderWay(jobs: map<Id, Job>, none: set<Id>, now: Time)
    requires none == {}
    ensures UnderWay(jobs, none, none, now) == jobs
  {
  }

  lemma {:induction false} ClaimOne(jobs: map<Id, Job>, claimed: set<Id>, j: Id, now: Time)
    requires j in jobs && j !in claimed
    ensures j in UnderWay(jobs, claimed, {}, now) && UnderWay(jobs, claimed, {}, now)[j] == jobs[j]
    ensures UnderWay(jobs, claimed + {j}, {}, now) == UnderWay(jobs, claimed, {}, now)[j := jobs[j].Claimed()]
  {
  }

  lemma {:induction false} SettleOne(jobs: map<Id, Job>, claimed: set<Id>, done: set<Id>, j: Id, now: Time)
    requires j in jobs && j in claimed && j !in done
    ensures j in UnderWay(jobs, claimed, done, now) && UnderWay(jobs, claimed, done, now)[j] == jobs[j].Claimed()
    ensures UnderWay(jobs, claimed, done + {j}, now) == UnderWay(jobs, claimed, done, now)[j := jobs[j].Settle(now)]
  {
  }

  lemma {:induction false} AllSettledNow(jobs: map<Id, Job>, claimed: set<Id>, now: Time)
    ensures UnderWay(jobs, claimed, claimed, now) == SettleAll(jobs, claimed, now)
  {
  }
}
