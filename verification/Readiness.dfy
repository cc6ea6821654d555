/** The readiness report of a run, and what it is worth in reachable states. */
module Readiness {
  import opened Base
  import opened Domain
  import opened Tables
  import opened Lifecycle
  import opened Operations
  import opened Invariant
  import opened Histories
  import opened Guarantees

  datatype Blocker = PendingApproval | OpenIncident | QuarantinedInputs | NoInputs | NotMaterialized {
    /** The order in which a report lists its blockers. */
    function Rank(): nat {
      match this
      case PendingApproval => 0
      case OpenIncident => 1
      case QuarantinedInputs => 2
      case NoInputs => 3
      case NotMaterialized => 4
    }
  }

  /** What the report is evaluated from. */
  datatype Counts = Counts(
    state: RunState,
    expected: nat,
    materialized: nat,
    approved: nat,
    rejected: nat,
    quarantined: nat,
    pendingApproval: bool,
    openIncident: bool,
    lastObservation: Option<Time>)
  {
    predicate Blocked(b: Blocker) {
      match b
      case PendingApproval => pendingApproval
      case OpenIncident => openIncident
      case QuarantinedInputs => quarantined > 0
      case NoInputs => expected == 0
      case NotMaterialized => materialized < expected && state.Completed?
    }

    /** The blockers that hold, in their order. */
    function Listed(): seq<Blocker> {
      (if pendingApproval then [PendingApproval] else []) + (if openIncident then [OpenIncident] else [])
      + (if quarantined > 0 then [QuarantinedInputs] else []) + (if expected == 0 then [NoInputs] else [])
      + (if materialized < expected && state.Completed? then [NotMaterialized] else [])
    }
  }

  ghost predicate Ascending(blockers: seq<Blocker>, bound: nat) {
    && (forall b :: b in blockers ==> b.Rank() < bound)
    && (forall j, k :: 0 <= j < k < |blockers| ==> blockers[j].Rank() < blockers[k].Rank())
  }

  lemma {:induction false} OneMoreAscends(blockers: seq<Blocker>, more: seq<Blocker>, b: Blocker)
    requires Ascending(blockers, b.Rank()) && (more == [] || more == [b])
    ensures Ascending(blockers + more, b.Rank() + 1)
  {
    var all := blockers + more;
    forall c | c in all ensures c.Rank() < b.Rank() + 1 {
      assert c in blockers || c == b;
    }
    forall j, k | 0 <= j < k < |all| ensures all[j].Rank() < all[k].Rank() {
      assert all[j] in blockers;
    }
  }

  /** Exactly the blockers that hold are listed, each once and in order. */
  lemma {:induction false} ListedMeans(c: Counts)
    ensures forall b :: b in c.Listed() <==> c.Blocked(b)
    ensures forall j, k :: 0 <= j < k < |c.Listed()| ==> c.Listed()[j].Rank() < c.Listed()[k].Rank()
  {
    hide Counts.Blocked, Counts.Listed;
    forall b ensures b in c.Listed() <==> c.Blocked(b) {
      ListedIff(c, b);
    }
    ListedAscends(c);
  }

  lemma {:induction false} ListedIff(c: Counts, b: Blocker)
    ensures b in c.Listed() <==> c.Blocked(b)
  {
    var p := if c.pendingApproval then [PendingApproval] else [];
    var o := if c.openIncident then [OpenIncident] else [];
    var q := if c.quarantined > 0 then [QuarantinedInputs] else [];
    var n := if c.expected == 0 then [NoInputs] else [];
    var m := if c.materialized < c.expected && c.state.Completed? then [NotMaterialized] else [];
    InOneOf(p, o, q, n, m, b);
  }

  lemma {:induction false} ListedAscends(c: Counts)
    ensures forall j, k :: 0 <= j < k < |c.Listed()| ==> c.Listed()[j].Rank() < c.Listed()[k].Rank()
  {
    var p := if c.pendingApproval then [PendingApproval] else [];
    var o := if c.openIncident then [OpenIncident] else [];
    var q := if c.quarantined > 0 then [QuarantinedInputs] else [];
    var n := if c.expected == 0 then [NoInputs] else [];
    var m := if c.materialized < c.expected && c.state.Completed? then [NotMaterialized] else [];
    assert c.Listed() == p + o + q + n + m;
    hide Counts.Listed;
    AllAscend(p, o, q, n, m);
  }

  lemma {:induction false} AllAscend(p: seq<Blocker>, o: seq<Blocker>, q: seq<Blocker>, n: seq<Blocker>,
                                     m: seq<Blocker>)
    requires (p == [] || p == [PendingApproval]) && (o == [] || o == [OpenIncident])
    requires (q == [] || q == [QuarantinedInputs]) && (n == [] || n == [NoInputs])
    requires m == [] || m == [NotMaterialized]
    ensures var all := p + o + q + n + m;
            forall j, k :: 0 <= j < k < |all| ==> all[j].Rank() < all[k].Rank()
  {
    hide Ascending;
    FirstAscends(p);
    OneMoreAscends(p, o, OpenIncident);
    OneMoreAscends(p + o, q, QuarantinedInputs);
    OneMoreAscends(p + o + q, n, NoInputs);
    OneMoreAscends(p + o + q + n, m, NotMaterialized);
    InOrder(p + o + q + n + m, 5);
  }

  lemma InOneOf(p: seq<Blocker>, o: seq<Blocker>, q: seq<Blocker>, n: seq<Blocker>, m: seq<Blocker>, b: Blocker)
    ensures b in p + o + q + n + m <==> b in p || b in o || b in q || b in n || b in m
  {
  }

  lemma FirstAscends(p: seq<Blocker>)
    requires p == [] || p == [PendingApproval]
    ensures Ascending(p, 1)
  {
  }

  lemma InOrder(s: seq<Blocker>, n: nat)
    requires Ascending(s, n)
    ensures forall j, k :: 0 <= j < k < |s| ==> s[j].Rank() < s[k].Rank()
  {
  }

  function PendingTasks(approvals: map<Id, Approval>, runId: Id): set<Id> {
    set a | a in approvals && PendingFor(approvals, a, runId)
  }

  function ActiveIncidents(incidents: map<Id, Incident>, runId: Id): set<Id> {
    set i | i in incidents && ActiveFor(incidents, i, runId)
  }

  function InState(db: Db, runId: Id, states: set<SnapshotState>): set<Id> {
    set s | s in db.inputs && db.inputs[s].runId == runId && s in db.snapshots && db.snapshots[s].state in states
  }

  function ObservationsOf(rows: map<Id, Observation>, runId: Id): set<Id> {
    set o | o in rows && rows[o].runId == runId
  }

  /** When the latest of some observations was recorded, if there are any. */
  ghost predicate IsLatest(rows: map<Id, Observation>, ids: set<Id>, last: Option<Time>)
    requires ids <= rows.Keys
  {
    match last
    case None => ids == {}
    case Some(t) =>
      && (exists o :: o in ids && rows[o].recordedAt == t)
      && (forall o :: o in ids ==> rows[o].recordedAt <= t)
  }

  ghost function Latest(rows: map<Id, Observation>, ids: set<Id>): (last: Option<Time>)
    requires ids <= rows.Keys
    ensures IsLatest(rows, ids, last)
  {
    if ids == {} then None else
      var o :| o in ids;
      assert forall p :: p in ids ==> p == o || p in ids - {o};
      var others := Latest(rows, ids - {o});
      if others.Some? && rows[o].recordedAt <= others.value then others else Some(rows[o].recordedAt)
  }

  ghost function CountsOf(db: Db, runId: Id): Counts
    requires runId in db.runs
  {
    Counts(
      db.runs[runId].state,
      |InputsOf(db.inputs, runId)|,
      |InState(db, runId, {Materialized, Approved, Rejected, Quarantined})|,
      |InState(db, runId, {Approved})|,
      |InState(db, runId, {Rejected})|,
      |InState(db, runId, {Quarantined})|,
      |PendingTasks(db.approvals, runId)| > 0,
      |ActiveIncidents(db.incidents, runId)| > 0,
      Latest(db.observations, ObservationsOf(db.observations, runId)))
  }

  /** A run's inputs in a state. */
  function InputsThatAre(db: Db, runId: Id, state: SnapshotState): set<Id> {
    set s | s in db.inputs && db.inputs[s].runId == runId && s in db.snapshots && db.snapshots[s].state == state
  }

  /** Each number counts the inputs of one state, and as materialized count also those approved, rejected or held
      since. */
  lemma {:induction false} CountsMean(db: Db, runId: Id)
    requires runId in db.runs
    ensures var c := CountsOf(db, runId);
            var approved, rejected := InputsThatAre(db, runId, Approved), InputsThatAre(db, runId, Rejected);
            var held, materialized :=
              InputsThatAre(db, runId, Quarantined), InputsThatAre(db, runId, Materialized);
            && c.state == db.runs[runId].state
            && c.expected == |set s | s in db.inputs && db.inputs[s].runId == runId|
            && c.approved == |approved| && c.rejected == |rejected| && c.quarantined == |held|
            && c.materialized == |materialized| + |approved| + |rejected| + |held|
    ensures CountsOf(db, runId).pendingApproval <==>
            exists a :: a in db.approvals && db.approvals[a].runId == runId && db.approvals[a].status == Pending
    ensures CountsOf(db, runId).openIncident <==>
            exists i :: && i in db.incidents && db.incidents[i].runId == runId
                        && (db.incidents[i].status == Open || db.incidents[i].status == Reviewing)
    ensures match CountsOf(db, runId).lastObservation
            case None => forall o :: o in db.observations ==> db.observations[o].runId != runId
            case Some(t) =>
              && (exists o :: o in db.observations && db.observations[o].runId == runId
                              && db.observations[o].recordedAt == t)
              && (forall o :: o in db.observations && db.observations[o].runId == runId ==>
                                db.observations[o].recordedAt <= t)
  {
    hide InState, InputsThatAre, PendingTasks, ActiveIncidents;
    OfOneState(db, runId, Approved);
    OfOneState(db, runId, Rejected);
    OfOneState(db, runId, Quarantined);
    OfFourStates(db, runId);
    CountsOfOthers(db, runId);
    assert InputsOf(db.inputs, runId) == set s | s in db.inputs && db.inputs[s].runId == runId;
  }

  lemma {:induction false} OfOneState(db: Db, runId: Id, state: SnapshotState)
    ensures InState(db, runId, {state}) == InputsThatAre(db, runId, state)
  {
  }

  lemma {:induction false} DisjointSizes(all: set<Id>, a: set<Id>, b: set<Id>, c: set<Id>, d: set<Id>)
    requires a !! b && a !! c && a !! d && b !! c && b !! d && c !! d
    requires forall x :: x in all <==> x in a || x in b || x in c || x in d
    ensures |all| == |a| + |b| + |c| + |d|
  {
    assert all == a + b + c + d;
    assert a + b !! c && a + b + c !! d;
  }

  lemma {:induction false} StatesDiffer(db: Db, runId: Id, x: SnapshotState, y: SnapshotState)
    requires x != y
    ensures InputsThatAre(db, runId, x) !! InputsThatAre(db, runId, y)
  {
  }

  lemma {:induction false} InOneOfFour(db: Db, runId: Id, s: Id)
    ensures s in InState(db, runId, {Materialized, Approved, Rejected, Quarantined}) <==>
            || s in InputsThatAre(db, runId, Materialized) || s in InputsThatAre(db, runId, Approved)
            || s in InputsThatAre(db, runId, Rejected) || s in InputsThatAre(db, runId, Quarantined)
  {
  }

  lemma {:induction false} OfFourStates(db: Db, runId: Id)
    ensures |InState(db, runId, {Materialized, Approved, Rejected, Quarantined})| ==
            |InputsThatAre(db, runId, Materialized)| + |InputsThatAre(db, runId, Approved)|
            + |InputsThatAre(db, runId, Rejected)| + |InputsThatAre(db, runId, Quarantined)|
  {
    hide InState, InputsThatAre;
    var all := InState(db, runId, {Materialized, Approved, Rejected, Quarantined});
    var m, a := InputsThatAre(db, runId, Materialized), InputsThatAre(db, runId, Approved);
    var r, q := InputsThatAre(db, runId, Rejected), InputsThatAre(db, runId, Quarantined);
    forall s ensures s in all <==> s in m || s in a || s in r || s in q {
      InOneOfFour(db, runId, s);
    }
    StatesDiffer(db, runId, Materialized, Approved);
    StatesDiffer(db, runId, Materialized, Rejected);
    StatesDiffer(db, runId, Materialized, Quarantined);
    StatesDiffer(db, runId, Approved, Rejected);
    StatesDiffer(db, runId, Approved, Quarantined);
    StatesDiffer(db, runId, Rejected, Quarantined);
    DisjointSizes(all, m, a, r, q);
  }

  lemma {:induction false} CountsOfOthers(db: Db, runId: Id)
    ensures |PendingTasks(db.approvals, runId)| > 0 <==>
            exists a :: a in db.approvals && db.approvals[a].runId == runId && db.approvals[a].status == Pending
    ensures |ActiveIncidents(db.incidents, runId)| > 0 <==>
            exists i :: && i in db.incidents && db.incidents[i].runId == runId
                        && (db.incidents[i].status == Open || db.incidents[i].status == Reviewing)
    ensures ObservationsOf(db.observations, runId) == {} <==>
            forall o :: o in db.observations ==> db.observations[o].runId != runId
  {
    if a :| a in db.approvals && db.approvals[a].runId == runId && db.approvals[a].status == Pending {
      assert a in PendingTasks(db.approvals, runId);
    } else {
      assert PendingTasks(db.approvals, runId) == {};
    }
    if i :| i in db.incidents && db.incidents[i].runId == runId
            && (db.incidents[i].status == Open || db.incidents[i].status == Reviewing) {
      assert i in ActiveIncidents(db.incidents, runId);
    } else {
      assert ActiveIncidents(db.incidents, runId) == {};
    }
    forall o | o in db.observations && db.observations[o].runId == runId
      ensures o in ObservationsOf(db.observations, runId) {
    }
  }

  /** MAX over the recorded times; NULL when there is none. */
  method Maximum(rows: map<Id, Observation>, ids: set<Id>) returns (last: Option<Time>)
    requires ids <= rows.Keys
    ensures last == Latest(rows, ids)
  {
    last := None;
    var rest := ids;
    while rest != {}
      invariant rest <= ids && IsLatest(rows, ids - rest, last)
      decreases rest
    {
      var o :| o in rest;
      assert ids - (rest - {o}) == (ids - rest) + {o};
      if last.None? || last.value < rows[o].recordedAt {
        last := Some(rows[o].recordedAt);
      }
      rest := rest - {o};
    }
    assert ids - rest == ids;
  }

  class RunReadiness {
    var counts: Counts
    var complete: bool
    var blockers: seq<Blocker>

    constructor (counts: Counts)
      ensures this.counts == counts && !complete && blockers == []
    {
      this.counts := counts;
      complete := false;
      blockers := [];
    }

    /** Lists the blockers anew and says whether the run is complete. */
    method Evaluate()
      modifies this
      ensures counts == old(counts)
      ensures blockers == counts.Listed()
      ensures complete <==> blockers == [] && (counts.state.Archived? || counts.state.Completed?)
    {
      blockers := [];
      if counts.pendingApproval {
        blockers := blockers + [PendingApproval];
      }
      if counts.openIncident {
        blockers := blockers + [OpenIncident];
      }
      if counts.quarantined > 0 {
        blockers := blockers + [QuarantinedInputs];
      }
      if counts.expected == 0 {
        blockers := blockers + [NoInputs];
      }
      if counts.materialized < counts.expected && counts.state.Completed? {
        blockers := blockers + [NotMaterialized];
      }
      complete := |blockers| == 0 && (counts.state.Archived? || counts.state.Completed?);
    }
  }

  /** Counts the run's rows one question at a time and evaluates the report. */
  method GetRunReadiness(db: Db, runId: Id) returns (r: Result<RunReadiness>)
    ensures runId !in db.runs ==> r == Failure(NotFound)
    ensures runId in db.runs ==>
              && r.Success? && fresh(r.value)
              && r.value.counts == CountsOf(db, runId)
              && r.value.counts.approved == |InputsThatAre(db, runId, Approved)|
              && r.value.counts.rejected == |InputsThatAre(db, runId, Rejected)|
              && (forall b :: b in r.value.blockers <==> r.value.counts.Blocked(b))
              && (r.value.complete <==>
                  r.value.blockers == [] && (r.value.counts.state.Archived? || r.value.counts.state.Completed?))
  {
    if runId !in db.runs {
      return Failure(NotFound);
    }
    var report := new RunReadiness(Counts(db.runs[runId].state, 0, 0, 0, 0, 0, false, false, None));
    report.counts := report.counts.(expected := |InputsOf(db.inputs, runId)|);
    var materialized := |InState(db, runId, {Materialized, Approved, Rejected, Quarantined})|;
    report.counts := report.counts.(materialized := materialized);
    report.counts := report.counts.(approved := |InState(db, runId, {Approved})|);
    report.counts := report.counts.(rejected := |InState(db, runId, {Rejected})|);
    report.counts := report.counts.(quarantined := |InState(db, runId, {Quarantined})|);
    var pending := |PendingTasks(db.approvals, runId)|;
    report.counts := report.counts.(pendingApproval := pending > 0);
    var active := |ActiveIncidents(db.incidents, runId)|;
    report.counts := report.counts.(openIncident := active > 0);
    var last := Maximum(db.observations, ObservationsOf(db.observations, runId));
    report.counts := report.counts.(lastObservation := last);
    report.Evaluate();
    OfOneState(db, runId, Approved);
    OfOneState(db, runId, Rejected);
    ListedMeans(report.counts);
    return Success(report);
  }

  // ---------------------------------------------------------------- in reachable states

  /** Every input of a completed run counts as materialized, so that blocker never shows. */
  lemma {:induction false} CompletedIsMaterialized(h: History, r: Id)
    requires r in After(h).runs && After(h).runs[r].state.Completed?
    ensures CountsOf(After(h), r).materialized == CountsOf(After(h), r).expected
    ensures !CountsOf(After(h), r).Blocked(NotMaterialized)
  {
    AlwaysInv(h);
    hide After, RowsKept, PoolsHeld, DriftKept, DaysWithinLimit, ApprovalsSettled, AnswersKept, TotalsAddUp;
    hide InputsInStep;
    var db := After(h);
    assert InState(db, r, {Materialized, Approved, Rejected, Quarantined}) == InputsOf(db.inputs, r);
  }

  /** Quarantined inputs never block alone: an open incident blocks beside them. */
  lemma {:induction false} QuarantineBlocksWithIncident(h: History, r: Id)
    requires r in After(h).runs && CountsOf(After(h), r).Blocked(QuarantinedInputs)
    ensures CountsOf(After(h), r).Blocked(OpenIncident)
  {
    AlwaysInv(h);
    hide After, Inv, RowsKept, PoolsHeld, InputsKept, DaysWithinLimit, ApprovalsSettled, AnswersKept, OneActive;
    hide DriftContained;
    var db := After(h);
    assert DriftContained(db.snapshots, db.inputs, db.incidents) by { DriftIsContained(db); }
    QuarantineHasIncident(db, r);
  }

  lemma {:induction false} DriftIsContained(db: Db)
    requires Inv(db)
    ensures DriftContained(db.snapshots, db.inputs, db.incidents)
  {
    hide RowsKept, PoolsHeld, InputsKept, DaysWithinLimit, ApprovalsSettled, AnswersKept, OneActive, DriftContained;
  }

  lemma {:induction false} QuarantineHasIncident(db: Db, r: Id)
    requires DriftContained(db.snapshots, db.inputs, db.incidents) && r in db.runs
    requires CountsOf(db, r).Blocked(QuarantinedInputs)
    ensures CountsOf(db, r).Blocked(OpenIncident)
  {
    assert InState(db, r, {Quarantined}) != {};
    var s :| s in InState(db, r, {Quarantined});
    assert HasActive(db.incidents, r);
    var i :| ActiveFor(db.incidents, i, r);
    assert i in ActiveIncidents(db.incidents, r);
  }

  /** Exactly the cancelled runs have no inputs. */
  lemma {:induction false} NoInputsMeansCancelled(h: History, r: Id)
    requires r in After(h).runs
    ensures CountsOf(After(h), r).Blocked(NoInputs) <==> After(h).runs[r].state.Cancelled?
  {
    AlwaysInv(h);
    hide After, RowsKept, PoolsHeld, DriftKept, DaysWithinLimit, ApprovalsSettled, AnswersKept, InputsInStep, Volume;
    assert InputsOf(After(h).inputs, r) != {} ==> exists s :: s in InputsOf(After(h).inputs, r);
  }

  /** A completed run can be archived exactly when no input is quarantined. */
  lemma {:induction false} ArchivingNeedsReview(h: History, r: Id, now: Time)
    requires r in After(h).runs && After(h).runs[r].state.Completed?
    ensures Advances(After(h), r, Archived, now) <==> !CountsOf(After(h), r).Blocked(QuarantinedInputs)
  {
    AlwaysInv(h);
    hide After, Inv, Advances, CountsOf;
    CompletedInputs(After(h), r);
    QuarantineStopsArchiving(After(h), r, now);
  }

  lemma {:induction false} CompletedInputs(db: Db, r: Id)
    requires Inv(db) && r in db.runs && db.runs[r].state.Completed?
    ensures db.runs[r].poolId in db.pools
    ensures forall s :: s in InputsOf(db.inputs, r) ==> s in db.snapshots && Fits(Completed, db.snapshots[s].state)
  {
    hide PoolsHeld, DriftKept, DaysWithinLimit, ApprovalsSettled, AnswersKept, InputsInStep, TotalsAddUp, Fits;
    hide WorkspacesValid, ZonesValid, SnapshotsValid, PoolsValid, RunsValid, ReferencesUnique;
  }

  lemma {:induction false} QuarantineStopsArchiving(db: Db, r: Id, now: Time)
    requires r in db.runs && db.runs[r].state.Completed? && db.runs[r].poolId in db.pools
    requires forall s :: s in InputsOf(db.inputs, r) ==> s in db.snapshots && Fits(Completed, db.snapshots[s].state)
    ensures Advances(db, r, Archived, now) <==> !CountsOf(db, r).Blocked(QuarantinedInputs)
  {
    var held := InState(db, r, {Quarantined});
    if s :| s in held {
      assert InputObjection(db.snapshots[s], Archived, now).Some?;
      assert held != {};
    } else {
      forall s | s in InputsOf(db.inputs, r) ensures InputObjection(db.snapshots[s], Archived, now).None? {
        assert s !in held;
      }
      assert held == {};
    }
  }

  /**
    A report that says complete keeps its word: archiving is refused by nothing. For a completed run
    the report says so exactly when archiving is possible and no approval or incident is open.
   */
  lemma {:induction false} CompleteMeansArchivable(h: History, r: Id, now: Time)
    requires r in After(h).runs && After(h).runs[r].state.Completed?
    ensures (forall b :: !CountsOf(After(h), r).Blocked(b)) <==>
            && Advances(After(h), r, Archived, now)
            && !CountsOf(After(h), r).pendingApproval && !CountsOf(After(h), r).openIncident
  {
    hide After, CountsOf, Advances;
    ArchivingNeedsReview(h, r, now);
    CompletedIsMaterialized(h, r);
    NoInputsMeansCancelled(h, r);
    var c := CountsOf(After(h), r);
    if c.pendingApproval { assert c.Blocked(PendingApproval); }
    if c.openIncident { assert c.Blocked(OpenIncident); }
    if c.Blocked(QuarantinedInputs) { assert !Advances(After(h), r, Archived, now); }
    forall b ensures !c.pendingApproval && !c.openIncident && !c.Blocked(QuarantinedInputs) ==> !c.Blocked(b) {
      match b
      case PendingApproval =>
      case OpenIncident =>
      case QuarantinedInputs =>
      case NoInputs =>
      case NotMaterialized =>
    }
  }
}
