/** Drift evidence over whole histories: which observation each incident absorbed, and what it keeps of them. */
module Evidence {
  import opened Base
  import opened Domain
  import opened Tables
  import opened Lifecycle
  import opened Operations
  import opened Invariant
  import opened PlanInvariant
  import opened DriftInvariant
  import opened Histories

  /** An accepted observation outside the workspace's score range. */
  ghost predicate Drifts(db: Db, e: Event) {
    e.request.Observe? && ObserveCheck(db, e.request.report).None? && !InRange(db, e.request.report.observation)
  }

  /** The incident each out-of-range observation of a history went to. */
  ghost function Absorbed(h: History): map<Id, Id> {
    if h == [] then map[] else
      var before, e := Absorbed(h[..|h| - 1]), h[|h| - 1];
      if Drifts(After(h[..|h| - 1]), e)
      then before[e.request.report.observationId := Absorber(After(h[..|h| - 1]), e.request.report)]
      else before
  }

  function Members(absorbed: map<Id, Id>, i: Id): set<Id> {
    set o | o in absorbed && absorbed[o] == i
  }

  ghost function OutOfRange(db: Db): set<Id> {
    set o | o in db.observations && !InRange(db, db.observations[o])
  }

  /**
    The incident sums up exactly these observations: their number, least and greatest score,
    first and last time, in whatever order they came.
   */
  ghost predicate Summarises(i: Incident, observations: map<Id, Observation>, members: set<Id>) {
    && members <= observations.Keys
    && i.count == |members| >= 1
    && (forall o :: o in members ==> i.minimum <= observations[o].score <= i.maximum)
    && (forall o :: o in members ==> i.first <= observations[o].recordedAt <= i.last)
    && (exists o :: o in members && observations[o].score == i.minimum)
    && (exists o :: o in members && observations[o].score == i.maximum)
    && (exists o :: o in members && observations[o].recordedAt == i.first)
    && (exists o :: o in members && observations[o].recordedAt == i.last)
  }

  ghost predicate Accounted(observations: map<Id, Observation>, incidents: map<Id, Incident>, absorbed: map<Id, Id>) {
    && (forall o :: o in absorbed ==>
                      && o in observations && absorbed[o] in incidents
                      && incidents[absorbed[o]].runId == observations[o].runId)
    && (forall i :: i in incidents ==> Summarises(incidents[i], observations, Members(absorbed, i)))
  }

  // ---------------------------------------------------------------- absorbing one observation

  lemma {:induction false} IncludeSummarises(
      i: Incident, o: Observation, id: Id, observations: map<Id, Observation>, members: set<Id>, now: Time)
    requires if i.count == 0 then members == {} else Summarises(i, observations, members)
    requires id !in observations
    ensures Summarises(i.Include(o, now), observations[id := o], members + {id})
  {
    var later, all := observations[id := o], members + {id};
    assert id in all && later[id] == o;
    if i.count != 0 {
      var a :| a in members && observations[a].score == i.minimum;
      var b :| b in members && observations[b].score == i.maximum;
      var c :| c in members && observations[c].recordedAt == i.first;
      var d :| d in members && observations[d].recordedAt == i.last;
      assert later[a].score == i.minimum && later[b].score == i.maximum;
      assert later[c].recordedAt == i.first && later[d].recordedAt == i.last;
      assert {a, b, c, d} <= all;
    }
  }

  /** Observations stored later do not disturb what is summed up. */
  lemma {:induction false} SummaryStays(
      i: Incident, observations: map<Id, Observation>, members: set<Id>, id: Id, o: Observation)
    requires Summarises(i, observations, members) && id !in observations
    ensures Summarises(i, observations[id := o], members)
  {
    var later := observations[id := o];
    forall m | m in members ensures later[m] == observations[m] {}
  }

  lemma {:induction false} SummaryRestated(
      i: Incident, j: Incident, observations: map<Id, Observation>, members: set<Id>)
    requires Summarises(i, observations, members) && SameEvidence(i, j)
    ensures Summarises(j, observations, members)
  {
  }

  predicate SameEvidence(i: Incident, j: Incident) {
    && i.runId == j.runId && i.first == j.first && i.last == j.last
    && i.minimum == j.minimum && i.maximum == j.maximum && i.count == j.count
  }

  lemma {:induction false} AbsorbingAccounts(
      observations: map<Id, Observation>, incidents: map<Id, Incident>, absorbed: map<Id, Id>, id: Id,
      o: Observation, i: Id, before: Incident, now: Time, version: int)
    requires Accounted(observations, incidents, absorbed) && id !in observations
    requires before.runId == o.runId
    requires if i in incidents then before == incidents[i] else before.count == 0
    ensures Accounted(observations[id := o], incidents[i := before.Include(o, now).(version := version)],
                      absorbed[id := i])
  {
    hide Summarises;
    var observations', absorbed' := observations[id := o], absorbed[id := i];
    var after := before.Include(o, now).(version := version);
    var incidents' := incidents[i := after];
    assert Members(absorbed', i) == Members(absorbed, i) + {id};
    if i !in incidents {
      assert Members(absorbed, i) == {};
    } else {
      CountedAlready(before, observations, Members(absorbed, i));
    }
    IncludeSummarises(before, o, id, observations, Members(absorbed, i), now);
    SummaryRestated(before.Include(o, now), after, observations', Members(absorbed', i));
    forall k | k in incidents' && k != i ensures Summarises(incidents'[k], observations', Members(absorbed', k)) {
      assert Members(absorbed', k) == Members(absorbed, k);
      SummaryStays(incidents[k], observations, Members(absorbed, k), id, o);
    }
  }

  lemma {:induction false} CountedAlready(i: Incident, observations: map<Id, Observation>, members: set<Id>)
    requires Summarises(i, observations, members)
    ensures i.count != 0
  {
  }

  lemma {:induction false} StoringAccounts(
      observations: map<Id, Observation>, incidents: map<Id, Incident>, absorbed: map<Id, Id>, id: Id, o: Observation)
    requires Accounted(observations, incidents, absorbed) && id !in observations
    ensures Accounted(observations[id := o], incidents, absorbed)
  {
    hide Summarises;
    var observations' := observations[id := o];
    forall i | i in incidents ensures Summarises(incidents[i], observations', Members(absorbed, i)) {
      SummaryStays(incidents[i], observations, Members(absorbed, i), id, o);
    }
  }

  lemma {:induction false} RestatingAccounts(
      observations: map<Id, Observation>, incidents: map<Id, Incident>, absorbed: map<Id, Id>, i: Id, row: Incident)
    requires Accounted(observations, incidents, absorbed) && i in incidents && SameEvidence(incidents[i], row)
    ensures Accounted(observations, incidents[i := row], absorbed)
  {
    hide Summarises, Members;
    SummaryRestated(incidents[i], row, observations, Members(absorbed, i));
    var incidents' := incidents[i := row];
    forall k | k in incidents' ensures Summarises(incidents'[k], observations, Members(absorbed, k)) {}
  }

  // ---------------------------------------------------------------- what other requests leave alone

  /** Every run keeps its workspace, and every workspace its score range. */
  ghost predicate RangesStay(db: Db, after: Db) {
    && (forall r :: r in db.runs ==> r in after.runs && after.runs[r].workspaceId == db.runs[r].workspaceId)
    && (forall w :: w in db.workspaces ==> w in after.workspaces && after.workspaces[w].score == db.workspaces[w].score)
  }

  ghost predicate RangesKnown(db: Db) {
    forall o :: o in db.observations ==>
                  db.observations[o].runId in db.runs && db.runs[db.observations[o].runId].workspaceId in db.workspaces
  }

  lemma {:induction false} RangesStaySo(db: Db, after: Db, o: Observation)
    requires RangesStay(db, after) && o.runId in db.runs && db.runs[o.runId].workspaceId in db.workspaces
    ensures InRange(after, o) == InRange(db, o)
  {
  }

  lemma {:induction false} WorkspacesKeepRanges(db: Db, id: Id, row: Workspace)
    requires id !in db.workspaces || row.score == db.workspaces[id].score
    ensures RangesStay(db, db.(workspaces := db.workspaces[id := row]))
  {
  }

  lemma {:induction false} RunsKeepRanges(db: Db, after: Db, id: Id)
    requires after.workspaces == db.workspaces && id in after.runs && after.runs == db.runs[id := after.runs[id]]
    requires id !in db.runs || after.runs[id].workspaceId == db.runs[id].workspaceId
    ensures RangesStay(db, after)
  {
  }

  lemma {:induction false} CatalogueKeepsRanges(db: Db, e: Event)
    requires e.request.CreateWorkspace? || e.request.Activate?
    ensures RangesStay(db, Apply(db, e))
  {
    hide Apply, RangesStay;
    Applies(db, e);
    match e.request
    case CreateWorkspace(id, row) =>
      if AddWorkspace(db, id, row).Success? {
        WorkspacesKeepRanges(db, id, row.(status := Draft));
      } else {
        NothingKeepsRanges(db);
      }
    case Activate(id) =>
      if ActivateWorkspace(db, id).Success? {
        WorkspacesKeepRanges(db, id, db.workspaces[id].(status := Active));
      } else {
        NothingKeepsRanges(db);
      }
  }

  lemma {:induction false} NothingKeepsRanges(db: Db)
    ensures RangesStay(db, db)
  {
  }

  lemma {:induction false} PlanKeepsRanges(db: Db, q: PlanRequest, now: Time, runId: Id, jobId: Id)
    requires Plans(db, q, now, runId, jobId)
    ensures q.poolId in db.pools && RangesStay(db, PlanPost(db, q, now, runId, jobId))
  {
    hide RangesStay;
    AcceptedPlan(db, q, now, runId, jobId);
    hide Plans, Fresh, Reservable, RunsInDay, Blank, Trim, Volume, ReserveRows, BindInputs, HoldPool, IdSet;
    RunsKeepRanges(db, PlanPost(db, q, now, runId, jobId), runId);
  }

  lemma {:induction false} AdvanceKeepsRanges(db: Db, runId: Id, target: RunState, began: Time, now: Time)
    requires runId in db.runs && db.runs[runId].poolId in db.pools
    ensures RangesStay(db, AdvancePost(db, runId, target, began, now))
  {
    hide RangesStay, AdvanceRows, AdvancePool, InputsOf;
    RunsKeepRanges(db, AdvancePost(db, runId, target, began, now), runId);
  }

  lemma {:induction false} CancelKeepsRanges(db: Db, runId: Id, now: Time)
    requires runId in db.runs && db.runs[runId].poolId in db.pools
    ensures RangesStay(db, CancelPost(db, runId, now))
  {
    hide RangesStay, ReleaseRows, InputsOf;
    RunsKeepRanges(db, CancelPost(db, runId, now), runId);
  }

  lemma {:induction false} MoveKeepsRanges(db: Db, e: Event)
    requires MovesRuns(e.request)
    ensures RangesStay(db, Apply(db, e))
  {
    hide Apply, RangesStay, Plans, PlanPost, AdvancePost, CancelPost;
    Applies(db, e);
    NothingKeepsRanges(db);
    match e.request
    case Plan(q, runId, jobId) => if Plans(db, q, e.now, runId, jobId) { PlanKeepsRanges(db, q, e.now, runId, jobId); }
    case Advance(runId, target, began) =>
      if Advances(db, runId, target, e.now) { AdvanceKeepsRanges(db, runId, target, began, e.now); }
    case Cancel(runId) => if Cancels(db, runId, e.now) { CancelKeepsRanges(db, runId, e.now); }
  }

  lemma {:induction false} SomeSpareRanges(q: Request, db: Db, after: Db)
    requires Framed(q, db, after)
    requires !q.CreateWorkspace? && !q.Activate? && !MovesRuns(q)
    ensures RangesStay(db, after)
  {
    assert after.workspaces == db.workspaces && after.runs == db.runs;
  }

  lemma {:induction false} StepKeepsRanges(db: Db, e: Event)
    ensures RangesStay(db, Apply(db, e))
  {
    hide Apply, Framed, RangesStay;
    match e.request
    case CreateWorkspace(_, _) => CatalogueKeepsRanges(db, e);
    case Activate(_) => CatalogueKeepsRanges(db, e);
    case Plan(_, _, _) => MoveKeepsRanges(db, e);
    case Advance(_, _, _) => MoveKeepsRanges(db, e);
    case Cancel(_) => MoveKeepsRanges(db, e);
    case _ =>
      StepFramed(db, e);
      SomeSpareRanges(e.request, db, Apply(db, e));
  }

  // ---------------------------------------------------------------- one request

  /** The out-of-range observations are the absorbed ones, and each incident sums up its own. */
  ghost predicate InEvidence(db: Db, absorbed: map<Id, Id>) {
    RangesKnown(db) && absorbed.Keys == OutOfRange(db) && Accounted(db.observations, db.incidents, absorbed)
  }

  lemma {:induction false} QuietStep(db: Db, after: Db, absorbed: map<Id, Id>)
    requires InEvidence(db, absorbed) && RangesStay(db, after) && after.observations == db.observations
    requires Accounted(after.observations, after.incidents, absorbed)
    ensures InEvidence(after, absorbed)
  {
    hide Accounted, InRange;
    forall o | o in db.observations ensures InRange(after, after.observations[o]) == InRange(db, db.observations[o]) {
      RangesStaySo(db, after, db.observations[o]);
    }
  }

  lemma {:induction false} SomeSpareEvidence(q: Request, db: Db, after: Db)
    requires Framed(q, db, after) && !q.Observe?
    ensures after.observations == db.observations
    ensures !q.Review? && !q.Decide? ==> after.incidents == db.incidents
  {
  }

  lemma {:induction false} ReviewsRestate(db: Db, e: Event, absorbed: map<Id, Id>)
    requires Accounted(db.observations, db.incidents, absorbed) && (e.request.Review? || e.request.Decide?)
    ensures Accounted(db.observations, Apply(db, e).incidents, absorbed)
  {
    hide Accounted, RuleRows, InputsOf, Trim, Blank;
    match e.request
    case Review(id) =>
      if StartReview(db, id, e.now).Success? {
        RestatingAccounts(db.observations, db.incidents, absorbed, id, StartReview(db, id, e.now).value.incidents[id]);
      }
    case Decide(r, began) =>
      if DecideCheck(db, r).None? {
        RestatingAccounts(db.observations, db.incidents, absorbed, r.incidentId,
                          DecidePost(db, r, began, e.now).incidents[r.incidentId]);
      }
  }

  lemma {:induction false} OtherStep(db: Db, e: Event, absorbed: map<Id, Id>)
    requires InEvidence(db, absorbed) && !e.request.Observe?
    ensures InEvidence(Apply(db, e), absorbed)
  {
    var after := Apply(db, e);
    StepKeepsRanges(db, e);
    hide Apply, Framed, Accounted, OutOfRange, RangesKnown, RangesStay;
    StepFramed(db, e);
    SomeSpareEvidence(e.request, db, after);
    if e.request.Review? || e.request.Decide? {
      ReviewsRestate(db, e, absorbed);
    }
    QuietStep(db, after, absorbed);
  }

  lemma {:induction false} ObservationIsNew(db: Db, r: Report)
    requires ObserveCheck(db, r).None?
    ensures r.observationId !in db.observations
    ensures r.observation.runId in db.runs && db.runs[r.observation.runId].workspaceId in db.workspaces
  {
    hide Blank;
  }

  /** What an out-of-range observation is included in: the run's active incident, or an empty one. */
  ghost function Absorbing(db: Db, r: Report, now: Time): Incident
    requires r.observation.runId in db.runs && db.runs[r.observation.runId].workspaceId in db.workspaces
  {
    match ActiveIncident(db.incidents, r.observation.runId)
    case Some(i) => db.incidents[i]
    case None =>
      Incident(r.observation.runId, Open, 0, 0, 0, 0, 0,
               now + db.workspaces[db.runs[r.observation.runId].workspaceId].reviewDeadline, now, 1)
  }

  lemma {:induction false} AbsorbingIncludes(db: Db, r: Report, now: Time)
    requires r.observation.runId in db.runs && db.runs[r.observation.runId].workspaceId in db.workspaces
    requires ObserveCheck(db, r).None? && !InRange(db, r.observation)
    ensures var before := Absorbing(db, r, now); var i := Absorber(db, r); var after := AbsorbedInto(db, r, now);
            && after == before.Include(r.observation, now).(version := after.version)
            && before.runId == r.observation.runId
            && (if i in db.incidents then before == db.incidents[i] else before.count == 0)
  {
    hide Blank;
  }

  lemma {:induction false} ObserveWrites(db: Db, r: Report, now: Time)
    requires r.observation.runId in db.runs && db.runs[r.observation.runId].workspaceId in db.workspaces
    ensures ObservePost(db, r, now).observations == db.observations[r.observationId := r.observation]
    ensures ObservePost(db, r, now).incidents
            == if InRange(db, r.observation) then db.incidents
              else db.incidents[Absorber(db, r) := AbsorbedInto(db, r, now)]
  {
    hide InRange, Absorber, AbsorbedInto, ActiveIncident, QuarantineRows, InputsOf, ReviewJob;
    if InRange(db, r.observation) {
    } else {
    }
  }

  lemma {:induction false} ObserveAccounts(db: Db, r: Report, now: Time, absorbed: map<Id, Id>)
    requires Accounted(db.observations, db.incidents, absorbed) && ObserveCheck(db, r).None?
    requires r.observationId !in db.observations
    requires r.observation.runId in db.runs && db.runs[r.observation.runId].workspaceId in db.workspaces
    ensures Accounted(ObservePost(db, r, now).observations, ObservePost(db, r, now).incidents,
                      if InRange(db, r.observation) then absorbed else absorbed[r.observationId := Absorber(db, r)])
  {
    hide Accounted, ObserveCheck, ObservePost, InRange, Absorber, AbsorbedInto, Absorbing;
    ObserveWrites(db, r, now);
    if InRange(db, r.observation) {
      StoringAccounts(db.observations, db.incidents, absorbed, r.observationId, r.observation);
    } else {
      AbsorbingIncludes(db, r, now);
      AbsorbingAccounts(db.observations, db.incidents, absorbed, r.observationId, r.observation,
                        Absorber(db, r), Absorbing(db, r, now), now, AbsorbedInto(db, r, now).version);
    }
  }

  lemma {:induction false} ObservedRange(db: Db, after: Db, id: Id, o: Observation)
    requires RangesKnown(db) && RangesStay(db, after) && id !in db.observations
    requires o.runId in db.runs && db.runs[o.runId].workspaceId in db.workspaces
    requires after.observations == db.observations[id := o]
    ensures RangesKnown(after)
    ensures OutOfRange(after) == if InRange(db, o) then OutOfRange(db) else OutOfRange(db) + {id}
  {
    hide InRange;
    forall p | p in after.observations
      ensures InRange(after, after.observations[p]) == InRange(db, after.observations[p])
    {
      RangesStaySo(db, after, after.observations[p]);
    }
  }

  lemma {:induction false} ObserveStep(db: Db, r: Report, now: Time, absorbed: map<Id, Id>)
    requires InEvidence(db, absorbed) && ObserveCheck(db, r).None?
    requires r.observation.runId in db.runs && db.runs[r.observation.runId].workspaceId in db.workspaces
    ensures InEvidence(ObservePost(db, r, now),
                       if InRange(db, r.observation) then absorbed else absorbed[r.observationId := Absorber(db, r)])
  {
    ObservationIsNew(db, r);
    var after := ObservePost(db, r, now);
    assert RangesStay(db, after);
    hide Accounted, OutOfRange, RangesKnown, RangesStay, ObserveCheck, ObservePost, InRange, Absorber, AbsorbedInto;
    ObserveWrites(db, r, now);
    ObserveAccounts(db, r, now, absorbed);
    ObservedRange(db, after, r.observationId, r.observation);
  }

  lemma {:induction false} ObserveEvent(db: Db, e: Event, absorbed: map<Id, Id>)
    requires InEvidence(db, absorbed) && e.request.Observe?
    ensures InEvidence(Apply(db, e), if Drifts(db, e)
                       then absorbed[e.request.report.observationId := Absorber(db, e.request.report)] else absorbed)
  {
    hide InEvidence, ObserveCheck, ObservePost, InRange, Absorber;
    if ObserveCheck(db, e.request.report).None? {
      ObservationHasRun(db, e.request.report);
      ObserveStep(db, e.request.report, e.now, absorbed);
    }
  }

  // ---------------------------------------------------------------- every history

  lemma {:induction false} AlwaysInEvidence(h: History)
    ensures InEvidence(After(h), Absorbed(h))
    ensures Absorbed(h).Keys == Outside(After(h))
  {
    OutsideIs(After(h), Absorbed(h));
    hide InEvidence, Apply, Absorber, ObserveCheck, InRange;
    if h == [] {
      EmptyInEvidence();
    } else {
      var before, db, e := Absorbed(h[..|h| - 1]), After(h[..|h| - 1]), h[|h| - 1];
      AlwaysInEvidence(h[..|h| - 1]);
      if e.request.Observe? {
        ObserveEvent(db, e, before);
      } else {
        OtherStep(db, e, before);
      }
    }
  }

  /** The stored observations whose score is below or above the range of the workspace of their run. */
  ghost function Outside(db: Db): set<Id> {
    set o | o in db.observations && IsOutside(db, db.observations[o])
  }

  ghost predicate IsOutside(db: Db, o: Observation) {
    && o.runId in db.runs && db.runs[o.runId].workspaceId in db.workspaces
    && var range := db.workspaces[db.runs[o.runId].workspaceId].score;
    o.score < range.minimum || range.maximum < o.score
  }

  lemma {:induction false} OutsideIs(db: Db, absorbed: map<Id, Id>)
    ensures InEvidence(db, absorbed) ==> absorbed.Keys == Outside(db)
  {
    hide Accounted;
  }

  lemma {:induction false} EmptyInEvidence()
    ensures InEvidence(EMPTY, map[])
  {
  }

  /** Every incident sums up exactly the observations it absorbed, all of its own run. */
  lemma {:induction false} IncidentsSumUp(h: History, i: Id)
    requires i in After(h).incidents
    ensures Summarises(After(h).incidents[i], After(h).observations, Members(Absorbed(h), i))
    ensures forall o :: o in Members(Absorbed(h), i) ==>
                          o in After(h).observations && After(h).observations[o].runId == After(h).incidents[i].runId
  {
    hide After, Absorbed, Summarises, OutOfRange, RangesKnown;
    AlwaysInEvidence(h);
  }

  function IncidentsOf(incidents: map<Id, Incident>, r: Id): set<Id> {
    set i | i in incidents && incidents[i].runId == r
  }

  function Counts(incidents: map<Id, Incident>): map<Id, int> {
    map i | i in incidents :: incidents[i].count
  }

  function IntoAny(absorbed: map<Id, Id>, s: set<Id>): set<Id> {
    set o | o in absorbed && absorbed[o] in s
  }

  /** A run's stored observations that lie outside its workspace's score range. */
  ghost function OutOfRangeFor(db: Db, r: Id): set<Id> {
    set o | o in db.observations && db.observations[o].runId == r && IsOutside(db, db.observations[o])
  }

  /** The observation counts of a run's incidents add up to its stored out-of-range observations: none is lost or
      counted twice. */
  lemma {:induction false} EvidenceIsConserved(h: History, r: Id)
    ensures var db := After(h);
            Sum(IncidentsOf(db.incidents, r), Counts(db.incidents))
            == |OutOfRangeFor(db, r)|
  {
    hide After, Absorbed, Summarises, InRange, IsOutside, OutOfRange, Counts, Members;
    AlwaysInEvidence(h);
    var db, absorbed := After(h), Absorbed(h);
    forall i | i in db.incidents ensures i in Counts(db.incidents) && Counts(db.incidents)[i] ==
      |Members(absorbed, i)| {
      CountIsSize(db.observations, db.incidents, absorbed, i);
    }
    PartitionSum(IncidentsOf(db.incidents, r), absorbed, Counts(db.incidents));
    assert IntoAny(absorbed, IncidentsOf(db.incidents, r)) == OutOfRangeFor(db, r);
  }

  lemma {:induction false} CountIsSize(
      observations: map<Id, Observation>, incidents: map<Id, Incident>, absorbed: map<Id, Id>, i: Id)
    requires Accounted(observations, incidents, absorbed) && i in incidents
    ensures i in Counts(incidents) && Counts(incidents)[i] == |Members(absorbed, i)|
  {
  }

  lemma {:induction false} PartitionSum(s: set<Id>, absorbed: map<Id, Id>, counts: map<Id, int>)
    requires s <= counts.Keys && forall i :: i in s ==> counts[i] == |Members(absorbed, i)|
    ensures Sum(s, counts) == |IntoAny(absorbed, s)|
  {
    if s == {} {
      assert IntoAny(absorbed, s) == {};
    } else {
      var i :| i in s;
      SumSplit(s, counts, i);
      PartitionSum(s - {i}, absorbed, counts);
      assert IntoAny(absorbed, s) == Members(absorbed, i) + IntoAny(absorbed, s - {i});
    }
  }
}
