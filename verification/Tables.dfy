/**
  The platform's tables. Each write keeps the constraints its SQL statement enforces:
  primary keys, UNIQUE columns, the partial unique indexes, and the version a row is expected to have.
 */
module Tables {
  import opened Base
  import opened BusinessDay
  import opened Domain
  import opened Jobs

  function Get<T>(table: map<Id, T>, id: Id): Result<T> {
    if id in table then Success(table[id]) else Failure(NotFound)
  }

  // ---------------------------------------------------------------- queries

  function InputsOf(inputs: map<Id, Input>, runId: Id): set<Id> {
    set s | s in inputs && inputs[s].runId == runId
  }

  /** The runs that count against a zone's daily limit for the business day of an instant. */
  function RunsInDay(runs: map<Id, Run>, zoneId: Id, clock: ZoneClock, at: Time): set<Id> {
    set r | r in runs && runs[r].sourceZoneId ==
      zoneId && clock.InWindow(runs[r].start, at) && !runs[r].state.Cancelled?
  }

  predicate ActiveFor(incidents: map<Id, Incident>, i: Id, runId: Id) {
    i in incidents && incidents[i].runId == runId && incidents[i].status.IsOpen()
  }

  predicate PendingFor(approvals: map<Id, Approval>, a: Id, runId: Id) {
    a in approvals && approvals[a].runId == runId && approvals[a].status.Pending?
  }

  predicate ReferenceTaken(runs: map<Id, Run>, reference: string) {
    exists r :: r in runs && runs[r].reference == reference
  }

  /** One of the snapshots already feeds a run. */
  predicate InputTaken(inputs: map<Id, Input>, ids: seq<Id>) {
    exists s :: s in ids && s in inputs
  }

  function RowCounts(snapshots: map<Id, Snapshot>): map<Id, int> {
    map s | s in snapshots :: snapshots[s].rows
  }

  /** The estimated rows of a set of snapshots, added up. */
  ghost function Volume(snapshots: map<Id, Snapshot>, ids: set<Id>): int {
    Sum(ids * snapshots.Keys, RowCounts(snapshots))
  }

  // ---------------------------------------------------------------- tables

  datatype Db = Db(
    workspaces: map<Id, Workspace>,
    zones: map<Id, Zone>,
    snapshots: map<Id, Snapshot>,
    pools: map<Id, Pool>,
    runs: map<Id, Run>,
    inputs: map<Id, Input>,              // by snapshot: a snapshot feeds at most one run
    incidents: map<Id, Incident>,
    observations: map<Id, Observation>,
    decisions: map<Id, Decision>,
    approvals: map<Id, Approval>,
    answers: map<string, Answer>,        // by idempotency key
    jobs: map<Id, Job>)
  {
    // -------------------------------------------------------------- writes

    function InsertSnapshot(id: Id, row: Snapshot): (r: Result<Db>)
      ensures r.Success? ==> r.value == this.(snapshots := r.value.snapshots)
    {
      if !row.Valid() then Failure(Validation)
      else if id in snapshots || row.workspaceId !in workspaces || row.sourceZoneId !in zones
        || exists s :: && s in snapshots && snapshots[s].workspaceId == row.workspaceId
                          && snapshots[s].revision == row.revision
      then Failure(Conflict)
      else Success(this.(snapshots := snapshots[id := row]))
    }

    function UpdateSnapshot(id: Id, row: Snapshot, expected: int): (r: Result<Db>)
      ensures r.Success? ==> r.value == this.(snapshots := r.value.snapshots)
    {
      if !row.Valid() then Failure(Validation)
      else if id !in snapshots || snapshots[id].version != expected then Failure(VersionConflict)
      else
        var stored := snapshots[id].(state := row.state, runId := row.runId, note := row.note,
                                     expiresAt := row.expiresAt, updatedAt := row.updatedAt, version := expected + 1);
        Success(this.(snapshots := snapshots[id := stored]))
    }

    function InsertPool(id: Id, row: Pool): (r: Result<Db>)
      ensures r.Success? ==> r.value == this.(pools := r.value.pools)
    {
      if !row.Valid() then Failure(Validation)
      else if id in pools then Failure(Conflict)
      else Success(this.(pools := pools[id := row]))
    }

    function UpdatePool(id: Id, row: Pool, expected: int): (r: Result<Db>)
      ensures r.Success? ==> r.value == this.(pools := r.value.pools)
    {
      if !row.Valid() then Failure(Validation)
      else if id !in pools || pools[id].version != expected then Failure(VersionConflict)
      else Success(this.(pools := pools[id := row.(version := expected + 1)]))
    }

    function InsertRun(id: Id, row: Run): (r: Result<Db>)
      ensures r.Success? ==> r.value == this.(runs := r.value.runs)
    {
      if !row.Valid() then Failure(Validation)
      else if id in runs || ReferenceTaken(runs, row.reference) then Failure(Conflict)
      else Success(this.(runs := runs[id := row]))
    }

    function UpdateRun(id: Id, row: Run, expected: int): (r: Result<Db>)
      ensures r.Success? ==> r.value == this.(runs := r.value.runs)
    {
      if !row.Valid() then Failure(Validation)
      else if id !in runs || runs[id].version != expected then Failure(VersionConflict)
      else
        var stored := runs[id].(state := row.state, startedAt := row.startedAt, completedAt := row.completedAt,
                                archivedAt := row.archivedAt, updatedAt := row.updatedAt, version := expected + 1);
        Success(this.(runs := runs[id := stored]))
    }

    function InsertInput(snapshotId: Id, row: Input): (r: Result<Db>)
      ensures r.Success? ==> r.value == this.(inputs := r.value.inputs)
    {
      if snapshotId in inputs then Failure(Conflict)
      else Success(this.(inputs := inputs[snapshotId := row]))
    }

    function DeleteInputs(runId: Id): Db {
      this.(inputs := map s | s in inputs && inputs[s].runId != runId :: inputs[s])
    }

    function InsertObservation(id: Id, row: Observation): (r: Result<Db>)
      ensures r.Success? ==> r.value == this.(observations := r.value.observations)
    {
      if !row.Valid() then Failure(Validation)
      else if id in observations
        || exists o :: o in observations && observations[o].runId == row.runId
                       && observations[o].metric == row.metric && observations[o].sequence == row.sequence
      then Failure(Conflict)
      else Success(this.(observations := observations[id := row]))
    }

    function InsertIncident(id: Id, row: Incident): (r: Result<Db>)
      ensures r.Success? ==> r.value == this.(incidents := r.value.incidents)
    {
      if id in incidents || (row.status.IsOpen() && exists i :: i in incidents && ActiveFor(incidents, i, row.runId))
      then Failure(Conflict)
      else Success(this.(incidents := incidents[id := row]))
    }

    function UpdateIncident(id: Id, row: Incident, expected: int): (r: Result<Db>)
      ensures r.Success? ==> r.value == this.(incidents := r.value.incidents)
    {
      if id !in incidents || incidents[id].version != expected then Failure(VersionConflict)
      else Success(this.(incidents := incidents[id := row.(version := expected + 1)]))
    }

    function InsertDecision(id: Id, row: Decision): (r: Result<Db>)
      ensures r.Success? ==> r.value == this.(decisions := r.value.decisions)
    {
      if id in decisions then Failure(Conflict)
      else Success(this.(decisions := decisions[id := row]))
    }

    function InsertApproval(id: Id, row: Approval): (r: Result<Db>)
      ensures r.Success? ==> r.value == this.(approvals := r.value.approvals)
    {
      if !row.Valid() then Failure(Validation)
      else if id in approvals ||
        (row.status.Pending? && exists a :: a in approvals && PendingFor(approvals, a, row.runId))
      then Failure(Conflict)
      else Success(this.(approvals := approvals[id := row]))
    }

    function UpdateApproval(id: Id, row: Approval, expected: int): (r: Result<Db>)
      ensures r.Success? ==> r.value == this.(approvals := r.value.approvals)
    {
      if !row.Valid() then Failure(Validation)
      else if id !in approvals || approvals[id].version != expected then Failure(VersionConflict)
      else Success(this.(approvals := approvals[id := row.(version := expected + 1)]))
    }

    /** The upsert replaces a stored answer only when that answer has expired. */
    function PutAnswer(row: Answer): (r: Result<Db>)
      ensures r.Success? ==> r.value == this.(answers := r.value.answers)
    {
      var key := row.request.key;
      if key in answers && answers[key].expiresAt > row.createdAt then Failure(VersionConflict)
      else Success(this.(answers := answers[key := row]))
    }

    function InsertJob(id: Id, row: Job): (r: Result<Db>)
      ensures r.Success? ==> r.value == this.(jobs := r.value.jobs)
    {
      if id in jobs then Failure(Conflict)
      else Success(this.(jobs := jobs[id := row]))
    }
  }

  const EMPTY := Db(map[], map[], map[], map[], map[], map[], map[], map[], map[], map[], map[], map[])
}
