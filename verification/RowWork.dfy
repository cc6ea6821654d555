/** The row-by-row work of the run services: checking, binding, moving and releasing a run's inputs. */
module RowWork {
  import opened Base
  import opened Domain
  import opened Tables
  import opened Lifecycle
  import opened Operations
  import opened Invariant
  import opened PlanInvariant

  /** Each member once, in some order. */
  ghost predicate Enumerates(ids: seq<Id>, s: set<Id>) {
    Distinct(ids) && IdSet(ids) == s
  }

  /** The inputs of a run; the order of the rows is left open. */
  method ListInputs(db: Db, runId: Id) returns (ids: seq<Id>)
    ensures Enumerates(ids, InputsOf(db.inputs, runId))
  {
    ids := [];
    var rest := InputsOf(db.inputs, runId);
    while rest != {}
      invariant Distinct(ids) && IdSet(ids) !! rest && IdSet(ids) + rest == InputsOf(db.inputs, runId)
      decreases rest
    {
      var s :| s in rest;
      AddedOnce(ids, s);
      ids := ids + [s];
      rest := rest - {s};
    }
  }

  lemma {:induction false} AddedOnce(ids: seq<Id>, s: Id)
    requires Distinct(ids) && s !in IdSet(ids)
    ensures Distinct(ids + [s]) && IdSet(ids + [s]) == IdSet(ids) + {s}
  {
    var ids' := ids + [s];
    forall j, k | 0 <= j < k < |ids'| ensures ids'[j] != ids'[k] {
      assert ids'[j] in IdSet(ids);
    }
    forall x ensures x in IdSet(ids') <==> x in IdSet(ids) + {s} {
      if x in IdSet(ids) {
        var j :| 0 <= j < |ids| && ids[j] == x;
        assert ids'[j] == x;
      }
      assert ids'[|ids|] == s;
    }
  }

  /** The first i ids, and what one more adds. */
  lemma {:induction false} OneMoreId(ids: seq<Id>, i: nat)
    requires i < |ids|
    ensures IdSet(ids[..i + 1]) == IdSet(ids[..i]) + {ids[i]}
    ensures Distinct(ids) ==> ids[i] !in IdSet(ids[..i])
  {
    assert ids[..i + 1] == ids[..i] + [ids[i]];
  }

  // ---------------------------------------------------------------- planning

  /** The requested rows as reserved, in request order. */
  ghost predicate ReservedRows(rows: map<Id, Snapshot>, ids: seq<Id>, now: Time, batches: seq<Snapshot>) {
    && |batches| == |ids|
    && forall k :: 0 <= k < |ids| ==> ids[k] in rows && batches[k] == rows[ids[k]].(state := Reserved, updatedAt := now)
  }

  /** Reads and reserves each requested snapshot in turn, adding up their rows; stops at the first that cannot be
      taken. */
  method GatherInputs(db: Db, q: PlanRequest, now: Time) returns (r: Result<seq<Snapshot>>, volume: int)
    ensures InputCheck(db, q, now, 0).Some? ==> r == Failure(InputCheck(db, q, now, 0).value)
    ensures InputCheck(db, q, now, 0).None? ==>
              r.Success? && ReservedRows(db.snapshots, q.snapshotIds, now, r.value) && volume ==
                Volume(db.snapshots, IdSet(q.snapshotIds))
  {
    var ids := q.snapshotIds;
    volume := 0;
    var batches: seq<Snapshot>, seen: set<Id> := [], {};
    var i := 0;
    while i < |ids|
      invariant i <= |ids|
      invariant InputCheck(db, q, now, 0) == InputCheck(db, q, now, i)
      invariant seen == IdSet(ids[..i]) && seen <= db.snapshots.Keys
      invariant ReservedRows(db.snapshots, ids[..i], now, batches)
      invariant volume == Sum(seen, RowCounts(db.snapshots))
    {
      var id := ids[i];
      assert id in seen <==> id in ids[..i];
      if id in seen {
        return Failure(Conflict), volume;
      }
      var batch :- Get(db.snapshots, id);
      if batch.workspaceId != q.workspaceId || batch.sourceZoneId != q.sourceZoneId {
        return Failure(Conflict), volume;
      }
      var reserved :- batch.Transition(Reserved, now);
      OneMoreId(ids, i);
      assert ids[..i + 1] == ids[..i] + [id];
      SumSplit(seen + {id}, RowCounts(db.snapshots), id);
      assert seen + {id} - {id} == seen;
      volume := volume + batch.rows;
      batches := batches + [reserved];
      seen := seen + {id};
      i := i + 1;
    }
    assert ids[..i] == ids && IdSet(ids) * db.snapshots.Keys == IdSet(ids);
    return Success(batches), volume;
  }

  /** Writes the reserved rows and their run-input entries one by one. */
  method BindBatches(db: Db, ids: seq<Id>, batches: seq<Snapshot>, runId: Id, now: Time) returns (r: Result<Db>)
    requires SnapshotsValid(db.snapshots) && Distinct(ids) && ReservedRows(db.snapshots, ids, now, batches)
    ensures if InputTaken(db.inputs, ids) then r == Failure(Conflict)
            else r == Success(db.(snapshots := ReserveRows(db.snapshots, IdSet(ids), runId, now),
                                  inputs := BindInputs(db.inputs, IdSet(ids), runId, now)))
  {
    hide Blank, ReserveRows, BindInputs, IdSet;
    var tx := db;
    var i := 0;
    ReserveNone(db.snapshots, db.inputs, ids, runId, now);
    while i < |ids|
      invariant i <= |ids|
      invariant forall k :: 0 <= k < i ==> ids[k] !in db.inputs
      invariant tx == db.(snapshots := ReserveRows(db.snapshots, IdSet(ids[..i]), runId, now),
                          inputs := BindInputs(db.inputs, IdSet(ids[..i]), runId, now))
    {
      var batch := batches[i].(runId := Some(runId));
      OneMoreId(ids, i);
      ReserveOne(db.snapshots, IdSet(ids[..i]), ids[i], runId, now);
      BindOne(db.inputs, IdSet(ids[..i]), ids[i], runId, now);
      // The row was read in this transaction, so its version still matches.
      tx := tx.UpdateSnapshot(ids[i], batch, batch.version).Extract();
      tx :- tx.InsertInput(ids[i], Input(runId, now));
      i := i + 1;
    }
    assert ids[..i] == ids;
    return Success(tx);
  }

  lemma {:induction false} ReserveNone(
      rows: map<Id, Snapshot>, inputs: map<Id, Input>, ids: seq<Id>, runId: Id, now: Time)
    ensures ReserveRows(rows, IdSet(ids[..0]), runId, now) == rows
    ensures BindInputs(inputs, IdSet(ids[..0]), runId, now) == inputs
  {
  }

  lemma {:induction false} ReserveOne(rows: map<Id, Snapshot>, done: set<Id>, s: Id, runId: Id, now: Time)
    requires s in rows && s !in done
    ensures var row := rows[s]; var before := ReserveRows(rows, done, runId, now);
            && s in before && before[s] == row
            && ReserveRows(rows, done + {s}, runId, now)
               == before[s := row.(state := Reserved, runId := Some(runId), updatedAt := now,
                                   version := row.version + 1)]
  {
  }

  lemma {:induction false} BindOne(inputs: map<Id, Input>, done: set<Id>, s: Id, runId: Id, now: Time)
    requires s !in done
    ensures s in BindInputs(inputs, done, runId, now) <==> s in inputs
    ensures BindInputs(inputs, done + {s}, runId, now) == BindInputs(inputs, done, runId, now)[s := Input(runId, now)]
  {
  }

  // ---------------------------------------------------------------- moving on, releasing

  method AdvanceInput(row: Snapshot, target: RunState, now: Time) returns (r: Result<Snapshot>)
    ensures InputObjection(row, target, now).Some? ==> r == Failure(InputObjection(row, target, now).value)
    ensures InputObjection(row, target, now).None? ==>
              r.Success? && SameStored(r.value, row)
              && (target.Running? || target.Completed? ==>
                  r.value.(version := row.version + 1) == AdvanceRow(row, target, now))
  {
    var batch := row;
    match target {
      case Running =>
        batch :- batch.Transition(Materializing, now);
      case Completed =>
        if !batch.state.Quarantined? && !batch.state.Rejected? && !batch.state.Approved? {
          batch :- batch.Transition(Materialized, now);
        }
      case Archived =>
        if !batch.state.Approved? && !batch.state.Rejected? && !batch.state.Materialized? {
          return Failure(Conflict);
        }
      case _ =>
    }
    return Success(batch);
  }

  /** A row that differs from the stored one in state and stamp only. */
  predicate SameStored(row: Snapshot, stored: Snapshot) {
    row == stored.(state := row.state, updatedAt := row.updatedAt)
  }

  /** Moves each input on in turn; stops at the first that objects. */
  method AdvanceInputs(db: Db, items: seq<Id>, target: RunState, now: Time) returns (r: Result<Db>)
    requires SnapshotsValid(db.snapshots) && Distinct(items) && IdSet(items) <= db.snapshots.Keys
    ensures if forall s :: s in IdSet(items) ==> InputObjection(db.snapshots[s], target, now).None?
            then r == Success(db.(snapshots := AdvanceRows(db.snapshots, IdSet(items), target, now)))
            else
              && r.Failure?
              && exists s :: s in IdSet(items) && InputObjection(db.snapshots[s], target, now) == Some(r.error)
  {
    hide Blank, AdvanceRows, InputObjection;
    var tx := db;
    var i := 0;
    AdvanceNone(db.snapshots, IdSet(items[..0]), target, now);
    while i < |items|
      invariant i <= |items|
      invariant forall s :: s in IdSet(items[..i]) ==> InputObjection(db.snapshots[s], target, now).None?
      invariant tx == db.(snapshots := AdvanceRows(db.snapshots, IdSet(items[..i]), target, now))
    {
      assert items[i] in IdSet(items);
      OneMoreId(items, i);
      AdvanceOne(db.snapshots, IdSet(items[..i]), items[i], target, now);
      var batch := tx.snapshots[items[i]];
      assert batch == db.snapshots[items[i]];
      batch :- AdvanceInput(batch, target, now);
      if target.Running? || target.Completed? {
        tx := tx.UpdateSnapshot(items[i], batch, batch.version).Extract();
      }
      i := i + 1;
    }
    assert items[..i] == items;
    return Success(tx);
  }

  lemma {:induction false} AdvanceNone(rows: map<Id, Snapshot>, none: set<Id>, target: RunState, now: Time)
    requires none == {}
    ensures AdvanceRows(rows, none, target, now) == rows
  {
  }

  lemma {:induction false} AdvanceOne(rows: map<Id, Snapshot>, done: set<Id>, s: Id, target: RunState, now: Time)
    requires s in rows && s !in done
    ensures s in AdvanceRows(rows, done, target, now) && AdvanceRows(rows, done, target, now)[s] == rows[s]
    ensures AdvanceRows(rows, done + {s}, target, now) ==
            AdvanceRows(rows, done, target, now)[s := AdvanceRow(rows[s], target, now)]
    ensures !target.Running? && !target.Completed? ==>
              AdvanceRows(rows, done + {s}, target, now) == AdvanceRows(rows, done, target, now)
  {
  }

  /** Gives each input back in turn; stops at the first that cannot be. */
  method ReleaseInputs(db: Db, items: seq<Id>, now: Time) returns (r: Result<Db>)
    requires SnapshotsValid(db.snapshots) && Distinct(items) && IdSet(items) <= db.snapshots.Keys
    ensures if forall s :: s in IdSet(items) ==> db.snapshots[s].Transition(Validated, now).Success?
            then r == Success(db.(snapshots := ReleaseRows(db.snapshots, IdSet(items), now)))
            else
              && r.Failure?
              && exists s :: s in IdSet(items) && Objection(db.snapshots[s].Transition(Validated, now)) == Some(r.error)
  {
    hide Blank, ReleaseRows;
    var tx := db;
    var i := 0;
    ReleaseNone(db.snapshots, IdSet(items[..0]), now);
    while i < |items|
      invariant i <= |items|
      invariant forall s :: s in IdSet(items[..i]) ==> db.snapshots[s].Transition(Validated, now).Success?
      invariant tx == db.(snapshots := ReleaseRows(db.snapshots, IdSet(items[..i]), now))
    {
      assert items[i] in IdSet(items);
      OneMoreId(items, i);
      ReleaseOne(db.snapshots, IdSet(items[..i]), items[i], now);
      var batch := tx.snapshots[items[i]];
      batch :- batch.Transition(Validated, now);
      batch := batch.(runId := None);
      tx := tx.UpdateSnapshot(items[i], batch, batch.version).Extract();
      i := i + 1;
    }
    assert items[..i] == items;
    return Success(tx);
  }

  lemma {:induction false} ReleaseNone(rows: map<Id, Snapshot>, none: set<Id>, now: Time)
    requires none == {}
    ensures ReleaseRows(rows, none, now) == rows
  {
  }

  lemma {:induction false} ReleaseOne(rows: map<Id, Snapshot>, done: set<Id>, s: Id, now: Time)
    requires s in rows && s !in done
    ensures s in ReleaseRows(rows, done, now) && ReleaseRows(rows, done, now)[s] == rows[s]
    ensures ReleaseRows(rows, done + {s}, now) == ReleaseRows(rows, done, now)[s := ReleaseRow(rows[s], now)]
  {
  }

  // ---------------------------------------------------------------- quarantining, deciding

  method QuarantineInputs(db: Db, items: seq<Id>, incidentId: Id, now: Time) returns (tx: Db)
    requires SnapshotsValid(db.snapshots) && Distinct(items) && IdSet(items) <= db.snapshots.Keys
    ensures tx == db.(snapshots := QuarantineRows(db.snapshots, IdSet(items), incidentId, now))
  {
    hide Blank, QuarantineRows;
    tx := db;
    var i := 0;
    QuarantineNone(db.snapshots, IdSet(items[..0]), incidentId, now);
    while i < |items|
      invariant i <= |items|
      invariant tx == db.(snapshots := QuarantineRows(db.snapshots, IdSet(items[..i]), incidentId, now))
    {
      assert items[i] in IdSet(items);
      OneMoreId(items, i);
      QuarantineOne(db.snapshots, IdSet(items[..i]), items[i], incidentId, now);
      var batch := tx.snapshots[items[i]];
      if batch.state.Materializing? || batch.state.Materialized? {
        batch := batch.(state := Quarantined, note := DriftNote(incidentId), updatedAt := now);
        tx := tx.UpdateSnapshot(items[i], batch, batch.version).Extract();
      }
      i := i + 1;
    }
    assert items[..i] == items;
  }

  lemma {:induction false} QuarantineNone(rows: map<Id, Snapshot>, none: set<Id>, incidentId: Id, now: Time)
    requires none == {}
    ensures QuarantineRows(rows, none, incidentId, now) == rows
  {
  }

  lemma {:induction false} QuarantineOne(rows: map<Id, Snapshot>, done: set<Id>, s: Id, incidentId: Id, now: Time)
    requires s in rows && s !in done
    ensures s in QuarantineRows(rows, done, incidentId, now)
    ensures QuarantineRows(rows, done, incidentId, now)[s] == rows[s]
    ensures QuarantineRows(rows, done + {s}, incidentId, now)
            == QuarantineRows(rows, done, incidentId, now)[s := QuarantineRow(rows[s], incidentId, now)]
    ensures QuarantineRow(rows[s], incidentId, now) == rows[s]
            ==> QuarantineRows(rows, done + {s}, incidentId, now) == QuarantineRows(rows, done, incidentId, now)
  {
  }

  method RuleInputs(db: Db, items: seq<Id>, r: Ruling, now: Time) returns (tx: Db)
    requires SnapshotsValid(db.snapshots) && Distinct(items) && IdSet(items) <= db.snapshots.Keys
    requires !r.decision.IsOpen()
    ensures tx == db.(snapshots := RuleRows(db.snapshots, IdSet(items), r, now))
  {
    hide Blank, RuleRows, Trim;
    tx := db;
    var i := 0;
    RuleNone(db.snapshots, IdSet(items[..0]), r, now);
    while i < |items|
      invariant i <= |items|
      invariant tx == db.(snapshots := RuleRows(db.snapshots, IdSet(items[..i]), r, now))
    {
      assert items[i] in IdSet(items);
      OneMoreId(items, i);
      RuleOne(db.snapshots, IdSet(items[..i]), items[i], r, now);
      var batch := tx.snapshots[items[i]];
      i := i + 1;
      match r.decision {
        case Cleared =>
          if !batch.state.Quarantined? {
            continue;
          }
          batch := batch.(state := Approved, note := NoNote);
        case Refused =>
          if !batch.state.Quarantined? {
            continue;
          }
          batch := batch.(state := Rejected, note := Rationale(Trim(r.rationale)));
      }
      batch := batch.(updatedAt := now);
      tx := tx.UpdateSnapshot(items[i - 1], batch, batch.version).Extract();
    }
    assert items[..i] == items;
  }

  lemma {:induction false} RuleNone(rows: map<Id, Snapshot>, none: set<Id>, r: Ruling, now: Time)
    requires none == {}
    ensures RuleRows(rows, none, r, now) == rows
  {
    hide Trim;
  }

  lemma {:induction false} RuleOne(rows: map<Id, Snapshot>, done: set<Id>, s: Id, r: Ruling, now: Time)
    requires s in rows && s !in done
    ensures s in RuleRows(rows, done, r, now) && RuleRows(rows, done, r, now)[s] == rows[s]
    ensures RuleRows(rows, done + {s}, r, now) == RuleRows(rows, done, r, now)[s := RuleRow(rows[s], r, now)]
    ensures !rows[s].state.Quarantined? ==> RuleRows(rows, done + {s}, r, now) == RuleRows(rows, done, r, now)
  {
    hide Trim;
  }
}
