/** The boarding service: each request works on a copy of the tables and commits it when every step succeeded. */
module BookingService {
  import opened Base
  import opened Billing
  import opened Booking
  import opened BookingInvariant
  import opened BookingHistory

  /** What an order request needs, all at once. */
  ghost predicate Admissible(db: PetDb, p: Principal, q: OrderRequest) {
    && p.userId != 0 && q.petId != 0 && q.roomId != 0 && q.start < q.finish
    && q.petId in db.owners && (p.admin || db.owners[q.petId] == p.userId)
    && q.roomId in db.rooms && db.rooms[q.roomId].status.Free?
    && |Overlapping(db.orders, q.roomId, q.start, q.finish)| < db.rooms[q.roomId].capacity
    && forall k :: 0 <= k < |q.selections| ==> Selectable(db, q.selections, k)
  }

  /** The k-th selected service is on offer and not selected before. */
  ghost predicate Selectable(db: PetDb, selections: seq<Selection>, k: nat)
    requires k < |selections|
  {
    var id := selections[k].serviceId;
    && id != 0 && id in db.services && db.services[id].active
    && forall j :: 0 <= j < k ==> selections[j].serviceId != id
  }

  /** An order request passes every check exactly when it is admissible. */
  lemma {:induction false} AdmissibleMeans(db: PetDb, p: Principal, q: OrderRequest)
    ensures AdmissionCheck(db, p, q).None? <==> Admissible(db, p, q)
  {
    hide Overlapping;
    SelectionCheckMeans(db, q.selections, 0);
    if forall k :: 0 <= k < |q.selections| ==> Selectable(db, q.selections, k) {
      forall k | 0 <= k < |q.selections|
        ensures
          var id := q.selections[k].serviceId;
          && id != 0 && id in db.services && db.services[id].active
          && forall j :: 0 <= j < k ==> q.selections[j].serviceId != id
      {
        assert Selectable(db, q.selections, k);
      }
    }
  }

  /** The caller is known, and the order is theirs or they are an administrator. */
  ghost predicate MaySee(db: PetDb, p: Principal, orderId: Id) {
    p.userId != 0 && orderId in db.orders && (p.admin || db.orders[orderId].userId == p.userId)
  }

  class Service {
    var db: PetDb
    ghost var history: History

    ghost predicate Valid()
      reads this
    {
      db == After(history) && InStep(history)
    }

    constructor ()
      ensures Valid() && db == NOTHING && history == []
    {
      db := NOTHING;
      history := [];
    }

    method Commit(tx: PetDb, ghost e: Event)
      requires Valid() && tx == Apply(db, e) && Current(db, e)
      modifies this
      ensures Valid() && db == tx && history == old(history) + [e]
    {
      hide Apply, Current;
      assert (history + [e])[..|history|] == history;
      InStepExtends(history, e);
      db := tx;
      history := history + [e];
    }

    /** A refused request changes nothing and reports the first error in the order of the checks. */
    ghost predicate Unchanged<T>(outcome: Result<T>, refusal: Result<PetDb>, before: PetDb, past: History)
      reads this
    {
      outcome.Failure? ==> db == before && history == past && refusal == Failure(outcome.error)
    }

    // -------------------------------------------------------------- orders

    method CreateOrder(p: Principal, q: OrderRequest, id: Id) returns (outcome: Result<Order>)
      requires Valid()
      modifies this
      ensures Valid()
      ensures outcome.Success? <==> Admissible(old(db), p, q) && id !in old(db).orders
      ensures outcome.Success? ==>
                && q.petId in old(db).owners && q.roomId in old(db).rooms
                && (forall k :: 0 <= k < |q.selections| ==> q.selections[k].serviceId in old(db).services)
                && outcome.value == NewOrder(old(db), q)
                && db == old(db).(orders := old(db).orders[id := outcome.value])
                && history == old(history) + [Event(p, Create(q, id))]
      ensures Unchanged(outcome, Outcome(old(db), Event(p, Create(q, id))), old(db), old(history))
    {
      hide After, Days, Admissible;
      AdmissibleMeans(db, p, q);
      SelectionCheckMeans(db, q.selections, 0);
      if p.userId == 0 {
        return Failure(Unauthenticated);
      }
      if q.petId == 0 || q.roomId == 0 || q.finish <= q.start {
        return Failure(Validation);
      }
      var tx := db;
      if q.petId !in tx.owners {
        return Failure(NotFound);
      }
      var ownerId := tx.owners[q.petId];
      if !p.admin && ownerId != p.userId {
        return Failure(Forbidden);
      }
      if q.roomId !in tx.rooms {
        return Failure(NotFound);
      }
      var room := tx.rooms[q.roomId];
      if !room.status.Free? {
        return Failure(Conflict);
      }
      var overlapping := |Overlapping(tx.orders, q.roomId, q.start, q.finish)|;
      if overlapping >= room.capacity {
        return Failure(Conflict);
      }
      var days := Days(q.start, q.finish);
      var priced, total := PriceSelections(tx, q.selections, days, room.price * days);
      var lines :- priced;
      var order := Order(Some(q.petId), ownerId, Some(q.roomId), q.start, q.finish, total, Pending, lines);
      tx :- InsertOrder(tx, id, order);
      Commit(tx, Event(p, Create(q, id)));
      return Success(order);
    }

    /** Checks and prices each selected service in turn, adding its subtotal to the charge so far. */
    method PriceSelections(db: PetDb, selections: seq<Selection>, days: int, charge: int)
      returns (r: Result<seq<Line>>, total: int)
      ensures match SelectionCheck(db, selections, 0)
              case Some(e) => r == Failure(e)
              case None =>
                && (forall k :: 0 <= k < |selections| ==> selections[k].serviceId in db.services)
                && r == Success(LinesFor(db, selections, days))
                && total == charge + Subtotals(LinesFor(db, selections, days))
                && total == charge + days * SelectedPerDay(db, selections)
                && forall k :: 0 <= k < |selections| ==>
                     && r.value[k].serviceId == selections[k].serviceId
                     && r.value[k].price == db.services[selections[k].serviceId].price
                     && r.value[k].quantity == (if selections[k].quantity >= 1 then selections[k].quantity else 1)
                     && r.value[k].subtotal == r.value[k].price * r.value[k].quantity * days
    {
      total := charge;
      var lines: seq<Line> := [];
      var seen: set<Id> := {};
      var i := 0;
      while i < |selections|
        invariant i <= |selections|
        invariant SelectionCheck(db, selections, 0) == SelectionCheck(db, selections, i)
        invariant forall k :: 0 <= k < i ==> selections[k].serviceId in db.services
        invariant forall id :: id in seen <==> exists k :: 0 <= k < i && selections[k].serviceId == id
        invariant |lines| == i && forall k :: 0 <= k < i ==> lines[k] == LineFor(db, selections[k], days)
        invariant total == charge + Subtotals(lines)
      {
        var selected := selections[i];
        if selected.serviceId == 0 || selected.serviceId in seen {
          return Failure(Validation), total;
        }
        seen := seen + {selected.serviceId};
        var quantity := if selected.quantity < 1 then 1 else selected.quantity;
        if selected.serviceId !in db.services {
          return Failure(NotFound), total;
        }
        var service := db.services[selected.serviceId];
        if !service.active {
          return Failure(Conflict), total;
        }
        var line := Line(selected.serviceId, service.price, quantity, service.price * quantity * days);
        assert (lines + [line])[..|lines|] == lines;
        lines := lines + [line];
        total := total + line.subtotal;
        i := i + 1;
      }
      assert lines == LinesFor(db, selections, days);
      LinesPerDay(db, selections, days);
      TotalIsDaysTimesPerDay(0, lines, days);
      return Success(lines), total;
    }

    method UpdateOrderStatus(p: Principal, id: Id, next: OrderStatus) returns (outcome: Result<OrderStatus>)
      requires Valid()
      modifies this
      ensures Valid()
      ensures outcome.Success? <==> p.admin && id in old(db).orders && old(db).orders[id].status.MayMove(next)
      ensures outcome.Success? ==>
                && outcome.value == next
                && db == old(db).(orders := old(db).orders[id := old(db).orders[id].(status := next)])
                && history == old(history) + [Event(p, Move(id, next))]
      ensures Unchanged(outcome, Outcome(old(db), Event(p, Move(id, next))), old(db), old(history))
    {
      hide After;
      if !p.admin {
        return Failure(Forbidden);
      }
      if id !in db.orders {
        return Failure(NotFound);
      }
      var current := db.orders[id].status;
      if !current.MayMove(next) {
        return Failure(InvalidState);
      }
      var tx := db.(orders := db.orders[id := db.orders[id].(status := next)]);
      Commit(tx, Event(p, Move(id, next)));
      return Success(next);
    }

    method CancelOrder(p: Principal, id: Id) returns (outcome: Result<OrderStatus>)
      requires Valid()
      modifies this
      ensures Valid()
      ensures outcome.Success? <==>
              && MaySee(old(db), p, id)
              && (old(db).orders[id].status.Pending? || old(db).orders[id].status.Confirmed?)
      ensures outcome.Success? ==>
                && outcome.value == Cancelled
                && db == old(db).(orders := old(db).orders[id := old(db).orders[id].(status := Cancelled)])
                && history == old(history) + [Event(p, Cancel(id))]
      ensures Unchanged(outcome, Outcome(old(db), Event(p, Cancel(id))), old(db), old(history))
    {
      hide After;
      var refused := ViewCheck(db, p, id);
      if refused.Some? {
        return Failure(refused.value);
      }
      var order := db.orders[id];
      if !order.status.Pending? && !order.status.Confirmed? {
        return Failure(InvalidState);
      }
      var tx := db.(orders := db.orders[id := order.(status := Cancelled)]);
      Commit(tx, Event(p, Cancel(id)));
      return Success(Cancelled);
    }

    // -------------------------------------------------------------- rooms

    method UpdateRoom(p: Principal, id: Id, room: Room) returns (outcome: Result<Room>)
      requires Valid()
      modifies this
      ensures Valid()
      ensures outcome.Success? <==>
              && p.admin && id != 0 && id in old(db).rooms && !Blank(room.number) && !Blank(room.kind)
              && room.capacity >= 1 && room.capacity >= |ActiveIn(old(db).orders, id)| && room.price >= 0
              && (room.status.Cleaning? ==> ActiveIn(old(db).orders, id) == {})
              && forall r :: r in old(db).rooms && r != id ==> old(db).rooms[r].number != Trim(room.number)
      ensures outcome.Success? ==>
                && outcome.value == room.(number := Trim(room.number), kind := Trim(room.kind))
                && db == old(db).(rooms := old(db).rooms[id := outcome.value])
                && history == old(history) + [Event(p, ChangeRoom(id, room, |ActiveIn(old(db).orders, id)|))]
      ensures Unchanged(outcome, Booking.UpdateRoom(old(db), p, id, room), old(db), old(history))
    {
      hide After, Blank, Trim, ActiveIn;
      if !p.admin {
        return Failure(Forbidden);
      }
      if id == 0 || Blank(room.number) || Blank(room.kind) {
        return Failure(Validation);
      }
      if room.capacity < 1 || room.price < 0 {
        return Failure(Validation);
      }
      var active := |ActiveIn(db.orders, id)|;
      if room.capacity < active || (room.status.Cleaning? && active > 0) {
        return Failure(Conflict);
      }
      var stored := room.(number := Trim(room.number), kind := Trim(room.kind));
      if id in db.rooms && NumberTaken(db.rooms, stored.number, id) {
        return Failure(Conflict);
      }
      if id !in db.rooms {
        return Failure(NotFound);
      }
      Commit(db.(rooms := db.rooms[id := stored]), Event(p, ChangeRoom(id, room, active)));
      return Success(stored);
    }

    method UpdateRoomStatus(p: Principal, id: Id, status: RoomStatus) returns (outcome: Result<RoomStatus>)
      requires Valid()
      modifies this
      ensures Valid()
      ensures outcome.Success? <==>
              p.admin && id in old(db).rooms && (status.Free? || ActiveIn(old(db).orders, id) == {})
      ensures outcome.Success? ==>
                && outcome.value == status
                && db == old(db).(rooms := old(db).rooms[id := old(db).rooms[id].(status := status)])
                && history == old(history) + [Event(p, ChangeRoomStatus(id, status, |ActiveIn(old(db).orders, id)|))]
      ensures Unchanged(outcome, Booking.UpdateRoomStatus(old(db), p, id, status), old(db), old(history))
    {
      hide After, ActiveIn;
      ghost var e := Event(p, ChangeRoomStatus(id, status, |ActiveIn(db.orders, id)|));
      if !p.admin {
        return Failure(Forbidden);
      }
      if !status.Free? {
        var active := |ActiveIn(db.orders, id)|;
        if active > 0 {
          return Failure(Conflict);
        }
      }
      if id !in db.rooms {
        return Failure(NotFound);
      }
      Commit(db.(rooms := db.rooms[id := db.rooms[id].(status := status)]), e);
      return Success(status);
    }

    // -------------------------------------------------------------- daily records

    method AddRecord(p: Principal, id: Id, orderId: Id, at: Time, now: Time) returns (outcome: Result<Record>)
      requires Valid()
      modifies this
      ensures Valid()
      ensures var date := DateOf(if at == ZERO_TIME then now else at);
              outcome.Success? <==>
              && MaySee(old(db), p, orderId) && old(db).orders[orderId].status.InProgress?
              && WithinStay(old(db).orders[orderId], date)
              && id !in old(db).records
              && forall r :: r in old(db).records ==> old(db).records[r] != Record(orderId, date)
      ensures outcome.Success? ==>
                && outcome.value == Record(orderId, DateOf(if at == ZERO_TIME then now else at))
                && db == old(db).(records := old(db).records[id := outcome.value])
                && history == old(history) + [Event(p, Note(id, orderId, at, now))]
      ensures Unchanged(outcome, Outcome(old(db), Event(p, Note(id, orderId, at, now))), old(db), old(history))
    {
      hide After, WithinStay, DateOf;
      var refused := ViewCheck(db, p, orderId);
      if refused.Some? {
        return Failure(refused.value);
      }
      var order := db.orders[orderId];
      if !order.status.InProgress? {
        return Failure(InvalidState);
      }
      var recordedAt := at;
      if recordedAt == ZERO_TIME {
        recordedAt := now;
      }
      var date := DateOf(recordedAt);
      if !WithinStay(order, date) {
        return Failure(Validation);
      }
      if id in db.records || DateTaken(db.records, orderId, date, id) {
        return Failure(Unclassified);
      }
      Commit(db.(records := db.records[id := Record(orderId, date)]), Event(p, Note(id, orderId, at, now)));
      return Success(Record(orderId, date));
    }

    method UpdateRecord(p: Principal, id: Id, at: Time) returns (outcome: Result<Record>)
      requires Valid()
      modifies this
      ensures Valid()
      ensures outcome.Success? <==>
              && id != 0 && id in old(db).records && MaySee(old(db), p, old(db).records[id].orderId)
              && old(db).orders[old(db).records[id].orderId].status.InProgress?
              && var date := if at == ZERO_TIME then old(db).records[id].date else DateOf(at);
              && WithinStay(old(db).orders[old(db).records[id].orderId], date)
              && forall r :: r in old(db).records && r != id ==>
                   old(db).records[r] != Record(old(db).records[id].orderId, date)
      ensures outcome.Success? ==>
                && outcome.value.orderId == old(db).records[id].orderId
                && outcome.value.date == (if at == ZERO_TIME then old(db).records[id].date else DateOf(at))
                && db == old(db).(records := old(db).records[id := outcome.value])
                && history == old(history) + [Event(p, ChangeNote(id, at))]
      ensures Unchanged(outcome, Outcome(old(db), Event(p, ChangeNote(id, at))), old(db), old(history))
    {
      hide After, WithinStay, DateOf;
      if id == 0 {
        return Failure(Validation);
      }
      var refused := RecordCheck(db, p, id);
      if refused.Some? {
        return Failure(refused.value);
      }
      var existing := db.records[id];
      var order := db.orders[existing.orderId];
      if !order.status.InProgress? {
        return Failure(InvalidState);
      }
      var date := existing.date;
      if at != ZERO_TIME {
        date := DateOf(at);
      }
      if !WithinStay(order, date) {
        return Failure(Validation);
      }
      if DateTaken(db.records, existing.orderId, date, id) {
        return Failure(Conflict);
      }
      Commit(db.(records := db.records[id := Record(existing.orderId, date)]), Event(p, ChangeNote(id, at)));
      return Success(Record(existing.orderId, date));
    }
  }
}
