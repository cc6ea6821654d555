/** What a stay costs: billed days, and the room and services for each of them. Money is in cents. */
module Billing {
  import opened Base

  /** Started days of a stay, and at least one. */
  function Days(start: int, finish: int): int {
    var days := (finish - start + DAY - 1) / DAY;
    if days < 1 then 1 else days
  }

  /** The billed days are the least number of whole days that cover the stay. */
  lemma DaysCoverTheStay(start: int, finish: int, d: int)
    requires start < finish
    ensures Days(start, finish) >= 1
    ensures finish <= start + Days(start, finish) * 86400
    ensures finish <= start + d * 86400 ==> Days(start, finish) <= d
  {
  }

  /** Splitting a stay in two keeps the billed days or raises them by one. */
  lemma SplittingRaisesByOne(start: int, middle: int, finish: int)
    requires start < middle < finish
    ensures Days(start, finish) <= Days(start, middle) + Days(middle, finish) <= Days(start, finish) + 1
  {
  }

  /** A stay touches at most one calendar day more than it is billed for. */
  lemma CalendarDaysTouched(start: int, finish: int)
    requires start < finish
    ensures 0 <= finish / DAY - start / DAY <= Days(start, finish)
  {
  }

  /** A selected service with its price at the time. */
  datatype Line = Line(serviceId: nat, price: int, quantity: int, subtotal: int)

  /** A day's price of the services, and the stored subtotals. */
  function PerDay(lines: seq<Line>): int {
    if lines == [] then 0 else PerDay(lines[..|lines| - 1]) + lines[|lines| - 1].price * lines[|lines| - 1].quantity
  }

  function Subtotals(lines: seq<Line>): int {
    if lines == [] then 0 else Subtotals(lines[..|lines| - 1]) + lines[|lines| - 1].subtotal
  }

  predicate Priced(lines: seq<Line>, days: int) {
    forall k :: 0 <= k < |lines| ==>
      lines[k].quantity >= 1 && lines[k].subtotal == lines[k].price * lines[k].quantity * days
  }

  /** The room charge plus the subtotals is the price of a day times the days. */
  lemma {:induction false} TotalIsDaysTimesPerDay(price: int, lines: seq<Line>, days: int)
    requires Priced(lines, days)
    ensures price * days + Subtotals(lines) == days * (price + PerDay(lines))
  {
    if lines == [] {
    } else {
      var rest, last := lines[..|lines| - 1], lines[|lines| - 1];
      TotalIsDaysTimesPerDay(price, rest, days);
      Distribute(days, price + PerDay(rest), last.price * last.quantity);
    }
  }

  lemma Distribute(days: int, a: int, b: int)
    ensures days * (a + b) == days * a + b * days
  {
  }
}

/** Rooms, orders and daily records of the boarding side, and what each request does to them. */
module Booking {
  import opened Base
  import opened Billing

  datatype RoomStatus = Free | Reserved | Occupied | Cleaning

  datatype Room = Room(number: string, kind: string, status: RoomStatus, price: int, capacity: int)

  datatype ServiceItem = ServiceItem(price: int, active: bool)

  datatype OrderStatus = Pending | Confirmed | InProgress | Completed | Cancelled {
    predicate IsActive() {
      Pending? || Confirmed? || InProgress?
    }

    predicate MayMove(next: OrderStatus) {
      match this
      case Pending => next.Confirmed? || next.Cancelled?
      case Confirmed => next.InProgress? || next.Cancelled?
      case InProgress => next.Completed?
      case _ => false
    }
  }

  datatype Order = Order(
    petId: Option<Id>,
    userId: Id,
    roomId: Option<Id>,
    start: Time,
    finish: Time,
    total: int,
    status: OrderStatus,
    lines: seq<Line>)
  {
    predicate Overlaps(o: Order) {
      start < o.finish && finish > o.start
    }

    predicate HoldsAt(t: Time) {
      status.IsActive() && start <= t < finish
    }
  }

  datatype Record = Record(orderId: Id, date: int)

  datatype Principal = Principal(userId: Id, admin: bool)

  datatype PetDb = PetDb(
    rooms: map<Id, Room>,
    services: map<Id, ServiceItem>,
    owners: map<Id, Id>,              // of pets
    orders: map<Id, Order>,
    records: map<Id, Record>)

  const NOTHING := PetDb(map[], map[], map[], map[], map[])

  // ---------------------------------------------------------------- queries

  /** The active orders of a room that overlap a stay. */
  function Overlapping(orders: map<Id, Order>, roomId: Id, start: Time, finish: Time): set<Id> {
    set o | o in orders && orders[o].roomId == Some(roomId) && orders[o].status.IsActive()
            && orders[o].start < finish && orders[o].finish > start
  }

  function ActiveIn(orders: map<Id, Order>, roomId: Id): set<Id> {
    set o | o in orders && orders[o].roomId == Some(roomId) && orders[o].status.IsActive()
  }

  function HoldingAt(orders: map<Id, Order>, roomId: Id, t: Time): set<Id> {
    set o | o in orders && orders[o].roomId == Some(roomId) && orders[o].HoldsAt(t)
  }

  // ---------------------------------------------------------------- creating orders

  datatype Selection = Selection(serviceId: Id, quantity: int)

  datatype OrderRequest = OrderRequest(petId: Id, roomId: Id, start: Time, finish: Time, selections: seq<Selection>)

  function Ordered(s: Selection): int {
    if s.quantity < 1 then 1 else s.quantity
  }

  /** The first thing wrong with the i-th or a later selected service. */
  function SelectionCheck(db: PetDb, selections: seq<Selection>, i: nat): Check
    requires i <= |selections|
    decreases |selections| - i
  {
    if i == |selections| then None else
      var id := selections[i].serviceId;
      if id == 0 then Some(Validation)
      else if exists k :: 0 <= k < i && selections[k].serviceId == id then Some(Validation)
      else if id !in db.services then Some(NotFound)
      else if !db.services[id].active then Some(Conflict)
      else SelectionCheck(db, selections, i + 1)
  }

  function LineFor(db: PetDb, s: Selection, days: int): Line
    requires s.serviceId in db.services
  {
    var price := db.services[s.serviceId].price;
    Line(s.serviceId, price, Ordered(s), price * Ordered(s) * days)
  }

  /** The rows of the selected services, each priced for the whole stay. */
  function LinesFor(db: PetDb, selections: seq<Selection>, days: int): (lines: seq<Line>)
    requires forall k :: 0 <= k < |selections| ==> selections[k].serviceId in db.services
    ensures |lines| == |selections| && Priced(lines, days)
  {
    seq(|selections|, k requires 0 <= k < |selections| => LineFor(db, selections[k], days))
  }

  /** Nothing is wrong from i on exactly when each remaining service exists, is on offer and is not selected before. */
  lemma {:induction false} SelectionCheckMeans(db: PetDb, selections: seq<Selection>, i: nat)
    requires i <= |selections|
    ensures SelectionCheck(db, selections, i).None? <==>
            forall k :: i <= k < |selections| ==>
              && selections[k].serviceId != 0
              && selections[k].serviceId in db.services && db.services[selections[k].serviceId].active
              && forall j :: 0 <= j < k ==> selections[j].serviceId != selections[k].serviceId
    decreases |selections| - i
  {
    if i == |selections| {
    } else {
      SelectionCheckMeans(db, selections, i + 1);
    }
  }

  /** Everything checked before an order is inserted. */
  function AdmissionCheck(db: PetDb, p: Principal, q: OrderRequest): Check {
    if p.userId == 0 then Some(Unauthenticated)
    else if q.petId == 0 || q.roomId == 0 || q.finish <= q.start then Some(Validation)
    else if q.petId !in db.owners then Some(NotFound)
    else if !p.admin && db.owners[q.petId] != p.userId then Some(Forbidden)
    else if q.roomId !in db.rooms then Some(NotFound)
    else if !db.rooms[q.roomId].status.Free? then Some(Conflict)
    else if |Overlapping(db.orders, q.roomId, q.start, q.finish)| >= db.rooms[q.roomId].capacity then Some(Conflict)
    else SelectionCheck(db, q.selections, 0)
  }

  function NewOrder(db: PetDb, q: OrderRequest): Order
    requires q.petId in db.owners && q.roomId in db.rooms
    requires forall k :: 0 <= k < |q.selections| ==> q.selections[k].serviceId in db.services
  {
    var days := Days(q.start, q.finish);
    var lines := LinesFor(db, q.selections, days);
    var total := db.rooms[q.roomId].price * days + Subtotals(lines);
    Order(Some(q.petId), db.owners[q.petId], Some(q.roomId), q.start, q.finish, total, Pending, lines)
  }

  /** The trigger: an active order needs a room whose overlapping orders do not use up its capacity. */
  predicate TriggerAdmits(db: PetDb, o: Order) {
    o.status.IsActive() ==>
      && o.roomId.Some? && o.roomId.value in db.rooms
      && |Overlapping(db.orders, o.roomId.value, o.start, o.finish)| < db.rooms[o.roomId.value].capacity
  }

  /** A nullable reference points to a row. */
  predicate Resolves(link: Option<Id>, ids: set<Id>) {
    link.Some? ==> link.value in ids
  }

  function InsertOrder(db: PetDb, id: Id, o: Order): Result<PetDb> {
    if id in db.orders || !TriggerAdmits(db, o) then Failure(Conflict)
    else if !Resolves(o.petId, db.owners.Keys) || !Resolves(o.roomId, db.rooms.Keys) then Failure(Conflict)
    else Success(db.(orders := db.orders[id := o]))
  }

  function CreateOrder(db: PetDb, p: Principal, q: OrderRequest, id: Id): Result<PetDb> {
    match AdmissionCheck(db, p, q)
    case Some(e) => Failure(e)
    case None =>
      SelectionCheckMeans(db, q.selections, 0);
      InsertOrder(db, id, NewOrder(db, q))
  }

  // ---------------------------------------------------------------- order status

  function UpdateOrderStatus(db: PetDb, p: Principal, id: Id, next: OrderStatus): Result<PetDb> {
    if !p.admin then Failure(Forbidden)
    else if id !in db.orders then Failure(NotFound)
    else if !db.orders[id].status.MayMove(next) then Failure(InvalidState)
    else Success(db.(orders := db.orders[id := db.orders[id].(status := next)]))
  }

  /** Who may see an order. */
  function ViewCheck(db: PetDb, p: Principal, id: Id): Check {
    if p.userId == 0 then Some(Unauthenticated)
    else if id !in db.orders then Some(NotFound)
    else if !p.admin && db.orders[id].userId != p.userId then Some(Forbidden)
    else None
  }

  function CancelOrder(db: PetDb, p: Principal, id: Id): Result<PetDb> {
    match ViewCheck(db, p, id)
    case Some(e) => Failure(e)
    case None =>
      if !db.orders[id].status.Pending? && !db.orders[id].status.Confirmed? then Failure(InvalidState)
      else UpdateOrderStatus(db, p.(admin := true), id, Cancelled)
  }

  // ---------------------------------------------------------------- rooms

  predicate NumberTaken(rooms: map<Id, Room>, number: string, id: Id) {
    exists r :: r in rooms && r != id && rooms[r].number == number
  }

  function AddRoom(db: PetDb, p: Principal, id: Id, room: Room): Result<PetDb> {
    if !p.admin then Failure(Forbidden)
    else if Blank(room.number) || Blank(room.kind) || room.price < 0 then Failure(Validation)
    else if id in db.rooms || NumberTaken(db.rooms, room.number, id) then Failure(Conflict)
    else Success(db.(rooms := db.rooms[id := room.(capacity := if room.capacity < 1 then 1 else room.capacity)]))
  }

  /** The checks use a count of active orders that the caller has read. */
  function UpdateRoomWith(db: PetDb, p: Principal, id: Id, room: Room, active: nat): Result<PetDb> {
    if !p.admin then Failure(Forbidden)
    else if id == 0 || Blank(room.number) || Blank(room.kind) then Failure(Validation)
    else if room.capacity < 1 || room.price < 0 then Failure(Validation)
    else if room.capacity < active || (room.status.Cleaning? && active > 0) then Failure(Conflict)
    else if id in db.rooms && NumberTaken(db.rooms, Trim(room.number), id) then Failure(Conflict)
    else if id !in db.rooms then Failure(NotFound)
    else Success(db.(rooms := db.rooms[id := room.(number := Trim(room.number), kind := Trim(room.kind))]))
  }

  /** Reading the count and writing the room taken as one step. */
  function UpdateRoom(db: PetDb, p: Principal, id: Id, room: Room): Result<PetDb> {
    UpdateRoomWith(db, p, id, room, |ActiveIn(db.orders, id)|)
  }

  /** As for UpdateRoomWith, active is the count the caller has read; it is read only for a status other than Free. */
  function UpdateRoomStatusWith(db: PetDb, p: Principal, id: Id, status: RoomStatus, active: nat): Result<PetDb> {
    if !p.admin then Failure(Forbidden)
    else if !status.Free? && active > 0 then Failure(Conflict)
    else if id !in db.rooms then Failure(NotFound)
    else Success(db.(rooms := db.rooms[id := db.rooms[id].(status := status)]))
  }

  function UpdateRoomStatus(db: PetDb, p: Principal, id: Id, status: RoomStatus): Result<PetDb> {
    UpdateRoomStatusWith(db, p, id, status, |ActiveIn(db.orders, id)|)
  }

  /** The orders of a room, whatever their status. */
  function OrdersIn(orders: map<Id, Order>, roomId: Id): set<Id> {
    set o | o in orders && orders[o].roomId == Some(roomId)
  }

  /** ON DELETE SET NULL: a reference to a row that is gone becomes null. */
  function Relinked(link: Option<Id>, ids: set<Id>): Option<Id> {
    if Resolves(link, ids) then link else None
  }

  function WithRooms(orders: map<Id, Order>, ids: set<Id>): map<Id, Order> {
    map o | o in orders :: orders[o].(roomId := Relinked(orders[o].roomId, ids))
  }

  function WithPets(orders: map<Id, Order>, ids: set<Id>): map<Id, Order> {
    map o | o in orders :: orders[o].(petId := Relinked(orders[o].petId, ids))
  }

  /** The check uses a count of the room's orders that the caller has read. */
  function DeleteRoomWith(db: PetDb, p: Principal, id: Id, counted: nat): Result<PetDb> {
    if !p.admin then Failure(Forbidden)
    else if counted > 0 then Failure(Conflict)
    else if id !in db.rooms then Failure(NotFound)
    else
      var rooms := db.rooms - {id};
      Success(db.(rooms := rooms, orders := WithRooms(db.orders, rooms.Keys)))
  }

  /** Any change to services and pets; orders of pets that are gone lose the reference. */
  function ChangeElsewhere(db: PetDb, services: map<Id, ServiceItem>, owners: map<Id, Id>): PetDb {
    db.(services := services, owners := owners, orders := WithPets(db.orders, owners.Keys))
  }

  // ---------------------------------------------------------------- daily records

  function DateOf(at: Time): int {
    at / DAY
  }

  predicate WithinStay(o: Order, date: int) {
    DateOf(o.start) <= date <= DateOf(o.finish)
  }

  /** An order has one record a day. */
  predicate DateTaken(records: map<Id, Record>, orderId: Id, date: int, id: Id) {
    exists r :: r in records && r != id && records[r].orderId == orderId && records[r].date == date
  }

  /** The insert itself checks the keys only. */
  function InsertRecord(db: PetDb, id: Id, record: Record): Result<PetDb> {
    if id in db.records || record.orderId !in db.orders || DateTaken(db.records, record.orderId, record.date, id)
    then Failure(Unclassified)
    else Success(db.(records := db.records[id := record]))
  }

  /** So does the update, which leaves a record that is gone alone. */
  function RedateRecord(db: PetDb, id: Id, date: int): Result<PetDb> {
    if id !in db.records then Failure(NotFound)
    else if DateTaken(db.records, db.records[id].orderId, date, id) then Failure(Conflict)
    else Success(db.(records := db.records[id := db.records[id].(date := date)]))
  }

  function AddRecord(db: PetDb, p: Principal, id: Id, orderId: Id, at: Time, now: Time): Result<PetDb> {
    match ViewCheck(db, p, orderId)
    case Some(e) => Failure(e)
    case None =>
      var date := DateOf(if at == ZERO_TIME then now else at);
      if !db.orders[orderId].status.InProgress? then Failure(InvalidState)
      else if !WithinStay(db.orders[orderId], date) then Failure(Validation)
      else InsertRecord(db, id, Record(orderId, date))
  }

  function RecordCheck(db: PetDb, p: Principal, id: Id): Check {
    if p.userId == 0 then Some(Unauthenticated)
    else if id !in db.records then Some(NotFound)
    else ViewCheck(db, p, db.records[id].orderId)
  }

  function UpdateRecord(db: PetDb, p: Principal, id: Id, at: Time): Result<PetDb> {
    if id == 0 then Failure(Validation) else
      match RecordCheck(db, p, id)
      case Some(e) => Failure(e)
      case None =>
        var orderId := db.records[id].orderId;
        var date := if at == ZERO_TIME then db.records[id].date else DateOf(at);
        if !db.orders[orderId].status.InProgress? then Failure(InvalidState)
        else if !WithinStay(db.orders[orderId], date) then Failure(Validation)
        else RedateRecord(db, id, date)
  }

  function DeleteRecord(db: PetDb, p: Principal, id: Id): Result<PetDb> {
    match RecordCheck(db, p, id)
    case Some(e) => Failure(e)
    case None => Success(db.(records := db.records - {id}))
  }
}
