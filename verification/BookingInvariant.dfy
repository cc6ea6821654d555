/** Whatever is asked of the boarding side, rooms are never overfilled and records stay within stays. */
module BookingInvariant {
  import opened Base
  import opened Billing
  import opened Booking

  /** Never more than the capacity at once. */
  ghost predicate FitsIn(orders: map<Id, Order>, roomId: Id, capacity: int) {
    forall t :: |HoldingAt(orders, roomId, t)| <= capacity
  }

  ghost predicate CapacityHeld(rooms: map<Id, Room>, orders: map<Id, Order>) {
    forall r :: r in rooms ==> FitsIn(orders, r, rooms[r].capacity)
  }

  ghost predicate RoomsKept(rooms: map<Id, Room>) {
    && (forall r :: r in rooms ==> rooms[r].capacity >= 1 && rooms[r].price >= 0)
    && (forall r, s :: r in rooms && s in rooms && rooms[r].number == rooms[s].number ==> r == s)
  }

  ghost predicate OrdersKept(rooms: map<Id, Room>, owners: map<Id, Id>, orders: map<Id, Order>) {
    forall o :: o in orders ==>
      Sound(orders[o]) && Resolves(orders[o].petId, owners.Keys) && Resolves(orders[o].roomId, rooms.Keys)
  }

  ghost predicate Sound(o: Order) {
    o.start < o.finish && Priced(o.lines, Days(o.start, o.finish))
  }

  /** The record's order has begun, and its stay covers the date. */
  ghost predicate Covered(orders: map<Id, Order>, record: Record) {
    && record.orderId in orders
    && (orders[record.orderId].status.InProgress? || orders[record.orderId].status.Completed?)
    && WithinStay(orders[record.orderId], record.date)
  }

  ghost predicate RecordsKept(orders: map<Id, Order>, records: map<Id, Record>) {
    && (forall r :: r in records ==> Covered(orders, records[r]))
    && (forall r, s :: r in records && s in records && records[r] == records[s] ==> r == s)
  }

  /** What no request can break, however old the counts it has read. */
  ghost predicate Kept(db: PetDb) {
    && RoomsKept(db.rooms)
    && OrdersKept(db.rooms, db.owners, db.orders)
    && RecordsKept(db.orders, db.records)
  }

  ghost predicate Inv(db: PetDb) {
    Kept(db) && CapacityHeld(db.rooms, db.orders)
  }

  /** The facts are kept, and rooms that were not overfilled are not overfilled now. */
  ghost predicate Keeps(db: PetDb, after: PetDb) {
    Kept(after) && (CapacityHeld(db.rooms, db.orders) ==> CapacityHeld(after.rooms, after.orders))
  }

  // ---------------------------------------------------------------- capacity

  /** Orders that only give up holds keep the capacity. */
  lemma {:induction false} FewerHoldsKeepCapacity(rooms: map<Id, Room>, orders: map<Id, Order>, orders': map<Id, Order>)
    requires CapacityHeld(rooms, orders)
    requires forall r, t :: HoldingAt(orders', r, t) <= HoldingAt(orders, r, t)
    ensures CapacityHeld(rooms, orders')
  {
    forall r, t | r in rooms ensures |HoldingAt(orders', r, t)| <= rooms[r].capacity {
      assert |HoldingAt(orders, r, t)| <= rooms[r].capacity;
      SubsetCardinality(HoldingAt(orders', r, t), HoldingAt(orders, r, t));
    }
  }

  lemma {:induction false} MovingKeepsCapacity(rooms: map<Id, Room>, orders: map<Id, Order>, id: Id, next: OrderStatus)
    requires CapacityHeld(rooms, orders) && id in orders && (next.IsActive() ==> orders[id].status.IsActive())
    ensures CapacityHeld(rooms, orders[id := orders[id].(status := next)])
  {
    FewerHoldsKeepCapacity(rooms, orders, orders[id := orders[id].(status := next)]);
  }

  /** Nobody holds more than the active orders. */
  lemma {:induction false} ActiveOrdersFit(orders: map<Id, Order>, id: Id, capacity: int)
    requires |ActiveIn(orders, id)| <= capacity
    ensures FitsIn(orders, id, capacity)
  {
    forall t ensures |HoldingAt(orders, id, t)| <= capacity {
      SubsetCardinality(HoldingAt(orders, id, t), ActiveIn(orders, id));
    }
  }

  // ---------------------------------------------------------------- what the overlap count decides

  /** Room at every instant of the stay: what a new order really needs. */
  ghost predicate RoomThroughout(orders: map<Id, Order>, roomId: Id, start: Time, finish: Time, capacity: int) {
    forall t :: start <= t < finish ==> |HoldingAt(orders, roomId, t)| < capacity
  }

  lemma {:induction false} HoldersAfterInsert(orders: map<Id, Order>, id: Id, o: Order, r: Id, t: Time)
    requires id !in orders
    ensures var more := if o.roomId == Some(r) && o.HoldsAt(t) then 1 else 0;
            |HoldingAt(orders[id := o], r, t)| == |HoldingAt(orders, r, t)| + more
  {
    var before := HoldingAt(orders, r, t);
    assert id !in before;
    assert HoldingAt(orders[id := o], r, t) == if o.roomId == Some(r) && o.HoldsAt(t) then before + {id} else before;
  }

  /** Adding an active order keeps the capacity exactly when there is room throughout its stay. */
  lemma {:induction false} RoomThroughoutIsExact(
      rooms: map<Id, Room>, orders: map<Id, Order>, id: Id, o: Order, r: Id)
    requires CapacityHeld(rooms, orders) && id !in orders && o.status.IsActive()
    requires o.roomId == Some(r) && r in rooms
    ensures CapacityHeld(rooms, orders[id := o]) <==>
            RoomThroughout(orders, r, o.start, o.finish, rooms[r].capacity)
  {
    hide HoldingAt;
    var orders' := orders[id := o];
    forall s, t ensures |HoldingAt(orders', s, t)| ==
                        |HoldingAt(orders, s, t)| + if s == r && o.HoldsAt(t) then 1 else 0 {
      HoldersAfterInsert(orders, id, o, s, t);
    }
    if CapacityHeld(rooms, orders') {
      forall t | o.start <= t < o.finish ensures |HoldingAt(orders, r, t)| < rooms[r].capacity {
        assert |HoldingAt(orders', r, t)| <= rooms[r].capacity;
      }
    }
  }

  /** The overlap count is safe: an order it admits has room throughout. */
  lemma {:induction false} CountIsSafe(orders: map<Id, Order>, roomId: Id, start: Time, finish: Time, capacity: int)
    requires |Overlapping(orders, roomId, start, finish)| < capacity
    ensures RoomThroughout(orders, roomId, start, finish, capacity)
  {
    forall t | start <= t < finish ensures |HoldingAt(orders, roomId, t)| < capacity {
      SubsetCardinality(HoldingAt(orders, roomId, t), Overlapping(orders, roomId, start, finish));
    }
  }

  /** For rooms that take one animal the count is also exact. */
  lemma {:induction false} CountIsExactForOne(orders: map<Id, Order>, roomId: Id, start: Time, finish: Time)
    requires start < finish && forall o :: o in orders ==> orders[o].start < orders[o].finish
    ensures |Overlapping(orders, roomId, start, finish)| < 1 <==> RoomThroughout(orders, roomId, start, finish, 1)
  {
    if |Overlapping(orders, roomId, start, finish)| < 1 {
      CountIsSafe(orders, roomId, start, finish, 1);
    } else {
      assert Overlapping(orders, roomId, start, finish) != {};
      var o :| o in Overlapping(orders, roomId, start, finish);
      var t := if orders[o].start < start then start else orders[o].start;
      assert o in HoldingAt(orders, roomId, t);
    }
  }

  function Guest(roomId: Id, start: Time): Order {
    Order(Some(1), 1, Some(roomId), start, start + 1, 0, Pending, [])
  }

  /** One guest after the other, n in all. */
  function Queue(roomId: Id, n: nat): map<Id, Order> {
    map o: Id | o < n :: Guest(roomId, o)
  }

  /** For every larger capacity the count refuses stays that there is room for throughout. */
  lemma {:induction false} CountOverRefuses(roomId: Id, capacity: nat)
    requires capacity >= 2
    ensures var orders := Queue(roomId, capacity);
            && RoomThroughout(orders, roomId, 0, capacity, capacity)
            && |Overlapping(orders, roomId, 0, capacity)| >= capacity
  {
    var orders := Queue(roomId, capacity);
    forall t | 0 <= t < capacity ensures |HoldingAt(orders, roomId, t)| < capacity {
      SubsetCardinality(HoldingAt(orders, roomId, t), {t});
    }
    QueueSize(roomId, capacity);
    assert Overlapping(orders, roomId, 0, capacity) == orders.Keys;
  }

  lemma {:induction false} QueueSize(roomId: Id, n: nat)
    ensures |Queue(roomId, n).Keys| == n
  {
    if n > 0 {
      QueueSize(roomId, n - 1);
      assert Queue(roomId, n).Keys == Queue(roomId, n - 1).Keys + {n - 1};
    } else {
      assert Queue(roomId, n).Keys == {};
    }
  }

  // ---------------------------------------------------------------- what a count read earlier decides

  lemma {:induction false} RoomWriteFitsIff(rooms: map<Id, Room>, orders: map<Id, Order>, id: Id, room: Room)
    requires CapacityHeld(rooms, orders)
    ensures CapacityHeld(rooms[id := room], orders) <==> FitsIn(orders, id, room.capacity)
  {
    hide FitsIn;
    if CapacityHeld(rooms[id := room], orders) {
      assert id in rooms[id := room];
    }
  }

  /** Whatever count a room change was based on, it overfills no room exactly when the orders held fit in the new
      one. */
  lemma {:induction false} RoomChangeFitsIff(db: PetDb, p: Principal, id: Id, room: Room, active: nat)
    requires Kept(db) && UpdateRoomWith(db, p, id, room, active).Success?
    ensures var after := UpdateRoomWith(db, p, id, room, active).value;
            && Kept(after)
            && (CapacityHeld(db.rooms, db.orders) ==>
                  (CapacityHeld(after.rooms, after.orders) <==> FitsIn(db.orders, id, room.capacity)))
  {
    hide Blank, NumberTaken, Trim, CapacityHeld, FitsIn, Sound, Kept;
    var stored := room.(number := Trim(room.number), kind := Trim(room.kind));
    RoomWriteKept(db, id, stored);
    if CapacityHeld(db.rooms, db.orders) {
      RoomWriteFitsIff(db.rooms, db.orders, id, stored);
    }
  }

  /** In particular a count that is not below the present number of active orders is safe. */
  lemma {:induction false} CountNotBelowFits(db: PetDb, p: Principal, id: Id, room: Room, active: nat)
    requires UpdateRoomWith(db, p, id, room, active).Success? && |ActiveIn(db.orders, id)| <= active
    ensures FitsIn(db.orders, id, room.capacity)
  {
    hide Blank, NumberTaken, Trim, FitsIn, ActiveIn;
    ActiveOrdersFit(db.orders, id, room.capacity);
  }

  function Letters(n: nat): string {
    seq(n, _ => 'a')
  }

  /** There is always a room number that nobody has. */
  lemma {:induction false} LongerThanAll(rooms: map<Id, Room>, ids: set<Id>) returns (n: nat)
    requires ids <= rooms.Keys
    ensures n >= 1 && forall r :: r in ids ==> |rooms[r].number| < n
  {
    if ids == {} {
      n := 1;
    } else {
      var r :| r in ids;
      n := LongerThanAll(rooms, ids - {r});
      n := n + |rooms[r].number|;
    }
  }

  lemma NotSpace()
    ensures !IsSpace('a')
  {
  }

  lemma {:induction false} LettersStay(n: nat)
    requires n >= 1
    ensures |Letters(n)| == n && Trim(Letters(n)) == Letters(n) && !Blank(Letters(n))
  {
    hide IsSpace, Trim, Blank;
    NotSpace();
    var s := Letters(n);
    assert s[0] == 'a' && s[n - 1] == 'a';
    NotBlank(s);
  }

  function Least(active: nat): int {
    if active < 1 then 1 else active
  }

  /** The smallest room that the count lets through. */
  lemma {:induction false} SmallestIsAccepted(db: PetDb, id: Id, active: nat) returns (p: Principal, room: Room)
    requires id != 0 && id in db.rooms
    ensures room.capacity == Least(active) && UpdateRoomWith(db, p, id, room, active).Success?
  {
    hide Blank, Trim, Letters;
    var n := LongerThanAll(db.rooms, db.rooms.Keys);
    LettersStay(n);
    p, room := Principal(1, true), Room(Letters(n), Letters(n), Free, 0, Least(active));
  }

  /** A count lets through only rooms that the orders fit in, exactly when no instant has more of them than
      max(count, 1). */
  lemma {:induction false} CountIsSafeIff(db: PetDb, id: Id, active: nat)
    requires id != 0 && id in db.rooms
    ensures (forall p, room :: UpdateRoomWith(db, p, id, room, active).Success? ==>
                                 FitsIn(db.orders, id, room.capacity)) <==>
            FitsIn(db.orders, id, Least(active))
  {
    hide HoldingAt, Blank, Trim, NumberTaken;
    if FitsIn(db.orders, id, Least(active)) {
      forall p, room | UpdateRoomWith(db, p, id, room, active).Success? ensures FitsIn(db.orders, id, room.capacity) {
        assert Least(active) <= room.capacity;
      }
    } else {
      var p, room := SmallestIsAccepted(db, id, active);
    }
  }

  /** A room for two, with two guests at once. */
  function Crowded(room: Room): PetDb {
    var guests := map[1 := Guest(1, 0), 2 := Guest(1, 0)];
    PetDb(map[1 := room.(status := Free, price := 0, capacity := 2)], map[], map[1 := 1], guests, map[])
  }

  lemma {:induction false} CrowdedIsFine(room: Room)
    ensures Inv(Crowded(room)) && ActiveIn(Crowded(room).orders, 1) == {1, 2}
  {
    var db := Crowded(room);
    forall r, t | r in db.rooms ensures |HoldingAt(db.orders, r, t)| <= db.rooms[r].capacity {
      SubsetCardinality(HoldingAt(db.orders, r, t), {1, 2});
    }
    assert ActiveIn(db.orders, 1) == {1, 2};
  }

  /** With a count read before the second guest came, the room may be made too small for the two. */
  lemma {:induction false} StaleCountOverfills(room: Room)
    requires !Blank(room.number) && !Blank(room.kind)
    ensures var db := Crowded(room);
            var smaller := UpdateRoomWith(db, Principal(1, true), 1, room.(status := Free, price := 0, capacity := 1),
                                          1);
            && Inv(db) && |ActiveIn(db.orders, 1)| == 2
            && smaller.Success? && !CapacityHeld(smaller.value.rooms, db.orders)
  {
    hide Inv, Trim, Blank;
    CrowdedIsFine(room);
    var db := Crowded(room);
    assert HoldingAt(db.orders, 1, 0) == {1, 2};
    var smaller := room.(status := Free, price := 0, capacity := 1);
    var rooms := UpdateRoomWith(db, Principal(1, true), 1, smaller, 1).value.rooms;
    assert rooms[1].capacity == 1 && !FitsIn(db.orders, 1, 1);
  }

  // ---------------------------------------------------------------- what an order costs

  /** What the selected services cost a day: price times quantity, a missing quantity counting as one. */
  function SelectedPerDay(db: PetDb, selections: seq<Selection>): int
    requires forall k :: 0 <= k < |selections| ==> selections[k].serviceId in db.services
  {
    if selections == [] then 0 else
      var last := selections[|selections| - 1];
      SelectedPerDay(db, selections[..|selections| - 1])
      + db.services[last.serviceId].price * (if last.quantity >= 1 then last.quantity else 1)
  }

  lemma {:induction false} LinesPerDay(db: PetDb, selections: seq<Selection>, days: int)
    requires forall k :: 0 <= k < |selections| ==> selections[k].serviceId in db.services
    ensures PerDay(LinesFor(db, selections, days)) == SelectedPerDay(db, selections)
  {
    if selections == [] {
    } else {
      var init := selections[..|selections| - 1];
      LinesPerDay(db, init, days);
      var lines := LinesFor(db, selections, days);
      assert lines[..|lines| - 1] == LinesFor(db, init, days);
    }
  }

  /** The total is the billed days times the daily price of the room and the selected services, and that is the room
      charge plus the stored subtotals. */
  lemma {:induction false} CreatedTotal(db: PetDb, p: Principal, q: OrderRequest, id: Id)
    requires CreateOrder(db, p, q, id).Success?
    ensures q.roomId in db.rooms && id in CreateOrder(db, p, q, id).value.orders
    ensures forall k :: 0 <= k < |q.selections| ==> q.selections[k].serviceId in db.services
    ensures var o := CreateOrder(db, p, q, id).value.orders[id];
            var price, days := db.rooms[q.roomId].price, Days(q.start, q.finish);
            && o.total == days * (price + SelectedPerDay(db, q.selections))
            && o.total == price * days + Subtotals(o.lines)
            && o.total == days * (price + PerDay(o.lines))
            && |o.lines| == |q.selections|
            && forall k :: 0 <= k < |o.lines| ==>
                 && o.lines[k].serviceId == q.selections[k].serviceId && o.lines[k].serviceId in db.services
                 && o.lines[k].price == db.services[o.lines[k].serviceId].price
                 && o.lines[k].quantity == (if q.selections[k].quantity >= 1 then q.selections[k].quantity else 1)
                 && o.lines[k].subtotal == o.lines[k].price * o.lines[k].quantity * days
                 && forall j :: 0 <= j < k ==> o.lines[j].serviceId != o.lines[k].serviceId
  {
    SelectionCheckMeans(db, q.selections, 0);
    var o := CreateOrder(db, p, q, id).value.orders[id];
    TotalIsDaysTimesPerDay(db.rooms[q.roomId].price, o.lines, Days(q.start, q.finish));
    LinesPerDay(db, q.selections, Days(q.start, q.finish));
  }

  /** The order as it is stored: for the pet and its owner, in the room, for the stay asked for, and pending. */
  lemma {:induction false} CreatedTerms(db: PetDb, p: Principal, q: OrderRequest, id: Id)
    requires CreateOrder(db, p, q, id).Success?
    ensures var after := CreateOrder(db, p, q, id).value;
            && q.petId in db.owners && id in after.orders && id !in db.orders
            && after == db.(orders := db.orders[id := after.orders[id]])
            && var o := after.orders[id];
            && o.petId == Some(q.petId) && o.userId == db.owners[q.petId] && o.roomId == Some(q.roomId)
            && o.start == q.start && o.finish == q.finish && o.status == OrderStatus.Pending
  {
    hide Days, Subtotals, LinesFor, TriggerAdmits, SelectionCheck;
    SelectionCheckMeans(db, q.selections, 0);
  }

  // ---------------------------------------------------------------- what the queries and the state machine mean

  predicate IsHolding(o: Order, roomId: Id) {
    && o.roomId == Some(roomId)
    && (o.status == OrderStatus.Pending || o.status == Confirmed || o.status == InProgress)
  }

  /** An order overlaps a stay in its room when it is pending, confirmed or in progress and they share an instant. */
  lemma {:induction false} OverlappingIff(orders: map<Id, Order>, roomId: Id, start: Time, finish: Time, o: Id)
    requires start < finish && (o in orders ==> orders[o].start < orders[o].finish)
    ensures o in Overlapping(orders, roomId, start, finish) <==>
            && o in orders && IsHolding(orders[o], roomId)
            && exists t :: IsShared(orders[o], start, finish, t)
    ensures o in ActiveIn(orders, roomId) <==> o in orders && IsHolding(orders[o], roomId)
  {
    if o in orders {
      var t := if orders[o].start < start then start else orders[o].start;
      assert orders[o].start < finish && start < orders[o].finish ==> IsShared(orders[o], start, finish, t);
    }
  }

  predicate IsShared(o: Order, start: Time, finish: Time, t: Time) {
    start <= t < finish && o.start <= t < o.finish
  }

  /** Pending orders can be confirmed or cancelled, confirmed ones begun or cancelled, begun ones completed; that is
      all. */
  lemma {:induction false} StatusMovesIff(db: PetDb, p: Principal, id: Id, next: OrderStatus)
    ensures UpdateOrderStatus(db, p, id, next).Success? <==>
            && p.admin && id in db.orders
            && (db.orders[id].status, next) in {
                 (OrderStatus.Pending, Confirmed), (OrderStatus.Pending, Cancelled),
                 (Confirmed, InProgress), (Confirmed, Cancelled), (InProgress, Completed)}
    ensures UpdateOrderStatus(db, p, id, next).Success? ==>
              UpdateOrderStatus(db, p, id, next).value ==
              db.(orders := db.orders[id := db.orders[id].(status := next)])
  {
  }

  /** A record's day is within the stay from the first midnight at or before its start to the last before the end of
      the day on which it finishes. */
  lemma {:induction false} WithinStayIff(o: Order, at: Time)
    ensures WithinStay(o, DateOf(at)) <==> o.start - o.start % 86400 <= at < o.finish - o.finish % 86400 + 86400
  {
  }

  /** Two records have one date when no midnight lies between their instants. */
  lemma {:induction false} SameDateIff(s: Time, t: Time)
    requires s <= t
    ensures DateOf(s) == DateOf(t) <==> t < s - s % 86400 + 86400
  {
  }

  /** A room needs a number nobody has, a kind, and a price that is not negative; its capacity is at least one. */
  lemma {:induction false} AddsRoomIff(db: PetDb, p: Principal, id: Id, room: Room)
    ensures AddRoom(db, p, id, room).Success? <==>
            && p.admin && Trim(room.number) != [] && Trim(room.kind) != [] && room.price >= 0 && id !in db.rooms
            && forall r :: r in db.rooms ==> db.rooms[r].number != room.number
    ensures AddRoom(db, p, id, room).Success? ==>
              && id in AddRoom(db, p, id, room).value.rooms
              && var stored := AddRoom(db, p, id, room).value.rooms[id];
              && stored == room.(capacity := stored.capacity)
              && (stored.capacity == room.capacity || room.capacity < 1 == stored.capacity)
              && AddRoom(db, p, id, room).value == db.(rooms := db.rooms[id := stored])
  {
    hide Blank, Trim;
    BlankIff(room.number);
    BlankIff(room.kind);
  }

  /** In one step, a room is deleted exactly when no order was ever made for it. */
  lemma {:induction false} DropsRoomIff(db: PetDb, p: Principal, id: Id)
    ensures DeleteRoomWith(db, p, id, |OrdersIn(db.orders, id)|).Success? <==>
            p.admin && id in db.rooms && forall o :: o in db.orders ==> db.orders[o].roomId != Some(id)
  {
    if OrdersIn(db.orders, id) == {} {
      forall o | o in db.orders ensures db.orders[o].roomId != Some(id) {
        assert o !in OrdersIn(db.orders, id);
      }
    } else {
      var o :| o in OrdersIn(db.orders, id);
    }
  }

  lemma {:induction false} SelectionRefusals(db: PetDb, selections: seq<Selection>, i: nat)
    requires i <= |selections|
    ensures match SelectionCheck(db, selections, i)
            case None => true
            case Some(NotFound) => exists k :: 0 <= k < |selections| && selections[k].serviceId !in db.services
            case Some(Validation) =>
              || (exists k :: 0 <= k < |selections| && selections[k].serviceId == 0)
              || (exists j, k :: 0 <= j < k < |selections| && selections[j].serviceId == selections[k].serviceId)
            case Some(Conflict) =>
              exists k :: && 0 <= k < |selections| && selections[k].serviceId in db.services
                          && !db.services[selections[k].serviceId].active
            case Some(_) => false
    decreases |selections| - i
  {
    if i == |selections| {
    } else {
      SelectionRefusals(db, selections, i + 1);
    }
  }

  /** What each refusal of an order request means. */
  lemma {:induction false} AdmissionRefusals(db: PetDb, p: Principal, q: OrderRequest)
    ensures match AdmissionCheck(db, p, q)
            case None => true
            case Some(Unauthenticated) => p.userId == 0
            case Some(Forbidden) => q.petId in db.owners && db.owners[q.petId] != p.userId && !p.admin
            case Some(NotFound) =>
              || q.petId !in db.owners || q.roomId !in db.rooms
              || exists k :: 0 <= k < |q.selections| && q.selections[k].serviceId !in db.services
            case Some(Validation) =>
              || q.petId == 0 || q.roomId == 0 || q.finish <= q.start
              || (exists k :: 0 <= k < |q.selections| && q.selections[k].serviceId == 0)
              || (exists j, k :: 0 <= j < k < |q.selections| && q.selections[j].serviceId == q.selections[k].serviceId)
            case Some(Conflict) =>
              && q.roomId in db.rooms
              && (|| db.rooms[q.roomId].status != Free
                  || |Overlapping(db.orders, q.roomId, q.start, q.finish)| >= db.rooms[q.roomId].capacity
                  || exists k :: && 0 <= k < |q.selections| && q.selections[k].serviceId in db.services
                                 && !db.services[q.selections[k].serviceId].active)
            case Some(_) => false
  {
    hide SelectionCheck, Overlapping;
    SelectionRefusals(db, q.selections, 0);
  }

  // ---------------------------------------------------------------- one request each

  lemma {:induction false} InsertKeepsCapacity(db: PetDb, id: Id, o: Order)
    requires CapacityHeld(db.rooms, db.orders) && InsertOrder(db, id, o).Success?
    ensures CapacityHeld(db.rooms, db.orders[id := o])
  {
    if o.status.IsActive() {
      hide CapacityHeld, Overlapping;
      var r := o.roomId.value;
      CountIsSafe(db.orders, r, o.start, o.finish, db.rooms[r].capacity);
      RoomThroughoutIsExact(db.rooms, db.orders, id, o, r);
    } else {
      FewerHoldsKeepCapacity(db.rooms, db.orders, db.orders[id := o]);
    }
  }

  /** The trigger alone keeps the capacity, whatever was checked before the insert and however long ago. */
  lemma {:induction false} InsertKeepsInv(db: PetDb, id: Id, o: Order)
    requires Kept(db) && InsertOrder(db, id, o).Success? && Sound(o)
    ensures Keeps(db, InsertOrder(db, id, o).value)
  {
    hide CapacityHeld, RoomsKept, Sound, TriggerAdmits, WithinStay;
    if CapacityHeld(db.rooms, db.orders) {
      InsertKeepsCapacity(db, id, o);
    }
  }

  lemma {:induction false} CreateKeepsInv(db: PetDb, p: Principal, q: OrderRequest, id: Id)
    requires Kept(db) && CreateOrder(db, p, q, id).Success?
    ensures Keeps(db, CreateOrder(db, p, q, id).value)
  {
    SelectionCheckMeans(db, q.selections, 0);
    hide Kept, Keeps, InsertOrder, Days, Subtotals, Overlapping;
    InsertKeepsInv(db, id, NewOrder(db, q));
  }

  lemma {:induction false} MovingKeepsRecords(
      orders: map<Id, Order>, records: map<Id, Record>, id: Id, next: OrderStatus)
    requires RecordsKept(orders, records) && id in orders && orders[id].status.MayMove(next)
    ensures RecordsKept(orders[id := orders[id].(status := next)], records)
  {
  }

  lemma {:induction false} StatusKeepsInv(db: PetDb, p: Principal, id: Id, next: OrderStatus)
    requires Kept(db) && UpdateOrderStatus(db, p, id, next).Success?
    ensures Keeps(db, UpdateOrderStatus(db, p, id, next).value)
  {
    hide CapacityHeld, RoomsKept, RecordsKept, Priced;
    MovingKeepsRecords(db.orders, db.records, id, next);
    if CapacityHeld(db.rooms, db.orders) {
      MovingKeepsCapacity(db.rooms, db.orders, id, next);
    }
  }

  lemma {:induction false} CancelKeepsInv(db: PetDb, p: Principal, id: Id)
    requires Kept(db) && CancelOrder(db, p, id).Success?
    ensures Keeps(db, CancelOrder(db, p, id).value)
  {
    hide Keeps, Kept, UpdateOrderStatus;
    StatusKeepsInv(db, p.(admin := true), id, Cancelled);
  }

  lemma {:induction false} RoomWriteKept(db: PetDb, id: Id, room: Room)
    requires Kept(db) && room.capacity >= 1 && room.price >= 0 && !NumberTaken(db.rooms, room.number, id)
    ensures Kept(db.(rooms := db.rooms[id := room]))
  {
    hide Sound, RecordsKept;
  }

  lemma {:induction false} AddRoomKeepsInv(db: PetDb, p: Principal, id: Id, room: Room)
    requires Kept(db) && AddRoom(db, p, id, room).Success?
    ensures Keeps(db, AddRoom(db, p, id, room).value)
  {
    hide Blank, NumberTaken, CapacityHeld, RecordsKept, RoomsKept, Sound;
    var stored := room.(capacity := if room.capacity < 1 then 1 else room.capacity);
    assert ActiveIn(db.orders, id) == {};
    hide Kept, ActiveIn;
    RoomWriteKept(db, id, stored);
    ActiveOrdersFit(db.orders, id, stored.capacity);
    if CapacityHeld(db.rooms, db.orders) {
      RoomWriteFitsIff(db.rooms, db.orders, id, stored);
    }
  }

  /** A room change taken as one step overfills nothing. */
  lemma {:induction false} UpdateRoomKeepsInv(db: PetDb, p: Principal, id: Id, room: Room)
    requires Kept(db) && UpdateRoom(db, p, id, room).Success?
    ensures Keeps(db, UpdateRoom(db, p, id, room).value)
  {
    hide Kept, CapacityHeld, UpdateRoomWith, ActiveIn;
    RoomChangeFitsIff(db, p, id, room, |ActiveIn(db.orders, id)|);
    CountNotBelowFits(db, p, id, room, |ActiveIn(db.orders, id)|);
  }

  /** Setting a room's status keeps the facts, whenever its active orders were counted. */
  lemma {:induction false} RoomStatusKeepsInv(db: PetDb, p: Principal, id: Id, status: RoomStatus, active: nat)
    requires Kept(db) && UpdateRoomStatusWith(db, p, id, status, active).Success?
    ensures Keeps(db, UpdateRoomStatusWith(db, p, id, status, active).value)
  {
    hide Sound, RecordsKept, FitsIn;
  }

  lemma {:induction false} RelinkingKeepsRecords(
      orders: map<Id, Order>, orders': map<Id, Order>, records: map<Id, Record>)
    requires RecordsKept(orders, records)
    requires forall o :: o in orders ==>
      o in orders' && orders'[o] == orders[o].(petId := orders'[o].petId, roomId := orders'[o].roomId)
    ensures RecordsKept(orders', records)
  {
  }

  lemma {:induction false} FewerRoomsKeepCapacity(rooms: map<Id, Room>, orders: map<Id, Order>, id: Id)
    requires CapacityHeld(rooms, orders)
    ensures CapacityHeld(rooms - {id}, WithRooms(orders, (rooms - {id}).Keys))
  {
    FewerHoldsKeepCapacity(rooms, orders, WithRooms(orders, (rooms - {id}).Keys));
    hide FitsIn;
  }

  lemma {:induction false} FewerRoomsKept(db: PetDb, id: Id)
    requires Kept(db)
    ensures Kept(db.(rooms := db.rooms - {id}, orders := WithRooms(db.orders, (db.rooms - {id}).Keys)))
  {
    hide RecordsKept, Priced;
    RelinkingKeepsRecords(db.orders, WithRooms(db.orders, (db.rooms - {id}).Keys), db.records);
  }

  /** Deleting a room keeps the facts, whenever its orders were counted: orders it still had lose it. */
  lemma {:induction false} DeleteRoomKeepsInv(db: PetDb, p: Principal, id: Id, counted: nat)
    requires Kept(db) && DeleteRoomWith(db, p, id, counted).Success?
    ensures Keeps(db, DeleteRoomWith(db, p, id, counted).value)
  {
    hide Kept, CapacityHeld, WithRooms;
    FewerRoomsKept(db, id);
    if CapacityHeld(db.rooms, db.orders) {
      FewerRoomsKeepCapacity(db.rooms, db.orders, id);
    }
  }

  /** Changing services and pets keeps the facts: orders of pets that are gone lose them. */
  lemma {:induction false} ElsewhereKeepsInv(db: PetDb, services: map<Id, ServiceItem>, owners: map<Id, Id>)
    requires Kept(db)
    ensures Keeps(db, ChangeElsewhere(db, services, owners))
  {
    var after := ChangeElsewhere(db, services, owners);
    hide RecordsKept, Priced, CapacityHeld;
    RelinkingKeepsRecords(db.orders, after.orders, db.records);
    if CapacityHeld(db.rooms, db.orders) {
      FewerHoldsKeepCapacity(db.rooms, db.orders, after.orders);
    }
  }

  lemma {:induction false} RecordWriteKeepsInv(db: PetDb, id: Id, record: Record)
    requires Kept(db) && Covered(db.orders, record)
    requires !DateTaken(db.records, record.orderId, record.date, id)
    ensures Keeps(db, db.(records := db.records[id := record]))
  {
    hide CapacityHeld, RoomsKept, OrdersKept, WithinStay;
  }

  lemma {:induction false} AddRecordKeepsInv(db: PetDb, p: Principal, id: Id, orderId: Id, at: Time, now: Time)
    requires Kept(db) && AddRecord(db, p, id, orderId, at, now).Success?
    ensures Keeps(db, AddRecord(db, p, id, orderId, at, now).value)
  {
    hide Keeps, Kept, WithinStay, DateTaken, DateOf;
    RecordWriteKeepsInv(db, id, Record(orderId, DateOf(if at == ZERO_TIME then now else at)));
  }

  lemma {:induction false} UpdateRecordKeepsInv(db: PetDb, p: Principal, id: Id, at: Time)
    requires Kept(db) && UpdateRecord(db, p, id, at).Success?
    ensures Keeps(db, UpdateRecord(db, p, id, at).value)
  {
    hide Keeps, Kept, WithinStay, DateTaken, DateOf;
    RecordWriteKeepsInv(db, id, UpdateRecord(db, p, id, at).value.records[id]);
  }

  lemma {:induction false} DeleteRecordKeepsInv(db: PetDb, p: Principal, id: Id)
    requires Kept(db) && DeleteRecord(db, p, id).Success?
    ensures Keeps(db, DeleteRecord(db, p, id).value)
  {
    hide CapacityHeld, RoomsKept, OrdersKept, WithinStay;
  }
}
