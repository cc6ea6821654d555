/** The boarding side over whole histories. */
module BookingHistory {
  import opened Base
  import opened Billing
  import opened Booking
  import opened BookingInvariant
  import Slots

  /** Some requests read before they write, in statements of their own: a row or a count in an event may be stale. */
  datatype Request =
    | Create(order: OrderRequest, id: Id)
    | Insert(id: Id, row: Order)                       // a checked order reaching the trigger later
    | Move(id: Id, next: OrderStatus)
    | Cancel(id: Id)
    | NewRoom(id: Id, room: Room)
    | ChangeRoom(id: Id, room: Room, active: nat)
    | ChangeRoomStatus(id: Id, status: RoomStatus, active: nat)
    | DropRoom(id: Id, counted: nat)
    | Note(id: Id, orderId: Id, at: Time, now: Time)
    | ChangeNote(id: Id, at: Time)
    | DropNote(id: Id)
    | LateNote(id: Id, record: Record)                 // a checked record reaching its table later
    | LateChangeNote(id: Id, date: int)                // and a checked change of its date
    | Elsewhere(services: map<Id, ServiceItem>, owners: map<Id, Id>)   // anything done to services and pets

  datatype Event = Event(who: Principal, request: Request)

  type History = seq<Event>

  /** What the checks before the insert guarantee of the row itself, however the tables have changed since. */
  ghost predicate Checked(o: Order) {
    Sound(o) && o.status.Pending?
  }

  ghost function InsertChecked(db: PetDb, id: Id, row: Order): Result<PetDb> {
    if Checked(row) then InsertOrder(db, id, row) else Failure(Validation)
  }

  /**
    What the checks before the write found of a record's order still holds of it in this form, however the
    tables have changed since (see ReadingsLast).
   */
  ghost function InsertCovered(db: PetDb, id: Id, record: Record): Result<PetDb> {
    if Covered(db.orders, record) then InsertRecord(db, id, record) else Failure(InvalidState)
  }

  ghost function RedateCovered(db: PetDb, id: Id, date: int): Result<PetDb> {
    if id in db.records && !Covered(db.orders, db.records[id].(date := date)) then Failure(InvalidState)
    else RedateRecord(db, id, date)
  }

  ghost function Outcome(db: PetDb, e: Event): Result<PetDb> {
    match e.request
    case Create(q, id) => CreateOrder(db, e.who, q, id)
    case Insert(id, row) => InsertChecked(db, id, row)
    case Move(id, next) => UpdateOrderStatus(db, e.who, id, next)
    case Cancel(id) => CancelOrder(db, e.who, id)
    case NewRoom(id, room) => AddRoom(db, e.who, id, room)
    case ChangeRoom(id, room, active) => UpdateRoomWith(db, e.who, id, room, active)
    case ChangeRoomStatus(id, status, active) => UpdateRoomStatusWith(db, e.who, id, status, active)
    case DropRoom(id, counted) => DeleteRoomWith(db, e.who, id, counted)
    case Note(id, orderId, at, now) => AddRecord(db, e.who, id, orderId, at, now)
    case ChangeNote(id, at) => UpdateRecord(db, e.who, id, at)
    case DropNote(id) => DeleteRecord(db, e.who, id)
    case LateNote(id, record) => InsertCovered(db, id, record)
    case LateChangeNote(id, date) => RedateCovered(db, id, date)
    case Elsewhere(services, owners) => Success(ChangeElsewhere(db, services, owners))
  }

  ghost function Apply(db: PetDb, e: Event): PetDb {
    OrKeep(Outcome(db, e), db)
  }

  ghost function After(h: History): PetDb {
    if h == [] then NOTHING else Apply(After(h[..|h| - 1]), h[|h| - 1])
  }

  /** What was read for the event was read in its step. */
  ghost predicate Current(db: PetDb, e: Event) {
    match e.request
    case Insert(_, _) => false
    case LateNote(_, _) => false
    case LateChangeNote(_, _) => false
    case ChangeRoom(id, _, active) => active == |ActiveIn(db.orders, id)|
    case ChangeRoomStatus(id, _, active) => active == |ActiveIn(db.orders, id)|
    case DropRoom(id, counted) => counted == |OrdersIn(db.orders, id)|
    case _ => true
  }

  /** Every request reads and writes in one step. */
  ghost predicate InStep(h: History) {
    forall n: nat :: n < |h| ==> Current(After(h[..n]), h[n])
  }

  lemma {:induction false} InStepExtends(h: History, e: Event)
    ensures InStep(h + [e]) <==> InStep(h) && Current(After(h), e)
  {
    hide After, Current;
    var more := h + [e];
    assert more[..|h|] == h;
    assert forall n: nat :: n < |h| ==> more[..n] == h[..n];
    if InStep(more) {
      assert Current(After(more[..|h|]), more[|h|]);
      forall n: nat | n < |h| ensures Current(After(h[..n]), h[n]) {
        assert Current(After(more[..n]), more[n]);
      }
    }
  }

  // ---------------------------------------------------------------- capacity

  /** An accepted room change leaves room for the orders held. */
  ghost predicate ChangeFits(db: PetDb, e: Event) {
    e.request.ChangeRoom? && Outcome(db, e).Success? ==> FitsIn(db.orders, e.request.id, e.request.room.capacity)
  }

  lemma {:induction false} RefusalKeeps(db: PetDb)
    requires Kept(db)
    ensures Keeps(db, db)
  {
  }

  lemma {:induction false} LateNoteKeepsInv(db: PetDb, id: Id, record: Record)
    requires Kept(db) && InsertCovered(db, id, record).Success?
    ensures Keeps(db, InsertCovered(db, id, record).value)
  {
    hide Keeps, Kept, Covered, DateTaken;
    RecordWriteKeepsInv(db, id, record);
  }

  lemma {:induction false} LateChangeKeepsInv(db: PetDb, id: Id, date: int)
    requires Kept(db) && RedateCovered(db, id, date).Success?
    ensures Keeps(db, RedateCovered(db, id, date).value)
  {
    hide Keeps, Kept, Covered, DateTaken;
    RecordWriteKeepsInv(db, id, db.records[id].(date := date));
  }

  /** Every request keeps the facts, and only a room change that does not fit overfills a room. */
  lemma {:induction false} StepKeeps(db: PetDb, e: Event)
    requires Kept(db)
    ensures Kept(Apply(db, e))
    ensures CapacityHeld(db.rooms, db.orders) ==>
              (CapacityHeld(Apply(db, e).rooms, Apply(db, e).orders) <==> ChangeFits(db, e))
  {
    hide Kept, CapacityHeld, FitsIn, Sound, CreateOrder, InsertOrder, UpdateOrderStatus, CancelOrder, AddRoom;
    hide UpdateRoomWith, UpdateRoomStatusWith, DeleteRoomWith, AddRecord, UpdateRecord, DeleteRecord, ChangeElsewhere;
    hide InsertCovered, RedateCovered;
    RefusalKeeps(db);
    if Outcome(db, e).Success? {
      match e.request
      case Create(q, id) => CreateKeepsInv(db, e.who, q, id);
      case Insert(id, row) => InsertKeepsInv(db, id, row);
      case Move(id, next) => StatusKeepsInv(db, e.who, id, next);
      case Cancel(id) => CancelKeepsInv(db, e.who, id);
      case NewRoom(id, room) => AddRoomKeepsInv(db, e.who, id, room);
      case ChangeRoom(id, room, active) => RoomChangeFitsIff(db, e.who, id, room, active);
      case ChangeRoomStatus(id, status, active) => RoomStatusKeepsInv(db, e.who, id, status, active);
      case DropRoom(id, counted) => DeleteRoomKeepsInv(db, e.who, id, counted);
      case Note(id, orderId, at, now) => AddRecordKeepsInv(db, e.who, id, orderId, at, now);
      case ChangeNote(id, at) => UpdateRecordKeepsInv(db, e.who, id, at);
      case DropNote(id) => DeleteRecordKeepsInv(db, e.who, id);
      case LateNote(id, record) => LateNoteKeepsInv(db, id, record);
      case LateChangeNote(id, date) => LateChangeKeepsInv(db, id, date);
      case Elsewhere(services, owners) => ElsewhereKeepsInv(db, services, owners);
    }
  }

  lemma {:induction false} EmptyInv()
    ensures Inv(NOTHING)
  {
    assert forall t :: HoldingAt(map[], 0, t) == {};
  }

  /** Whatever the requests read and when, prices, references and records are in order after every history. */
  lemma {:induction false} AlwaysKept(h: History)
    ensures Kept(After(h))
  {
    hide Apply, Kept;
    if h == [] {
      EmptyInv();
    } else {
      AlwaysKept(h[..|h| - 1]);
      StepKeeps(After(h[..|h| - 1]), h[|h| - 1]);
    }
  }

  ghost predicate Fits(db: PetDb) {
    CapacityHeld(db.rooms, db.orders)
  }

  ghost predicate NeverOverfilled(h: History) {
    forall n: nat :: n <= |h| ==> Fits(After(h[..n]))
  }

  ghost predicate ChangesFit(h: History) {
    forall n: nat :: n < |h| ==> ChangeFits(After(h[..n]), h[n])
  }

  lemma {:induction false} NeverOverfilledExtends(h: History, e: Event)
    ensures NeverOverfilled(h + [e]) <==> NeverOverfilled(h) && Fits(After(h + [e]))
  {
    hide After, Fits;
    var more := h + [e];
    assert more[..|more|] == more;
    assert forall n: nat :: n <= |h| ==> more[..n] == h[..n];
    if NeverOverfilled(more) {
      assert Fits(After(more[..|more|]));
      forall n: nat | n <= |h| ensures Fits(After(h[..n])) {
        assert Fits(After(more[..n]));
      }
    }
  }

  lemma {:induction false} ChangesFitExtends(h: History, e: Event)
    ensures ChangesFit(h + [e]) <==> ChangesFit(h) && ChangeFits(After(h), e)
  {
    hide After, ChangeFits;
    var more := h + [e];
    assert more[..|h|] == h;
    assert forall n: nat :: n < |h| ==> more[..n] == h[..n];
    if ChangesFit(more) {
      assert ChangeFits(After(more[..|h|]), more[|h|]);
      forall n: nat | n < |h| ensures ChangeFits(After(h[..n]), h[n]) {
        assert ChangeFits(After(more[..n]), more[n]);
      }
    }
  }

  /** No room is ever overfilled exactly when each accepted room change leaves room for the orders held at that
      moment. */
  lemma {:induction false} NeverOverfilledIff(h: History)
    ensures NeverOverfilled(h) <==> ChangesFit(h)
  {
    hide Apply, Kept, CapacityHeld, ChangeFits, Fits;
    if h == [] {
      NothingFits();
    } else {
      var g, e := h[..|h| - 1], h[|h| - 1];
      assert g + [e] == h && g[..|g|] == g;
      NeverOverfilledExtends(g, e);
      ChangesFitExtends(g, e);
      NeverOverfilledIff(g);
      AlwaysKept(g);
      StepFits(After(g), e);
      assert NeverOverfilled(g) ==> Fits(After(g[..|g|]));
    }
  }

  lemma {:induction false} NothingFits()
    ensures Fits(NOTHING)
  {
    EmptyInv();
  }

  lemma {:induction false} StepFits(db: PetDb, e: Event)
    requires Kept(db)
    ensures Fits(db) ==> (Fits(Apply(db, e)) <==> ChangeFits(db, e))
  {
    hide Apply, Kept, CapacityHeld, ChangeFits;
    StepKeeps(db, e);
  }

  /** Counts read in the step always fit. */
  lemma {:induction false} CurrentChangesFit(h: History)
    requires InStep(h)
    ensures ChangesFit(h)
  {
    hide Apply, After, UpdateRoomWith, FitsIn, ActiveIn;
    forall n: nat | n < |h| ensures ChangeFits(After(h[..n]), h[n]) {
      var db, e := After(h[..n]), h[n];
      assert Current(db, e);
      if e.request.ChangeRoom? && Outcome(db, e).Success? {
        CountNotBelowFits(db, e.who, e.request.id, e.request.room, e.request.active);
      }
    }
  }

  /** All the facts hold after every history whose room changes fit, so after every history of one-step requests. */
  lemma {:induction false} AlwaysInv(h: History)
    ensures ChangesFit(h) || InStep(h) ==> Inv(After(h))
  {
    AlwaysKept(h);
    NeverOverfilledIff(h);
    hide Apply, After, Kept, CapacityHeld, ChangesFit, InStep;
    if InStep(h) {
      CurrentChangesFit(h);
    }
    if ChangesFit(h) {
      assert Fits(After(h[..|h|])) && h[..|h|] == h;
    }
  }

  /** The active stays of a room. */
  function StaysOf(orders: map<Id, Order>, roomId: Id): map<Id, Slots.Stay> {
    map o | o in ActiveIn(orders, roomId) :: Slots.Stay(orders[o].start, orders[o].finish)
  }

  /** The orders that keep a room at an instant: pending, confirmed or in progress, and begun but not ended by then. */
  function PresentAt(orders: map<Id, Order>, roomId: Id, t: Time): set<Id> {
    set o | o in orders && IsHolding(orders[o], roomId) && orders[o].start <= t < orders[o].finish
  }

  /** Then a room's active orders also fit in places below its capacity, with no overlap in any place. */
  lemma {:induction false} RoomsAreNeverOverfilled(h: History, r: Id)
    requires (ChangesFit(h) || InStep(h)) && r in After(h).rooms
    ensures forall t :: |PresentAt(After(h).orders, r, t)| <= After(h).rooms[r].capacity
    ensures After(h).rooms[r].capacity >= 1
    ensures exists slots :: Slots.Assigns(StaysOf(After(h).orders, r), After(h).rooms[r].capacity, slots)
  {
    AlwaysInv(h);
    var db := After(h);
    var stays := StaysOf(db.orders, r);
    hide After, RecordsKept;
    assert FitsIn(db.orders, r, db.rooms[r].capacity);
    forall t ensures PresentAt(db.orders, r, t) == HoldingAt(db.orders, r, t) {
    }
    forall t ensures |Slots.At(stays, t)| <= db.rooms[r].capacity {
      assert Slots.At(stays, t) == HoldingAt(db.orders, r, t);
    }
    assert Slots.Proper(stays);
    hide Inv, HoldingAt, StaysOf;
    Slots.PlacesIffNeverMore(stays, db.rooms[r].capacity);
  }

  // ---------------------------------------------------------------- cleaning

  /** A room being cleaned has no active order. */
  ghost predicate CleaningIdle(db: PetDb) {
    forall r :: r in db.rooms && db.rooms[r].status.Cleaning? ==> ActiveIn(db.orders, r) == {}
  }

  /** The accepted request puts no order in a room being cleaned, and cleans no room with an active order. */
  ghost predicate LeavesCleaning(db: PetDb, e: Event) {
    Outcome(db, e).Success? ==>
      match e.request
      case Insert(_, row) =>
        row.roomId.Some? && row.roomId.value in db.rooms && !db.rooms[row.roomId.value].status.Cleaning?
      case ChangeRoom(id, room, _) => room.status.Cleaning? ==> ActiveIn(db.orders, id) == {}
      case ChangeRoomStatus(id, status, _) => status.Cleaning? ==> ActiveIn(db.orders, id) == {}
      case _ => true
  }

  lemma {:induction false} FewerActiveKeepsIdle(db: PetDb, after: PetDb)
    requires CleaningIdle(db) && forall r :: ActiveIn(after.orders, r) <= ActiveIn(db.orders, r)
    requires forall r :: r in after.rooms ==> r in db.rooms && after.rooms[r] == db.rooms[r]
    ensures CleaningIdle(after)
  {
  }

  lemma {:induction false} RoomWriteIdleIff(db: PetDb, id: Id, room: Room)
    requires CleaningIdle(db)
    ensures CleaningIdle(db.(rooms := db.rooms[id := room])) <==>
            (room.status.Cleaning? ==> ActiveIn(db.orders, id) == {})
  {
    hide ActiveIn;
    var after := db.(rooms := db.rooms[id := room]);
    assert after.rooms[id] == room;
  }

  lemma {:induction false} InsertIdleIff(db: PetDb, id: Id, o: Order)
    requires CleaningIdle(db) && InsertOrder(db, id, o).Success? && o.status.Pending?
    ensures CleaningIdle(InsertOrder(db, id, o).value) <==> !db.rooms[o.roomId.value].status.Cleaning?
  {
    var after := InsertOrder(db, id, o).value;
    assert id in ActiveIn(after.orders, o.roomId.value);
    forall r: Id | Some(r) != o.roomId ensures ActiveIn(after.orders, r) == ActiveIn(db.orders, r) {
    }
  }

  lemma {:induction false} CreateKeepsIdle(db: PetDb, p: Principal, q: OrderRequest, id: Id)
    requires CleaningIdle(db) && CreateOrder(db, p, q, id).Success?
    ensures CleaningIdle(CreateOrder(db, p, q, id).value)
  {
    hide CleaningIdle, SelectionCheck, Days, Subtotals, LinesFor, InsertOrder, TriggerAdmits, Overlapping;
    SelectionCheckMeans(db, q.selections, 0);
    InsertIdleIff(db, id, NewOrder(db, q));
  }

  lemma {:induction false} MovingKeepsIdle(db: PetDb, p: Principal, id: Id, next: OrderStatus)
    requires CleaningIdle(db) && UpdateOrderStatus(db, p, id, next).Success?
    ensures CleaningIdle(UpdateOrderStatus(db, p, id, next).value)
  {
    FewerActiveKeepsIdle(db, UpdateOrderStatus(db, p, id, next).value);
  }

  lemma {:induction false} CancellingKeepsIdle(db: PetDb, p: Principal, id: Id)
    requires CleaningIdle(db) && CancelOrder(db, p, id).Success?
    ensures CleaningIdle(CancelOrder(db, p, id).value)
  {
    hide UpdateOrderStatus, CleaningIdle;
    MovingKeepsIdle(db, p.(admin := true), id, Cancelled);
  }

  lemma {:induction false} NewRoomKeepsIdle(db: PetDb, p: Principal, id: Id, room: Room)
    requires CleaningIdle(db) && Kept(db) && AddRoom(db, p, id, room).Success?
    ensures CleaningIdle(AddRoom(db, p, id, room).value)
  {
    hide Blank, NumberTaken, RecordsKept, RoomsKept, Sound;
    assert ActiveIn(db.orders, id) == {};
    hide CleaningIdle, Kept;
    RoomWriteIdleIff(db, id, AddRoom(db, p, id, room).value.rooms[id]);
  }

  lemma {:induction false} DroppingKeepsIdle(db: PetDb, p: Principal, id: Id, counted: nat)
    requires CleaningIdle(db) && DeleteRoomWith(db, p, id, counted).Success?
    ensures CleaningIdle(DeleteRoomWith(db, p, id, counted).value)
  {
    hide CleaningIdle;
    FewerActiveKeepsIdle(db, DeleteRoomWith(db, p, id, counted).value);
  }

  lemma {:induction false} ElsewhereKeepsIdle(db: PetDb, services: map<Id, ServiceItem>, owners: map<Id, Id>)
    requires CleaningIdle(db)
    ensures CleaningIdle(ChangeElsewhere(db, services, owners))
  {
    hide CleaningIdle;
    FewerActiveKeepsIdle(db, ChangeElsewhere(db, services, owners));
  }

  predicate WritesRecords(q: Request) {
    q.Note? || q.ChangeNote? || q.DropNote? || q.LateNote? || q.LateChangeNote?
  }

  lemma {:induction false} RecordsLeaveRooms(db: PetDb, e: Event)
    requires WritesRecords(e.request) && Outcome(db, e).Success?
    ensures Apply(db, e) == db.(records := Apply(db, e).records)
  {
    hide WithinStay, DateTaken, DateOf, ViewCheck, Covered;
  }

  lemma {:induction false} RecordsKeepIdle(db: PetDb, e: Event)
    requires WritesRecords(e.request) && Outcome(db, e).Success?
    ensures CleaningIdle(Apply(db, e)) <==> CleaningIdle(db)
  {
    hide Apply;
    RecordsLeaveRooms(db, e);
  }

  lemma {:induction false} StepIdleIff(db: PetDb, e: Event)
    requires Kept(db) && CleaningIdle(db)
    ensures CleaningIdle(Apply(db, e)) <==> LeavesCleaning(db, e)
  {
    if Outcome(db, e).Success? {
      hide Kept, Sound, CleaningIdle, ActiveIn, Blank, NumberTaken, Trim, TriggerAdmits;
      hide CreateOrder, UpdateOrderStatus, CancelOrder, AddRoom, DeleteRoomWith, ChangeElsewhere;
      hide AddRecord, UpdateRecord, DeleteRecord;
      match e.request
      case Create(q, id) => CreateKeepsIdle(db, e.who, q, id);
      case Insert(id, row) => InsertedIdleIff(db, e);
      case Move(id, next) => MovingKeepsIdle(db, e.who, id, next);
      case Cancel(id) => CancellingKeepsIdle(db, e.who, id);
      case NewRoom(id, room) => NewRoomKeepsIdle(db, e.who, id, room);
      case ChangeRoom(id, room, _) => RoomWriteIdleIff(db, id, Apply(db, e).rooms[id]);
      case ChangeRoomStatus(id, status, _) => RoomWriteIdleIff(db, id, Apply(db, e).rooms[id]);
      case DropRoom(id, counted) => DroppingKeepsIdle(db, e.who, id, counted);
      case Elsewhere(services, owners) => ElsewhereKeepsIdle(db, services, owners);
      case _ => RecordsKeepIdle(db, e);
    }
  }

  lemma {:induction false} InsertedIdleIff(db: PetDb, e: Event)
    requires CleaningIdle(db) && e.request.Insert? && Outcome(db, e).Success?
    ensures CleaningIdle(Apply(db, e)) <==> LeavesCleaning(db, e)
  {
    hide CleaningIdle, Sound, Overlapping;
    InsertIdleIff(db, e.request.id, e.request.row);
  }

  ghost predicate CleaningAlwaysIdle(h: History) {
    forall n: nat :: n <= |h| ==> CleaningIdle(After(h[..n]))
  }

  ghost predicate CleaningLeft(h: History) {
    forall n: nat :: n < |h| ==> LeavesCleaning(After(h[..n]), h[n])
  }

  lemma {:induction false} AlwaysIdleExtends(h: History, e: Event)
    ensures CleaningAlwaysIdle(h + [e]) <==> CleaningAlwaysIdle(h) && CleaningIdle(After(h + [e]))
  {
    hide After, CleaningIdle;
    var more := h + [e];
    assert more[..|more|] == more;
    assert forall n: nat :: n <= |h| ==> more[..n] == h[..n];
    if CleaningAlwaysIdle(more) {
      assert CleaningIdle(After(more[..|more|]));
      forall n: nat | n <= |h| ensures CleaningIdle(After(h[..n])) {
        assert CleaningIdle(After(more[..n]));
      }
    }
  }

  lemma {:induction false} CleaningLeftExtends(h: History, e: Event)
    ensures CleaningLeft(h + [e]) <==> CleaningLeft(h) && LeavesCleaning(After(h), e)
  {
    hide After, LeavesCleaning;
    var more := h + [e];
    assert more[..|h|] == h;
    assert forall n: nat :: n < |h| ==> more[..n] == h[..n];
    if CleaningLeft(more) {
      assert LeavesCleaning(After(more[..|h|]), more[|h|]);
      forall n: nat | n < |h| ensures LeavesCleaning(After(h[..n]), h[n]) {
        assert LeavesCleaning(After(more[..n]), more[n]);
      }
    }
  }

  /** No room being cleaned ever has an active order exactly when no late insert and no stale count brings one about. */
  lemma {:induction false} CleaningIsIdleIff(h: History)
    ensures CleaningAlwaysIdle(h) <==> CleaningLeft(h)
  {
    hide Apply, Kept, CleaningIdle, LeavesCleaning;
    if h == [] {
      NobodyIsIdle();
    } else {
      var g, e := h[..|h| - 1], h[|h| - 1];
      assert g + [e] == h && g[..|g|] == g;
      AlwaysIdleExtends(g, e);
      CleaningLeftExtends(g, e);
      CleaningIsIdleIff(g);
      AlwaysKept(g);
      if CleaningAlwaysIdle(g) {
        assert CleaningIdle(After(g[..|g|]));
        StepIdleIff(After(g), e);
      }
    }
  }

  lemma {:induction false} NobodyIsIdle()
    ensures CleaningIdle(NOTHING)
  {
  }

  lemma {:induction false} CurrentLeavesCleaning(db: PetDb, e: Event)
    requires Current(db, e)
    ensures LeavesCleaning(db, e)
  {
    hide CreateOrder, UpdateOrderStatus, CancelOrder, AddRoom, DeleteRoomWith, ChangeElsewhere, NumberTaken;
    hide AddRecord, UpdateRecord, DeleteRecord, ActiveIn, Blank, Trim;
  }

  /** While every request is one step, a room being cleaned has no active order. */
  lemma {:induction false} CleaningIsUndisturbed(h: History)
    requires InStep(h)
    ensures CleaningIdle(After(h))
  {
    hide Apply, After, CleaningIdle, LeavesCleaning, Current;
    forall n: nat | n < |h| ensures LeavesCleaning(After(h[..n]), h[n]) {
      CurrentLeavesCleaning(After(h[..n]), h[n]);
    }
    CleaningIsIdleIff(h);
    assert CleaningIdle(After(h[..|h|])) && h[..|h|] == h;
  }

  // ---------------------------------------------------------------- records

  function RecordsOf(records: map<Id, Record>, orderId: Id): set<Id> {
    set r | r in records && records[r].orderId == orderId
  }

  /** An order has at most one record for each calendar day of its stay, so at most one more than its billed days. */
  lemma {:induction false} RecordsAreBounded(h: History, o: Id)
    requires o in After(h).orders
    ensures var order := After(h).orders[o]; var records := RecordsOf(After(h).records, o);
            && |records| <= DateOf(order.finish) - DateOf(order.start) + 1
            && |records| <= Days(order.start, order.finish) + 1
            && (forall r :: r in records ==> WithinStay(order, After(h).records[r].date))
            && (forall r, s :: r in records && s in records && r != s ==>
                                 After(h).records[r].date != After(h).records[s].date)
  {
    AlwaysKept(h);
    var db := After(h);
    var order := db.orders[o];
    hide After, RoomsKept;
    CalendarDaysTouched(order.start, order.finish);
    var first, days := DateOf(order.start), DateOf(order.finish) - DateOf(order.start) + 1;
    DistinctDates(db.records, RecordsOf(db.records, o), first, days);
  }

  lemma {:induction false} DistinctDates(records: map<Id, Record>, ids: set<Id>, first: int, n: nat)
    requires ids <= records.Keys && forall r :: r in ids ==> first <= records[r].date < first + n
    requires forall r, s :: r in ids && s in ids && records[r].date == records[s].date ==> r == s
    ensures |ids| <= n
  {
    if n == 0 {
      assert ids == {};
    } else if r :| r in ids && records[r].date == first + n - 1 {
      DistinctDates(records, ids - {r}, first, n - 1);
    } else {
      DistinctDates(records, ids, first, n - 1);
    }
  }

  /** Orders not yet begun, and cancelled ones, have no records. */
  lemma {:induction false} OnlyBegunOrdersHaveRecords(h: History, o: Id)
    requires o in After(h).orders && RecordsOf(After(h).records, o) != {}
    ensures After(h).orders[o].status.InProgress? || After(h).orders[o].status.Completed?
  {
    AlwaysKept(h);
    hide After, RoomsKept, OrdersKept, WithinStay;
    var r :| r in RecordsOf(After(h).records, o);
  }

  // ---------------------------------------------------------------- orders

  /** The order is what it was, but for its status moving on and references to rows that are gone. */
  ghost predicate Carried(o: Order, later: Order, after: PetDb) {
    && later == o.(status := later.status,
                   petId := Relinked(o.petId, after.owners.Keys),
                   roomId := Relinked(o.roomId, after.rooms.Keys))
    && (later.status == o.status || o.status.MayMove(later.status))
  }

  ghost predicate AllCarried(db: PetDb, after: PetDb) {
    forall o :: o in db.orders ==> o in after.orders && Carried(db.orders[o], after.orders[o], after)
  }

  lemma {:induction false} SameOrdersCarried(db: PetDb, after: PetDb)
    requires Kept(db) && after.orders == db.orders
    requires db.rooms.Keys <= after.rooms.Keys && db.owners == after.owners
    ensures AllCarried(db, after)
  {
    hide Sound;
  }

  lemma {:induction false} WrittenOrderCarried(db: PetDb, id: Id, o: Order)
    requires Kept(db)
    requires id in db.orders ==> o == db.orders[id].(status := o.status) && db.orders[id].status.MayMove(o.status)
    ensures AllCarried(db, db.(orders := db.orders[id := o]))
  {
    hide Sound, RecordsKept, RoomsKept;
  }

  lemma {:induction false} CreatedCarried(db: PetDb, p: Principal, q: OrderRequest, id: Id)
    requires Kept(db) && CreateOrder(db, p, q, id).Success?
    ensures AllCarried(db, CreateOrder(db, p, q, id).value)
  {
    SelectionCheckMeans(db, q.selections, 0);
    hide AllCarried, Kept, Days, Subtotals, LinesFor, TriggerAdmits, AdmissionCheck;
    WrittenOrderCarried(db, id, NewOrder(db, q));
  }

  lemma {:induction false} DroppedCarried(db: PetDb, p: Principal, id: Id, counted: nat)
    requires Kept(db) && DeleteRoomWith(db, p, id, counted).Success?
    ensures AllCarried(db, DeleteRoomWith(db, p, id, counted).value)
  {
    hide Sound, RecordsKept, RoomsKept;
  }

  lemma {:induction false} ElsewhereCarried(db: PetDb, services: map<Id, ServiceItem>, owners: map<Id, Id>)
    requires Kept(db)
    ensures AllCarried(db, ChangeElsewhere(db, services, owners))
  {
    hide Sound, RecordsKept, RoomsKept;
  }

  lemma {:induction false} StepCarries(db: PetDb, e: Event)
    requires Kept(db)
    ensures AllCarried(db, Apply(db, e))
  {
    hide Kept, AllCarried, CreateOrder, TriggerAdmits, Sound, Blank, Trim, NumberTaken;
    hide AddRecord, UpdateRecord, DeleteRecord, DeleteRoomWith, ChangeElsewhere;
    SameOrdersCarried(db, db);
    if Outcome(db, e).Success? {
      match e.request
      case Create(q, id) => CreatedCarried(db, e.who, q, id);
      case Insert(id, row) => WrittenOrderCarried(db, id, row);
      case Move(id, next) => WrittenOrderCarried(db, id, db.orders[id].(status := next));
      case Cancel(id) => WrittenOrderCarried(db, id, db.orders[id].(status := Cancelled));
      case DropRoom(id, counted) => DroppedCarried(db, e.who, id, counted);
      case Elsewhere(services, owners) => ElsewhereCarried(db, services, owners);
      case _ =>
        if WritesRecords(e.request) {
          RecordsLeaveRooms(db, e);
        }
        SameOrdersCarried(db, Apply(db, e));
    }
  }

  ghost predicate PetStays(h: History, n: nat, pet: Id) {
    forall k: nat :: n <= k <= |h| ==> pet in After(h[..k]).owners
  }

  ghost predicate RoomStays(h: History, n: nat, room: Id) {
    forall k: nat :: n <= k <= |h| ==> room in After(h[..k]).rooms
  }

  /** An order never disappears; its status only moves on and the rest of its terms never change. It keeps its pet as
      long as the pet is kept, and its room as long as the room is; a reference once lost stays lost. */
  lemma {:induction false} TermsNeverChange(h: History, n: nat, o: Id)
    requires n <= |h| && o in After(h[..n]).orders
    ensures o in After(h).orders
    ensures var was, now := After(h[..n]).orders[o], After(h).orders[o];
            && now == was.(status := now.status, petId := now.petId, roomId := now.roomId)
            && (was.status.Completed? || was.status.Cancelled? ==> now.status == was.status)
            && now.petId == (if was.petId.Some? && PetStays(h, n, was.petId.value) then was.petId else None)
            && now.roomId == (if was.roomId.Some? && RoomStays(h, n, was.roomId.value) then was.roomId else None)
    decreases |h|
  {
    hide Apply, Kept;
    if n == |h| {
      assert h[..n] == h;
      AlwaysKept(h);
      LinksResolve(After(h), o);
    } else {
      var before := h[..|h| - 1];
      assert before[..n] == h[..n];
      TermsNeverChange(before, n, o);
      AlwaysKept(before);
      StepCarries(After(before), h[|h| - 1]);
      StaysGrow(h, n);
    }
  }

  lemma {:induction false} CoverageStays(db: PetDb, after: PetDb, record: Record)
    requires AllCarried(db, after) && Covered(db.orders, record)
    ensures Covered(after.orders, record)
  {
  }

  /** A record checked against its order at some point may still be stored at any later one, though the order ended. */
  lemma {:induction false} ReadingsLast(h: History, n: nat, record: Record)
    requires n <= |h| && Covered(After(h[..n]).orders, record)
    ensures Covered(After(h).orders, record)
    decreases |h|
  {
    hide Apply, Kept, Covered, AllCarried;
    if n == |h| {
      assert h[..n] == h;
    } else {
      var before := h[..|h| - 1];
      assert before[..n] == h[..n];
      ReadingsLast(before, n, record);
      AlwaysKept(before);
      StepCarries(After(before), h[|h| - 1]);
      CoverageStays(After(before), After(h), record);
    }
  }

  lemma {:induction false} LinksResolve(db: PetDb, o: Id)
    requires Kept(db) && o in db.orders
    ensures Resolves(db.orders[o].petId, db.owners.Keys) && Resolves(db.orders[o].roomId, db.rooms.Keys)
  {
    hide Sound, RecordsKept, RoomsKept;
  }

  lemma {:induction false} StaysGrow(h: History, n: nat)
    requires n < |h|
    ensures forall pet :: PetStays(h, n, pet) <==> PetStays(h[..|h| - 1], n, pet) && pet in After(h).owners
    ensures forall room :: RoomStays(h, n, room) <==> RoomStays(h[..|h| - 1], n, room) && room in After(h).rooms
  {
    hide After;
    var g := h[..|h| - 1];
    assert h[..|h|] == h;
    assert forall k: nat :: k <= |g| ==> h[..k] == g[..k];
    forall pet ensures PetStays(h, n, pet) <==> PetStays(g, n, pet) && pet in After(h).owners {
      if PetStays(h, n, pet) {
        assert pet in After(h[..|h|]).owners;
        forall k: nat | n <= k <= |g| ensures pet in After(g[..k]).owners {
          assert pet in After(h[..k]).owners;
        }
      }
    }
    forall room ensures RoomStays(h, n, room) <==> RoomStays(g, n, room) && room in After(h).rooms {
      if RoomStays(h, n, room) {
        assert room in After(h[..|h|]).rooms;
        forall k: nat | n <= k <= |g| ensures room in After(g[..k]).rooms {
          assert room in After(h[..k]).rooms;
        }
      }
    }
  }

  /** While every request is one step, an order never loses its room. */
  lemma {:induction false} RoomsOfOrdersStay(h: History, n: nat, o: Id)
    requires InStep(h) && n <= |h| && o in After(h[..n]).orders
    ensures o in After(h).orders && After(h).orders[o].roomId == After(h[..n]).orders[o].roomId
    decreases |h|
  {
    hide Apply, Kept, Current;
    if n == |h| {
      assert h[..n] == h;
    } else {
      var before, e := h[..|h| - 1], h[|h| - 1];
      assert before[..n] == h[..n] && before + [e] == h;
      InStepExtends(before, e);
      RoomsOfOrdersStay(before, n, o);
      AlwaysKept(before);
      StepCarries(After(before), e);
      CurrentKeepsRooms(After(before), e, o);
    }
  }

  lemma {:induction false} CurrentKeepsRooms(db: PetDb, e: Event, o: Id)
    requires Kept(db) && Current(db, e) && o in db.orders
    ensures Resolves(db.orders[o].roomId, Apply(db, e).rooms.Keys)
  {
    LinksResolve(db, o);
    hide Kept, CreateOrder, Blank, Trim, NumberTaken, ActiveIn, TriggerAdmits, Sound;
    hide AddRecord, UpdateRecord, DeleteRecord;
    if WritesRecords(e.request) {
      if Outcome(db, e).Success? {
        RecordsLeaveRooms(db, e);
      }
    } else if e.request.DropRoom? && db.orders[o].roomId.Some? {
      assert o in OrdersIn(db.orders, db.orders[o].roomId.value);
    } else if e.request.Create? {
      CreateKeepsRooms(db, e.who, e.request.order, e.request.id);
    }
  }

  lemma {:induction false} CreateKeepsRooms(db: PetDb, p: Principal, q: OrderRequest, id: Id)
    ensures OrKeep(CreateOrder(db, p, q, id), db).rooms == db.rooms
  {
    hide AdmissionCheck, NewOrder, TriggerAdmits;
  }

  // ---------------------------------------------------------------- two histories

  lemma {:induction false} AfterMore(h: History, e: Event)
    ensures After(h + [e]) == Apply(After(h), e)
  {
    hide Apply;
    assert (h + [e])[..|h|] == h;
  }

  const ADMIN := Principal(1, true)

  function Guesthouse(capacity: int): Room {
    Room(Letters(1), Letters(1), Free, 0, capacity)
  }

  function Arrival(id: Id): Event {
    Event(ADMIN, Create(OrderRequest(1, 1, 0, 1, []), id))
  }

  /** A room for two is opened, and two guests arrive. */
  function Arrivals(): History {
    [Event(ADMIN, NewRoom(1, Guesthouse(2))), Event(ADMIN, Elsewhere(map[], map[1 := 1])), Arrival(1), Arrival(2)]
  }

  /** The room is made smaller, on the strength of a count read between the two arrivals. */
  function Shrinking(): Event {
    Event(ADMIN, ChangeRoom(1, Guesthouse(1), 1))
  }

  lemma {:induction false} Opens()
    ensures After([Event(ADMIN, NewRoom(1, Guesthouse(2)))]) ==
            PetDb(map[1 := Guesthouse(2)], map[], map[], map[], map[])
  {
    hide Trim, Blank, Letters, After;
    LettersStay(1);
    var first := Event(ADMIN, NewRoom(1, Guesthouse(2)));
    AfterMore([], first);
    assert [] + [first] == [first];
    Starts();
  }

  lemma {:induction false} Starts()
    ensures After([]) == NOTHING
  {
  }

  function House(orders: map<Id, Order>): PetDb {
    PetDb(map[1 := Guesthouse(2)], map[], map[1 := 1], orders, map[])
  }

  lemma {:induction false} Arrives(orders: map<Id, Order>, id: Id)
    requires id !in orders && |Overlapping(orders, 1, 0, 1)| < 2
    ensures Apply(House(orders), Arrival(id)) == House(orders[id := Guest(1, 0)])
  {
    hide Overlapping, Letters;
  }

  lemma {:induction false} GuestsArrive()
    ensures After(Arrivals()) == Crowded(Guesthouse(2))
  {
    var first, pets := Event(ADMIN, NewRoom(1, Guesthouse(2))), Event(ADMIN, Elsewhere(map[], map[1 := 1]));
    assert Apply(After([first]), pets) == House(map[]) by { Opens(); }
    assert Overlapping(map[], 1, 0, 1) == {};
    assert Overlapping(map[1 := Guest(1, 0)], 1, 0, 1) == {1};
    hide Apply, After, Overlapping, Letters;
    AfterMore([first], pets);
    Arrives(map[], 1);
    AfterMore([first, pets], Arrival(1));
    Arrives(map[1 := Guest(1, 0)], 2);
    AfterMore([first, pets, Arrival(1)], Arrival(2));
    assert [first] + [pets] == [first, pets];
    assert [first, pets] + [Arrival(1)] == [first, pets, Arrival(1)];
    assert [first, pets, Arrival(1)] + [Arrival(2)] == Arrivals();
  }

  lemma {:induction false} ShrinkingOverfills()
    ensures !Fits(Apply(Crowded(Guesthouse(2)), Shrinking()))
  {
    hide Apply, Trim, Blank, Letters, CapacityHeld, UpdateRoomWith, Crowded;
    LettersStay(1);
    StaleCountOverfills(Guesthouse(2));
    ShrinkingApplies(Crowded(Guesthouse(2)));
    SameOrders(Crowded(Guesthouse(2)), ADMIN, 1, Guesthouse(1), 1);
  }

  lemma {:induction false} ShrinkingApplies(db: PetDb)
    ensures Apply(db, Shrinking()) == OrKeep(UpdateRoomWith(db, ADMIN, 1, Guesthouse(1), 1), db)
  {
    hide UpdateRoomWith;
  }

  lemma {:induction false} SameOrders(db: PetDb, p: Principal, id: Id, room: Room, active: nat)
    requires UpdateRoomWith(db, p, id, room, active).Success?
    ensures UpdateRoomWith(db, p, id, room, active).value.orders == db.orders
  {
  }

  /** So a history can overfill a room. */
  lemma {:induction false} AStaleCountOverfills()
    ensures !NeverOverfilled(Arrivals() + [Shrinking()])
  {
    hide After, Apply, Arrivals, Shrinking, Fits, Crowded, Guesthouse;
    var h := Arrivals() + [Shrinking()];
    GuestsArrive();
    ShrinkingOverfills();
    AfterMore(Arrivals(), Shrinking());
    assert h[..|h|] == h;
    assert !Fits(After(h[..|h|]));
  }

  /** And an order loses its pet when the pet goes with its owner. */
  lemma {:induction false} AnOrderLosesItsPet()
    ensures var was := After(Arrivals()).orders;
            var now := After(Arrivals() + [Event(ADMIN, Elsewhere(map[], map[]))]).orders;
            1 in was && was[1].petId == Some(1) && 1 in now && now[1] == was[1].(petId := None)
  {
    GuestsArrive();
    hide After, Arrivals, Letters;
    AfterMore(Arrivals(), Event(ADMIN, Elsewhere(map[], map[])));
  }
}
