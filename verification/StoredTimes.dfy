/** On whole seconds the queries decide on stored text what the model decides on instants. */
module StoredTimes {
  import opened Base
  import opened BusinessDay
  import opened Domain
  import opened TextOrder
  import opened TimeText
  import Booking
  import Calendar
  import Jobs
  import Operations
  import Readiness
  import Tables

  /** The seconds from the beginning of year 0 to that of 1970. */
  const EPOCH: nat := 719528 * DAY

  lemma {:induction false} EpochIsRight()
    ensures EPOCH == Calendar.DaysBeforeYear(1970) * DAY
  {
    Calendar.KnownDays();
  }

  /** The instants that have a four-digit year. */
  predicate Storable(t: Time) {
    0 <= t + EPOCH < Calendar.DaysBeforeYear(Calendar.YEARS) * 86400
  }

  function Stored(t: Time): string
    requires Storable(t)
  {
    FormatTime(Instant(t + EPOCH, 0))
  }

  function NewYear(year: nat): Time {
    Calendar.DaysBeforeYear(year) * DAY - EPOCH
  }

  /** The first instant of a year as it is stored. */
  lemma {:induction false} StoredNewYear(year: nat)
    requires year <= 9999
    ensures Storable(NewYear(year)) && Stored(NewYear(year)) == Decimal(year, 4) + "-01-01T00:00:00Z"
  {
    hide Calendar.CivilOf, Calendar.DaysBeforeYear, Decimal, FractionDigits;
    var c := Calendar.Civil(year, 1, 1, 0, 0, 0);
    assert c.Valid() && c.Seconds() == Calendar.DaysBeforeYear(year) * 86400;
    SecondsWithin(c);
    Calendar.FieldsAreOrdered(Calendar.CivilOf(c.Seconds()), c);
    FractionOfNothing();
    SmallDecimals();
    assert Date(c, Clock(c, "Z")) == Decimal(year, 4) + "-01-01T00:00:00Z";
  }

  lemma SmallDecimals()
    ensures Decimal(0, 2) == "00" && Decimal(1, 2) == "01"
  {
  }

  /** The Unix epoch and the zero time as they are stored. */
  lemma {:induction false} StoredLandmarks()
    ensures Storable(0) && Stored(0) == "1970-01-01T00:00:00Z"
    ensures Storable(ZERO_TIME) && Stored(ZERO_TIME) == "0001-01-01T00:00:00Z"
  {
    hide Stored, Storable, NewYear, Decimal;
    Landmarks();
    FourDigits();
    StoredNewYear(1970);
    StoredNewYear(1);
    assert "1970" + "-01-01T00:00:00Z" == "1970-01-01T00:00:00Z";
    assert "0001" + "-01-01T00:00:00Z" == "0001-01-01T00:00:00Z";
  }

  lemma {:induction false} Landmarks()
    ensures NewYear(1970) == 0 && NewYear(1) == ZERO_TIME
  {
    hide Calendar.DaysBeforeYear;
    EpochIsRight();
    Calendar.KnownDays();
  }

  lemma FourDigits()
    ensures Decimal(1970, 4) == "1970" && Decimal(1, 4) == "0001"
  {
    hide Decimal, Pow10;
    Powers();
    NoDigits(0);
    LastDigit(1, 1);
    LastDigit(19, 2);
    LastDigit(197, 3);
    LastDigit(1970, 4);
    LastDigit(0, 1);
    LastDigit(0, 2);
    LastDigit(0, 3);
    LastDigit(1, 4);
  }

  lemma Powers()
    ensures Pow10(0) == 1 && Pow10(1) == 10 && Pow10(2) == 100 && Pow10(3) == 1000 && Pow10(4) == 10000
  {
  }

  lemma {:induction false} StoredInOrder(s: Time, t: Time)
    requires Storable(s) && Storable(t)
    ensures Less(Stored(s), Stored(t)) <==> s < t
  {
    hide FormatTime, Less, FractionDigits, Calendar.DaysBeforeYear;
    SameDigitCountOrders(Instant(s + EPOCH, 0), Instant(t + EPOCH, 0));
  }

  /** The overlap count as the trigger and the service query make it. */
  ghost function OverlappingText(orders: map<Id, Booking.Order>, roomId: Id, start: Time, finish: Time): set<Id>
    requires Storable(start) && Storable(finish)
    requires forall o :: o in orders ==> Storable(orders[o].start) && Storable(orders[o].finish)
  {
    set o | o in orders && orders[o].roomId == Some(roomId) && orders[o].status.IsActive()
            && Less(Stored(orders[o].start), Stored(finish)) && Less(Stored(start), Stored(orders[o].finish))
  }

  /** On whole seconds the text comparisons count the overlapping orders. */
  lemma {:induction false} OverlapReadsText(orders: map<Id, Booking.Order>, roomId: Id, start: Time, finish: Time)
    requires Storable(start) && Storable(finish)
    requires forall o :: o in orders ==> Storable(orders[o].start) && Storable(orders[o].finish)
    ensures OverlappingText(orders, roomId, start, finish) == Booking.Overlapping(orders, roomId, start, finish)
  {
    hide Stored, Storable, Less;
    forall o | o in orders
      ensures Less(Stored(orders[o].start), Stored(finish)) <==> orders[o].start < finish
      ensures Less(Stored(start), Stored(orders[o].finish)) <==> start < orders[o].finish
    {
      StoredInOrder(orders[o].start, finish);
      StoredInOrder(start, orders[o].finish);
    }
  }

  ghost function RunsInDayText(runs: map<Id, Run>, zoneId: Id, clock: ZoneClock, at: Time): set<Id>
    requires Storable(clock.WindowStart(at)) && Storable(clock.WindowEnd(at))
    requires forall r :: r in runs ==> Storable(runs[r].start)
  {
    set r | r in runs && runs[r].sourceZoneId == zoneId
            && !Less(Stored(runs[r].start), Stored(clock.WindowStart(at)))
            && Less(Stored(runs[r].start), Stored(clock.WindowEnd(at)))
            && !runs[r].state.Cancelled?
  }

  /** On whole seconds the text comparisons count the runs of the business day. */
  lemma {:induction false} DayReadsText(runs: map<Id, Run>, zoneId: Id, clock: ZoneClock, at: Time)
    requires Storable(clock.WindowStart(at)) && Storable(clock.WindowEnd(at))
    requires forall r :: r in runs ==> Storable(runs[r].start)
    ensures RunsInDayText(runs, zoneId, clock, at) == Tables.RunsInDay(runs, zoneId, clock, at)
  {
    hide Stored, Storable, Less, ZoneClock.WindowStart, ZoneClock.WindowEnd;
    forall r | r in runs
      ensures Less(Stored(runs[r].start), Stored(clock.WindowStart(at))) <==> runs[r].start < clock.WindowStart(at)
      ensures Less(Stored(runs[r].start), Stored(clock.WindowEnd(at))) <==> runs[r].start < clock.WindowEnd(at)
    {
      StoredInOrder(runs[r].start, clock.WindowStart(at));
      StoredInOrder(runs[r].start, clock.WindowEnd(at));
    }
  }

  ghost function DueText(jobs: map<Id, Jobs.Job>, now: Time): map<Id, Time>
    requires Storable(now) && forall j :: j in jobs ==> Storable(jobs[j].availableAt)
  {
    map j | j in jobs && jobs[j].Claimable() && !Less(Stored(now), Stored(jobs[j].availableAt)) :: jobs[j].createdAt
  }

  ghost function OverdueText(approvals: map<Id, Approval>, now: Time): map<Id, Time>
    requires Storable(now) && forall a :: a in approvals ==> Storable(approvals[a].expiresAt)
  {
    map a | a in approvals && approvals[a].status.Pending? && !Less(Stored(now), Stored(approvals[a].expiresAt))
      :: approvals[a].expiresAt
  }

  /** On whole seconds the text comparisons find the due jobs and the overdue approvals. */
  lemma {:induction false} PassReadsText(jobs: map<Id, Jobs.Job>, approvals: map<Id, Approval>, now: Time)
    requires Storable(now) && forall j :: j in jobs ==> Storable(jobs[j].availableAt)
    requires forall a :: a in approvals ==> Storable(approvals[a].expiresAt)
    ensures DueText(jobs, now) == Jobs.Due(jobs, now)
    ensures OverdueText(approvals, now) == Operations.Overdue(approvals, now)
  {
    hide Stored, Storable, Less;
    forall j | j in jobs ensures Less(Stored(now), Stored(jobs[j].availableAt)) <==> now < jobs[j].availableAt {
      StoredInOrder(now, jobs[j].availableAt);
    }
    forall a | a in approvals
      ensures Less(Stored(now), Stored(approvals[a].expiresAt)) <==> now < approvals[a].expiresAt
    {
      StoredInOrder(now, approvals[a].expiresAt);
    }
  }

  /** What MAX over the stored text picks. */
  ghost predicate IsTextMaximum(rows: map<Id, Observation>, ids: set<Id>, last: string)
    requires ids <= rows.Keys && forall o :: o in ids ==> Storable(rows[o].recordedAt)
  {
    && (exists o :: o in ids && Stored(rows[o].recordedAt) == last)
    && (forall o :: o in ids ==> !Less(last, Stored(rows[o].recordedAt)))
  }

  lemma {:induction false} StoredOnce(s: Time, t: Time)
    requires Storable(s) && Storable(t) && Stored(s) == Stored(t)
    ensures s == t
  {
    hide Stored, Storable, Less;
    StoredInOrder(s, t);
    StoredInOrder(t, s);
    NotLess(Stored(s));
  }

  /** On whole seconds the maximal text is that of the latest observation. */
  lemma {:induction false} LatestReadsText(rows: map<Id, Observation>, ids: set<Id>, last: Time)
    requires ids <= rows.Keys && Storable(last) && forall o :: o in ids ==> Storable(rows[o].recordedAt)
    ensures IsTextMaximum(rows, ids, Stored(last)) <==> Readiness.IsLatest(rows, ids, Some(last))
  {
    hide Stored, Storable, Less;
    forall o | o in ids
      ensures Less(Stored(last), Stored(rows[o].recordedAt)) <==> last < rows[o].recordedAt
      ensures Stored(rows[o].recordedAt) == Stored(last) <==> rows[o].recordedAt == last
    {
      StoredInOrder(last, rows[o].recordedAt);
      if Stored(rows[o].recordedAt) == Stored(last) {
        StoredOnce(rows[o].recordedAt, last);
      }
    }
  }
}
