/** The daily limit when runs may start within a second: what is counted, and what gets past the limit. */
module DayCounts {
  import opened Base
  import opened BusinessDay
  import opened TimeText
  import opened Fractions
  import opened StoredTimes

  function Boundary(t: Time): Instant
    requires Storable(t)
  {
    Instant(t + EPOCH, 0)
  }

  /** The second an instant lies in, counted from 1970. */
  function Second(at: Instant): Time {
    at.seconds - EPOCH
  }

  /** In the first second of a business day, but not on it. */
  predicate JustAfter(at: Instant, boundary: Time) {
    Second(at) == boundary && at.nanos != 0
  }

  /** The stored text puts an instant on the right side of a boundary exactly when it is not just after it. */
  lemma {:induction false} BoundaryIff(at: Instant, boundary: Time)
    requires at.Valid() && Storable(boundary)
    ensures (TextLess(at, Boundary(boundary)) <==> at.Earlier(Boundary(boundary))) <==> !JustAfter(at, boundary)
    ensures TextLess(at, Boundary(boundary)) <==> at.Earlier(Boundary(boundary)) || JustAfter(at, boundary)
  {
    hide TextLess, Continues;
    var b := Boundary(boundary);
    SeenAgreesIff(at, b);
    if JustAfter(at, boundary) {
      WholeIsContinued(at.seconds, at.nanos);
      ContinuedIsEarlier(b, at);
    } else if at.seconds == b.seconds {
      assert at == b;
      NeverConfused(at);
    } else {
      SecondsDecide(at, b);
    }
  }

  lemma {:induction false} NeverConfused(at: Instant)
    ensures !Confused(at, at)
  {
  }

  // ---------------------------------------------------------------- counting

  ghost predicate Usable(starts: map<Id, Instant>, from: Time, to: Time) {
    AllValid(starts) && Storable(from) && Storable(to) && from < to
  }

  predicate Within(at: Instant, from: Time, to: Time) {
    from <= Second(at) < to
  }

  /** The runs that start from one boundary on and before another. */
  ghost function Counted(starts: map<Id, Instant>, from: Time, to: Time): set<Id> {
    set r | r in starts && Within(starts[r], from, to)
  }

  /** Those the query counts. */
  ghost function CountedText(starts: map<Id, Instant>, from: Time, to: Time): set<Id>
    requires Usable(starts, from, to)
  {
    set r | r in starts && !TextLess(starts[r], Boundary(from)) && TextLess(starts[r], Boundary(to))
  }

  ghost function StartingJustAfter(starts: map<Id, Instant>, boundary: Time): set<Id> {
    set r | r in starts && JustAfter(starts[r], boundary)
  }

  /** Starting within the window in seconds is starting from its one end on and before the other. */
  lemma {:induction false} WithinMeans(at: Instant, from: Time, to: Time)
    requires Storable(from) && Storable(to)
    ensures Within(at, from, to) <==> !at.Earlier(Boundary(from)) && at.Earlier(Boundary(to))
  {
  }

  /** The query leaves out the runs that start just after the window's beginning, and counts those that start just
      after its end. */
  lemma {:induction false} CountedTextIs(starts: map<Id, Instant>, from: Time, to: Time)
    requires Usable(starts, from, to)
    ensures var late, early := StartingJustAfter(starts, from), StartingJustAfter(starts, to);
            && late <= Counted(starts, from, to) && early !! Counted(starts, from, to)
            && CountedText(starts, from, to) == Counted(starts, from, to) - late + early
            && |CountedText(starts, from, to)| == |Counted(starts, from, to)| - |late| + |early|
  {
    hide TextLess;
    var late, early := StartingJustAfter(starts, from), StartingJustAfter(starts, to);
    forall r | r in starts
      ensures TextLess(starts[r], Boundary(from)) <==> starts[r].Earlier(Boundary(from)) || JustAfter(starts[r], from)
      ensures TextLess(starts[r], Boundary(to)) <==> starts[r].Earlier(Boundary(to)) || JustAfter(starts[r], to)
    {
      BoundaryIff(starts[r], from);
      BoundaryIff(starts[r], to);
    }
    assert CountedText(starts, from, to) == Counted(starts, from, to) - late + early;
    assert Counted(starts, from, to) - late !! early;
  }

  /** The query counts the day's runs exactly when none starts just after the day's beginning or just after its end;
      its number is right exactly when as many start just after the one as just after the other. */
  lemma {:induction false} DayCountIff(starts: map<Id, Instant>, from: Time, to: Time)
    requires Usable(starts, from, to)
    ensures CountedText(starts, from, to) == Counted(starts, from, to) <==>
            forall r :: r in starts ==> !JustAfter(starts[r], from) && !JustAfter(starts[r], to)
    ensures |CountedText(starts, from, to)| == |Counted(starts, from, to)| <==>
            |StartingJustAfter(starts, from)| == |StartingJustAfter(starts, to)|
  {
    hide Counted, CountedText, Usable, JustAfter;
    CountedTextIs(starts, from, to);
    var late, early := StartingJustAfter(starts, from), StartingJustAfter(starts, to);
    if CountedText(starts, from, to) == Counted(starts, from, to) {
      forall r | r in starts ensures !JustAfter(starts[r], from) && !JustAfter(starts[r], to) {
        assert r !in late && r !in early;
      }
    } else {
      assert late != {} || early != {};
    }
  }

  /** Runs that all start just after a day's beginning are counted as none. */
  lemma {:induction false} DayBypassed(starts: map<Id, Instant>, from: Time, to: Time)
    requires Usable(starts, from, to) && forall r :: r in starts ==> JustAfter(starts[r], from)
    ensures Counted(starts, from, to) == starts.Keys && CountedText(starts, from, to) == {}
  {
    hide CountedText;
    CountedTextIs(starts, from, to);
    assert StartingJustAfter(starts, from) == starts.Keys;
    assert Counted(starts, from, to) == starts.Keys;
    assert StartingJustAfter(starts, to) == {};
  }

  // ---------------------------------------------------------------- planning one run after the other

  /** What changes a zone's runs that are not cancelled. */
  datatype Event = Plan(id: Id, at: Instant) | Cancel(id: Id)

  type History = seq<Event>

  ghost function Next(starts: map<Id, Instant>, e: Event): map<Id, Instant> {
    match e
    case Plan(id, at) => starts[id := at]
    case Cancel(id) => starts - {id}
  }

  ghost function Starts(h: History): map<Id, Instant> {
    if h == [] then map[] else Next(Starts(h[..|h| - 1]), h[|h| - 1])
  }

  /** A new run passes the check of its own business day. */
  ghost predicate Admits(clock: ZoneClock, limit: nat, starts: map<Id, Instant>, e: Event) {
    e.Plan? ==>
      && e.id !in starts && e.at.Valid()
      && var from, to := clock.WindowStart(Second(e.at)), clock.WindowEnd(Second(e.at));
      && Usable(starts, from, to) && |CountedText(starts, from, to)| < limit
  }

  ghost predicate Possible(clock: ZoneClock, limit: nat, h: History) {
    h == [] || (Possible(clock, limit, h[..|h| - 1]) && Admits(clock, limit, Starts(h[..|h| - 1]), h[|h| - 1]))
  }

  /** The runs of the business day of an instant, and those that the query does not count for it. */
  ghost function RunsOfDay(clock: ZoneClock, starts: map<Id, Instant>, day: Time): set<Id> {
    Counted(starts, clock.WindowStart(day), clock.WindowEnd(day))
  }

  ghost function Uncounted(clock: ZoneClock, starts: map<Id, Instant>, day: Time): set<Id> {
    StartingJustAfter(starts, clock.WindowStart(day))
  }

  /** A run of the day that is planned was checked against that day. */
  lemma {:induction false} StepKeepsCounted(clock: ZoneClock, limit: nat, starts: map<Id, Instant>, e: Event, day: Time)
    requires clock.Valid() && Admits(clock, limit, starts, e)
    requires |RunsOfDay(clock, starts, day) - Uncounted(clock, starts, day)| <= limit
    ensures var after := Next(starts, e); |RunsOfDay(clock, after, day) - Uncounted(clock, after, day)| <= limit
  {
    hide ZoneClock.WindowStart, ZoneClock.WindowEnd, Counted, StartingJustAfter, CountedText, Usable;
    var from, to := clock.WindowStart(day), clock.WindowEnd(day);
    if e.Plan? && Within(e.at, from, to) && !JustAfter(e.at, from) {
      SameWindow(clock, Second(e.at), day);
      PlannedIsOneMore(starts, e.id, e.at, limit, from, to);
    } else {
      OthersAreNoMore(starts, e, from, to);
    }
  }

  lemma {:induction false} SameWindow(clock: ZoneClock, t: Time, day: Time)
    requires clock.Valid() && clock.InWindow(t, day)
    ensures clock.WindowStart(t) == clock.WindowStart(day) && clock.WindowEnd(t) == clock.WindowEnd(day)
  {
    clock.WindowsPartition(t, day);
  }

  lemma {:induction false} PlannedIsOneMore(
      starts: map<Id, Instant>, id: Id, at: Instant, limit: nat, from: Time, to: Time)
    requires Usable(starts, from, to) && |CountedText(starts, from, to)| < limit
    requires id !in starts && Within(at, from, to) && !JustAfter(at, from)
    ensures var after := starts[id := at]; |Counted(after, from, to) - StartingJustAfter(after, from)| <= limit
  {
    hide Usable, Counted, StartingJustAfter, CountedText;
    var before := Counted(starts, from, to) - StartingJustAfter(starts, from);
    CountedTextIs(starts, from, to);
    SubsetCardinality(before, CountedText(starts, from, to));
    OneMoreIsCounted(starts, id, at, from, to);
  }

  lemma {:induction false} OneMoreIsCounted(starts: map<Id, Instant>, id: Id, at: Instant, from: Time, to: Time)
    requires id !in starts && Within(at, from, to) && !JustAfter(at, from)
    ensures var after := starts[id := at];
            Counted(after, from, to) - StartingJustAfter(after, from) ==
            Counted(starts, from, to) - StartingJustAfter(starts, from) + {id}
  {
    hide Within, JustAfter;
  }

  lemma {:induction false} OthersAreNoMore(starts: map<Id, Instant>, e: Event, from: Time, to: Time)
    requires e.Plan? ==> e.id !in starts && (!Within(e.at, from, to) || JustAfter(e.at, from))
    ensures var after := Next(starts, e);
            |Counted(after, from, to) - StartingJustAfter(after, from)| <=
            |Counted(starts, from, to) - StartingJustAfter(starts, from)|
  {
    hide Within, JustAfter;
    var after := Next(starts, e);
    SubsetCardinality(Counted(after, from, to) - StartingJustAfter(after, from),
                      Counted(starts, from, to) - StartingJustAfter(starts, from));
  }

  /** Whatever is planned and cancelled, the runs of a day that do not start just after its beginning keep the limit. */
  lemma {:induction false} CountedRunsKeepLimit(clock: ZoneClock, limit: nat, h: History, day: Time)
    requires clock.Valid() && Possible(clock, limit, h)
    ensures |RunsOfDay(clock, Starts(h), day) - Uncounted(clock, Starts(h), day)| <= limit
  {
    hide Admits, RunsOfDay, Uncounted;
    if h == [] {
      NoRuns(clock, day);
    } else {
      CountedRunsKeepLimit(clock, limit, h[..|h| - 1], day);
      StepKeepsCounted(clock, limit, Starts(h[..|h| - 1]), h[|h| - 1], day);
    }
  }

  lemma {:induction false} NoRuns(clock: ZoneClock, day: Time)
    ensures RunsOfDay(clock, Starts([]), day) == {}
  {
  }

  // ---------------------------------------------------------------- getting past the limit

  /** n runs planned for one instant. */
  function Repeated(at: Instant, n: nat): History {
    if n == 0 then [] else Repeated(at, n - 1) + [Plan(n - 1, at)]
  }

  lemma {:induction false} RepeatedStarts(at: Instant, n: nat)
    ensures forall r :: r in Starts(Repeated(at, n)) ==> r < n && Starts(Repeated(at, n))[r] == at
    ensures |Starts(Repeated(at, n)).Keys| == n
  {
    hide Repeated, Starts;
    LastRepeated(at, n);
    if n == 0 {
    } else {
      RepeatedStarts(at, n - 1);
      var starts := Starts(Repeated(at, n - 1));
      assert starts[n - 1 := at].Keys == starts.Keys + {n - 1};
    }
  }

  lemma LastRepeated(at: Instant, n: nat)
    ensures n == 0 ==> Repeated(at, n) == [] && Starts(Repeated(at, n)) == map[]
    ensures n > 0 ==> Starts(Repeated(at, n)) == Starts(Repeated(at, n - 1))[n - 1 := at]
  {
    if n > 0 {
      var h := Repeated(at, n);
      assert h[..|h| - 1] == Repeated(at, n - 1);
    }
  }

  /** Any number of runs that start just after a day's beginning are planned one after the other. */
  lemma {:induction false} AnyNumberIsPlanned(clock: ZoneClock, limit: nat, at: Instant, n: nat)
    requires clock.Valid() && limit >= 1 && at.Valid() && JustAfter(at, clock.WindowStart(Second(at)))
    requires Storable(clock.WindowEnd(Second(at)))
    ensures Possible(clock, limit, Repeated(at, n))
    ensures |RunsOfDay(clock, Starts(Repeated(at, n)), Second(at))| == n
  {
    hide TextLess;
    var from, to := clock.WindowStart(Second(at)), clock.WindowEnd(Second(at));
    var starts := Starts(Repeated(at, n));
    RepeatedStarts(at, n);
    assert Usable(starts, from, to);
    DayBypassed(starts, from, to);
    if n == 0 {
    } else {
      var h := Repeated(at, n);
      assert h[..|h| - 1] == Repeated(at, n - 1) && h[|h| - 1] == Plan(n - 1, at);
      AnyNumberIsPlanned(clock, limit, at, n - 1);
      RepeatedStarts(at, n - 1);
      DayBypassed(Starts(Repeated(at, n - 1)), from, to);
    }
  }

  /** Every planned run starts at one of the instants allowed. */
  ghost predicate Uses(h: History, allowed: iset<Instant>) {
    forall e :: e in h && e.Plan? ==> e.at in allowed
  }

  lemma {:induction false} RepeatedUses(at: Instant, n: nat)
    ensures Uses(Repeated(at, n), iset{at})
  {
    if n == 0 {
    } else {
      RepeatedUses(at, n - 1);
    }
  }

  lemma {:induction false} StartsAreUsed(h: History, allowed: iset<Instant>)
    requires Uses(h, allowed)
    ensures forall r :: r in Starts(h) ==> Starts(h)[r] in allowed
  {
    if h == [] {
    } else {
      assert forall e :: e in h[..|h| - 1] ==> e in h;
      assert h[|h| - 1] in h;
      StartsAreUsed(h[..|h| - 1], allowed);
    }
  }

  /** However runs are planned and cancelled, a day keeps its limit. */
  ghost predicate LimitIsKept(clock: ZoneClock, limit: nat, allowed: iset<Instant>, day: Time) {
    forall h :: Possible(clock, limit, h) && Uses(h, allowed) ==> |RunsOfDay(clock, Starts(h), day)| <= limit
  }

  /**
    A caller who plans runs at certain instants only is sure that a day keeps its limit, in whatever order
    runs are planned and cancelled, if and only if none of those instants lies just after the day's beginning.
   */
  lemma {:induction false} LimitIsKeptIff(clock: ZoneClock, limit: nat, allowed: iset<Instant>, day: Time)
    requires clock.Valid() && limit >= 1 && forall at :: at in allowed ==> at.Valid()
    requires Storable(clock.WindowStart(day)) && Storable(clock.WindowEnd(day))
    ensures LimitIsKept(clock, limit, allowed, day) <==>
            forall at :: at in allowed ==> !JustAfter(at, clock.WindowStart(day))
  {
    hide Possible, Starts, RunsOfDay, JustAfter;
    if forall at :: at in allowed ==> !JustAfter(at, clock.WindowStart(day)) {
      forall h | Possible(clock, limit, h) && Uses(h, allowed) ensures |RunsOfDay(clock, Starts(h), day)| <= limit {
        CountedRunsKeepLimit(clock, limit, h, day);
        StartsAreUsed(h, allowed);
        assert Uncounted(clock, Starts(h), day) == {};
      }
    } else {
      var at :| at in allowed && JustAfter(at, clock.WindowStart(day));
      GettingPast(clock, limit, at, day);
      var h := Repeated(at, limit + 1);
      RepeatedUses(at, limit + 1);
      assert Uses(h, allowed);
    }
  }

  lemma {:induction false} GettingPast(clock: ZoneClock, limit: nat, at: Instant, day: Time)
    requires clock.Valid() && limit >= 1 && at.Valid() && JustAfter(at, clock.WindowStart(day))
    requires Storable(clock.WindowEnd(day))
    ensures Possible(clock, limit, Repeated(at, limit + 1))
    ensures |RunsOfDay(clock, Starts(Repeated(at, limit + 1)), day)| == limit + 1
  {
    hide Possible, Starts;
    clock.WindowsPartition(Second(at), day);
    AnyNumberIsPlanned(clock, limit, at, limit + 1);
  }
}
