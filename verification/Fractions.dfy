/** What fractions of a second do to the queries that compare stored text. */
module Fractions {
  import opened Base
  import opened TextOrder
  import opened TimeText
  import Outbox

  /** Two instants of one second, the fraction of the second continuing that of the first; a whole second has none. */
  predicate Continues(s: Instant, t: Instant) {
    s.seconds == t.seconds && FractionDigits(s.nanos) < FractionDigits(t.nanos)
  }

  /** Text inverts the order of two such instants. */
  predicate Confused(s: Instant, t: Instant) {
    Continues(s, t) || Continues(t, s)
  }

  /** The comparison of two stored instants. */
  predicate TextLess(s: Instant, t: Instant)
    requires s.Valid() && t.Valid()
  {
    Less(FormatTime(s), FormatTime(t))
  }

  lemma {:induction false} LessUnlessConfused(s: Instant, t: Instant)
    requires s.Valid() && t.Valid()
    ensures (TextLess(s, t) <==> s.Earlier(t)) <==> !Confused(s, t)
  {
    hide FormatTime, Less, FractionDigits;
    TextOrderIsTimeOrder(s, t);
  }

  lemma {:induction false} ContinuedIsEarlier(s: Instant, t: Instant)
    requires s.Valid() && t.Valid() && Continues(s, t)
    ensures s.Earlier(t) && TextLess(t, s) && !TextLess(s, t)
  {
    hide FormatTime, Less, FractionDigits, Tail;
    PrefixInverts(s.nanos, t.nanos);
    SecondsFirst(s, t);
    SecondsFirst(t, s);
  }

  /** Instants of different seconds are never confused. */
  lemma {:induction false} SecondsDecide(s: Instant, t: Instant)
    requires s.Valid() && t.Valid() && s.seconds != t.seconds
    ensures TextLess(s, t) <==> s.seconds < t.seconds
  {
    hide FormatTime, Less, FractionDigits;
    LessUnlessConfused(s, t);
  }

  lemma {:induction false} WholeIsContinued(seconds: nat, nanos: nat)
    requires 0 < nanos < NANOS
    ensures Continues(Instant(seconds, 0), Instant(seconds, nanos))
  {
    hide FractionDigits, Less, Tail;
    FractionOfNothing();
    if FractionDigits(nanos) == [] {
      SameDigits(0, nanos);
    }
  }

  // ---------------------------------------------------------------- what has come due

  /** A moment has come. */
  predicate Come(now: Instant, t: Instant) {
    !now.Earlier(t)
  }

  /** A moment has come as the queries for due jobs and overdue approvals see it. */
  predicate Seen(now: Instant, t: Instant)
    requires now.Valid() && t.Valid()
  {
    !TextLess(now, t)
  }

  /** A row is found when it is due, and only then, exactly when its moment and the present are not confused. */
  lemma {:induction false} SeenAgreesIff(now: Instant, t: Instant)
    requires now.Valid() && t.Valid()
    ensures (Seen(now, t) <==> Come(now, t)) <==> !Confused(now, t)
  {
    hide TextLess, Confused;
    LessUnlessConfused(now, t);
  }

  /** It is found too early exactly when its fraction continues the present one. */
  lemma {:induction false} EarlyIff(now: Instant, t: Instant)
    requires now.Valid() && t.Valid()
    ensures Seen(now, t) && !Come(now, t) <==> Continues(now, t)
  {
    hide TextLess, Continues;
    SeenAgreesIff(now, t);
    if Continues(now, t) {
      ContinuedIsEarlier(now, t);
    }
    if Continues(t, now) {
      ContinuedIsEarlier(t, now);
    }
  }

  /** It is overlooked though due exactly when the present fraction continues its own. */
  lemma {:induction false} LateIff(now: Instant, t: Instant)
    requires now.Valid() && t.Valid()
    ensures Come(now, t) && !Seen(now, t) <==> Continues(t, now)
  {
    hide TextLess, Continues;
    SeenAgreesIff(now, t);
    if Continues(now, t) {
      ContinuedIsEarlier(now, t);
    }
    if Continues(t, now) {
      ContinuedIsEarlier(t, now);
    }
  }

  /** Either way the error is less than a second. */
  lemma {:induction false} WithinASecond(now: Instant, t: Instant)
    requires now.Valid() && t.Valid()
    ensures Seen(now, t) ==> t.seconds <= now.seconds
    ensures t.seconds < now.seconds ==> Seen(now, t)
  {
    hide TextLess;
    if now.seconds != t.seconds {
      SecondsDecide(now, t);
    }
  }

  /** The rows whose moment has come, and those the query finds. */
  ghost function AllCome(moments: map<Id, Instant>, now: Instant): set<Id> {
    set i | i in moments && Come(now, moments[i])
  }

  ghost predicate AllValid(moments: map<Id, Instant>) {
    forall i :: i in moments ==> moments[i].Valid()
  }

  ghost function AllSeen(moments: map<Id, Instant>, now: Instant): set<Id>
    requires now.Valid() && AllValid(moments)
  {
    set i | i in moments && Seen(now, moments[i])
  }

  /** The query finds exactly the due rows if and only if no row's moment is confused with the present. */
  lemma {:induction false} FoundIff(moments: map<Id, Instant>, now: Instant)
    requires now.Valid() && AllValid(moments)
    ensures AllSeen(moments, now) == AllCome(moments, now) <==> forall i :: i in moments ==> !Confused(now, moments[i])
  {
    hide Seen, Come, Confused;
    forall i | i in moments ensures (Seen(now, moments[i]) <==> Come(now, moments[i])) <==> !Confused(now, moments[i]) {
      SeenAgreesIff(now, moments[i]);
    }
    if AllSeen(moments, now) == AllCome(moments, now) {
      forall i | i in moments ensures !Confused(now, moments[i]) {
        assert i in AllSeen(moments, now) <==> i in AllCome(moments, now);
      }
    }
  }

  /** A task due within a second is found, and so expires, on the second: before its deadline. */
  lemma {:induction false} AnEarlyLapse(second: nat, nanos: nat)
    requires Instant(second, 0).Valid() && 0 < nanos < NANOS
    ensures var now, deadline := Instant(second, 0), Instant(second, nanos);
            deadline.Valid() && now.Earlier(deadline) && Seen(now, deadline)
  {
    hide Seen, Continues;
    WholeIsContinued(second, nanos);
    EarlyIff(Instant(second, 0), Instant(second, nanos));
  }

  // ---------------------------------------------------------------- stored answers

  /** The lookup compares the parsed times: an answer is live until it expires. */
  predicate Live(expires: Instant, now: Instant) {
    now.Earlier(expires)
  }

  /** The upsert compares the stored texts: an answer may be replaced once it has expired. */
  predicate MayReplace(expires: Instant, created: Instant)
    requires expires.Valid() && created.Valid()
  {
    !TextLess(created, expires)
  }

  /** Lookup and upsert agree exactly when the expiry and the present are not confused. */
  lemma {:induction false} GuardAgreesIff(expires: Instant, now: Instant)
    requires expires.Valid() && now.Valid()
    ensures (MayReplace(expires, now) <==> !Live(expires, now)) <==> !Confused(now, expires)
  {
    hide TextLess, Confused;
    LessUnlessConfused(now, expires);
  }

  /** No live answer is found and storing the new one is refused exactly when the present fraction continues that of
      the expiry. */
  lemma {:induction false} GuardRefusesIff(expires: Instant, now: Instant)
    requires expires.Valid() && now.Valid()
    ensures !Live(expires, now) && !MayReplace(expires, now) <==> Continues(expires, now)
  {
    hide TextLess, Continues;
    LateIff(now, expires);
  }

  /** So a key that expired on the second cannot be used again before the next one. */
  lemma {:induction false} ARefusedGuard(second: nat, nanos: nat)
    requires Instant(second, 0).Valid() && 0 < nanos < NANOS
    ensures var expires, now := Instant(second, 0), Instant(second, nanos);
            now.Valid() && !Live(expires, now) && !MayReplace(expires, now)
  {
    hide MayReplace, Continues;
    WholeIsContinued(second, nanos);
    GuardRefusesIff(Instant(second, 0), Instant(second, nanos));
  }

  // ---------------------------------------------------------------- retries

  /** When a job that keeps failing is due again: the square of its attempts in seconds after the last claim. */
  function DueAgain(claims: seq<Instant>, k: nat): Instant
    requires 0 < k <= |claims|
  {
    claims[k - 1].(seconds := claims[k - 1].seconds + k * k)
  }

  ghost predicate Finds(claim: Instant, due: Instant) {
    claim.Valid() && due.Valid() && Seen(claim, due)
  }

  /** Each claim but the first found the job that the one before had put off. */
  ghost predicate Retried(claims: seq<Instant>) {
    forall k :: 0 < k < |claims| ==> Finds(claims[k], DueAgain(claims, k))
  }

  /** Counted in whole seconds, retries are spaced as far as they should be, whatever the fractions. */
  lemma {:induction false} RetriesKeepSeconds(claims: seq<Instant>, k: nat)
    requires Retried(claims) && 0 < k < |claims|
    ensures claims[k].seconds >= claims[k - 1].seconds + k * k
    ensures claims[k].Earlier(DueAgain(claims, k)) <==> Continues(claims[k], DueAgain(claims, k))
  {
    hide Finds, Continues;
    FoundWithinASecond(claims[k], DueAgain(claims, k));
  }

  lemma {:induction false} FoundWithinASecond(claim: Instant, due: Instant)
    requires Finds(claim, due)
    ensures due.seconds <= claim.seconds
    ensures claim.Earlier(due) <==> Continues(claim, due)
  {
    hide Seen, Continues;
    WithinASecond(claim, due);
    EarlyIff(claim, due);
  }

  lemma {:induction false} BackoffKeepsSeconds(claims: seq<Instant>, k: nat)
    requires Retried(claims) && k < |claims|
    ensures claims[k].seconds >= claims[0].seconds + Outbox.Squares(k)
  {
    hide Retried;
    if k == 0 {
    } else {
      BackoffKeepsSeconds(claims, k - 1);
      RetriesKeepSeconds(claims, k);
    }
  }

  // ---------------------------------------------------------------- the latest observation

  /** What MAX over the stored text picks. */
  ghost predicate TextLatest(moments: map<Id, Instant>, last: Id)
    requires AllValid(moments)
  {
    last in moments && forall i :: i in moments ==> !TextLess(moments[last], moments[i])
  }

  /** The maximal text is the latest instant exactly when no other fraction continues its own. */
  lemma {:induction false} TextLatestIff(moments: map<Id, Instant>, last: Id)
    requires AllValid(moments) && TextLatest(moments, last)
    ensures (forall i :: i in moments ==> !moments[last].Earlier(moments[i])) <==>
            forall i :: i in moments ==> !Continues(moments[last], moments[i])
  {
    hide TextLess, Continues;
    forall i | i in moments ensures moments[last].Earlier(moments[i]) <==> Continues(moments[last], moments[i]) {
      EarlyIff(moments[last], moments[i]);
    }
  }

  // ---------------------------------------------------------------- stays

  /** A stay with its instants in full. */
  datatype Stay = Stay(start: Instant, finish: Instant) {
    predicate Valid() {
      start.Valid() && finish.Valid() && start.Earlier(finish)
    }

    predicate HoldsAt(t: Instant) {
      !t.Earlier(start) && t.Earlier(finish)
    }

    predicate Overlaps(s: Stay) {
      start.Earlier(s.finish) && s.start.Earlier(finish)
    }

    /** The comparison that the stored text is put to. */
    predicate SeemsToOverlap(s: Stay)
      requires Valid() && s.Valid()
    {
      TextLess(start, s.finish) && TextLess(s.start, finish)
    }
  }

  /** The text test misses an overlap exactly when a start and an end are confused. */
  lemma {:induction false} MissedIff(a: Stay, b: Stay)
    requires a.Valid() && b.Valid() && a.Overlaps(b)
    ensures !a.SeemsToOverlap(b) <==> Confused(a.start, b.finish) || Confused(b.start, a.finish)
  {
    hide TextLess, Confused;
    LessUnlessConfused(a.start, b.finish);
    LessUnlessConfused(b.start, a.finish);
  }

  /** It sees an overlap of stays that follow each other exactly when just the end and the start between are
      confused. */
  lemma {:induction false} FalseAlarmIff(a: Stay, b: Stay)
    requires a.Valid() && b.Valid() && !b.start.Earlier(a.finish)
    ensures a.SeemsToOverlap(b) <==> Confused(b.start, a.finish) && !Confused(a.start, b.finish)
  {
    hide TextLess, Confused;
    LessUnlessConfused(a.start, b.finish);
    LessUnlessConfused(b.start, a.finish);
  }

  /** A stay that starts in the second in which another ends, its fraction continued by that of the end, is not counted
      against the other, so both get in. */
  lemma {:induction false} FractionsOverfill(a: Stay, b: Stay)
    requires a.Valid() && b.Valid() && !b.start.Earlier(a.start) && Continues(b.start, a.finish)
    ensures !a.SeemsToOverlap(b) && !b.SeemsToOverlap(a)
    ensures a.HoldsAt(b.start) && b.HoldsAt(b.start)
  {
    hide TextLess, FractionDigits;
    ContinuedIsEarlier(b.start, a.finish);
  }
}
