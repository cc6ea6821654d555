/** Byte order of text, as the database compares it, and fixed-width decimal numbers. */
module TextOrder {

  /** Byte order; a proper prefix comes first. */
  predicate Less(a: string, b: string) {
    b != [] && (a == [] || a[0] < b[0] || (a[0] == b[0] && Less(a[1..], b[1..])))
  }

  /** The first difference decides. */
  lemma {:induction false} FirstDifference(a: string, b: string, i: nat)
    requires i < |a| && i < |b| && a[..i] == b[..i] && a[i] != b[i]
    ensures Less(a, b) <==> a[i] < b[i]
  {
    if i == 0 {
    } else {
      assert a[0] == a[..i][0] && b[0] == b[..i][0];
      assert a[1..][..i - 1] == a[..i][1..] && b[1..][..i - 1] == b[..i][1..];
      FirstDifference(a[1..], b[1..], i - 1);
    }
  }

  /** Equal beginnings do not matter. */
  lemma {:induction false} CommonPrefix(p: string, a: string, b: string)
    ensures Less(p + a, p + b) <==> Less(a, b)
  {
    if p == [] {
      assert p + a == a && p + b == b;
    } else {
      CommonPrefix(p[1..], a, b);
      assert (p + a)[1..] == p[1..] + a && (p + b)[1..] == p[1..] + b;
    }
  }

  /** Beginnings of one length decide unless they are equal. */
  lemma {:induction false} SameLengthFirst(a: string, b: string, x: string, y: string)
    requires |a| == |b|
    ensures Less(a + x, b + y) <==> Less(a, b) || (a == b && Less(x, y))
  {
    if a == [] {
      assert a + x == x && b + y == y;
    } else {
      assert (a + x)[1..] == a[1..] + x && (b + y)[1..] == b[1..] + y;
      SameLengthFirst(a[1..], b[1..], x, y);
      assert a == b <==> a[0] == b[0] && a[1..] == b[1..];
    }
  }

  // ---------------------------------------------------------------- decimals

  function Pow10(w: nat): (p: nat)
    ensures p >= 1
  {
    if w == 0 then 1 else 10 * Pow10(w - 1)
  }

  function Digit(d: nat): char
    requires d < 10
  {
    "0123456789"[d]
  }

  /** The last w decimal digits of n. */
  function Decimal(n: nat, w: nat): (s: string)
    ensures |s| == w && forall i :: 0 <= i < w ==> '0' <= s[i] <= '9'
  {
    if w == 0 then [] else Decimal(n / 10, w - 1) + [Digit(n % 10)]
  }

  function Value(s: string): nat {
    if s == [] then 0 else Value(s[..|s| - 1]) * 10 + if '0' <= s[|s| - 1] <= '9' then (s[|s| - 1] - '0') as nat else 0
  }

  /** A decimal is the decimal of its tens and its last digit. */
  lemma {:induction false} LastDigit(n: nat, w: nat)
    requires w > 0 && n < Pow10(w)
    ensures n / 10 < Pow10(w - 1)
    ensures Decimal(n, w) == Decimal(n / 10, w - 1) + [Digit(n % 10)]
  {
    hide Digit;
  }

  lemma NoDigits(n: nat)
    requires n < Pow10(0)
    ensures n == 0 && Decimal(n, 0) == []
  {
  }

  lemma {:induction false} ValueOfMore(s: string, d: nat)
    requires d < 10
    ensures Value(s + [Digit(d)]) == Value(s) * 10 + d
  {
    var t := s + [Digit(d)];
    assert t[..|t| - 1] == s;
  }

  lemma {:induction false} ValueOfDecimal(n: nat, w: nat)
    requires n < Pow10(w)
    ensures Value(Decimal(n, w)) == n
  {
    hide Decimal, Digit, Pow10;
    if w == 0 {
      NoDigits(n);
    } else {
      LastDigit(n, w);
      ValueOfDecimal(n / 10, w - 1);
      ValueOfMore(Decimal(n / 10, w - 1), n % 10);
    }
  }

  /** Decimals of one width are ordered as their numbers. */
  lemma {:induction false} DecimalOrder(a: nat, b: nat, w: nat)
    requires a < Pow10(w) && b < Pow10(w)
    ensures Less(Decimal(a, w), Decimal(b, w)) <==> a < b
    ensures Decimal(a, w) == Decimal(b, w) <==> a == b
  {
    hide Decimal, Value, Digit, Pow10;
    ValueOfDecimal(a, w);
    ValueOfDecimal(b, w);
    if w == 0 {
      NoDigits(a);
      NoDigits(b);
    } else {
      LastDigit(a, w);
      LastDigit(b, w);
      DecimalOrder(a / 10, b / 10, w - 1);
      SameLengthFirst(Decimal(a / 10, w - 1), Decimal(b / 10, w - 1), [Digit(a % 10)], [Digit(b % 10)]);
      DigitOrder(a % 10, b % 10);
      TensFirst(a, b);
    }
  }

  lemma TensFirst(a: nat, b: nat)
    ensures a < b <==> a / 10 < b / 10 || (a / 10 == b / 10 && a % 10 < b % 10)
  {
  }

  lemma DigitOrder(a: nat, b: nat)
    requires a < 10 && b < 10
    ensures Less([Digit(a)], [Digit(b)]) <==> a < b
  {
  }

  /** A number of fixed width and its separator come before whatever follows. */
  lemma {:induction false} FieldFirst(a: nat, b: nat, w: nat, separator: string, x: string, y: string)
    requires a < Pow10(w) && b < Pow10(w)
    ensures Less(Decimal(a, w) + separator + x, Decimal(b, w) + separator + y) <==> a < b || (a == b && Less(x, y))
  {
    assert Decimal(a, w) + separator + x == Decimal(a, w) + (separator + x);
    assert Decimal(b, w) + separator + y == Decimal(b, w) + (separator + y);
    SameLengthFirst(Decimal(a, w), Decimal(b, w), separator + x, separator + y);
    DecimalOrder(a, b, w);
    CommonPrefix(separator, x, y);
  }
}

/** The civil calendar in UTC, years 0 to 9999. */
module Calendar {
  import opened Base

  predicate IsLeap(y: nat) {
    y % 4 == 0 && (y % 100 != 0 || y % 400 == 0)
  }

  function DaysInYear(y: nat): (n: nat)
    ensures n >= 365
  {
    if IsLeap(y) then 366 else 365
  }

  function DaysBeforeYear(y: nat): (n: nat)
    ensures n >= y
  {
    if y == 0 then 0 else DaysBeforeYear(y - 1) + DaysInYear(y - 1)
  }

  /** The years before y count 365 days each and one more for each leap year among them. */
  lemma {:induction false} LeapDays(y: nat)
    ensures DaysBeforeYear(y) == 365 * y + LeapsBefore(y)
  {
    hide IsLeap, LeapsBefore;
    if y == 0 {
      NoLeapsBefore();
    } else {
      LeapDays(y - 1);
      OneLeapMore(y - 1);
    }
  }

  /** The multiples of 4 below y, but not those of 100, and yet those of 400. */
  function LeapsBefore(y: nat): int {
    (y + 3) / 4 - (y + 99) / 100 + (y + 399) / 400
  }

  lemma NoLeapsBefore()
    ensures LeapsBefore(0) == 0
  {
  }

  lemma {:induction false} OneLeapMore(y: nat)
    ensures LeapsBefore(y + 1) == LeapsBefore(y) + if IsLeap(y) then 1 else 0
  {
    var q, r := y / 400, y % 400;
    assert y == 400 * q + r;
    assert y / 100 == 4 * q + r / 100 && y % 100 == r % 100;
    assert y / 4 == 100 * q + r / 4 && y % 4 == r % 4;
    RoundUp(y, 4);
    RoundUp(y, 100);
    RoundUp(y, 400);
  }

  lemma RoundUp(n: nat, d: nat)
    requires d == 4 || d == 100 || d == 400
    ensures (n + d) / d == n / d + 1
    ensures (n + d - 1) / d == if n % d == 0 then n / d else n / d + 1
  {
  }

  /** The Unix epoch, day 719528 of this count, and the platform's zero time, the first of January of year 1. */
  lemma {:induction false} KnownDays()
    ensures DaysBeforeYear(1970) == 719528
    ensures DaysBeforeYear(1) - DaysBeforeYear(1970) == ZERO_TIME / DAY
  {
    hide DaysBeforeYear;
    LeapDays(1970);
    LeapDays(1);
  }

  function DaysInMonth(y: nat, m: nat): (n: nat)
    ensures 28 <= n <= 31
  {
    if m == 2 then (if IsLeap(y) then 29 else 28) else if m in {4, 6, 9, 11} then 30 else 31
  }

  /** Days of the year before month m, counted from 1. */
  function DaysBeforeMonth(y: nat, m: nat): (n: nat)
    requires 1 <= m <= 13
  {
    if m == 1 then 0 else DaysBeforeMonth(y, m - 1) + DaysInMonth(y, m - 1)
  }

  lemma TwelveMonths(y: nat)
    ensures DaysBeforeMonth(y, 13) == DaysInYear(y)
  {
    var february := DaysInMonth(y, 2);
    assert DaysBeforeMonth(y, 2) == 31;
    assert DaysBeforeMonth(y, 3) == 31 + february;
    assert DaysBeforeMonth(y, 5) == DaysBeforeMonth(y, 3) + 61;
    assert DaysBeforeMonth(y, 7) == DaysBeforeMonth(y, 5) + 61;
    assert DaysBeforeMonth(y, 9) == DaysBeforeMonth(y, 7) + 62;
    assert DaysBeforeMonth(y, 11) == DaysBeforeMonth(y, 9) + 61;
    assert DaysBeforeMonth(y, 13) == DaysBeforeMonth(y, 11) + 61;
  }

  lemma {:induction false} YearsAscend(a: nat, b: nat)
    requires a < b
    ensures DaysBeforeYear(a) + DaysInYear(a) <= DaysBeforeYear(b)
  {
    if a + 1 < b {
      YearsAscend(a, b - 1);
    }
  }

  lemma {:induction false} MonthsAscend(y: nat, a: nat, b: nat)
    requires 1 <= a < b <= 13
    ensures DaysBeforeMonth(y, a) + DaysInMonth(y, a) <= DaysBeforeMonth(y, b)
  {
    if a + 1 < b {
      MonthsAscend(y, a, b - 1);
    }
  }

  datatype Civil = Civil(year: nat, month: nat, day: nat, hour: nat, minute: nat, second: nat) {
    predicate Valid() {
      && year <= 9999 && 1 <= month <= 12 && 1 <= day <= DaysInMonth(year, month)
      && hour < 24 && minute < 60 && second < 60
    }

    function DayNumber(): nat
      requires Valid()
    {
      DaysBeforeYear(year) + DaysBeforeMonth(year, month) + day - 1
    }

    /** Seconds since the beginning of year 0. */
    function Seconds(): nat
      requires Valid()
    {
      DayNumber() * 86400 + hour * 3600 + minute * 60 + second
    }

    /** Earlier, field by field. */
    predicate Before(c: Civil) {
      year < c.year || (year == c.year
      && (month < c.month || (month == c.month
      && (day < c.day || (day == c.day
      && (hour < c.hour || (hour == c.hour
      && (minute < c.minute || (minute == c.minute
      && second < c.second)))))))))
    }
  }

  lemma {:induction false} DayInYear(c: Civil)
    requires c.Valid()
    ensures DaysBeforeYear(c.year) <= c.DayNumber() < DaysBeforeYear(c.year) + DaysInYear(c.year)
  {
    TwelveMonths(c.year);
    MonthsAscend(c.year, c.month, 13);
  }

  lemma {:induction false} DaysAscend(c: Civil, d: Civil)
    requires c.Valid() && d.Valid()
    requires c.year < d.year || (c.year == d.year && (c.month < d.month || (c.month == d.month && c.day < d.day)))
    ensures c.DayNumber() < d.DayNumber()
  {
    if c.year < d.year {
      YearsAscend(c.year, d.year);
      DayInYear(c);
    } else if c.month < d.month {
      MonthsAscend(c.year, c.month, d.month);
    }
  }

  /** Field order is time order. */
  lemma {:induction false} FieldsAreOrdered(c: Civil, d: Civil)
    requires c.Valid() && d.Valid()
    ensures c.Before(d) <==> c.Seconds() < d.Seconds()
    ensures c == d <==> c.Seconds() == d.Seconds()
  {
    if c.Before(d) {
      BeforeIsEarlier(c, d);
    } else if d.Before(c) {
      BeforeIsEarlier(d, c);
    } else {
      assert c == d;
    }
  }

  lemma {:induction false} BeforeIsEarlier(c: Civil, d: Civil)
    requires c.Valid() && d.Valid() && c.Before(d)
    ensures c.Seconds() < d.Seconds() && !d.Before(c) && c != d
  {
    if c.year != d.year || c.month != d.month || c.day != d.day {
      DaysAscend(c, d);
    }
  }

  // ---------------------------------------------------------------- from seconds to fields

  function YearFrom(days: nat, y: nat): (found: nat)
    requires DaysBeforeYear(y) <= days
    ensures DaysBeforeYear(found) <= days < DaysBeforeYear(found) + DaysInYear(found)
    decreases days - DaysBeforeYear(y)
  {
    if days < DaysBeforeYear(y) + DaysInYear(y) then y else YearFrom(days, y + 1)
  }

  function MonthFrom(y: nat, days: nat, m: nat): (found: nat)
    requires 1 <= m <= 12 && DaysBeforeMonth(y, m) <= days < DaysBeforeMonth(y, 13)
    ensures 1 <= found <= 12 && DaysBeforeMonth(y, found) <= days < DaysBeforeMonth(y, found) + DaysInMonth(y, found)
    decreases 12 - m
  {
    if days < DaysBeforeMonth(y, m) + DaysInMonth(y, m) then m
    else if m < 12 then MonthFrom(y, days, m + 1)
    else assert false; m
  }

  const YEARS := 10000

  function DateOf(days: nat): (c: Civil)
    requires days < DaysBeforeYear(YEARS)
    ensures c.Valid() && c.DayNumber() == days && c.hour == 0 && c.minute == 0 && c.second == 0
  {
    var y := YearFrom(days, 0);
    YearWithin(days, y);
    TwelveMonths(y);
    var m := MonthFrom(y, days - DaysBeforeYear(y), 1);
    Civil(y, m, days - DaysBeforeYear(y) - DaysBeforeMonth(y, m) + 1, 0, 0, 0)
  }

  lemma TimeOfDay(rest: nat)
    requires rest < 86400
    ensures rest / 3600 < 24 && rest / 60 % 60 < 60 && rest % 60 < 60
    ensures rest / 3600 * 3600 + rest / 60 % 60 * 60 + rest % 60 == rest
  {
    assert rest / 3600 == rest / 60 / 60;
  }

  /** The civil reading of an instant, given in seconds since the beginning of year 0. */
  function CivilOf(seconds: nat): (c: Civil)
    requires seconds < DaysBeforeYear(YEARS) * 86400
    ensures c.Valid() && c.Seconds() == seconds
  {
    var rest := seconds % 86400;
    TimeOfDay(rest);
    DateOf(seconds / 86400).(hour := rest / 3600, minute := rest / 60 % 60, second := rest % 60)
  }

  lemma {:induction false} YearWithin(days: nat, y: nat)
    requires days < DaysBeforeYear(YEARS) && DaysBeforeYear(y) <= days
    ensures y <= 9999
  {
    hide DaysBeforeYear;
    if y > YEARS {
      YearsAscend(YEARS, y);
    }
  }
}

/** Instants as the databases store them: RFC 3339 text in UTC with the fraction's trailing zeros dropped. */
module TimeText {
  import opened TextOrder
  import opened Calendar

  const NANOS := 1000000000

  /** An instant of the years 0 to 9999: whole seconds since the beginning of year 0, and nanoseconds. */
  datatype Instant = Instant(seconds: nat, nanos: nat) {
    predicate Valid() {
      seconds < DaysBeforeYear(YEARS) * 86400 && nanos < NANOS
    }

    predicate Earlier(t: Instant) {
      seconds < t.seconds || (seconds == t.seconds && nanos < t.nanos)
    }
  }

  // ---------------------------------------------------------------- printing

  function DropZeros(s: string): (t: string)
    ensures t <= s
    ensures forall i :: |t| <= i < |s| ==> s[i] == '0'
    ensures t == [] || t[|t| - 1] != '0'
  {
    if s != [] && s[|s| - 1] == '0' then DropZeros(s[..|s| - 1]) else s
  }

  /** The digits of the fraction of a second, without trailing zeros. */
  function FractionDigits(nanos: nat): string {
    DropZeros(Decimal(nanos, 9))
  }

  function Tail(nanos: nat): string {
    (if FractionDigits(nanos) == [] then "" else "." + FractionDigits(nanos)) + "Z"
  }

  function Clock(c: Civil, tail: string): string {
    Decimal(c.hour, 2) + ":" + (Decimal(c.minute, 2) + ":" + (Decimal(c.second, 2) + "" + tail))
  }

  function Date(c: Civil, tail: string): string {
    Decimal(c.year, 4) + "-" + (Decimal(c.month, 2) + "-" + (Decimal(c.day, 2) + "T" + tail))
  }

  function FormatTime(t: Instant): string
    requires t.Valid()
  {
    var c := CivilOf(t.seconds);
    Date(c, Clock(c, Tail(t.nanos)))
  }

  // ---------------------------------------------------------------- order

  lemma {:induction false} ClockOrder(a: Civil, b: Civil, x: string, y: string)
    requires a.Valid() && b.Valid()
    ensures Less(Clock(a, x), Clock(b, y)) <==>
            a.hour < b.hour || (a.hour == b.hour && (a.minute < b.minute || (a.minute == b.minute
            && (a.second < b.second || (a.second == b.second && Less(x, y))))))
  {
    assert Pow10(2) == 100;
    FieldFirst(a.second, b.second, 2, "", x, y);
    FieldFirst(a.minute, b.minute, 2, ":", Decimal(a.second, 2) + "" + x, Decimal(b.second, 2) + "" + y);
    FieldFirst(a.hour, b.hour, 2, ":", Decimal(a.minute, 2) + ":" + (Decimal(a.second, 2) + "" + x),
               Decimal(b.minute, 2) + ":" + (Decimal(b.second, 2) + "" + y));
  }

  lemma {:induction false} DateOrder(a: Civil, b: Civil, x: string, y: string)
    requires a.Valid() && b.Valid()
    ensures Less(Date(a, x), Date(b, y)) <==>
            a.year < b.year || (a.year == b.year && (a.month < b.month || (a.month == b.month
            && (a.day < b.day || (a.day == b.day && Less(x, y))))))
  {
    assert Pow10(2) == 100;
    assert Pow10(4) == 10000;
    FieldFirst(a.day, b.day, 2, "T", x, y);
    FieldFirst(a.month, b.month, 2, "-", Decimal(a.day, 2) + "T" + x, Decimal(b.day, 2) + "T" + y);
    FieldFirst(a.year, b.year, 4, "-", Decimal(a.month, 2) + "-" + (Decimal(a.day, 2) + "T" + x),
               Decimal(b.month, 2) + "-" + (Decimal(b.day, 2) + "T" + y));
  }

  /** Text order is the order of the whole seconds, and within one second that of the tails. */
  lemma {:induction false} SecondsFirst(s: Instant, t: Instant)
    requires s.Valid() && t.Valid()
    ensures Less(FormatTime(s), FormatTime(t)) <==>
            s.seconds < t.seconds || (s.seconds == t.seconds && Less(Tail(s.nanos), Tail(t.nanos)))
  {
    var a, b := CivilOf(s.seconds), CivilOf(t.seconds);
    FieldsAreOrdered(a, b);
    hide Less, Clock, Date, Tail, CivilOf;
    ClockOrder(a, b, Tail(s.nanos), Tail(t.nanos));
    DateOrder(a, b, Clock(a, Tail(s.nanos)), Clock(b, Tail(t.nanos)));
  }

  /** One fraction's digits continue the other's: the longer is later, but its text comes first. */
  lemma {:induction false} PrefixInverts(a: nat, b: nat)
    requires a < NANOS && b < NANOS && FractionDigits(a) < FractionDigits(b)
    ensures a < b && Less(Tail(b), Tail(a)) && !Less(Tail(a), Tail(b))
  {
    assert Pow10(9) == NANOS;
    DecimalOrder(a, b, 9);
    LaterDigits(Decimal(a, 9), Decimal(b, 9), FractionDigits(a), FractionDigits(b));
    var x, y := FractionDigits(a), FractionDigits(b);
    assert Tail(b) == "." + y + "Z" && Tail(a) == if x == [] then "Z" else "." + x + "Z";
    assert '0' <= y[|x|] <= '9' by {
      assert y[|x|] == Decimal(b, 9)[|x|];
    }
    hide FractionDigits, Tail;
    LongerFirst(x, y);
  }

  lemma {:induction false} LongerFirst(x: string, y: string)
    requires x < y && '0' <= y[|x|] <= '9'
    ensures var s := if x == [] then "Z" else "." + x + "Z"; var t := "." + y + "Z";
            Less(t, s) && !Less(s, t)
  {
    var s, t := if x == [] then "Z" else "." + x + "Z", "." + y + "Z";
    var i := if x == [] then 0 else |x| + 1;
    if x != [] {
      assert s[..i] == "." + x && t[..i] == "." + y[..|x|];
    }
    FirstDifference(s, t, i);
    FirstDifference(t, s, i);
  }

  lemma {:induction false} LaterDigits(p: string, q: string, x: string, y: string)
    requires |p| == |q| && x <= p && y <= q && x < y && y[|y| - 1] != '0'
    requires forall i :: |x| <= i < |p| ==> p[i] == '0'
    requires forall i :: 0 <= i < |q| ==> '0' <= q[i] <= '9'
    ensures Less(p, q)
  {
    var i := |x|;
    while q[i] == '0'
      invariant |x| <= i < |y| && forall k :: |x| <= k < i ==> q[k] == '0'
      decreases |y| - i
    {
      i := i + 1;
    }
    assert p[..i] == q[..i] by {
      forall k | 0 <= k < i ensures p[k] == q[k] {
        if k < |x| {
          assert x[k] == y[k];
        }
      }
    }
    FirstDifference(p, q, i);
  }

  /** Where neither continues the other, text order is number order. */
  lemma {:induction false} BranchingAgrees(a: nat, b: nat)
    requires a < NANOS && b < NANOS && !(FractionDigits(a) <= FractionDigits(b))
    requires !(FractionDigits(b) <= FractionDigits(a))
    ensures Less(Tail(a), Tail(b)) <==> a < b
  {
    var x, y := FractionDigits(a), FractionDigits(b);
    var i := Difference(x, y);
    BranchOfNumbers(a, b, i);
    assert Tail(a) == "." + x + "Z" && Tail(b) == "." + y + "Z";
    hide FractionDigits, Tail;
    assert ("." + x + "Z")[..i + 1] == "." + x[..i] && ("." + y + "Z")[..i + 1] == "." + y[..i];
    FirstDifference("." + x + "Z", "." + y + "Z", i + 1);
  }

  lemma {:induction false} BranchOfNumbers(a: nat, b: nat, i: nat)
    requires a < NANOS && b < NANOS
    requires var x, y := FractionDigits(a), FractionDigits(b); i < |x| && i < |y| && x[..i] == y[..i] && x[i] != y[i]
    ensures a < b <==> FractionDigits(a)[i] < FractionDigits(b)[i]
  {
    assert Pow10(9) == NANOS;
    DecimalOrder(a, b, 9);
    var p, q := Decimal(a, 9), Decimal(b, 9);
    assert p[..i] == FractionDigits(a)[..i] && q[..i] == FractionDigits(b)[..i];
    FirstDifference(p, q, i);
  }

  lemma {:induction false} Difference(x: string, y: string) returns (i: nat)
    requires !(x <= y) && !(y <= x)
    ensures i < |x| && i < |y| && x[..i] == y[..i] && x[i] != y[i]
  {
    if x[0] != y[0] {
      i := 0;
    } else {
      assert x == [x[0]] + x[1..] && y == [x[0]] + y[1..];
      i := Difference(x[1..], y[1..]);
      i := i + 1;
      assert x[..i] == [x[0]] + x[1..][..i - 1] && y[..i] == [x[0]] + y[1..][..i - 1];
    }
  }

  /**
    Byte order of stored instants is time order, except exactly between two instants of one second
    where the digits of one fraction continue those of the other; a whole second counts as no digits.
   */
  lemma {:induction false} TextOrderIsTimeOrder(s: Instant, t: Instant)
    requires s.Valid() && t.Valid()
    ensures (Less(FormatTime(s), FormatTime(t)) <==> s.Earlier(t)) <==>
            !(s.seconds == t.seconds
              && (FractionDigits(s.nanos) < FractionDigits(t.nanos) ||
                  FractionDigits(t.nanos) < FractionDigits(s.nanos)))
  {
    SecondsFirst(s, t);
    var x, y := FractionDigits(s.nanos), FractionDigits(t.nanos);
    hide FormatTime, Less, Tail, FractionDigits;
    if x < y {
      PrefixInverts(s.nanos, t.nanos);
    } else if y < x {
      PrefixInverts(t.nanos, s.nanos);
    } else if x == y {
      SameDigits(s.nanos, t.nanos);
    } else {
      BranchingAgrees(s.nanos, t.nanos);
    }
  }

  lemma {:induction false} SameDigits(a: nat, b: nat)
    requires a < NANOS && b < NANOS && FractionDigits(a) == FractionDigits(b)
    ensures a == b && !Less(Tail(a), Tail(b))
  {
    var p, q := Decimal(a, 9), Decimal(b, 9);
    assert p == q by {
      forall i | 0 <= i < 9 ensures p[i] == q[i] {
        if i < |FractionDigits(a)| {
          assert FractionDigits(a)[i] == p[i] && FractionDigits(b)[i] == q[i];
        }
      }
    }
    assert Pow10(9) == NANOS;
    DecimalOrder(a, b, 9);
    NotLess(Tail(a));
  }

  lemma {:induction false} NotLess(s: string)
    ensures !Less(s, s)
  {
    if s == [] {
    } else {
      NotLess(s[1..]);
    }
  }

  /** Fractions with the same number of digits, in particular whole seconds, are always ordered as the instants are. */
  lemma {:induction false} SameDigitCountOrders(s: Instant, t: Instant)
    requires s.Valid() && t.Valid() && |FractionDigits(s.nanos)| == |FractionDigits(t.nanos)|
    ensures Less(FormatTime(s), FormatTime(t)) <==> s.Earlier(t)
  {
    TextOrderIsTimeOrder(s, t);
  }

  /** Half a second past comes before the whole second in the stored text. */
  lemma {:induction false} MixedLengthsInvert()
    ensures var whole, half := Instant(0, 0), Instant(0, 500000000);
            && whole.Valid() && half.Valid() && whole.Earlier(half)
            && Less(FormatTime(half), FormatTime(whole)) && !Less(FormatTime(whole), FormatTime(half))
  {
    hide DaysBeforeYear, FractionDigits, FormatTime, CivilOf, Less, Tail, Decimal;
    var whole, half := Instant(0, 0), Instant(0, 500000000);
    FractionOfNothing();
    FractionOfHalf();
    SecondsFirst(whole, half);
    SecondsFirst(half, whole);
    PrefixInverts(0, 500000000);
  }

  lemma FractionOfNothing()
    ensures FractionDigits(0) == []
  {
    ValueOfDecimal(0, 9);
    if FractionDigits(0) != [] {
      DecimalOrder(0, 0, 9);
      Zeros(9);
    }
  }

  lemma {:induction false} Zeros(w: nat)
    ensures forall i :: 0 <= i < w ==> Decimal(0, w)[i] == '0'
  {
    if w == 0 {
    } else {
      Zeros(w - 1);
    }
  }

  lemma {:induction false} FractionOfHalf()
    ensures FractionDigits(500000000) != []
  {
    if FractionDigits(500000000) == [] {
      var s := Decimal(500000000, 9);
      Zeros(9);
      assert s == Decimal(0, 9);
      assert Pow10(9) == NANOS;
      DecimalOrder(500000000, 0, 9);
    }
  }

  // ---------------------------------------------------------------- parsing

  datatype Parsed = Parsed(at: Instant) | Malformed

  predicate Digits(s: string) {
    forall i :: 0 <= i < |s| ==> '0' <= s[i] <= '9'
  }

  /** The nanoseconds of a fraction's digits. */
  function FractionValue(digits: string): nat
    requires |digits| <= 9
  {
    Value(digits) * Pow10(9 - |digits|)
  }

  function ParseCivil(s: string): (c: Civil)
    requires |s| >= 19
  {
    Civil(Value(s[0..4]), Value(s[5..7]), Value(s[8..10]), Value(s[11..13]), Value(s[14..16]), Value(s[17..19]))
  }

  predicate WellFormed(s: string) {
    && |s| >= 20 && s[4] == '-' && s[7] == '-' && s[10] == 'T' && s[13] == ':' && s[16] == ':' && s[|s| - 1] == 'Z'
    && Digits(s[0..4]) && Digits(s[5..7]) && Digits(s[8..10])
    && Digits(s[11..13]) && Digits(s[14..16]) && Digits(s[17..19])
    && (|s| == 20 || (22 <= |s| <= 30 && s[19] == '.' && Digits(s[20..|s| - 1])))
  }

  /** Reads a time in UTC; anything else that is not such a text is malformed. */
  function ParseTime(s: string): (p: Parsed)
    ensures p.Parsed? ==> p.at.Valid()
  {
    if !WellFormed(s) || !ParseCivil(s).Valid() then Malformed else
      var nanos := if |s| == 20 then 0 else FractionValue(s[20..|s| - 1]);
      SecondsWithin(ParseCivil(s));
      if nanos >= NANOS then Malformed else Parsed(Instant(ParseCivil(s).Seconds(), nanos))
  }

  lemma {:induction false} SecondsWithin(c: Civil)
    requires c.Valid()
    ensures c.Seconds() < DaysBeforeYear(YEARS) * 86400
  {
    hide DaysBeforeYear;
    DayInYear(c);
    YearsAscend(c.year, YEARS);
  }

  /** Dropping zeros divides by powers of ten, and padding multiplies them back. */
  lemma {:induction false} FractionRoundTrip(nanos: nat)
    requires nanos < NANOS
    ensures |FractionDigits(nanos)| <= 9 && FractionValue(FractionDigits(nanos)) == nanos
  {
    assert Pow10(9) == NANOS;
    ValueOfDecimal(nanos, 9);
    PaddedValue(Decimal(nanos, 9), |FractionDigits(nanos)|);
    assert Decimal(nanos, 9)[..|FractionDigits(nanos)|] == FractionDigits(nanos);
  }

  lemma {:induction false} PaddedValue(s: string, n: nat)
    requires n <= |s| && forall i :: n <= i < |s| ==> s[i] == '0'
    ensures Value(s) == Value(s[..n]) * Pow10(|s| - n)
  {
    if n < |s| {
      var t := s[..|s| - 1];
      PaddedValue(t, n);
      assert t[..n] == s[..n];
      assert Value(s) == 10 * Value(t);
      TimesTen(Value(s[..n]), Pow10(|s| - 1 - n));
    } else {
      assert s[..n] == s;
    }
  }

  lemma TimesTen(v: nat, p: nat)
    ensures v * (10 * p) == 10 * (v * p)
  {
  }

  /** Where each field of a printed time stands. */
  lemma {:induction false} FormatLayout(t: Instant)
    requires t.Valid()
    ensures var c := CivilOf(t.seconds); var s := FormatTime(t); var tail := Tail(t.nanos);
            && |s| == 19 + |tail| && s[19..] == tail
            && s[4] == '-' && s[7] == '-' && s[10] == 'T' && s[13] == ':' && s[16] == ':'
            && s[0..4] == Decimal(c.year, 4) && s[5..7] == Decimal(c.month, 2) && s[8..10] == Decimal(c.day, 2)
            && s[11..13] == Decimal(c.hour, 2) && s[14..16] == Decimal(c.minute, 2) && s[17..19] == Decimal(c.second, 2)
  {
    hide Decimal, Tail, CivilOf;
  }

  lemma {:induction false} FieldsParse(t: Instant)
    requires t.Valid()
    ensures |FormatTime(t)| >= 19 && ParseCivil(FormatTime(t)) == CivilOf(t.seconds)
  {
    hide Decimal, CivilOf, FormatTime, Tail, DaysBeforeYear, Value;
    var c := CivilOf(t.seconds);
    FormatLayout(t);
    assert Pow10(2) == 100;
    assert Pow10(4) == 10000;
    ValueOfDecimal(c.year, 4);
    ValueOfDecimal(c.month, 2);
    ValueOfDecimal(c.day, 2);
    ValueOfDecimal(c.hour, 2);
    ValueOfDecimal(c.minute, 2);
    ValueOfDecimal(c.second, 2);
  }

  lemma DecimalDigits(n: nat, w: nat)
    ensures Digits(Decimal(n, w))
  {
  }

  lemma {:induction false} AllDigits(nanos: nat)
    ensures Digits(FractionDigits(nanos))
  {
    forall i | 0 <= i < |FractionDigits(nanos)| ensures FractionDigits(nanos)[i] == Decimal(nanos, 9)[i] {}
  }

  lemma {:induction false} FormatWellFormed(t: Instant)
    requires t.Valid()
    ensures WellFormed(FormatTime(t))
    ensures |FormatTime(t)| == 20 <==> FractionDigits(t.nanos) == []
    ensures |FormatTime(t)| != 20 ==> FormatTime(t)[20..|FormatTime(t)| - 1] == FractionDigits(t.nanos)
  {
    hide Decimal, CivilOf, FormatTime, Tail, DaysBeforeYear, FractionDigits, FractionValue, Digits;
    var c, s := CivilOf(t.seconds), FormatTime(t);
    FormatLayout(t);
    DecimalDigits(c.year, 4);
    DecimalDigits(c.month, 2);
    DecimalDigits(c.day, 2);
    DecimalDigits(c.hour, 2);
    DecimalDigits(c.minute, 2);
    DecimalDigits(c.second, 2);
    AllDigits(t.nanos);
    FractionRoundTrip(t.nanos);
    TailLayout(t.nanos, s, Tail(t.nanos));
  }

  /** Parsing undoes printing, for every instant. */
  lemma {:induction false} ParseUndoesFormat(t: Instant)
    requires t.Valid()
    ensures ParseTime(FormatTime(t)) == Parsed(t)
  {
    hide Decimal, CivilOf, FormatTime, Tail, DaysBeforeYear, Value, FractionDigits, ParseCivil, WellFormed;
    hide FractionValue;
    FieldsParse(t);
    FormatWellFormed(t);
    FractionRoundTrip(t.nanos);
    NoFraction();
  }

  lemma NoFraction()
    ensures FractionValue([]) == 0
  {
  }

  lemma {:induction false} TailLayout(nanos: nat, s: string, tail: string)
    requires tail == Tail(nanos) && |s| == 19 + |tail| && s[19..] == tail && |FractionDigits(nanos)| <= 9
    ensures |s| >= 20 && s[|s| - 1] == 'Z'
    ensures |s| == 20 <==> FractionDigits(nanos) == []
    ensures |s| != 20 ==> 22 <= |s| <= 30 && s[19] == '.' && s[20..|s| - 1] == FractionDigits(nanos)
  {
    hide FractionDigits;
    assert s[|s| - 1] == s[19..][|tail| - 1];
    assert s[19] == s[19..][0];
    if FractionDigits(nanos) != [] {
      assert s[20..|s| - 1] == tail[1..|tail| - 1];
    }
  }
}
