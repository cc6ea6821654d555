/** Business days of a data zone: the local day that begins at the zone's cutoff hour. */
module BusinessDay {
  import opened Base

  /** A zone's clock: a fixed offset from UTC in seconds, and the hour at which its day begins. */
  datatype ZoneClock = ZoneClock(offset: int, cutoffHour: int) {

    predicate Valid() {
      0 <= cutoffHour <= 23
    }

    function LocalHour(at: int): int {
      (at + offset) % DAY / HOUR
    }

    /** The civil day, counted from the epoch, whose cutoff was the last one passed. */
    function LocalDay(at: int): int {
      var day := (at + offset) / DAY;
      if LocalHour(at) < cutoffHour then day - 1 else day
    }

    function WindowStart(at: int): int {
      LocalDay(at) * DAY + cutoffHour * HOUR - offset
    }

    function WindowEnd(at: int): int {
      WindowStart(at) + DAY
    }

    predicate InWindow(t: int, at: int) {
      WindowStart(at) <= t < WindowEnd(at)
    }

    /** The window holds exactly the instants that are given the same window, so windows partition time. */
    lemma WindowsPartition(t: int, at: int)
      requires Valid()
      ensures InWindow(at, at)
      ensures InWindow(t, at) <==> WindowStart(t) == WindowStart(at)
    {
      WindowHoldsItsInstant(at);
      WindowHoldsItsInstant(t);
      if InWindow(t, at) {
        // Two starts differ by whole days and both lie within a day before t.
        assert (LocalDay(t) - LocalDay(at)) * DAY == WindowStart(t) - WindowStart(at);
      }
    }

    lemma WindowHoldsItsInstant(at: int)
      requires Valid()
      ensures InWindow(at, at)
    {
      var local := at + offset;
      assert local == local / DAY * DAY + local % DAY;
      var sec := local % DAY;
      assert sec / HOUR < cutoffHour ==> sec < cutoffHour * HOUR;
      assert sec / HOUR >= cutoffHour ==> sec >= cutoffHour * HOUR;
    }

    /** A window is one day long and holds its instant; it begins at a cutoff and has none inside. */
    lemma WindowIsOneDay(at: int, t: int)
      requires Valid()
      ensures WindowEnd(at) == WindowStart(at) + 86400 && WindowStart(at) <= at < WindowEnd(at)
      ensures (WindowStart(at) + offset) % 86400 == cutoffHour * 3600
      ensures WindowStart(at) < t < WindowEnd(at) ==> (t + offset) % 86400 != cutoffHour * 3600
    {
      WindowHoldsItsInstant(at);
      WindowBeginsAtCutoff(at);
      if WindowStart(at) < t < WindowEnd(at) {
        NoOtherCutoff(WindowStart(at) + offset, t + offset);
      }
    }

    static lemma NoOtherCutoff(a: int, b: int)
      requires a < b < a + 86400
      ensures a % 86400 != b % 86400
    {
    }

    /** Two windows are the same window or share no instant. */
    lemma WindowsEqualOrDisjoint(a: int, b: int)
      requires Valid()
      ensures WindowStart(a) == WindowStart(b) || forall t :: !(InWindow(t, a) && InWindow(t, b))
    {
      forall t ensures InWindow(t, a) && InWindow(t, b) ==> WindowStart(a) == WindowStart(b) {
        WindowsPartition(t, a);
        WindowsPartition(t, b);
      }
    }

    /** A window begins exactly at the cutoff hour of a local day. */
    lemma WindowBeginsAtCutoff(at: int)
      requires Valid()
      ensures (WindowStart(at) + offset) % DAY == cutoffHour * HOUR
      ensures LocalHour(WindowStart(at)) == cutoffHour
    {
      assert WindowStart(at) + offset == LocalDay(at) * DAY + cutoffHour * HOUR;
    }
  }
}
