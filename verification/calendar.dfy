/** The business-calendar gate of the arrival process.

    Virtual time is a real number of minutes since the start of the run.
    Day 0 is the first simulated day and is treated as a Monday, so the
    working week is days 0..4 of every block of seven. An arrival is
    admitted only on a working day between 08:00 (minute 480) and 16:00
    (minute 960), the end excluded.

    Python's `//` and `%` on floats floor, so `t // 1440` is `(t / 1440).Floor`
    and `t % 1440` is `t - 1440 * (t / 1440).Floor`; `int(...) % 7` on the
    day number is non-negative, as Dafny's Euclidean `%` is. The formulas
    therefore agree with the source for every real `t`, negative or not. */
module Calendar {

  const BusinessStart: real := 480.0   // 8 * 60
  const BusinessEnd: real := 960.0     // 16 * 60
  const DayMinutes: real := 1440.0     // 24 * 60
  const WeekMinutes: real := 10080.0   // 7 days

  /** Number of whole days elapsed before time `t`. */
  function DayNumber(t: real): int {
    (t / DayMinutes).Floor
  }

  /** Day of the week, 0 = Monday. */
  function DayOfWeek(t: real): (d: int)
    ensures 0 <= d < 7
  {
    DayNumber(t) % 7
  }

  /** Minutes elapsed since the most recent midnight. */
  function MinuteOfDay(t: real): (m: real)
    ensures 0.0 <= m < DayMinutes
  {
    t - DayMinutes * DayNumber(t) as real
  }

  /** The admission gate of the arrival loop. */
  predicate Admitted(t: real) {
    DayOfWeek(t) < 5 && BusinessStart <= MinuteOfDay(t) < BusinessEnd
  }

  /** The opening hours of day number `n` contain `t`: an independent,
      interval-based description of the business calendar. */
  predicate InWindow(n: int, t: real) {
    && n % 7 < 5
    && DayMinutes * n as real + BusinessStart <= t
    && t < DayMinutes * n as real + BusinessEnd
  }

  /** A time lying in day `n` has day number `n`. */
  lemma DayNumberOf(n: int, t: real)
    requires DayMinutes * n as real <= t < DayMinutes * (n + 1) as real
    ensures DayNumber(t) == n
  {
  }

  /** The gate admits exactly the times inside the opening hours of some
      working day. */
  lemma AdmittedIffInWindow(t: real)
    ensures Admitted(t) <==> exists n :: InWindow(n, t)
  {
    if Admitted(t) {
      assert InWindow(DayNumber(t), t);
    }
    if n :| InWindow(n, t) {
      DayNumberOf(n, t);
    }
  }

  /** The calendar repeats every week. */
  lemma WeeklyPeriod(t: real)
    ensures Admitted(t + WeekMinutes) <==> Admitted(t)
  {
    var n := DayNumber(t);
    assert DayMinutes * n as real <= t < DayMinutes * (n + 1) as real by {
      var x := t / DayMinutes;
      assert x.Floor as real <= x < x.Floor as real + 1.0;
    }
    DayNumberOf(n + 7, t + WeekMinutes);
    assert (n + 7) % 7 == n % 7;
  }

  /** Opening time is admitted on every working day and on no weekend day. */
  lemma OpeningMinute(k: int)
    ensures Admitted(DayMinutes * k as real + BusinessStart) <==> k % 7 < 5
  {
  }

  /** Closing time itself is never admitted. */
  lemma ClosingMinuteRejected(k: int)
    ensures !Admitted(DayMinutes * k as real + BusinessEnd)
  {
  }

  /** Nothing is admitted at any time of a day that falls on day 5 or 6
      of the week. */
  lemma WeekendRejected(k: int, t: real)
    requires DayMinutes * k as real <= t < DayMinutes * (k + 1) as real
    requires k % 7 >= 5
    ensures !Admitted(t)
  {
    DayNumberOf(k, t);
  }

  /** Nothing is admitted before 08:00. */
  lemma BeforeOpeningRejected(k: int, t: real)
    requires DayMinutes * k as real <= t < DayMinutes * k as real + BusinessStart
    ensures !Admitted(t)
  {
    DayNumberOf(k, t);
  }
}
