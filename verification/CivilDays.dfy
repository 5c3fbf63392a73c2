/**
 The civil calendar from day to day: which date follows which, when a local day starts, and on which
 weekday it falls.
 */
module CivilDays {
  import opened Division
  import opened Calendar

  const HOUR: int := 60 * 60 * 1_000_000

  /** February has a day more every fourth year, but of the full centuries only every fourth. */
  predicate LongFebruary(year: int) {
    if year % 100 == 0 then year % 400 == 0 else year % 4 == 0
  }

  function LastDay(year: int, month: int): int {
    if month in {4, 6, 9, 11} then 30
    else if month != 2 then 31
    else if LongFebruary(year) then 29
    else 28
  }

  function NextDay(d: Date): Date {
    if d.day < LastDay(d.year, d.month) then Date(d.year, d.month, d.day + 1)
    else if d.month < 12 then Date(d.year, d.month + 1, 1)
    else Date(d.year + 1, 1, 1)
  }

  lemma LastDayIs(year: int, month: int)
    requires 1 <= month <= 12
    ensures DaysInMonth(year, month) == LastDay(year, month)
  {
    if year % 100 == 0 {
      var century := year / 100;
      assert year == 25 * century * 4;
      Quotient(year, 4, 25 * century, 0);
    }
  }

  /** The day after a date is the next one of its month, or the first of the next month or year. */
  lemma NextDayIsNext(d: Date)
    requires ValidDate(d)
    ensures ValidDate(NextDay(d)) && Ordinal(NextDay(d)) == Ordinal(d) + 1
    ensures AddDays(d, 1) == NextDay(d)
  {
    NextDayOrdinal(d);
    SameOrdinal(AddDays(d, 1), NextDay(d));
  }

  lemma NextDayOrdinal(d: Date)
    requires ValidDate(d)
    ensures ValidDate(NextDay(d)) && Ordinal(NextDay(d)) == Ordinal(d) + 1
  {
    LastDayIs(d.year, d.month);
    if d.day == LastDay(d.year, d.month) && d.month == 12 {
      YearLength(d.year);
    }
  }

  lemma LocalOrdinal(t: Time)
    ensures Ordinal(LocalDate(t)) == 719163 + (t - 10_800_000_000) / 86_400_000_000
  {
  }

  lemma EpochOrdinal()
    ensures Ordinal(Date(1970, 1, 1)) == 719163
  {
    assert DaysBeforeMonth(1970, 1) == 0;
    assert 1969 / 4 == 492 && 1969 / 100 == 19 && 1969 / 400 == 4;
  }

  /** The first of January 1970 was a Thursday, and its local day began at three in the morning of UTC. */
  lemma FirstDay(t: Time)
    ensures LocalDate(t) == Date(1970, 1, 1) <==> 3 * HOUR <= t < 27 * HOUR
    ensures Weekday(Date(1970, 1, 1)) == 3
  {
    EpochDayIff(t);
    IsEpoch(LocalDate(t));
    EpochWeekday();
  }

  lemma IsEpoch(d: Date)
    requires ValidDate(d)
    ensures d == Date(1970, 1, 1) <==> Ordinal(d) == 719163
  {
    EpochOrdinal();
    if Ordinal(d) == 719163 {
      SameOrdinal(d, Date(1970, 1, 1));
    }
  }

  lemma EpochWeekday()
    ensures Weekday(Date(1970, 1, 1)) == 3
  {
    EpochOrdinal();
    assert 719162 % 7 == 3;
  }

  lemma EpochDayIff(t: Time)
    ensures Ordinal(LocalDate(t)) == 719163 <==> 3 * HOUR <= t < 27 * HOUR
  {
    LocalOrdinal(t);
    InFirstDay(t);
  }

  lemma InFirstDay(t: Time)
    ensures (t - 10_800_000_000) / 86_400_000_000 == 0 <==> 3 * HOUR <= t < 27 * HOUR
  {
  }

  /** The same moment a day later is on the next date, one weekday on. */
  lemma DayLater(t: Time)
    ensures LocalDate(t + 24 * HOUR) == NextDay(LocalDate(t))
    ensures Weekday(LocalDate(t + 24 * HOUR))
         == if Weekday(LocalDate(t)) == 6 then 0 else Weekday(LocalDate(t)) + 1
  {
    LaterOrdinal(t);
    LaterWeekday(LocalDate(t), LocalDate(t + 24 * HOUR));
    NextDayIsNext(LocalDate(t));
    SameOrdinal(LocalDate(t + 24 * HOUR), NextDay(LocalDate(t)));
  }

  lemma LaterWeekday(a: Date, b: Date)
    requires ValidDate(a) && ValidDate(b) && Ordinal(b) == Ordinal(a) + 1
    ensures Weekday(b) == if Weekday(a) == 6 then 0 else Weekday(a) + 1
  {
    WeekdayMore(Ordinal(a) - 1);
  }

  lemma LaterOrdinal(t: Time)
    ensures Ordinal(LocalDate(t + 24 * HOUR)) == Ordinal(LocalDate(t)) + 1
  {
    LocalOrdinal(t);
    LocalOrdinal(t + 24 * HOUR);
    DayMore(t - 10_800_000_000);
  }

  lemma SameOrdinal(a: Date, b: Date)
    requires ValidDate(a) && ValidDate(b) && Ordinal(a) == Ordinal(b)
    ensures a == b
  {
    OrdinalOrder(a, b);
  }

  lemma DayMore(x: int)
    ensures (x + 24 * HOUR) / 86_400_000_000 == x / 86_400_000_000 + 1
  {
  }

  lemma WeekdayMore(n: int)
    ensures (n + 1) % 7 == if n % 7 == 6 then 0 else n % 7 + 1
  {
  }

  /** The bucket of a date: itself, the Monday at most six days before, or the first of its month. */
  lemma BucketIs(d: Date)
    requires ValidDate(d)
    ensures BucketOf(d, Day) == d
    ensures var monday := BucketOf(d, Week);
            Weekday(monday) == 0 && 0 <= Ordinal(d) - Ordinal(monday) <= 6
    ensures var first := BucketOf(d, Month);
            first.year == d.year && first.month == d.month && first.day == 1
  {
    WeekStart(d);
  }

  /** A period is read at a granularity when its buckets are at most so many. */
  lemma AcceptedIff(p: Period)
    ensures Accepted(p, Day) <==> Ordinal(Last(p)) - Ordinal(First(p)) < 366
    ensures Accepted(p, Week) <==> Requested(p, Week) <= 5200
    ensures Accepted(p, Month) <==> Index(Last(p), Month) - Index(First(p), Month) < 1200
  {
  }
}
