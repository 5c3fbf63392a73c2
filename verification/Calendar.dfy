/**
 Civil dates in the business timezone: year, month and day, their ordinals, Monday weeks and
 first days of months, and the dates that a period of time runs through at each granularity.
 */
module Calendar {
  import opened Division

  /** Microseconds since the start of 1970 in UTC. */
  type Time = int

  const DAY_LENGTH: int := 86_400_000_000

  /** Buenos Aires, three hours behind UTC all year. */
  const OFFSET: int := -10_800_000_000

  datatype Date = Date(year: int, month: int, day: int)

  predicate Leap(year: int) {
    year % 4 == 0 && (year % 100 != 0 || year % 400 == 0)
  }

  function DaysInMonth(year: int, month: int): (n: int)
    requires 1 <= month <= 12
    ensures 28 <= n <= 31
  {
    if month == 2 then (if Leap(year) then 29 else 28)
    else if month == 4 || month == 6 || month == 9 || month == 11 then 30
    else 31
  }

  function DaysBeforeMonth(year: int, month: int): (n: int)
    requires 1 <= month <= 13
    ensures 28 * (month - 1) <= n
  {
    if month == 1 then 0 else DaysBeforeMonth(year, month - 1) + DaysInMonth(year, month - 1)
  }

  function DaysBeforeYear(year: int): int {
    365 * (year - 1) + (year - 1) / 4 - (year - 1) / 100 + (year - 1) / 400
  }

  predicate ValidDate(d: Date) {
    1 <= d.month <= 12 && 1 <= d.day <= DaysInMonth(d.year, d.month)
  }

  function Ordinal(d: Date): int
    requires 1 <= d.month <= 12
  {
    DaysBeforeYear(d.year) + DaysBeforeMonth(d.year, d.month) + d.day
  }

  /** The order of dates: by year, then month, then day. */
  predicate AtMost(a: Date, b: Date) {
    a.year < b.year || (a.year == b.year && (a.month < b.month || (a.month == b.month && a.day <= b.day)))
  }

  // ---- Ordinals ----

  lemma YearLength(year: int)
    ensures DaysBeforeYear(year + 1) - DaysBeforeYear(year) == DaysBeforeMonth(year, 13)
    ensures DaysBeforeMonth(year, 13) == if Leap(year) then 366 else 365
  {
    var february := if Leap(year) then 29 else 28;
    assert DaysBeforeMonth(year, 2) == 31;
    assert DaysBeforeMonth(year, 3) == 31 + february;
    assert DaysBeforeMonth(year, 4) == 62 + february;
    assert DaysBeforeMonth(year, 5) == 92 + february;
    assert DaysBeforeMonth(year, 6) == 123 + february;
    assert DaysBeforeMonth(year, 7) == 153 + february;
    assert DaysBeforeMonth(year, 8) == 184 + february;
    assert DaysBeforeMonth(year, 9) == 215 + february;
    assert DaysBeforeMonth(year, 10) == 245 + february;
    assert DaysBeforeMonth(year, 11) == 276 + february;
    assert DaysBeforeMonth(year, 12) == 306 + february;
    DivideStep(year, 4);
    DivideStep(year, 100);
    DivideStep(year, 400);
  }

  lemma {:induction false} YearsIncrease(a: int, b: int)
    requires a <= b
    ensures DaysBeforeYear(a) + 365 * (b - a) <= DaysBeforeYear(b)
    decreases b - a
  {
    if a < b {
      YearLength(b - 1);
      YearsIncrease(a, b - 1);
    }
  }

  lemma {:induction false} MonthsIncrease(year: int, a: int, b: int)
    requires 1 <= a <= b <= 13
    ensures DaysBeforeMonth(year, a) + 28 * (b - a) <= DaysBeforeMonth(year, b)
    ensures a < b ==> DaysBeforeMonth(year, a) + DaysInMonth(year, a) <= DaysBeforeMonth(year, b)
  {
    if a < b {
      MonthsIncrease(year, a, b - 1);
    }
  }

  /** Dates and their ordinals are ordered alike, so a date is determined by its ordinal. */
  lemma OrdinalOrder(a: Date, b: Date)
    requires ValidDate(a) && ValidDate(b)
    ensures AtMost(a, b) <==> Ordinal(a) <= Ordinal(b)
    ensures Ordinal(a) == Ordinal(b) ==> a == b
  {
    if a.year < b.year {
      YearBefore(a, b);
    } else if b.year < a.year {
      YearBefore(b, a);
    } else if a.month < b.month {
      MonthsIncrease(a.year, a.month, b.month);
    } else if b.month < a.month {
      MonthsIncrease(a.year, b.month, a.month);
    }
  }

  lemma YearBefore(a: Date, b: Date)
    requires ValidDate(a) && ValidDate(b) && a.year < b.year
    ensures Ordinal(a) < Ordinal(b)
  {
    YearLength(a.year);
    YearsIncrease(a.year + 1, b.year);
    MonthsIncrease(a.year, a.month, 13);
    MonthsIncrease(b.year, 1, b.month);
  }

  // ---- From ordinals to dates ----

  function YearOf(n: int, guess: int): (year: int)
    ensures DaysBeforeYear(year) < n <= DaysBeforeYear(year + 1)
    decreases if n <= DaysBeforeYear(guess) then DaysBeforeYear(guess) - n + 1 else 0,
              if n > DaysBeforeYear(guess) then n - DaysBeforeYear(guess) else 0
  {
    YearLength(guess - 1);
    YearLength(guess);
    if n <= DaysBeforeYear(guess) then YearOf(n, guess - 1)
    else if n > DaysBeforeYear(guess + 1) then YearOf(n, guess + 1)
    else guess
  }

  function MonthOf(year: int, n: int, month: int): (m: int)
    requires 1 <= month <= 12 && 1 <= n <= DaysBeforeMonth(year, month + 1)
    ensures 1 <= m <= month && DaysBeforeMonth(year, m) < n <= DaysBeforeMonth(year, m + 1)
  {
    if n > DaysBeforeMonth(year, month) then month else MonthOf(year, n, month - 1)
  }

  function FromOrdinal(n: int): (d: Date)
    ensures ValidDate(d) && Ordinal(d) == n
  {
    var year := YearOf(n, 1970);
    YearLength(year);
    var rest := n - DaysBeforeYear(year);
    var month := MonthOf(year, rest, 12);
    Date(year, month, rest - DaysBeforeMonth(year, month))
  }

  /** The two conversions are inverse to each other. */
  lemma OrdinalRoundTrip(d: Date)
    requires ValidDate(d)
    ensures FromOrdinal(Ordinal(d)) == d
  {
    OrdinalOrder(FromOrdinal(Ordinal(d)), d);
  }

  function AddDays(d: Date, days: int): (r: Date)
    requires ValidDate(d)
    ensures ValidDate(r) && Ordinal(r) == Ordinal(d) + days
  {
    FromOrdinal(Ordinal(d) + days)
  }

  /** The ordinal of the first day of 1970. */
  const EPOCH: int := 719163

  function LocalDate(t: Time): (d: Date)
    ensures ValidDate(d)
  {
    FromOrdinal(EPOCH + (t + OFFSET) / DAY_LENGTH)
  }

  /** Monday is zero; the first day of the first year was a Monday. */
  function Weekday(d: Date): (w: int)
    requires ValidDate(d)
    ensures 0 <= w < 7
  {
    (Ordinal(d) - 1) % 7
  }

  // ---- Buckets ----

  datatype Granularity = Day | Week | Month

  /** The first date of the bucket that a local date falls in. */
  function BucketOf(d: Date, g: Granularity): (b: Date)
    requires ValidDate(d)
    ensures ValidDate(b)
  {
    match g
    case Day => d
    case Week => AddDays(d, -Weekday(d))
    case Month => Date(d.year, d.month, 1)
  }

  function NextMonth(d: Date): Date {
    if d.month == 12 then Date(d.year + 1, 1, 1) else Date(d.year, d.month + 1, 1)
  }

  function NextBucket(b: Date, g: Granularity): (n: Date)
    requires ValidDate(b)
    ensures ValidDate(n)
  {
    match g
    case Day => AddDays(b, 1)
    case Week => AddDays(b, 7)
    case Month => NextMonth(b)
  }

  /** Buckets of one granularity, numbered in time order. */
  function Index(d: Date, g: Granularity): int
    requires ValidDate(d)
  {
    match g
    case Day => Ordinal(d)
    case Week => (Ordinal(d) - 1) / 7
    case Month => 12 * d.year + d.month
  }

  predicate IsBucket(b: Date, g: Granularity) {
    ValidDate(b) && BucketOf(b, g) == b
  }

  lemma WeekStart(d: Date)
    requires ValidDate(d)
    ensures Ordinal(BucketOf(d, Week)) == 7 * ((Ordinal(d) - 1) / 7) + 1
    ensures Index(BucketOf(d, Week), Week) == Index(d, Week)
  {
    Quotient(Ordinal(BucketOf(d, Week)) - 1, 7, (Ordinal(d) - 1) / 7, 0);
  }

  /** A date's bucket has the date's index, and buckets are ordered and told apart by their indices. */
  lemma BucketHasIndex(d: Date, g: Granularity)
    requires ValidDate(d)
    ensures Index(BucketOf(d, g), g) == Index(d, g) && IsBucket(BucketOf(d, g), g)
  {
    if g.Week? {
      WeekStart(d);
      WeekStart(BucketOf(d, Week));
      OrdinalOrder(BucketOf(d, Week), BucketOf(BucketOf(d, Week), Week));
    }
  }

  lemma BucketOrder(a: Date, b: Date, g: Granularity)
    requires IsBucket(a, g) && IsBucket(b, g)
    ensures AtMost(a, b) <==> Index(a, g) <= Index(b, g)
    ensures Index(a, g) == Index(b, g) ==> a == b
  {
    OrdinalOrder(a, b);
    if g.Week? {
      WeekStart(a);
      WeekStart(b);
    }
  }

  lemma NextHasNextIndex(b: Date, g: Granularity)
    requires IsBucket(b, g)
    ensures IsBucket(NextBucket(b, g), g) && Index(NextBucket(b, g), g) == Index(b, g) + 1
  {
    match g
    case Day =>
    case Month =>
    case Week =>
      WeekStart(b);
      var n := NextBucket(b, Week);
      Quotient(Ordinal(n) - 1, 7, (Ordinal(b) - 1) / 7 + 1, 0);
      WeekStart(n);
      OrdinalOrder(n, BucketOf(n, Week));
  }

  /** Indices follow the order of dates. */
  lemma IndexIncreases(a: Date, b: Date, g: Granularity)
    requires ValidDate(a) && ValidDate(b) && Ordinal(a) <= Ordinal(b)
    ensures Index(a, g) <= Index(b, g)
  {
    OrdinalOrder(a, b);
    if g.Week? {
      DivideIncreases(Ordinal(a) - 1, Ordinal(b) - 1, 7);
    }
  }

  // ---- Periods ----

  datatype Span = Span(start: Time, end: Time)

  /** A period starts before it ends. */
  type Period = p: Span | p.start < p.end witness Span(0, 1)

  predicate Within(t: Time, p: Period) {
    p.start <= t < p.end
  }

  function First(p: Period): Date {
    LocalDate(p.start)
  }

  /** The local date of the last microsecond. */
  function Last(p: Period): Date {
    LocalDate(p.end - 1)
  }

  const MAX_DAYS := 366
  const MAX_WEEKS := 5200
  const MAX_MONTHS := 1200

  function Maximum(g: Granularity): int {
    match g
    case Day => MAX_DAYS
    case Week => MAX_WEEKS
    case Month => MAX_MONTHS
  }

  /** The number of buckets as the size check counts them. */
  function Requested(p: Period, g: Granularity): int {
    match g
    case Day => Ordinal(Last(p)) - Ordinal(First(p)) + 1
    case Week => (Ordinal(BucketOf(Last(p), Week)) - Ordinal(BucketOf(First(p), Week))) / 7 + 1
    case Month => (Last(p).year - First(p).year) * 12 + Last(p).month - First(p).month + 1
  }

  predicate Accepted(p: Period, g: Granularity) {
    Requested(p, g) <= Maximum(g)
  }

  predicate StrictlyIncreasing(dates: seq<Date>) {
    forall i, j | 0 <= i < j < |dates| :: AtMost(dates[i], dates[j]) && dates[i] != dates[j]
  }

  /** Consecutive buckets from one index on. */
  ghost predicate Consecutive(dates: seq<Date>, g: Granularity, first: int) {
    forall i | 0 <= i < |dates| :: IsBucket(dates[i], g) && Index(dates[i], g) == first + i
  }

  lemma ConsecutiveIncreases(dates: seq<Date>, g: Granularity, first: int)
    requires Consecutive(dates, g, first)
    ensures StrictlyIncreasing(dates)
  {
    forall i, j | 0 <= i < j < |dates|
      ensures AtMost(dates[i], dates[j]) && dates[i] != dates[j]
    {
      BucketOrder(dates[i], dates[j], g);
    }
  }

  lemma LocalDatesFollowTime(s: Time, t: Time)
    requires s <= t
    ensures Ordinal(LocalDate(s)) <= Ordinal(LocalDate(t))
  {
    DivideIncreases(s + OFFSET, t + OFFSET, DAY_LENGTH);
  }

  /** Weeks between two dates, counted from their Mondays. */
  lemma WeeksBetween(a: Date, b: Date)
    requires ValidDate(a) && ValidDate(b)
    ensures (Ordinal(BucketOf(b, Week)) - Ordinal(BucketOf(a, Week))) / 7 == Index(b, Week) - Index(a, Week)
  {
    WeekStart(a);
    WeekStart(b);
    var weeks := (Ordinal(b) - 1) / 7 - (Ordinal(a) - 1) / 7;
    Quotient(Ordinal(BucketOf(b, Week)) - Ordinal(BucketOf(a, Week)), 7, weeks, 0);
  }

  /** The size check counts the indices between the first and the last bucket. */
  lemma RequestedIsIndexRange(p: Period, g: Granularity)
    ensures Requested(p, g) == Index(Last(p), g) - Index(First(p), g) + 1
    ensures Requested(p, g) >= 1
  {
    LocalDatesFollowTime(p.start, p.end - 1);
    var first, last := First(p), Last(p);
    IndexIncreases(first, last, g);
    WeeksBetween(first, last);
  }

  /**
   The buckets of a period: their number is the one requested, they strictly increase, and they
   are exactly the buckets that the moments of the period fall in.
   */
  method PeriodBuckets(p: Period, g: Granularity) returns (buckets: seq<Date>)
    ensures |buckets| == Requested(p, g)
    ensures StrictlyIncreasing(buckets)
    ensures forall t | Within(t, p) :: BucketOf(LocalDate(t), g) in buckets
    ensures Consecutive(buckets, g, Index(First(p), g))
  {
    var first, last := First(p), Last(p);
    BucketHasIndex(first, g);
    BucketHasIndex(last, g);
    RequestedIsIndexRange(p, g);
    buckets := CollectBuckets(BucketOf(first, g), BucketOf(last, g), g);
    ConsecutiveIncreases(buckets, g, Index(first, g));
    forall t | Within(t, p) ensures BucketOf(LocalDate(t), g) in buckets {
      BucketListed(p, g, buckets, t);
    }
  }

  /** Every bucket from the first to the last, by stepping from each to the next. */
  method CollectBuckets(first: Date, last: Date, g: Granularity) returns (buckets: seq<Date>)
    requires IsBucket(first, g) && IsBucket(last, g) && Index(first, g) <= Index(last, g)
    ensures Consecutive(buckets, g, Index(first, g)) && |buckets| == Index(last, g) - Index(first, g) + 1
  {
    var current := first;
    buckets := [];
    BucketOrder(current, last, g);
    while AtMost(current, last)
      invariant IsBucket(current, g)
      invariant Index(current, g) == Index(first, g) + |buckets| <= Index(last, g) + 1
      invariant AtMost(current, last) <==> Index(current, g) <= Index(last, g)
      invariant Consecutive(buckets, g, Index(first, g))
      decreases Index(last, g) + 1 - Index(current, g)
    {
      OneMoreBucket(buckets, g, Index(first, g), current);
      buckets := buckets + [current];
      NextStep(current, last, g);
      current := NextBucket(current, g);
    }
  }

  lemma OneMoreBucket(buckets: seq<Date>, g: Granularity, first: int, current: Date)
    requires Consecutive(buckets, g, first) && IsBucket(current, g) && Index(current, g) == first + |buckets|
    ensures Consecutive(buckets + [current], g, first)
  {
  }

  lemma NextStep(current: Date, last: Date, g: Granularity)
    requires IsBucket(current, g) && IsBucket(last, g)
    ensures IsBucket(NextBucket(current, g), g) && Index(NextBucket(current, g), g) == Index(current, g) + 1
    ensures AtMost(NextBucket(current, g), last) <==> Index(current, g) + 1 <= Index(last, g)
  {
    NextHasNextIndex(current, g);
    BucketOrder(NextBucket(current, g), last, g);
  }

  lemma IndexInRange(p: Period, g: Granularity, t: Time)
    requires Within(t, p)
    ensures 0 <= Index(LocalDate(t), g) - Index(First(p), g) < Requested(p, g)
  {
    RequestedIsIndexRange(p, g);
    LocalDatesFollowTime(p.start, t);
    LocalDatesFollowTime(t, p.end - 1);
    IndexIncreases(First(p), LocalDate(t), g);
    IndexIncreases(LocalDate(t), Last(p), g);
  }

  lemma BucketListed(p: Period, g: Granularity, buckets: seq<Date>, t: Time)
    requires Consecutive(buckets, g, Index(First(p), g)) && |buckets| == Requested(p, g) && Within(t, p)
    ensures BucketOf(LocalDate(t), g) in buckets
  {
    IndexInRange(p, g, t);
    BucketHasIndex(LocalDate(t), g);
    var i := Index(LocalDate(t), g) - Index(First(p), g);
    BucketOrder(buckets[i], BucketOf(LocalDate(t), g), g);
  }
}
