/**
 Texts ordered character by character, and dates written as year, month and day: such texts are
 ordered as the dates are.
 */
module TextOrder {
  import opened KeysetPages
  import opened Calendar
  import opened Decimals

  predicate TextBefore(a: string, b: string) {
    b != "" && (a == "" || a[0] < b[0] || (a[0] == b[0] && TextBefore(a[1..], b[1..])))
  }

  lemma {:induction false} TextIsTotal(a: string, b: string)
    ensures a == b || TextBefore(a, b) || TextBefore(b, a)
    ensures !(TextBefore(a, b) && TextBefore(b, a))
  {
    if a != "" && b != "" && a[0] == b[0] {
      TextIsTotal(a[1..], b[1..]);
      assert a == [a[0]] + a[1..] && b == [b[0]] + b[1..];
    }
  }

  lemma {:induction false} TextIsTransitive(a: string, b: string, c: string)
    requires TextBefore(a, b) && TextBefore(b, c)
    ensures TextBefore(a, c)
  {
    if a != "" && a[0] == b[0] && b[0] == c[0] {
      TextIsTransitive(a[1..], b[1..], c[1..]);
    }
  }

  lemma TextIsOrdered()
    ensures StrictOrder(TextBefore)
  {
    forall a: string, b: string ensures a == b || TextBefore(a, b) || TextBefore(b, a)
    {
      TextIsTotal(a, b);
    }
    forall a: string, b: string | TextBefore(a, b) ensures !TextBefore(b, a)
    {
      TextIsTotal(a, b);
    }
    forall a: string, b: string, c: string | TextBefore(a, b) && TextBefore(b, c) ensures TextBefore(a, c)
    {
      TextIsTransitive(a, b, c);
    }
  }

  /** Texts whose first parts are equally long are ordered by those, then by the rest. */
  lemma {:induction false} PartByPart(a: string, x: string, b: string, y: string)
    requires |a| == |b|
    ensures TextBefore(a + x, b + y) <==> TextBefore(a, b) || (a == b && TextBefore(x, y))
  {
    if a == "" {
      assert a + x == x && b + y == y;
    } else {
      PartByPart(a[1..], x, b[1..], y);
      assert (a + x)[1..] == a[1..] + x && (b + y)[1..] == b[1..] + y;
      assert a == [a[0]] + a[1..] && b == [b[0]] + b[1..];
    }
  }

  // ---- Numbers of fixed width ----

  function Padded(n: nat, width: nat): (s: string)
    ensures |s| == width
  {
    if width == 0 then "" else Padded(n / 10, width - 1) + [Digit(n % 10)]
  }

  predicate Fits(n: nat, width: nat) {
    if width == 0 then n == 0 else Fits(n / 10, width - 1)
  }

  lemma {:induction false} PaddedOrder(m: nat, n: nat, width: nat)
    requires Fits(m, width) && Fits(n, width)
    ensures TextBefore(Padded(m, width), Padded(n, width)) <==> m < n
    ensures Padded(m, width) == Padded(n, width) ==> m == n
  {
    if width > 0 {
      PaddedOrder(m / 10, n / 10, width - 1);
      PartByPart(Padded(m / 10, width - 1), [Digit(m % 10)], Padded(n / 10, width - 1), [Digit(n % 10)]);
      LastPart(Padded(m / 10, width - 1), Digit(m % 10), Padded(n / 10, width - 1), Digit(n % 10));
      TenStep(m, n);
    }
  }

  lemma LastPart(a: string, x: char, b: string, y: char)
    requires |a| == |b|
    ensures TextBefore([x], [y]) <==> x < y
    ensures a + [x] == b + [y] ==> a == b && x == y
  {
    if a + [x] == b + [y] {
      assert (a + [x])[..|a|] == a && (b + [y])[..|b|] == b;
      assert (a + [x])[|a|] == x && (b + [y])[|b|] == y;
    }
  }

  lemma TenStep(m: nat, n: nat)
    ensures m < n <==> m / 10 < n / 10 || (m / 10 == n / 10 && m % 10 < n % 10)
    ensures m == n <==> m / 10 == n / 10 && m % 10 == n % 10
    ensures Digit(m % 10) < Digit(n % 10) <==> m % 10 < n % 10
    ensures Digit(m % 10) == Digit(n % 10) <==> m % 10 == n % 10
  {
  }

  // ---- Dates ----

  predicate FourDigits(d: Date) {
    ValidDate(d) && 0 <= d.year <= 9999
  }

  /** Timestamps have years of four digits; of a longer year this keeps the last four. */
  function DateText(d: Date): string
    requires ValidDate(d)
  {
    Padded(d.year % 10_000, 4) + MonthText(d)
  }

  function MonthText(d: Date): string
    requires ValidDate(d)
  {
    "-" + (Padded(d.month, 2) + DayText(d))
  }

  function DayText(d: Date): string
    requires ValidDate(d)
  {
    "-" + Padded(d.day, 2)
  }

  lemma PartsFit(d: Date)
    requires FourDigits(d)
    ensures Fits(d.year, 4) && Fits(d.month, 2) && Fits(d.day, 2)
  {
    assert d.year / 10 <= 999 && d.year / 10 / 10 <= 99 && d.year / 10 / 10 / 10 <= 9;
    assert Fits(d.year / 10 / 10 / 10, 1);
    assert Fits(d.year / 10 / 10, 2);
    assert Fits(d.month / 10, 1) && Fits(d.day / 10, 1);
  }

  /** Written dates are ordered as the dates are, as long as the year has four digits. */
  lemma WrittenDatesInOrder(a: Date, b: Date)
    requires FourDigits(a) && FourDigits(b)
    ensures TextBefore(DateText(a), DateText(b)) <==> AtMost(a, b) && a != b
  {
    YearsInOrder(a, b);
    MonthsInOrder(a, b);
    PartByPart(Padded(a.year, 4), MonthText(a), Padded(b.year, 4), MonthText(b));
  }

  lemma WrittenDatesDiffer(a: Date, b: Date)
    requires FourDigits(a) && FourDigits(b) && a != b
    ensures DateText(a) != DateText(b)
  {
    WrittenDatesInOrder(a, b);
    WrittenDatesInOrder(b, a);
    TextIsTotal(DateText(a), DateText(b));
  }

  lemma YearsInOrder(a: Date, b: Date)
    requires FourDigits(a) && FourDigits(b)
    ensures TextBefore(Padded(a.year, 4), Padded(b.year, 4)) <==> a.year < b.year
    ensures Padded(a.year, 4) == Padded(b.year, 4) ==> a.year == b.year
    ensures DateText(a) == Padded(a.year, 4) + MonthText(a) && DateText(b) == Padded(b.year, 4) + MonthText(b)
  {
    PartsFit(a);
    PartsFit(b);
    PaddedOrder(a.year, b.year, 4);
    SmallRemainder(a.year);
    SmallRemainder(b.year);
  }

  lemma SmallRemainder(year: int)
    requires 0 <= year <= 9999
    ensures year % 10_000 == year
  {
  }

  lemma MonthsInOrder(a: Date, b: Date)
    requires FourDigits(a) && FourDigits(b)
    ensures TextBefore(MonthText(a), MonthText(b)) <==> a.month < b.month || (a.month == b.month && a.day < b.day)
  {
    PartsFit(a);
    PartsFit(b);
    PaddedOrder(a.month, b.month, 2);
    DaysInOrder(a, b);
    PartByPart("-", Padded(a.month, 2) + DayText(a), "-", Padded(b.month, 2) + DayText(b));
    PartByPart(Padded(a.month, 2), DayText(a), Padded(b.month, 2), DayText(b));
  }

  lemma DaysInOrder(a: Date, b: Date)
    requires FourDigits(a) && FourDigits(b)
    ensures TextBefore(DayText(a), DayText(b)) <==> a.day < b.day
  {
    PartsFit(a);
    PartsFit(b);
    PaddedOrder(a.day, b.day, 2);
    PartByPart("-", Padded(a.day, 2), "-", Padded(b.day, 2));
  }
}
