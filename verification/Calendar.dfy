/** The proleptic Gregorian calendar, as the date arithmetic of app/ai/handlers/utils.py uses it. */
module Calendar {

  datatype Date = Date(year: int, month: int, day: int)

  predicate IsLeap(year: int) {
    year % 4 == 0 && (year % 100 != 0 || year % 400 == 0)
  }

  function DaysInYear(year: int): int {
    if IsLeap(year) then 366 else 365
  }

  function DaysInMonth(year: int, month: int): int {
    if month == 2 then (if IsLeap(year) then 29 else 28)
    else if month in {4, 6, 9, 11} then 30
    else 31
  }

  predicate IsDate(d: Date) {
    d.year >= 1 && 1 <= d.month <= 12 && 1 <= d.day <= DaysInMonth(d.year, d.month)
  }

  function DaysBeforeYear(year: int): int {
    var y := year - 1;
    365 * y + y / 4 - y / 100 + y / 400
  }

  function DaysBeforeMonth(year: int, month: int): int
    requires 1 <= month <= 12
  {
    var common := [0, 31, 59, 90, 120, 151, 181, 212, 243, 273, 304, 334];
    common[month - 1] + if month > 2 && IsLeap(year) then 1 else 0
  }

  /** `date.toordinal()`: 1 for the first of January of year 1. */
  function Ordinal(d: Date): int
    requires IsDate(d)
  {
    DaysBeforeYear(d.year) + DaysBeforeMonth(d.year, d.month) + d.day
  }

  lemma QuotientStep(n: int, k: int)
    requires k > 0
    ensures (n + 1) / k == n / k + if (n + 1) % k == 0 then 1 else 0
  {
    var q, r := n / k, n % k;
    assert n == k * q + r;
    if r + 1 == k {
      Quotient(n + 1, k, q + 1, 0);
    } else {
      Quotient(n + 1, k, q, r + 1);
    }
  }

  lemma Quotient(n: int, k: int, q: int, r: int)
    requires k > 0 && 0 <= r < k && n == k * q + r
    ensures n / k == q && n % k == r
  {
    var d := n / k - q;
    assert k * d == r - n % k;
    MultiplesAreFar(k, d);
  }

  lemma MultiplesAreFar(k: int, d: int)
    requires k > 0
    ensures d != 0 ==> k * d >= k || k * d <= -k
  {
    if d > 0 {
      assert k * d >= k;
    }
  }

  lemma YearsAdvance(year: int)
    ensures DaysBeforeYear(year + 1) == DaysBeforeYear(year) + DaysInYear(year)
  {
    QuotientStep(year - 1, 4);
    QuotientStep(year - 1, 100);
    QuotientStep(year - 1, 400);
    DivisibleFurther(year);
  }

  lemma DivisibleFurther(year: int)
    ensures year % 400 == 0 ==> year % 100 == 0
    ensures year % 100 == 0 ==> year % 4 == 0
  {
  }

  lemma MonthsAdvance(year: int, month: int)
    requires 1 <= month <= 12
    ensures DaysBeforeMonth(year, month) + DaysInMonth(year, month)
            == if month == 12 then DaysInYear(year) else DaysBeforeMonth(year, month + 1)
  {
  }

  /** The first day of the next month. */
  function NextMonth(year: int, month: int): Date {
    if month == 12 then Date(year + 1, 1, 1) else Date(year, month + 1, 1)
  }

  function NextDay(d: Date): Date {
    if d.day < DaysInMonth(d.year, d.month) then d.(day := d.day + 1) else NextMonth(d.year, d.month)
  }

  lemma NextMonthOrdinal(year: int, month: int)
    requires year >= 1 && 1 <= month <= 12
    ensures IsDate(NextMonth(year, month))
    ensures Ordinal(NextMonth(year, month)) == Ordinal(Date(year, month, 1)) + DaysInMonth(year, month)
  {
    YearsAdvance(year);
    MonthsAdvance(year, month);
  }

  /** The closed form counts days: the next day has the next ordinal, across leap days and year ends. */
  lemma NextDayOrdinal(d: Date)
    requires IsDate(d)
    ensures IsDate(NextDay(d)) && Ordinal(NextDay(d)) == Ordinal(d) + 1
  {
    NextMonthOrdinal(d.year, d.month);
  }

  /** `date.fromordinal(n)` */
  function FromOrdinal(n: int): (d: Date)
    requires n >= 1
    ensures IsDate(d) && Ordinal(d) == n
  {
    if n == 1 then Date(1, 1, 1)
    else
      var yesterday := FromOrdinal(n - 1);
      NextDayOrdinal(yesterday);
      NextDay(yesterday)
  }

  predicate Before(a: Date, b: Date) {
    a.year < b.year || (a.year == b.year && (a.month < b.month || (a.month == b.month && a.day < b.day)))
  }

  lemma {:induction false} EarlierYears(a: int, b: int)
    requires a <= b
    ensures DaysBeforeYear(a) <= DaysBeforeYear(b)
    ensures a < b ==> DaysBeforeYear(a) + DaysInYear(a) <= DaysBeforeYear(b)
    decreases b - a
  {
    YearsAdvance(a);
    if a < b {
      EarlierYears(a + 1, b);
    }
  }

  lemma DayWithinYear(d: Date)
    requires IsDate(d)
    ensures 1 <= DaysBeforeMonth(d.year, d.month) + d.day <= DaysInYear(d.year)
  {
  }

  lemma MonthsAreOrdered(year: int, a: int, b: int)
    requires 1 <= a < b <= 12
    ensures DaysBeforeMonth(year, a) + DaysInMonth(year, a) <= DaysBeforeMonth(year, b)
  {
  }

  /** Ordinals follow the calendar order, so different dates have different ordinals. */
  lemma OrdinalsAreOrdered(a: Date, b: Date)
    requires IsDate(a) && IsDate(b)
    ensures Before(a, b) <==> Ordinal(a) < Ordinal(b)
    ensures a == b <==> Ordinal(a) == Ordinal(b)
    ensures Ordinal(a) >= 1
  {
    OrderedOneWay(a, b);
    OrderedOneWay(b, a);
    EarlierYears(1, a.year);
    assert DaysBeforeYear(1) == 0;
  }

  lemma OrderedOneWay(a: Date, b: Date)
    requires IsDate(a) && IsDate(b)
    ensures Before(a, b) ==> Ordinal(a) < Ordinal(b)
  {
    if a.year < b.year {
      EarlierYears(a.year, b.year);
      DayWithinYear(a);
      DayWithinYear(b);
    } else if a.year == b.year && a.month < b.month {
      MonthsAreOrdered(a.year, a.month, b.month);
    }
  }

  lemma FromOrdinalInverts(d: Date)
    requires IsDate(d)
    ensures Ordinal(d) >= 1 && FromOrdinal(Ordinal(d)) == d
  {
    OrdinalsAreOrdered(d, d);
    OrdinalsAreOrdered(FromOrdinal(Ordinal(d)), d);
  }

  /** `date.weekday()`: 0 for Monday. */
  function Weekday(d: Date): (w: int)
    requires IsDate(d)
    ensures 0 <= w < 7
  {
    (Ordinal(d) + 6) % 7
  }
}
