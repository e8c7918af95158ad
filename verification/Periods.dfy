/** Reporting periods as half-open intervals of instants (app/ai/handlers/utils.py), and the day
    boundaries that the sales service computes on its own (app/services/sales_service.py). */
module Periods {
  import opened Calendar

  datatype RelativePeriod = DAY | WEEK | MONTH | YEAR

  datatype ReportingPeriod = Relative(kind: RelativePeriod) | DateRange(startDate: Date, endDate: Date)

  /** Instants are microseconds of UTC. A time zone maps each local date, by its ordinal, to the
      instant of its midnight, and each instant to its local date. */
  datatype TimeZone = TimeZone(midnight: int -> int, dateOf: int -> int)

  ghost predicate ZoneOk(z: TimeZone) {
    && (forall m, n :: m < n ==> z.midnight(m) < z.midnight(n))
    && (forall t :: z.midnight(z.dateOf(t)) <= t < z.midnight(z.dateOf(t) + 1))
  }

  const HOUR_MICROS := 3_600_000_000
  const DAY_MICROS := 86_400_000_000

  /** A zone at a fixed offset from UTC whose day `n` starts at `n` whole days plus `shift`. */
  function FixedZone(shift: int): TimeZone {
    TimeZone(n => n * DAY_MICROS + shift, t => (t - shift) / DAY_MICROS)
  }

  /** The Unix epoch is day 719163, and Nairobi is three hours ahead of UTC. */
  const NAIROBI_SHIFT := -719_163 * DAY_MICROS - 3 * HOUR_MICROS

  const NAIROBI := FixedZone(NAIROBI_SHIFT)

  lemma FixedZoneOk(shift: int)
    ensures ZoneOk(FixedZone(shift))
  {
    var z := FixedZone(shift);
    assert forall m, n :: m < n ==> z.midnight(m) < z.midnight(n);
    forall t ensures z.midnight(z.dateOf(t)) <= t < z.midnight(z.dateOf(t) + 1) {
      var d := t - shift;
      assert d == d / DAY_MICROS * DAY_MICROS + d % DAY_MICROS;
    }
  }

  // --------------------------------------------------------------- local dates

  /** The first date of the period around `anchor`, and the first date after it. */
  function LocalBounds(kind: RelativePeriod, anchor: Date): (b: (Date, Date))
    requires IsDate(anchor)
    ensures IsDate(b.0) && IsDate(b.1)
  {
    OrdinalsAreOrdered(anchor, anchor);
    match kind
    case DAY => (anchor, FromOrdinal(Ordinal(anchor) + 1))
    case WEEK =>
      var start := FromOrdinal(Ordinal(anchor) - Weekday(anchor));
      (start, FromOrdinal(Ordinal(start) + 7))
    case MONTH => NextMonthOrdinal(anchor.year, anchor.month);
      (Date(anchor.year, anchor.month, 1), NextMonth(anchor.year, anchor.month))
    case YEAR => (Date(anchor.year, 1, 1), Date(anchor.year + 1, 1, 1))
  }

  /** `date` lies in the period around `anchor`. */
  predicate InPeriod(date: Date, kind: RelativePeriod, anchor: Date)
    requires IsDate(date) && IsDate(anchor)
  {
    Ordinal(LocalBounds(kind, anchor).0) <= Ordinal(date) < Ordinal(LocalBounds(kind, anchor).1)
  }

  lemma PeriodHoldsItsAnchor(kind: RelativePeriod, anchor: Date)
    requires IsDate(anchor)
    ensures InPeriod(anchor, kind, anchor)
  {
    if kind == MONTH {
      NextMonthOrdinal(anchor.year, anchor.month);
    } else if kind == YEAR {
      OrdinalsAreOrdered(anchor, Date(anchor.year + 1, 1, 1));
      OrdinalsAreOrdered(anchor, Date(anchor.year, 1, 1));
    }
  }

  /** Every date inside a period anchors that same period. */
  lemma EveryAnchorAgrees(kind: RelativePeriod, anchor: Date, other: Date)
    requires IsDate(anchor) && IsDate(other) && InPeriod(other, kind, anchor)
    ensures LocalBounds(kind, other) == LocalBounds(kind, anchor)
  {
    hide Ordinal, FromOrdinal;
    var (start, end) := LocalBounds(kind, anchor);
    OrdinalsAreOrdered(other, start);
    OrdinalsAreOrdered(other, end);
    match kind {
      case DAY => OrdinalsAreOrdered(anchor, other);
      case WEEK => SameWeek(Ordinal(anchor), Ordinal(other));
      case MONTH =>
      case YEAR =>
    }
  }

  lemma SameWeek(a: int, b: int)
    requires a - (a + 6) % 7 <= b < a - (a + 6) % 7 + 7
    ensures b - (b + 6) % 7 == a - (a + 6) % 7
  {
  }

  /** The day before a period starts anchors the previous period, which ends where this one starts. */
  lemma PreviousEndsAtStart(kind: RelativePeriod, anchor: Date)
    requires IsDate(anchor) && Ordinal(LocalBounds(kind, anchor).0) > 1
    ensures var start := LocalBounds(kind, anchor).0;
            var previous := LocalBounds(kind, FromOrdinal(Ordinal(start) - 1));
            previous.1 == start && Ordinal(previous.0) < Ordinal(start)
  {
    hide Ordinal, FromOrdinal, LocalBounds;
    var start := LocalBounds(kind, anchor).0;
    var eve := FromOrdinal(Ordinal(start) - 1);
    NextDayOrdinal(eve);
    OrdinalsAreOrdered(NextDay(eve), start);
    EveEndsAtStart(kind, anchor, eve);
    PeriodHoldsItsAnchor(kind, eve);
  }

  lemma EveEndsAtStart(kind: RelativePeriod, anchor: Date, eve: Date)
    requires IsDate(anchor) && IsDate(eve) && NextDay(eve) == LocalBounds(kind, anchor).0
    ensures LocalBounds(kind, eve).1 == LocalBounds(kind, anchor).0
  {
    hide Ordinal, FromOrdinal;
    NextDayOrdinal(eve);
    FromOrdinalInverts(NextDay(eve));
    match kind {
      case DAY =>
      case WEEK => StartsOnMonday(Ordinal(anchor), Ordinal(eve));
      case MONTH =>
      case YEAR =>
    }
  }

  lemma StartsOnMonday(a: int, eve: int)
    requires eve == a - (a + 6) % 7 - 1
    ensures eve - (eve + 6) % 7 + 7 == eve + 1
  {
  }

  // ------------------------------------------------------------------ instants

  /** resolve_period_boundaries, for the instant `now`. */
  function Resolve(p: ReportingPeriod, z: TimeZone, now: int): (int, int)
    requires p.Relative? ==> z.dateOf(now) >= 1
    requires p.DateRange? ==> IsDate(p.startDate) && IsDate(p.endDate)
  {
    match p
    case Relative(kind) =>
      var (start, end) := LocalBounds(kind, FromOrdinal(z.dateOf(now)));
      (z.midnight(Ordinal(start)), z.midnight(Ordinal(end)))
    case DateRange(startDate, endDate) =>
      (z.midnight(Ordinal(startDate)), z.midnight(Ordinal(endDate) + 1))
  }

  /** A period starts after the first day of year 1, so the date before it exists. */
  predicate HasEve(kind: RelativePeriod, z: TimeZone, now: int) {
    z.dateOf(now) >= 1 && Ordinal(LocalBounds(kind, FromOrdinal(z.dateOf(now))).0) > 1
  }

  /** resolve_previous_period_boundaries */
  function ResolvePrevious(p: ReportingPeriod, z: TimeZone, now: int): (int, int)
    requires p.Relative? ==> HasEve(p.kind, z, now)
    requires p.DateRange? ==> IsDate(p.startDate) && IsDate(p.endDate)
  {
    match p
    case Relative(kind) =>
      var currentStart := LocalBounds(kind, FromOrdinal(z.dateOf(now))).0;
      var (start, end) := LocalBounds(kind, FromOrdinal(Ordinal(currentStart) - 1));
      (z.midnight(Ordinal(start)), z.midnight(Ordinal(end)))
    case DateRange(_, _) =>
      var (start, end) := Resolve(p, z, now);
      (start - (end - start), start)
  }

  lemma MidnightsInOrder(z: TimeZone, m: int, n: int)
    requires ZoneOk(z) && m <= n
    ensures z.midnight(m) <= z.midnight(n)
  {
    assert m == n || z.midnight(m) < z.midnight(n);
  }

  /** An instant falls between two midnights exactly when its local date falls between the two days. */
  lemma DateBetween(z: TimeZone, t: int, from: int, to: int)
    requires ZoneOk(z)
    ensures z.midnight(from) <= t < z.midnight(to) <==> from <= z.dateOf(t) < to
  {
    var d := z.dateOf(t);
    assert z.midnight(d) <= t < z.midnight(d + 1);
    assert from <= d ==> from == d || z.midnight(from) < z.midnight(d);
    assert from > d ==> from == d + 1 || z.midnight(d + 1) < z.midnight(from);
    assert to <= d ==> to == d || z.midnight(to) < z.midnight(d);
    assert to > d ==> to == d + 1 || z.midnight(d + 1) < z.midnight(to);
  }

  /** The current period contains the present, and is the same at every instant inside it. */
  lemma PeriodIsStable(kind: RelativePeriod, z: TimeZone, now: int, t: int)
    requires ZoneOk(z) && z.dateOf(now) >= 1
    ensures var (start, end) := Resolve(Relative(kind), z, now);
            && start <= now < end
            && (start <= t < end ==> z.dateOf(t) >= 1 && Resolve(Relative(kind), z, t) == (start, end))
  {
    hide Ordinal, FromOrdinal;
    var anchor := FromOrdinal(z.dateOf(now));
    var (start, end) := LocalBounds(kind, anchor);
    PeriodHoldsItsAnchor(kind, anchor);
    DateBetween(z, now, Ordinal(start), Ordinal(end));
    DateBetween(z, t, Ordinal(start), Ordinal(end));
    OrdinalsAreOrdered(start, end);
    if Ordinal(start) <= z.dateOf(t) < Ordinal(end) {
      EveryAnchorAgrees(kind, anchor, FromOrdinal(z.dateOf(t)));
    }
  }

  /** Two periods of a kind, resolved at any two instants, are the same one or do not overlap. */
  lemma PeriodsAreEqualOrDisjoint(kind: RelativePeriod, z: TimeZone, t: int, u: int)
    requires ZoneOk(z) && z.dateOf(t) >= 1 && z.dateOf(u) >= 1
    ensures var p, q := Resolve(Relative(kind), z, t), Resolve(Relative(kind), z, u);
            p == q || p.1 <= q.0 || q.1 <= p.0
  {
    hide Ordinal, FromOrdinal, LocalBounds;
    var p, q := Resolve(Relative(kind), z, t), Resolve(Relative(kind), z, u);
    var shared := if p.0 <= q.0 then q.0 else p.0;
    PeriodIsStable(kind, z, t, shared);
    PeriodIsStable(kind, z, u, shared);
  }

  /** The previous period ends at the very instant where the current one starts, and is itself the
      period of each instant inside it: no gap, no overlap, no other kind of window. */
  lemma PreviousPeriodIsAdjacent(kind: RelativePeriod, z: TimeZone, now: int, t: int)
    requires ZoneOk(z) && HasEve(kind, z, now)
    ensures var previous := ResolvePrevious(Relative(kind), z, now);
            && previous.0 < previous.1 == Resolve(Relative(kind), z, now).0
            && (previous.0 <= t < previous.1 ==>
                  z.dateOf(t) >= 1 && Resolve(Relative(kind), z, t) == previous)
  {
    hide Ordinal, FromOrdinal;
    var anchor := FromOrdinal(z.dateOf(now));
    PreviousEndsAtStart(kind, anchor);
    var eve := FromOrdinal(Ordinal(LocalBounds(kind, anchor).0) - 1);
    var (start, end) := LocalBounds(kind, eve);
    DateBetween(z, t, Ordinal(start), Ordinal(end));
    OrdinalsAreOrdered(start, end);
    if Ordinal(start) <= z.dateOf(t) < Ordinal(end) {
      EveryAnchorAgrees(kind, eve, FromOrdinal(z.dateOf(t)));
    }
  }

  /** For an explicit range the previous window is adjacent and equally long. */
  lemma PreviousWindowIsAsLong(startDate: Date, endDate: Date, z: TimeZone, now: int)
    requires ZoneOk(z) && IsDate(startDate) && IsDate(endDate) && Before(startDate, endDate)
    ensures var p := DateRange(startDate, endDate);
            var current, previous := Resolve(p, z, now), ResolvePrevious(p, z, now);
            && previous.1 == current.0
            && previous.1 - previous.0 == current.1 - current.0 > 0
  {
    OrdinalsAreOrdered(startDate, endDate);
  }

  /** At a fixed offset that window is a whole number of local days: the days just before the range,
      as many as the range has. */
  lemma PreviousWindowIsWholeDays(startDate: Date, endDate: Date, shift: int, now: int)
    requires IsDate(startDate) && IsDate(endDate) && Before(startDate, endDate)
    ensures var z, days := FixedZone(shift), Ordinal(endDate) + 1 - Ordinal(startDate);
            ResolvePrevious(DateRange(startDate, endDate), z, now)
            == (z.midnight(Ordinal(startDate) - days), z.midnight(Ordinal(startDate)))
  {
  }

  /** In the zone of the shops all of the above holds. */
  lemma NairobiPeriods(kind: RelativePeriod, now: int, t: int)
    requires NAIROBI.dateOf(now) >= 1
    ensures var current := Resolve(Relative(kind), NAIROBI, now);
            && current.0 <= now < current.1
            && (current.0 <= t < current.1 ==> NAIROBI.dateOf(t) >= 1 && Resolve(Relative(kind), NAIROBI, t) == current)
    ensures HasEve(kind, NAIROBI, now) ==>
      var previous := ResolvePrevious(Relative(kind), NAIROBI, now);
      && previous.0 < previous.1 == Resolve(Relative(kind), NAIROBI, now).0
      && (previous.0 <= t < previous.1 ==>
            NAIROBI.dateOf(t) >= 1 && Resolve(Relative(kind), NAIROBI, t) == previous)
  {
    hide Resolve, ResolvePrevious, HasEve, ZoneOk;
    FixedZoneOk(NAIROBI_SHIFT);
    PeriodIsStable(kind, NAIROBI, now, t);
    if HasEve(kind, NAIROBI, now) {
      PreviousPeriodIsAdjacent(kind, NAIROBI, now, t);
    }
  }

  lemma DayPeriod(z: TimeZone, now: int)
    requires z.dateOf(now) >= 1
    ensures Resolve(Relative(DAY), z, now) == (z.midnight(z.dateOf(now)), z.midnight(z.dateOf(now) + 1))
  {
    hide Ordinal, FromOrdinal;
  }

  lemma WholeDays(k: int)
    ensures k * DAY_MICROS % DAY_MICROS == 0
  {
  }

  lemma NairobiMidnight(day: int)
    ensures NAIROBI.midnight(day) == (day - 719_164) * DAY_MICROS + 21 * HOUR_MICROS
  {
  }

  /** Its days start at nine in the evening, UTC, and last twenty-four hours; day 719163 is the epoch. */
  lemma NairobiDays(now: int)
    requires NAIROBI.dateOf(now) >= 1
    ensures var (start, end) := Resolve(Relative(DAY), NAIROBI, now);
            && start <= now < end == start + DAY_MICROS
            && (start - 21 * HOUR_MICROS) % DAY_MICROS == 0
    ensures NAIROBI.midnight(Ordinal(Date(1970, 1, 1))) == -3 * HOUR_MICROS
  {
    hide Ordinal, Resolve, ZoneOk;
    var day := NAIROBI.dateOf(now);
    FixedZoneOk(NAIROBI_SHIFT);
    PeriodIsStable(DAY, NAIROBI, now, now);
    DayPeriod(NAIROBI, now);
    NairobiMidnight(day);
    NairobiMidnight(day + 1);
    WholeDays(day - 719_164);
    EpochOrdinal();
  }

  lemma EpochOrdinal()
    ensures Ordinal(Date(1970, 1, 1)) == 719_163
  {
  }

  /** A week runs from a Monday to the next one, the fifth of January 1970 being a Monday. */
  lemma WeekIsMondayToMonday(anchor: Date)
    requires IsDate(anchor)
    ensures var (start, end) := LocalBounds(WEEK, anchor);
            && Ordinal(end) == Ordinal(start) + 7
            && (Ordinal(start) - Ordinal(Date(1970, 1, 5))) % 7 == 0
            && Ordinal(start) <= Ordinal(anchor) < Ordinal(end)
  {
    hide Ordinal, FromOrdinal;
    MondayOrdinal();
    PeriodHoldsItsAnchor(WEEK, anchor);
    WholeWeeks(Ordinal(anchor));
  }

  lemma MondayOrdinal()
    ensures Ordinal(Date(1970, 1, 5)) == 719_167
  {
  }

  lemma WholeWeeks(day: int)
    ensures (day - (day + 6) % 7 - 719_167) % 7 == 0
  {
  }

  /** In Nairobi a week starts at nine in the evening, UTC, on a Sunday, and lasts seven days: a whole number
      of weeks from the fourth day after the epoch, less three hours. */
  lemma NairobiWeeks(now: int)
    requires NAIROBI.dateOf(now) >= 1
    ensures var (start, end) := Resolve(Relative(WEEK), NAIROBI, now);
            && start <= now < end == start + 7 * DAY_MICROS
            && (start - (3 * DAY_MICROS + 21 * HOUR_MICROS)) % (7 * DAY_MICROS) == 0
  {
    hide Ordinal, FromOrdinal, LocalBounds, ZoneOk;
    FixedZoneOk(NAIROBI_SHIFT);
    PeriodIsStable(WEEK, NAIROBI, now, now);
    var anchor := FromOrdinal(NAIROBI.dateOf(now));
    var (start, end) := LocalBounds(WEEK, anchor);
    WeekIsMondayToMonday(anchor);
    MondayOrdinal();
    NairobiMidnight(Ordinal(start));
    NairobiMidnight(Ordinal(end));
    WeeksInMicros(Ordinal(start) - 719_167);
  }

  lemma WeeksInMicros(days: int)
    requires days % 7 == 0
    ensures days * DAY_MICROS % (7 * DAY_MICROS) == 0
  {
    var weeks := days / 7;
    assert days * DAY_MICROS == weeks * (7 * DAY_MICROS);
  }

  /** An explicit range holds an instant exactly when its local date is one of those from the first to the
      last, both included. */
  lemma RangeHoldsItsDates(startDate: Date, endDate: Date, z: TimeZone, now: int, t: int)
    requires ZoneOk(z) && IsDate(startDate) && IsDate(endDate) && z.dateOf(t) >= 1
    ensures var (start, end) := Resolve(DateRange(startDate, endDate), z, now);
            var date := FromOrdinal(z.dateOf(t));
            start <= t < end <==> !Before(date, startDate) && !Before(endDate, date)
  {
    hide Ordinal, FromOrdinal, ZoneOk, Before;
    var date := FromOrdinal(z.dateOf(t));
    DateBetween(z, t, Ordinal(startDate), Ordinal(endDate) + 1);
    OrdinalsAreOrdered(date, startDate);
    OrdinalsAreOrdered(endDate, date);
  }

  /** A month is as long as the calendar says and a year is its twelve months, one after the other. */
  lemma YearIsItsMonths(z: TimeZone, year: int, month: int)
    requires year >= 1 && 1 <= month <= 12
    ensures var first := Date(year, month, 1);
            var m, y := LocalBounds(MONTH, first), LocalBounds(YEAR, first);
            && Ordinal(m.1) == Ordinal(m.0) + DaysInMonth(year, month)
            && (month == 1 ==> m.0 == y.0) && (month == 12 ==> m.1 == y.1)
            && (month < 12 ==> LocalBounds(MONTH, Date(year, month + 1, 1)).0 == m.1)
            && Ordinal(y.1) == Ordinal(y.0) + DaysInYear(year)
  {
    NextMonthOrdinal(year, month);
    YearsAdvance(year);
  }

  // ---------------------------------------------------------- two day functions

  /** What the sales service accepts as a day. */
  datatype DayInput = OnDate(date: Date) | NaiveTime(date: Date, sinceMidnight: int) | AwareTime(instant: int)

  function NormalizedDate(input: DayInput, z: TimeZone): Date
    requires input.AwareTime? ==> z.dateOf(input.instant) >= 1
  {
    match input
    case OnDate(date) => date
    case NaiveTime(date, _) => date
    case AwareTime(t) => FromOrdinal(z.dateOf(t))
  }

  predicate NamesADay(input: DayInput, z: TimeZone) {
    if input.AwareTime? then z.dateOf(input.instant) >= 1 else IsDate(input.date)
  }

  /** SalesService._local_day_bounds_to_utc */
  function LocalDayBounds(input: DayInput, z: TimeZone): (int, int)
    requires NamesADay(input, z)
  {
    var day := Ordinal(NormalizedDate(input, z));
    (z.midnight(day), z.midnight(day + 1))
  }

  /** The two functions, written apart, agree: the day of an instant is the day period around it, and
      the day of a date or of a local time is the day period at any instant of that date. */
  lemma DayBoundariesAgree(input: DayInput, z: TimeZone, now: int)
    requires ZoneOk(z) && NamesADay(input, z)
    requires if input.AwareTime? then now == input.instant else z.dateOf(now) == Ordinal(input.date)
    ensures z.dateOf(now) >= 1 && LocalDayBounds(input, z) == Resolve(Relative(DAY), z, now)
    ensures LocalDayBounds(input, z).0 <= now < LocalDayBounds(input, z).1
  {
    hide Ordinal, FromOrdinal;
    var date := NormalizedDate(input, z);
    OrdinalsAreOrdered(date, date);
    FromOrdinalInverts(date);
    DateBetween(z, now, Ordinal(date), Ordinal(date) + 1);
  }
}
