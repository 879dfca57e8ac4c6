/** The billing calendar: Go's `AddDate` over the proleptic Gregorian calendar in UTC, and the
    period functions of the subscription service and of the lifecycle runner on top of it.

    A month is named by its index 12 * year + (month - 1), a day by its number on a single
    line of days; both may be negative. */
module Calendar {

  /** A point in time: a day number and the nanoseconds since that day's midnight. */
  datatype Instant = Instant(day: int, nanos: int)

  datatype Date = Date(year: int, month: int, day: int)

  predicate AtOrBefore(a: Instant, b: Instant) {
    a.day < b.day || (a.day == b.day && a.nanos <= b.nanos)
  }

  /** The order of instants is total, and a later day comes later whatever the time of day. */
  lemma AtOrBeforeIsOrder(a: Instant, b: Instant, c: Instant)
    ensures AtOrBefore(a, a) && (AtOrBefore(a, b) || AtOrBefore(b, a))
    ensures AtOrBefore(a, b) && AtOrBefore(b, a) ==> a == b
    ensures AtOrBefore(a, b) && AtOrBefore(b, c) ==> AtOrBefore(a, c)
    ensures a.day < b.day ==> AtOrBefore(a, b)
    ensures a.day == b.day ==> (AtOrBefore(a, b) <==> a.nanos <= b.nanos)
  {
  }

  predicate IsLeap(year: int) {
    year % 4 == 0 && (year % 100 != 0 || year % 400 == 0)
  }

  function MonthIndex(d: Date): int {
    12 * d.year + d.month - 1
  }

  /** The number of days of a month. */
  function MonthLength(mi: int): (n: int)
    ensures 28 <= n <= 31
  {
    var m := mi % 12;
    if m == 1 then (if IsLeap(mi / 12) then 29 else 28)
    else if m == 3 || m == 5 || m == 8 || m == 10 then 30
    else 31
  }

  /** Days of a common year before its month m (0 is January). */
  function DaysBefore(m: int): int
    requires 0 <= m < 12
  {
    [0, 31, 59, 90, 120, 151, 181, 212, 243, 273, 304, 334][m]
  }

  /** The day number of January 1st: 365 days a year, and one more for every leap year. */
  function YearStart(year: int): int {
    365 * (year - 1) + (year - 1) / 4 - (year - 1) / 100 + (year - 1) / 400
  }

  /** The day number of the first day of a month. */
  function MonthStart(mi: int): int {
    YearStart(mi / 12) + DaysBefore(mi % 12) + (if mi % 12 >= 2 && IsLeap(mi / 12) then 1 else 0)
  }

  predicate ValidDate(d: Date) {
    1 <= d.month <= 12 && 1 <= d.day <= MonthLength(MonthIndex(d))
  }

  function DayNumber(d: Date): int {
    MonthStart(MonthIndex(d)) + d.day - 1
  }

  /** Day d of a month, where d may lie before or after that month, carried into the month it
      falls in. */
  function Carry(mi: int, d: int): (r: Date)
    ensures ValidDate(r)
    decreases d < 1, if d < 1 then -d else d
  {
    if d < 1 then Carry(mi - 1, d + MonthLength(mi - 1))
    else if d > MonthLength(mi) then Carry(mi + 1, d - MonthLength(mi))
    else Date(mi / 12, mi % 12 + 1, d)
  }

  function CivilDate(day: int): (d: Date)
    ensures ValidDate(d)
  {
    Carry(0, day - MonthStart(0) + 1)
  }

  /** Go's AddDate: the civil year and month are moved, day overflow is carried, and the time of
      day is kept. */
  function AddDate(t: Instant, years: int, months: int, days: int): Instant {
    var d := CivilDate(t.day);
    t.(day := MonthStart(MonthIndex(d) + 12 * years + months) + d.day - 1 + days)
  }

  // ----- The calendar is a bijection between valid dates and day numbers -----

  lemma YearLength(year: int)
    ensures YearStart(year + 1) == YearStart(year) + (if IsLeap(year) then 366 else 365)
  {
    DivStep(year, 4);
    DivStep(year, 100);
    DivStep(year, 400);
  }

  lemma DivStep(n: int, k: int)
    requires k == 4 || k == 100 || k == 400
    ensures n / k - (n - 1) / k == if n % k == 0 then 1 else 0
  {
  }

  lemma NextMonthStart(mi: int)
    ensures MonthStart(mi + 1) == MonthStart(mi) + MonthLength(mi)
  {
    if mi % 12 == 11 {
      assert (mi + 1) / 12 == mi / 12 + 1 && (mi + 1) % 12 == 0;
      YearLength(mi / 12);
    } else {
      assert (mi + 1) / 12 == mi / 12 && (mi + 1) % 12 == mi % 12 + 1;
    }
  }

  /** Counted from March, the months start where the rule of 153 days in five months puts them. */
  lemma MonthsFromMarch(year: int, m: nat)
    requires m < 12
    ensures MonthStart(12 * year + 2 + m) == MonthStart(12 * year + 2) + (153 * m + 2) / 5
  {
    assert (12 * year + 2) / 12 == year && (12 * year + 2) % 12 == 2;
    if m < 10 {
      assert (12 * year + 2 + m) / 12 == year && (12 * year + 2 + m) % 12 == 2 + m;
    } else {
      assert (12 * year + 2 + m) / 12 == year + 1 && (12 * year + 2 + m) % 12 == m - 10;
      YearLength(year);
    }
  }

  lemma MarchAndJanuary(year: int)
    ensures MonthStart(12 * year) == YearStart(year)
    ensures MonthStart(12 * year + 2) == YearStart(year) + 59 + (if IsLeap(year) then 1 else 0)
  {
    assert (12 * year) / 12 == year && (12 * year) % 12 == 0;
    assert (12 * year + 2) / 12 == year && (12 * year + 2) % 12 == 2;
  }

  /** March 1st comes 365 or 366 days after the last one; every fourth year has the long gap, except three of
      four centuries, and 400 years are 146097 days. */
  lemma GregorianYears(year: int)
    ensures MonthStart(12 * year + 2) - MonthStart(12 * (year - 1) + 2)
            == if year % 400 == 0 || (year % 4 == 0 && year % 100 != 0) then 366 else 365
    ensures MonthStart(12 * (year + 400)) - MonthStart(12 * year) == 146097
  {
    hide MonthStart, YearStart;
    MarchAndJanuary(year);
    MarchAndJanuary(year - 1);
    MarchAndJanuary(year + 400);
    YearLength(year - 1);
    FourCenturies(year);
    assert year % 400 == 0 ==> year % 4 == 0;
  }

  lemma FourCenturies(year: int)
    ensures YearStart(year + 400) - YearStart(year) == 146097
  {
    var n := year - 1;
    assert (n + 400) / 4 == n / 4 + 100;
    assert (n + 400) / 100 == n / 100 + 4;
    assert (n + 400) / 400 == n / 400 + 1;
    assert year + 400 - 1 == n + 400;
  }

  lemma {:induction false} CarryKeepsDay(mi: int, d: int)
    ensures DayNumber(Carry(mi, d)) == MonthStart(mi) + d - 1
    decreases d < 1, if d < 1 then -d else d
  {
    hide MonthStart;
    if d < 1 {
      NextMonthStart(mi - 1);
      CarryKeepsDay(mi - 1, d + MonthLength(mi - 1));
    } else if d > MonthLength(mi) {
      NextMonthStart(mi);
      CarryKeepsDay(mi + 1, d - MonthLength(mi));
    } else {
      assert MonthIndex(Carry(mi, d)) == mi;
    }
  }

  /** The lengths of n consecutive months from month mi on, added up. */
  function SumOfLengths(mi: int, n: nat): int
    decreases n
  {
    if n == 0 then 0 else MonthLength(mi) + SumOfLengths(mi + 1, n - 1)
  }

  lemma {:induction false} MonthSpan(mi: int, n: nat)
    ensures MonthStart(mi + n) - MonthStart(mi) == SumOfLengths(mi, n)
    ensures 28 * n <= SumOfLengths(mi, n) <= 31 * n
    decreases n
  {
    hide MonthStart;
    if n == 0 {
    } else {
      NextMonthStart(mi);
      MonthSpan(mi + 1, n - 1);
    }
  }

  lemma MonthStartsIncrease(a: int, b: int)
    requires a < b
    ensures MonthStart(a) + 28 * (b - a) <= MonthStart(b)
    ensures MonthStart(a) + MonthLength(a) <= MonthStart(b)
  {
    hide MonthStart;
    MonthSpan(a, b - a);
    NextMonthStart(a);
    MonthSpan(a + 1, b - a - 1);
  }

  lemma DayNumberInjective(a: Date, b: Date)
    requires ValidDate(a) && ValidDate(b) && DayNumber(a) == DayNumber(b)
    ensures a == b
  {
    hide MonthStart;
    if MonthIndex(a) < MonthIndex(b) {
      MonthStartsIncrease(MonthIndex(a), MonthIndex(b));
    } else if MonthIndex(b) < MonthIndex(a) {
      MonthStartsIncrease(MonthIndex(b), MonthIndex(a));
    }
  }

  /** Converting to a civil date and back loses nothing, in either direction. */
  lemma CivilDateRoundTrip(day: int, d: Date)
    ensures DayNumber(CivilDate(day)) == day
    ensures ValidDate(d) ==> CivilDate(DayNumber(d)) == d
  {
    hide MonthStart;
    CarryKeepsDay(0, day - MonthStart(0) + 1);
    if ValidDate(d) {
      CarryKeepsDay(0, DayNumber(d) - MonthStart(0) + 1);
      DayNumberInjective(CivilDate(DayNumber(d)), d);
    }
  }

  // ----- Period functions -----

  const DAY := "day"
  const WEEK := "week"
  const MONTH := "month"
  const YEAR := "year"

  predicate KnownInterval(interval: string) {
    interval == DAY || interval == WEEK || interval == MONTH || interval == YEAR
  }

  /** The lifecycle runner's period function. */
  function NextPeriodEnd(from: Instant, interval: string, count: int): Instant {
    if interval == DAY then AddDate(from, 0, 0, count)
    else if interval == WEEK then AddDate(from, 0, 0, count * 7)
    else if interval == MONTH then AddDate(from, 0, count, 0)
    else if interval == YEAR then AddDate(from, count, 0, 0)
    else AddDate(from, 0, count, 0)
  }

  /** The subscription service's period function; its default ignores the count. */
  function CalculatePeriodEnd(start: Instant, interval: string, count: int): Instant {
    if interval == DAY then AddDate(start, 0, 0, count)
    else if interval == WEEK then AddDate(start, 0, 0, count * 7)
    else if interval == MONTH then AddDate(start, 0, count, 0)
    else if interval == YEAR then AddDate(start, count, 0, 0)
    else AddDate(start, 0, 1, 0)
  }

  lemma AddDays(t: Instant, days: int)
    ensures AddDate(t, 0, 0, days) == t.(day := t.day + days)
  {
    hide MonthStart, Carry, CivilDate;
    CivilDateRoundTrip(t.day, CivilDate(t.day));
  }

  /** A step of n days lands n days later and a step of n weeks 7n days later, at the same time of day, in
      creation as in renewal. */
  lemma DayAndWeekSteps(t: Instant, n: int)
    ensures NextPeriodEnd(t, "day", n) == t.(day := t.day + n) == CalculatePeriodEnd(t, "day", n)
    ensures NextPeriodEnd(t, "week", n) == t.(day := t.day + 7 * n) == CalculatePeriodEnd(t, "week", n)
  {
    hide AddDate;
    AddDays(t, n);
    AddDays(t, 7 * n);
    assert DAY != WEEK;
  }

  /** Creation and renewal use the same period function exactly on the four known intervals and
      on single periods. */
  lemma PeriodFunctionsAgree(t: Instant, interval: string, count: int)
    ensures CalculatePeriodEnd(t, interval, count) == NextPeriodEnd(t, interval, count)
            <==> interval in {"day", "week", "month", "year"} || count == 1
  {
    hide MonthStart;
    var mi := MonthIndex(CivilDate(t.day));
    if count < 1 {
      MonthStartsIncrease(mi + count, mi + 1);
    } else if count > 1 {
      MonthStartsIncrease(mi + 1, mi + count);
    }
  }

  /** One step moves the date strictly: later for a positive count, earlier for a negative one and not
      at all for none; and it keeps the time of day. */
  lemma StepMovesDate(t: Instant, interval: string, count: int)
    ensures count > 0 ==> NextPeriodEnd(t, interval, count).day > t.day
    ensures count < 0 ==> NextPeriodEnd(t, interval, count).day < t.day
    ensures count == 0 ==> NextPeriodEnd(t, interval, count).day == t.day
    ensures NextPeriodEnd(t, interval, count).nanos == t.nanos
  {
    hide MonthStart;
    CivilDateRoundTrip(t.day, CivilDate(t.day));
    var mi := MonthIndex(CivilDate(t.day));
    var months := if interval == YEAR then 12 * count else count;
    if months > 0 {
      MonthStartsIncrease(mi, mi + months);
    } else if months < 0 {
      MonthStartsIncrease(mi + months, mi);
    }
  }

  /** A month step of count n spans exactly the lengths of the n months from the start date's
      month on. */
  lemma MonthStepSpan(t: Instant, n: nat)
    ensures NextPeriodEnd(t, "month", n).day - t.day == SumOfLengths(MonthIndex(CivilDate(t.day)), n)
    ensures 28 * n <= NextPeriodEnd(t, "month", n).day - t.day <= 31 * n
  {
    hide MonthStart, MonthLength, Carry, CivilDate;
    CivilDateRoundTrip(t.day, CivilDate(t.day));
    MonthSpan(MonthIndex(CivilDate(t.day)), n);
  }

  lemma TwelveMonths(mi: int)
    ensures 365 <= MonthStart(mi + 12) - MonthStart(mi) <= 366
  {
    assert (mi + 12) / 12 == mi / 12 + 1 && (mi + 12) % 12 == mi % 12;
    YearLength(mi / 12);
  }

  lemma {:induction false} YearSpan(mi: int, n: nat)
    ensures 365 * n <= MonthStart(mi + 12 * n) - MonthStart(mi) <= 366 * n
    decreases n
  {
    hide MonthStart;
    if n == 0 {
    } else {
      TwelveMonths(mi);
      YearSpan(mi + 12, n - 1);
    }
  }

  /** n years are 12n months, and span 365n to 366n days. */
  lemma YearStepSpan(t: Instant, n: nat)
    ensures NextPeriodEnd(t, "year", n) == NextPeriodEnd(t, "month", 12 * n)
    ensures 365 * n <= NextPeriodEnd(t, "year", n).day - t.day <= 366 * n
  {
    hide MonthStart, MonthLength, Carry, CivilDate;
    CivilDateRoundTrip(t.day, CivilDate(t.day));
    YearSpan(MonthIndex(CivilDate(t.day)), n);
  }

  // ----- Chains of renewals -----

  /** The k-th period end after an anchor. */
  function Period(anchor: Instant, interval: string, count: int, k: nat): Instant {
    if k == 0 then anchor else NextPeriodEnd(Period(anchor, interval, count, k - 1), interval, count)
  }

  /** Period ends fall on strictly increasing dates (strictly decreasing for a negative count). */
  lemma {:induction false} PeriodsMonotone(anchor: Instant, interval: string, count: int, j: nat, k: nat)
    requires j < k
    ensures count > 0 ==> Period(anchor, interval, count, j).day < Period(anchor, interval, count, k).day
    ensures count < 0 ==> Period(anchor, interval, count, j).day > Period(anchor, interval, count, k).day
  {
    hide MonthStart;
    StepMovesDate(Period(anchor, interval, count, k - 1), interval, count);
    if j < k - 1 {
      PeriodsMonotone(anchor, interval, count, j, k - 1);
    }
  }

  /** No two periods of a subscription end on the same date. */
  lemma PeriodDatesInjective(anchor: Instant, interval: string, count: int, j: nat, k: nat)
    requires count != 0
    requires CivilDate(Period(anchor, interval, count, j).day) == CivilDate(Period(anchor, interval, count, k).day)
    ensures j == k
  {
    CivilDateRoundTrip(Period(anchor, interval, count, j).day, Date(0, 1, 1));
    CivilDateRoundTrip(Period(anchor, interval, count, k).day, Date(0, 1, 1));
    if j < k {
      PeriodsMonotone(anchor, interval, count, j, k);
    } else if k < j {
      PeriodsMonotone(anchor, interval, count, k, j);
    }
  }

  function DaysPerStep(interval: string, count: int): int {
    if interval == DAY then count else 7 * count
  }

  lemma ChainStep(anchor: Instant, interval: string, count: int, k: nat)
    requires interval == DAY || interval == WEEK
    ensures Period(anchor, interval, count, k + 1).day
            == Period(anchor, interval, count, k).day + DaysPerStep(interval, count)
  {
    hide NextPeriodEnd;
    DayAndWeekSteps(Period(anchor, interval, count, k), count);
    assert DAY != WEEK;
  }

  lemma {:induction false} DayChain(anchor: Instant, interval: string, count: int, days: int, k: nat)
    requires (interval == DAY || interval == WEEK) && days == DaysPerStep(interval, count)
    ensures Period(anchor, interval, count, k).day == anchor.day + k * days
  {
    hide Period, DaysPerStep;
    if k == 0 {
      assert Period(anchor, interval, count, 0) == anchor by { NoPeriod(anchor, interval, count); }
    } else {
      DayChain(anchor, interval, count, days, k - 1);
      ChainStep(anchor, interval, count, k - 1);
      assert k * days == (k - 1) * days + days;
    }
  }

  lemma NoPeriod(anchor: Instant, interval: string, count: int)
    ensures Period(anchor, interval, count, 0) == anchor
  {
  }

  /** The k-th period end of a daily or weekly subscription is k or 7k counts of days after its anchor, at the
      same time of day. */
  lemma DayAndWeekChains(anchor: Instant, n: int, k: nat)
    ensures Period(anchor, "day", n, k) == anchor.(day := anchor.day + k * n)
    ensures Period(anchor, "week", n, k) == anchor.(day := anchor.day + k * (7 * n))
  {
    hide Period;
    assert DAY != WEEK;
    DayChain(anchor, DAY, n, n, k);
    DayChain(anchor, WEEK, n, 7 * n, k);
    PeriodKeepsTime(anchor, DAY, n, k);
    PeriodKeepsTime(anchor, WEEK, n, k);
  }

  predicate MonthBased(interval: string) {
    interval != DAY && interval != WEEK
  }

  function MonthsPerStep(interval: string, count: int): int {
    if interval == YEAR then 12 * count else count
  }

  function DayOfMonth(t: Instant): int {
    CivilDate(t.day).day
  }

  lemma MonthStepDay(t: Instant, interval: string, count: int)
    requires MonthBased(interval)
    ensures var d := CivilDate(t.day);
            NextPeriodEnd(t, interval, count).day
            == MonthStart(MonthIndex(d) + MonthsPerStep(interval, count)) + d.day - 1
  {
    hide MonthStart, MonthLength, Carry, CivilDate;
  }

  lemma CarryLands(mi: int, day: int)
    requires 1 <= day <= 31
    ensures var r := Carry(mi, day);
            if day <= MonthLength(mi) then MonthIndex(r) == mi && r.day == day
            else MonthIndex(r) == mi + 1 && r.day == day - MonthLength(mi) && 1 <= r.day <= 3
  {
    hide MonthLength;
    if day > MonthLength(mi) {
      assert Carry(mi, day) == Carry(mi + 1, day - MonthLength(mi));
    }
  }

  /** A month or year step keeps the day of the month when the target month has it, and otherwise
      carries the overflow to day 1, 2 or 3 of the month after. */
  lemma MonthStepLands(t: Instant, interval: string, count: int)
    requires MonthBased(interval)
    ensures var d := CivilDate(t.day);
            var target := MonthIndex(d) + MonthsPerStep(interval, count);
            var r := CivilDate(NextPeriodEnd(t, interval, count).day);
            if d.day <= MonthLength(target) then MonthIndex(r) == target && r.day == d.day
            else MonthIndex(r) == target + 1 && r.day == d.day - MonthLength(target) && 1 <= r.day <= 3
  {
    hide MonthStart, MonthLength, Carry, CivilDate, NextPeriodEnd, MonthsPerStep;
    var d := CivilDate(t.day);
    var target := MonthIndex(d) + MonthsPerStep(interval, count);
    MonthStepDay(t, interval, count);
    CarryKeepsDay(target, d.day);
    CivilDateRoundTrip(t.day, Carry(target, d.day));
    CarryLands(target, d.day);
  }

  /** Along any chain of month or year renewals the day of the month changes at most once, and
      then to 1, 2 or 3. */
  lemma {:induction false} DayOfMonthChangesOnce(anchor: Instant, interval: string, count: int, k: nat)
    requires MonthBased(interval)
    ensures forall j: nat :: j <= k ==>
              var d := DayOfMonth(Period(anchor, interval, count, j));
              d == DayOfMonth(anchor) || (1 <= d <= 3 && d == DayOfMonth(Period(anchor, interval, count, k)))
  {
    hide MonthStart;
    if k == 0 {
    } else {
      DayOfMonthChangesOnce(anchor, interval, count, k - 1);
      var last := Period(anchor, interval, count, k - 1);
      MonthStepLands(last, interval, count);
    }
  }

  /** The month the k-th of a chain of month steps aims at, counted from its anchor. */
  function Target(anchor: Instant, interval: string, count: int, k: nat): int {
    MonthIndex(CivilDate(anchor.day)) + k * MonthsPerStep(interval, count)
  }

  /** The month the k-th step aims at lacks the anchor's day. */
  predicate Overflows(anchor: Instant, interval: string, count: int, k: nat) {
    DayOfMonth(anchor) > MonthLength(Target(anchor, interval, count, k))
  }

  predicate FirstOverflow(anchor: Instant, interval: string, count: int, f: nat) {
    f > 0 && Overflows(anchor, interval, count, f)
    && forall j: nat :: 0 < j < f ==> !Overflows(anchor, interval, count, j)
  }

  lemma NextTarget(anchor: Instant, interval: string, count: int, k: nat)
    ensures Target(anchor, interval, count, k + 1)
            == Target(anchor, interval, count, k) + MonthsPerStep(interval, count)
    ensures Target(anchor, interval, count, 0) == MonthIndex(CivilDate(anchor.day))
  {
    hide CivilDate, MonthsPerStep;
    var step := MonthsPerStep(interval, count);
    assert (k + 1) * step == k * step + step;
  }

  /** Until a step overflows, a chain of renewals keeps the anchor's day. */
  lemma {:induction false} ChainKeepsDay(anchor: Instant, interval: string, count: int, k: nat)
    requires MonthBased(interval)
    requires forall j: nat :: 0 < j <= k ==> !Overflows(anchor, interval, count, j)
    ensures var r := CivilDate(Period(anchor, interval, count, k).day);
            MonthIndex(r) == Target(anchor, interval, count, k) && r.day == DayOfMonth(anchor)
    decreases k
  {
    hide CivilDate, MonthLength, MonthsPerStep, NextPeriodEnd, Target;
    NextTarget(anchor, interval, count, if k == 0 then 0 else k - 1);
    if k == 0 {
    } else {
      ChainKeepsDay(anchor, interval, count, k - 1);
      MonthStepLands(Period(anchor, interval, count, k - 1), interval, count);
      assert !Overflows(anchor, interval, count, k);
    }
  }

  /** From the first overflow on it stays one month behind its targets, on the day that was carried over. */
  lemma {:induction false} ChainAfterOverflow(anchor: Instant, interval: string, count: int, f: nat, k: nat)
    requires MonthBased(interval) && FirstOverflow(anchor, interval, count, f) && f <= k
    ensures var r := CivilDate(Period(anchor, interval, count, k).day);
            MonthIndex(r) == Target(anchor, interval, count, k) + 1
            && r.day == DayOfMonth(anchor) - MonthLength(Target(anchor, interval, count, f)) && 1 <= r.day <= 3
    decreases k
  {
    hide CivilDate, MonthLength, MonthsPerStep, NextPeriodEnd, Target;
    NextTarget(anchor, interval, count, k - 1);
    var last := Period(anchor, interval, count, k - 1);
    MonthStepLands(last, interval, count);
    if k == f {
      ChainKeepsDay(anchor, interval, count, k - 1);
    } else {
      ChainAfterOverflow(anchor, interval, count, f, k - 1);
      LongMonths(MonthIndex(CivilDate(last.day)) + MonthsPerStep(interval, count));
    }
  }

  lemma LongMonths(mi: int)
    ensures MonthLength(mi) >= 28
  {
  }

  lemma {:induction false} PeriodKeepsTime(anchor: Instant, interval: string, count: int, k: nat)
    ensures Period(anchor, interval, count, k).nanos == anchor.nanos
  {
    hide NextPeriodEnd;
    if k == 0 {
    } else {
      PeriodKeepsTime(anchor, interval, count, k - 1);
      StepMovesDate(Period(anchor, interval, count, k - 1), interval, count);
    }
  }

  lemma SameDate(a: Instant, b: Instant)
    ensures a.day == b.day
            <==> MonthIndex(CivilDate(a.day)) == MonthIndex(CivilDate(b.day)) && DayOfMonth(a) == DayOfMonth(b)
  {
    hide MonthStart, MonthLength, Carry, CivilDate;
    CivilDateRoundTrip(a.day, CivilDate(a.day));
    CivilDateRoundTrip(b.day, CivilDate(b.day));
  }

  /** k renewals are one jump of k * count units exactly when no step before the k-th overflows, or the k-th
      aims at a month as long as the one first overflowed. */
  lemma RenewalsAreOneJumpIff(anchor: Instant, interval: string, count: int, k: nat)
    requires MonthBased(interval)
    ensures Period(anchor, interval, count, k) == NextPeriodEnd(anchor, interval, k * count)
            <==> forall f: nat :: f < k && FirstOverflow(anchor, interval, count, f) ==>
                   MonthLength(Target(anchor, interval, count, k)) == MonthLength(Target(anchor, interval, count, f))
  {
    hide CivilDate, MonthLength, NextPeriodEnd, Period, MonthsPerStep, Overflows;
    var jump, end := NextPeriodEnd(anchor, interval, k * count), Period(anchor, interval, count, k);
    StepsMultiply(interval, count, k);
    MonthStepLands(anchor, interval, k * count);
    StepMovesDate(anchor, interval, k * count);
    PeriodKeepsTime(anchor, interval, count, k);
    SameDate(end, jump);
    if f: nat :| f < k && FirstOverflow(anchor, interval, count, f) {
      ChainAfterOverflow(anchor, interval, count, f, k);
      OnlyOneFirst(anchor, interval, count, f);
    } else {
      NoOverflowBefore(anchor, interval, count, k);
      EndOfRegularChain(anchor, interval, count, k);
    }
  }

  lemma OnlyOneFirst(anchor: Instant, interval: string, count: int, f: nat)
    requires FirstOverflow(anchor, interval, count, f)
    ensures forall g: nat :: FirstOverflow(anchor, interval, count, g) ==> g == f
  {
    hide Overflows;
  }

  lemma {:induction false} NoOverflowBefore(anchor: Instant, interval: string, count: int, k: nat)
    requires forall f: nat :: f < k ==> !FirstOverflow(anchor, interval, count, f)
    ensures forall j: nat :: 0 < j < k ==> !Overflows(anchor, interval, count, j)
    decreases k
  {
    hide Overflows;
    if k == 0 {
    } else {
      NoOverflowBefore(anchor, interval, count, k - 1);
      assert k > 1 ==> !FirstOverflow(anchor, interval, count, k - 1);
    }
  }

  /** A chain without an overflow before its last step ends like a single step from its anchor's day. */
  lemma EndOfRegularChain(anchor: Instant, interval: string, count: int, k: nat)
    requires MonthBased(interval)
    requires forall j: nat :: 0 < j < k ==> !Overflows(anchor, interval, count, j)
    ensures var r := CivilDate(Period(anchor, interval, count, k).day);
            var target := Target(anchor, interval, count, k);
            if DayOfMonth(anchor) <= MonthLength(target) then MonthIndex(r) == target && r.day == DayOfMonth(anchor)
            else MonthIndex(r) == target + 1 && r.day == DayOfMonth(anchor) - MonthLength(target)
  {
    hide CivilDate, MonthLength, MonthsPerStep, NextPeriodEnd, Target, Period;
    if k == 0 {
      NextTarget(anchor, interval, count, 0);
      ChainKeepsDay(anchor, interval, count, 0);
    } else if Overflows(anchor, interval, count, k) {
      ChainAfterOverflow(anchor, interval, count, k, k);
    } else {
      ChainKeepsDay(anchor, interval, count, k);
    }
  }

  /** From an anchor on day 28 or earlier, k renewals are one jump of k * count units to the same day. */
  lemma RenewalsAreOneJump(anchor: Instant, interval: string, count: int, k: nat)
    requires MonthBased(interval) && DayOfMonth(anchor) <= 28
    ensures Period(anchor, interval, count, k) == NextPeriodEnd(anchor, interval, k * count)
    ensures DayOfMonth(Period(anchor, interval, count, k)) == DayOfMonth(anchor)
  {
    hide CivilDate, MonthLength, NextPeriodEnd, Period, MonthsPerStep, Target;
    forall j: nat
      ensures !Overflows(anchor, interval, count, j)
    {
      LongMonths(Target(anchor, interval, count, j));
    }
    RenewalsAreOneJumpIff(anchor, interval, count, k);
    ChainKeepsDay(anchor, interval, count, k);
  }

  lemma StepsMultiply(interval: string, count: int, k: nat)
    ensures MonthsPerStep(interval, k * count) == k * MonthsPerStep(interval, count)
  {
    assert 12 * (k * count) == k * (12 * count);
  }
}
