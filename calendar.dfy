/**
  Python's `datetime.date`, as a day ordinal of the proleptic Gregorian calendar:
  0001-01-01 has ordinal 1 and 9999-12-31 (date.max) has ordinal 3652059.
  Conversions to and from (year, month, day) give `weekday()`, `replace(...)`,
  `date + timedelta(days=k)` and the month lengths the tracker relies on.
*/
module Calendar {
  import opened Outcomes

  const MaxYear: int := 9999
  /** date(9999, 12, 31).toordinal() */
  const MaxOrdinal: int := 3652059

  /** A valid date, as its ordinal. */
  type Day = n: int | 1 <= n <= MaxOrdinal witness 1

  /** A (year, month, day) triple; `IsValid` says when it names a date. */
  datatype Civil = Civil(year: int, month: int, day: int)

  predicate IsLeapYear(y: int) {
    y % 4 == 0 && (y % 100 != 0 || y % 400 == 0)
  }

  function DaysInYear(y: int): int {
    if IsLeapYear(y) then 366 else 365
  }

  function DaysInMonth(y: int, m: int): (n: int)
    requires 1 <= m <= 12
    ensures 28 <= n <= 31
    ensures n == 29 <==> m == 2 && IsLeapYear(y)
  {
    if m == 2 then (if IsLeapYear(y) then 29 else 28)
    else if m == 4 || m == 6 || m == 9 || m == 11 then 30
    else 31
  }

  predicate IsValid(c: Civil) {
    1 <= c.year <= MaxYear && 1 <= c.month <= 12 && 1 <= c.day <= DaysInMonth(c.year, c.month)
  }

  /** Number of days in the years before year `y` (`_days_before_year`). */
  function DaysBeforeYear(y: int): int
    requires 1 <= y
  {
    var p := y - 1;
    p * 365 + p / 4 - p / 100 + p / 400
  }

  /** Number of days in year `y` before the first of month `m` (`_days_before_month`). */
  function DaysBeforeMonth(y: int, m: int): int
    requires 1 <= m <= 12
  {
    [0, 31, 59, 90, 120, 151, 181, 212, 243, 273, 304, 334][m - 1]
      + (if m > 2 && IsLeapYear(y) then 1 else 0)
  }

  /** Each year adds its own length: the closed form agrees with counting year by year. */
  lemma DaysBeforeYearStep(y: int)
    requires 1 <= y
    ensures DaysBeforeYear(y + 1) == DaysBeforeYear(y) + DaysInYear(y)
  {
    assert y / 4 - (y - 1) / 4 == if y % 4 == 0 then 1 else 0;
    assert y / 100 - (y - 1) / 100 == if y % 100 == 0 then 1 else 0;
    assert y / 400 - (y - 1) / 400 == if y % 400 == 0 then 1 else 0;
  }

  lemma {:induction false} DaysBeforeYearMonotone(a: int, b: int)
    requires 1 <= a <= b
    ensures DaysBeforeYear(a) <= DaysBeforeYear(b)
    decreases b - a
  {
    if a < b {
      DaysBeforeYearStep(a);
      DaysBeforeYearMonotone(a + 1, b);
    }
  }

  /** Each month adds its own length, and the twelve months make up the year. */
  lemma DaysBeforeMonthStep(y: int, m: int)
    requires 1 <= m <= 12
    ensures m < 12 ==> DaysBeforeMonth(y, m + 1) == DaysBeforeMonth(y, m) + DaysInMonth(y, m)
    ensures m == 12 ==> DaysBeforeMonth(y, m) + DaysInMonth(y, m) == DaysInYear(y)
  {
  }

  lemma {:induction false} DaysBeforeMonthMonotone(y: int, a: int, b: int)
    requires 1 <= a < b <= 12
    ensures DaysBeforeMonth(y, a) + DaysInMonth(y, a) <= DaysBeforeMonth(y, b)
    decreases b - a
  {
    DaysBeforeMonthStep(y, a);
    if a + 1 < b {
      DaysBeforeMonthMonotone(y, a + 1, b);
    }
  }

  lemma DaysBeforeMonthBound(y: int, m: int)
    requires 1 <= m <= 12
    ensures DaysBeforeMonth(y, m) + DaysInMonth(y, m) <= DaysInYear(y)
  {
    DaysBeforeMonthStep(y, 12);
    if m < 12 {
      DaysBeforeMonthMonotone(y, m, 12);
    }
  }

  /** The last ordinal of year 9999 is date.max. */
  lemma LastYearEnds()
    ensures DaysBeforeYear(MaxYear + 1) == MaxOrdinal
  {
  }

  /** `date(y, m, d).toordinal()` */
  function ToOrdinal(c: Civil): (n: Day)
    requires IsValid(c)
    ensures DaysBeforeYear(c.year) < n <= DaysBeforeYear(c.year + 1)
  {
    DaysBeforeMonthBound(c.year, c.month);
    DaysBeforeYearStep(c.year);
    DaysBeforeYearMonotone(c.year + 1, MaxYear + 1);
    LastYearEnds();
    DaysBeforeYear(c.year) + DaysBeforeMonth(c.year, c.month) + c.day
  }

  /** The year holding ordinal `n`, searched upwards from year `y`. */
  function YearFrom(y: int, n: int): (r: int)
    requires 1 <= y <= MaxYear && DaysBeforeYear(y) < n <= MaxOrdinal
    ensures y <= r <= MaxYear && DaysBeforeYear(r) < n <= DaysBeforeYear(r + 1)
    decreases MaxYear - y
  {
    LastYearEnds();
    if n <= DaysBeforeYear(y + 1) then y else YearFrom(y + 1, n)
  }

  /** The month of year `y` holding its `k`-th day, searched upwards from month `m`. */
  function MonthFrom(y: int, m: int, k: int): (r: int)
    requires 1 <= m <= 12 && DaysBeforeMonth(y, m) < k <= DaysInYear(y)
    ensures m <= r <= 12
    ensures DaysBeforeMonth(y, r) < k <= DaysBeforeMonth(y, r) + DaysInMonth(y, r)
    decreases 12 - m
  {
    DaysBeforeMonthStep(y, m);
    if k <= DaysBeforeMonth(y, m) + DaysInMonth(y, m) then m else MonthFrom(y, m + 1, k)
  }

  /** `date.fromordinal(n)`: the calendar date with ordinal `n`. */
  function FromOrdinal(n: Day): (c: Civil)
    ensures IsValid(c) && ToOrdinal(c) == n
  {
    var y := YearFrom(1, n);
    DaysBeforeYearStep(y);
    var k := n - DaysBeforeYear(y);
    var m := MonthFrom(y, 1, k);
    Civil(y, m, k - DaysBeforeMonth(y, m))
  }

  function Year(n: Day): int { FromOrdinal(n).year }
  function Month(n: Day): int { FromOrdinal(n).month }

  lemma YearUnique(a: int, b: int, n: int)
    requires 1 <= a && DaysBeforeYear(a) < n <= DaysBeforeYear(a + 1)
    requires 1 <= b && DaysBeforeYear(b) < n <= DaysBeforeYear(b + 1)
    ensures a == b
  {
    if a < b {
      DaysBeforeYearMonotone(a + 1, b);
    } else if b < a {
      DaysBeforeYearMonotone(b + 1, a);
    }
  }

  lemma MonthUnique(y: int, a: int, b: int, k: int)
    requires 1 <= a <= 12 && DaysBeforeMonth(y, a) < k <= DaysBeforeMonth(y, a) + DaysInMonth(y, a)
    requires 1 <= b <= 12 && DaysBeforeMonth(y, b) < k <= DaysBeforeMonth(y, b) + DaysInMonth(y, b)
    ensures a == b
  {
    if a < b {
      DaysBeforeMonthMonotone(y, a, b);
    } else if b < a {
      DaysBeforeMonthMonotone(y, b, a);
    }
  }

  /** Converting a valid date to its ordinal and back gives the same date. */
  lemma CivilRoundTrip(c: Civil)
    requires IsValid(c)
    ensures FromOrdinal(ToOrdinal(c)) == c
  {
    var n := ToOrdinal(c);
    var r := FromOrdinal(n);
    YearUnique(r.year, c.year, n);
    MonthUnique(c.year, r.month, c.month, n - DaysBeforeYear(c.year));
  }

  /** Distinct dates have distinct ordinals, and the ordinal order is the calendar order. */
  lemma OrdinalOrder(a: Civil, b: Civil)
    requires IsValid(a) && IsValid(b)
    ensures ToOrdinal(a) < ToOrdinal(b) <==>
      a.year < b.year || (a.year == b.year && (a.month < b.month || (a.month == b.month && a.day < b.day)))
  {
    if a.year < b.year {
      DaysBeforeYearMonotone(a.year + 1, b.year);
    } else if b.year < a.year {
      DaysBeforeYearMonotone(b.year + 1, a.year);
    } else if a.month < b.month {
      DaysBeforeMonthMonotone(a.year, a.month, b.month);
    } else if b.month < a.month {
      DaysBeforeMonthMonotone(a.year, b.month, a.month);
    }
  }

  /** `date.weekday()`: Monday is 0 and Sunday is 6; 0001-01-01 was a Monday. */
  function Weekday(n: Day): (w: int)
    ensures 0 <= w < 7
  {
    (n + 6) % 7
  }

  /** `d + timedelta(days=k)`; None where Python raises OverflowError. */
  function AddDays(d: Day, k: int): (r: Option<Day>)
    ensures r.Some? <==> 1 <= d + k <= MaxOrdinal
    ensures r.Some? ==> r.value - d == k
  {
    if 1 <= d + k <= MaxOrdinal then Some(d + k) else None
  }

  /** `d.replace(month=month, day=day)`; None where Python raises ValueError. */
  function Replace(d: Day, month: int, day: int): (r: Option<Day>)
    ensures r.Some? <==> IsValid(Civil(Year(d), month, day))
    ensures r.Some? ==> FromOrdinal(r.value) == Civil(Year(d), month, day)
  {
    var c := Civil(Year(d), month, day);
    if IsValid(c) then CivilRoundTrip(c); Some(ToOrdinal(c)) else None
  }

  /** `d.replace(day=day)`. */
  function ReplaceDay(d: Day, day: int): (r: Option<Day>)
    ensures r.Some? <==> 1 <= day <= DaysInMonth(Year(d), Month(d))
    ensures r.Some? ==> FromOrdinal(r.value) == Civil(Year(d), Month(d), day)
  {
    Replace(d, Month(d), day)
  }

  /** `d.replace(day=1, month=m)` never fails: it is the first day of month `m` of `d`'s year. */
  lemma ReplaceWithFirst(d: Day, m: int)
    requires 1 <= m <= 12
    ensures Replace(d, m, 1) == Some(FirstDay(Year(d), m))
    ensures m == Month(d) ==> ReplaceDay(d, 1) == Some(FirstDay(Year(d), m))
  {
  }

  /** `Weekday` counts on by one a day: the days after a Monday are weekdays 1 to 6. */
  lemma WeekdayAfterMonday(monday: Day, i: int)
    requires Weekday(monday) == 0 && 0 <= i < 7 && monday + i <= MaxOrdinal
    ensures Weekday(monday + i) == i
  {
    var q := (monday + 6) / 7;
    assert monday + 6 == 7 * q;
    assert monday + i + 6 == 7 * q + i;
  }

  /** The first and the last day of month `m` of year `y`. */
  function FirstDay(y: int, m: int): Day
    requires 1 <= y <= MaxYear && 1 <= m <= 12
  {
    ToOrdinal(Civil(y, m, 1))
  }

  function LastDay(y: int, m: int): Day
    requires 1 <= y <= MaxYear && 1 <= m <= 12
  {
    ToOrdinal(Civil(y, m, DaysInMonth(y, m)))
  }

  /**
    The tracker's end-of-month idiom
    `(first + timedelta(days=step)).replace(day=1) - timedelta(days=1)`.
  */
  function MonthEnd(first: Day, step: int): (r: Option<Day>)
    ensures r.Some? ==> r.value < MaxOrdinal && FromOrdinal(r.value + 1).day == 1
    ensures r.Some? ==> r.value < first + step
  {
    match AddDays(first, step)
    case None => None
    case Some(later) =>
      match ReplaceDay(later, 1)
      case None => None
      case Some(start) => AddDays(start, -1)
  }

  /** Consecutive months are adjacent: the day after a month's last day is the next month's first. */
  lemma NextMonthIsAdjacent(y: int, m: int)
    requires 1 <= y <= MaxYear && 1 <= m <= 12
    ensures m < 12 ==> LastDay(y, m) + 1 == FirstDay(y, m + 1)
    ensures m == 12 && y < MaxYear ==> LastDay(y, m) + 1 == FirstDay(y + 1, 1)
    ensures m == 12 && y == MaxYear ==> LastDay(y, m) == MaxOrdinal
  {
    DaysBeforeMonthStep(y, m);
    DaysBeforeYearStep(y);
    LastYearEnds();
  }

  /**
    For a step of 31 to 58 days from the first of a month, the idiom yields the true
    last day of that month, for every month length and across December into January;
    only for December 9999 does the step leave the range of dates.
  */
  lemma MonthEndIsLastDay(y: int, m: int, step: int)
    requires 1 <= y <= MaxYear && 1 <= m <= 12 && 31 <= step <= 58
    ensures MonthEnd(FirstDay(y, m), step) ==
      if y == MaxYear && m == 12 then None else Some(LastDay(y, m))
  {
    NextMonthIsAdjacent(y, m);
    if y == MaxYear && m == 12 {
      assert AddDays(FirstDay(y, m), step) == None;
    } else {
      var next := StepLandsInNextMonth(y, m, step);
      assert AddDays(next, -1) == Some(LastDay(y, m));
    }
  }

  /** Stepping 31 to 58 days from the first of a month lands in the next month. */
  lemma StepLandsInNextMonth(y: int, m: int, step: int) returns (next: Day)
    requires 1 <= y <= MaxYear && 1 <= m <= 12 && 31 <= step <= 58
    requires !(y == MaxYear && m == 12)
    ensures next == LastDay(y, m) + 1
    ensures AddDays(FirstDay(y, m), step).Some?
    ensures ReplaceDay(AddDays(FirstDay(y, m), step).value, 1) == Some(next)
  {
    NextMonthIsAdjacent(y, m);
    var ny := if m == 12 then y + 1 else y;
    var nm := if m == 12 then 1 else m + 1;
    next := FirstDay(ny, nm);
    var later := Civil(ny, nm, step - DaysInMonth(y, m) + 1);
    assert IsValid(later);
    assert ToOrdinal(later) == FirstDay(y, m) + step;
    CivilRoundTrip(later);
    var n := AddDays(FirstDay(y, m), step).value;
    assert n == ToOrdinal(later);
    assert Year(n) == ny && Month(n) == nm;
    assert IsValid(Civil(ny, nm, 1));
    assert Replace(n, nm, 1) == Some(ToOrdinal(Civil(ny, nm, 1)));
  }

  /** A day lies between the first and the last day of a month exactly when it is a date of that month. */
  lemma InMonthRange(n: Day, y: int, m: int)
    requires 1 <= y <= MaxYear && 1 <= m <= 12
    ensures FirstDay(y, m) <= n <= LastDay(y, m) <==> Year(n) == y && Month(n) == m
  {
    if FirstDay(y, m) <= n <= LastDay(y, m) {
      var c := Civil(y, m, n - FirstDay(y, m) + 1);
      assert ToOrdinal(c) == n;
      CivilRoundTrip(c);
    }
  }
}
