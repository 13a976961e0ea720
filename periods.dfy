/**
  Period bucketing: the seven per-day totals of today's week and the per-month totals
  from January to today's month, with lemmas relating them to the single-period
  totals the older reports print.
  Each loop the tracker runs is a method proved equal to a reference definition
  stated in calendar terms (days of the week, months of the year).
*/
module Periods {
  import opened Outcomes
  import opened Calendar
  import opened Ledger

  /** `today - timedelta(days=today.weekday())`: the Monday of today's week. */
  function WeekStart(today: Day): (monday: Day)
    ensures Weekday(monday) == 0
    ensures monday <= today <= monday + 6
  {
    today - Weekday(today)
  }

  /** Stepping back to Monday never leaves the range of dates, since 0001-01-01 is a Monday. */
  lemma WeekStartInRange(today: Day)
    ensures AddDays(today, -Weekday(today)) == Some(WeekStart(today))
  {
  }

  /** The totals of the `n` days from `start` on, one per day, earliest first. */
  function DaysOf(ts: seq<Transaction>, start: Day, n: nat): (r: seq<real>)
    requires start + n - 1 <= MaxOrdinal
    ensures |r| == n
  {
    if n == 0 then [] else DaysOf(ts, start, n - 1) + [TotalOf(OnDay(ts, start + n - 1))]
  }

  /** Bucket `i` holds the total of day `start + i`. */
  lemma {:induction false} DaysOfElement(ts: seq<Transaction>, start: Day, n: nat, i: int)
    requires start + n - 1 <= MaxOrdinal && 0 <= i < n
    ensures DaysOf(ts, start, n)[i] == TotalOf(OnDay(ts, start + i))
  {
    if i < n - 1 {
      DaysOfElement(ts, start, n - 1, i);
    }
  }

  /** The total spent on each day of today's week, Monday first; None when the week runs past date.max. */
  function WeeklyTotals(ts: seq<Transaction>, today: Day): Option<seq<real>> {
    var monday := WeekStart(today);
    if monday + 6 <= MaxOrdinal then Some(DaysOf(ts, monday, 7)) else None
  }

  /**
    The weekly buckets are seven, bucket i is day i of the week (Monday is 0) and holds the
    amounts dated that day, the week contains today, and only the week of date.max, which
    starts on Monday 9999-12-27, cannot be bucketed.
  */
  lemma WeeklyTotalsMeaning(ts: seq<Transaction>, today: Day)
    ensures WeeklyTotals(ts, today).None? <==> today >= MaxOrdinal - 4
    ensures WeeklyTotals(ts, today).Some? ==>
      var r := WeeklyTotals(ts, today).value;
      var monday := WeekStart(today);
      && |r| == 7
      && monday <= today <= monday + 6
      && forall d: Day :: monday <= d <= monday + 6 ==>
           Weekday(d) == d - monday && r[d - monday] == TotalOf(OnDay(ts, d))
  {
    var monday := WeekStart(today);
    if monday + 6 <= MaxOrdinal {
      assert WeeklyTotals(ts, today) == Some(DaysOf(ts, monday, 7));
      forall d: Day | monday <= d <= monday + 6
        ensures Weekday(d) == d - monday && DaysOf(ts, monday, 7)[d - monday] == TotalOf(OnDay(ts, d))
      {
        WeekdayAfterMonday(monday, d - monday);
        DaysOfElement(ts, monday, 7, d - monday);
      }
    }
  }

  /** The weekly loop: for i in range(7), the total of transactions_in_period(day, day). */
  method WeekBuckets(ts: seq<Transaction>, today: Day) returns (r: Option<seq<real>>)
    ensures r == WeeklyTotals(ts, today)
  {
    WeekStartInRange(today);
    var start := AddDays(today, -Weekday(today)).value;
    var data: seq<real> := [];
    for i := 0 to 7
      invariant start + i - 1 <= MaxOrdinal
      invariant data == DaysOf(ts, start, i)
    {
      var day := AddDays(start, i);
      if day.None? {
        return None;
      }
      InPeriodSingleDay(ts, day.value);
      data := data + [TotalOf(InPeriod(ts, day.value, day.value))];
    }
    r := Some(data);
  }

  /** The totals of months 1 to `m` of year `y`, one per month, January first. */
  function MonthsOf(ts: seq<Transaction>, y: int, m: int): (r: seq<real>)
    requires 0 <= m <= 12
    ensures |r| == m
    ensures forall k :: 0 <= k < m ==> r[k] == TotalOf(InMonth(ts, y, k + 1))
  {
    if m == 0 then [] else MonthsOf(ts, y, m - 1) + [TotalOf(InMonth(ts, y, m))]
  }

  /** The total spent in each month of today's year, January to today's month; None in December 9999. */
  function MonthlyTotals(ts: seq<Transaction>, today: Day): Option<seq<real>> {
    var y, m := Year(today), Month(today);
    if y == MaxYear && m == 12 then None else Some(MonthsOf(ts, y, m))
  }

  /**
    The monthly loop: for each month of the year up to today's, the total between
    `today.replace(day=1, month=k)` and the end of that month by the 32-day idiom.
  */
  method MonthBuckets(ts: seq<Transaction>, today: Day) returns (r: Option<seq<real>>)
    ensures r == MonthlyTotals(ts, today)
  {
    var year, current := Year(today), Month(today);
    var data: seq<real> := [];
    for month := 1 to current + 1
      invariant data == MonthsOf(ts, year, month - 1)
      invariant year == MaxYear && current == 12 ==> month <= 12
    {
      var total := MonthBucket(ts, today, month);
      if total.None? {
        return None;
      }
      data := data + [total.value];
    }
    r := Some(data);
  }

  /**
    One pass of the monthly loop: the first of month `month` of today's year always
    exists, the 32-day idiom from it fails only in December 9999, and otherwise the
    period it bounds holds exactly that month's transactions.
  */
  method MonthBucket(ts: seq<Transaction>, today: Day, month: int) returns (total: Option<real>)
    requires 1 <= month <= 12
    ensures total.None? <==> Year(today) == MaxYear && month == 12
    ensures total.Some? ==> total.value == TotalOf(InMonth(ts, Year(today), month))
  {
    ReplaceWithFirst(today, month);
    var start := Replace(today, month, 1).value;
    MonthEndIsLastDay(Year(today), month, 32);
    var end := MonthEnd(start, 32);
    if end.None? {
      return None;
    }
    MonthIdiomSelectsMonth(ts, Year(today), month, 32);
    total := Some(TotalOf(InPeriod(ts, start, end.value)));
  }

  /** The period from the first of a month to the idiom's month end holds that month's transactions. */
  lemma MonthIdiomSelectsMonth(ts: seq<Transaction>, y: int, m: int, step: int)
    requires 1 <= y <= MaxYear && 1 <= m <= 12 && 31 <= step <= 58
    ensures MonthEnd(FirstDay(y, m), step).Some? ==>
      TotalOf(InPeriod(ts, FirstDay(y, m), MonthEnd(FirstDay(y, m), step).value)) == TotalOf(InMonth(ts, y, m))
  {
    MonthEndIsLastDay(y, m, step);
    InPeriodWholeMonth(ts, y, m);
  }

  /**
    The monthly buckets number today's month, bucket k covers exactly month k + 1 of
    today's year, and consecutive buckets are adjacent ranges of days.
  */
  lemma MonthlyTotalsMeaning(ts: seq<Transaction>, today: Day, k: int)
    requires MonthlyTotals(ts, today).Some? && 0 <= k < Month(today)
    ensures |MonthlyTotals(ts, today).value| == Month(today)
    ensures MonthlyTotals(ts, today).value[k] ==
      TotalOf(InPeriod(ts, FirstDay(Year(today), k + 1), LastDay(Year(today), k + 1)))
    ensures k + 1 < Month(today) ==> LastDay(Year(today), k + 1) + 1 == FirstDay(Year(today), k + 2)
  {
    InPeriodWholeMonth(ts, Year(today), k + 1);
    NextMonthIsAdjacent(Year(today), k + 1);
  }

  /** The sum of a sequence of totals. */
  function Sum(xs: seq<real>): real {
    if xs == [] then 0.0 else Sum(xs[..|xs| - 1]) + xs[|xs| - 1]
  }

  /** The total over `n` consecutive days is the sum of the per-day totals. */
  lemma {:induction false} PeriodIsSumOfDays(ts: seq<Transaction>, start: Day, n: nat)
    requires 1 <= n && start + n - 1 <= MaxOrdinal
    ensures TotalOf(InPeriod(ts, start, start + n - 1)) == Sum(DaysOf(ts, start, n))
  {
    var last := start + n - 1;
    SumOfDaysStep(ts, start, n);
    InPeriodSingleDay(ts, last);
    if n > 1 {
      PeriodIsSumOfDays(ts, start, n - 1);
      InPeriodSplit(ts, start, last - 1, last);
    } else {
      assert DaysOf(ts, start, 0) == [];
    }
  }

  /** Adding one more day to the buckets adds that day's total to their sum. */
  lemma SumOfDaysStep(ts: seq<Transaction>, start: Day, n: nat)
    requires 1 <= n && start + n - 1 <= MaxOrdinal
    ensures Sum(DaysOf(ts, start, n)) == Sum(DaysOf(ts, start, n - 1)) + TotalOf(OnDay(ts, start + n - 1))
  {
    assert DaysOf(ts, start, n)[..n - 1] == DaysOf(ts, start, n - 1);
  }

  /**
    The weekly report's total, Monday to Monday + 6, is the sum of the seven weekly
    buckets, and both exist exactly when the week ends by date.max.
  */
  lemma WeekTotalIsSumOfBuckets(ts: seq<Transaction>, today: Day)
    ensures WeeklyTotals(ts, today).Some? <==> WeekStart(today) + 6 <= MaxOrdinal
    ensures WeeklyTotals(ts, today).Some? ==>
      TotalOf(InPeriod(ts, WeekStart(today), WeekStart(today) + 6)) == Sum(WeeklyTotals(ts, today).value)
  {
    if WeekStart(today) + 6 <= MaxOrdinal {
      PeriodIsSumOfDays(ts, WeekStart(today), 7);
    }
  }

  /** Only the week of date.max, a Friday, runs past it: its Monday is date.max - 4. */
  lemma LastWeek(today: Day)
    ensures WeekStart(today) + 6 <= MaxOrdinal <==> today < MaxOrdinal - 4
  {
  }

  /**
    The window of the monthly report: `today.replace(day=1)` always exists, the 31-day
    idiom from it fails only in December 9999, and otherwise the window holds exactly
    the transactions of today's month.
  */
  lemma MonthWindow(ts: seq<Transaction>, today: Day)
    ensures ReplaceDay(today, 1).Some?
    ensures MonthEnd(ReplaceDay(today, 1).value, 31).None? <==> Year(today) == MaxYear && Month(today) == 12
    ensures MonthEnd(ReplaceDay(today, 1).value, 31).Some? ==>
      TotalOf(InPeriod(ts, ReplaceDay(today, 1).value, MonthEnd(ReplaceDay(today, 1).value, 31).value))
        == TotalOf(InMonth(ts, Year(today), Month(today)))
  {
    var y, m := Year(today), Month(today);
    ReplaceWithFirst(today, m);
    MonthEndIsLastDay(y, m, 31);
    MonthIdiomSelectsMonth(ts, y, m, 31);
  }
}
