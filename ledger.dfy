/**
  The values the tracker keeps: transactions, a category's content, the whole
  dictionary as a value, and the sums and date filters the reports are built from.
*/
module Ledger {
  import opened Calendar

  /** One spending event. `category` is a back-reference to the owning category's name. */
  datatype Transaction = Transaction(date: Day, amount: real, category: string, description: string)

  /** The content of one category: its budget and its transactions in insertion order. */
  datatype Entry = Entry(budget: real, transactions: seq<Transaction>)

  /** The tracker's dictionary as a value: category name to content. */
  type Book = map<string, Entry>

  /** Every transaction's back-reference names the category that holds it. */
  predicate WellFormed(b: Book) {
    forall k, t :: k in b && t in b[k].transactions ==> t.category == k
  }

  /** `sum(t.amount for t in ts)`; 0 for no transactions. */
  function TotalOf(ts: seq<Transaction>): (r: real)
    ensures ts == [] ==> r == 0.0
    ensures |ts| == 1 ==> r == ts[0].amount
  {
    if ts == [] then 0.0 else ts[0].amount + TotalOf(ts[1..])
  }

  /** The total of a concatenation is the sum of the totals. */
  lemma {:induction false} TotalOfAppend(a: seq<Transaction>, b: seq<Transaction>)
    ensures TotalOf(a + b) == TotalOf(a) + TotalOf(b)
  {
    if a != [] {
      assert (a + b)[1..] == a[1..] + b;
      TotalOfAppend(a[1..], b);
    } else {
      assert a + b == b;
    }
  }

  /** With no negative amount, the total spent is never negative. */
  lemma {:induction false} TotalOfNonNegative(ts: seq<Transaction>)
    requires forall i :: 0 <= i < |ts| ==> ts[i].amount >= 0.0
    ensures TotalOf(ts) >= 0.0
  {
    if ts != [] {
      TotalOfNonNegative(ts[1..]);
    }
  }

  /** Appending one transaction adds exactly its amount to the total. */
  lemma TotalOfAppendOne(ts: seq<Transaction>, t: Transaction)
    ensures TotalOf(ts + [t]) == TotalOf(ts) + t.amount
  {
    TotalOfAppend(ts, [t]);
  }

  /** The transactions whose date satisfies `p`, in their original order. */
  function Filter(ts: seq<Transaction>, p: Day -> bool): (r: seq<Transaction>)
    ensures |r| <= |ts|
  {
    if ts == [] then []
    else (if p(ts[0].date) then [ts[0]] else []) + Filter(ts[1..], p)
  }

  /** Filtering keeps insertion order: it distributes over concatenation. */
  lemma {:induction false} FilterAppend(a: seq<Transaction>, b: seq<Transaction>, p: Day -> bool)
    ensures Filter(a + b, p) == Filter(a, p) + Filter(b, p)
  {
    if a != [] {
      assert (a + b)[1..] == a[1..] + b;
      FilterAppend(a[1..], b, p);
    } else {
      assert a + b == b;
    }
  }

  /** Filtering keeps every occurrence of a matching transaction and drops every other one. */
  lemma {:induction false} FilterCount(ts: seq<Transaction>, p: Day -> bool, t: Transaction)
    ensures multiset(Filter(ts, p))[t] == if p(t.date) then multiset(ts)[t] else 0
  {
    if ts != [] {
      FilterCount(ts[1..], p, t);
      assert ts == [ts[0]] + ts[1..];
    }
  }

  /** Two conditions that agree on the dates present select the same transactions. */
  lemma {:induction false} FilterCongruent(ts: seq<Transaction>, p: Day -> bool, q: Day -> bool)
    requires forall i :: 0 <= i < |ts| ==> p(ts[i].date) == q(ts[i].date)
    ensures Filter(ts, p) == Filter(ts, q)
  {
    if ts != [] {
      FilterCongruent(ts[1..], p, q);
    }
  }

  /** A transaction survives the filter exactly when it is in the list and its date satisfies `p`. */
  lemma {:induction false} FilterMembers(ts: seq<Transaction>, p: Day -> bool)
    ensures forall t :: t in Filter(ts, p) <==> t in ts && p(t.date)
  {
    if ts != [] {
      FilterMembers(ts[1..], p);
      assert ts == [ts[0]] + ts[1..];
    }
  }

  /** `[t for t in ts if start_date <= t.date <= end_date]` */
  function InPeriod(ts: seq<Transaction>, start: Day, end: Day): (r: seq<Transaction>)
    ensures |r| <= |ts|
    ensures forall i :: 0 <= i < |r| ==> start <= r[i].date <= end
  {
    var p := (d: Day) => start <= d <= end;
    FilterMembers(ts, p);
    Filter(ts, p)
  }

  /** The transactions dated exactly `d`. */
  function OnDay(ts: seq<Transaction>, d: Day): seq<Transaction> {
    Filter(ts, (x: Day) => x == d)
  }

  /** The transactions dated in month `m` of year `y`. */
  function InMonth(ts: seq<Transaction>, y: int, m: int): seq<Transaction> {
    Filter(ts, (x: Day) => Year(x) == y && Month(x) == m)
  }

  /**
    A period query returns exactly the transactions dated within both ends, each as often
    as it was added, and in insertion order.
  */
  lemma InPeriodExact(ts: seq<Transaction>, start: Day, end: Day, t: Transaction)
    ensures multiset(InPeriod(ts, start, end))[t] ==
      if start <= t.date <= end then multiset(ts)[t] else 0
    ensures t in InPeriod(ts, start, end) <==> t in ts && start <= t.date <= end
  {
    FilterCount(ts, (d: Day) => start <= d <= end, t);
    assert t in InPeriod(ts, start, end) <==> multiset(InPeriod(ts, start, end))[t] > 0;
  }

  /**
    The three facts a period query promises, for all transactions at once: exactly the
    dated-within ones with their multiplicities, nothing for a reversed range, and the
    day's transactions for a one-day range.
  */
  lemma InPeriodMembers(ts: seq<Transaction>, start: Day, end: Day)
    ensures forall t :: t in InPeriod(ts, start, end) <==> t in ts && start <= t.date <= end
    ensures forall t ::
              multiset(InPeriod(ts, start, end))[t] == if start <= t.date <= end then multiset(ts)[t] else 0
    ensures start > end ==> InPeriod(ts, start, end) == []
    ensures start == end ==> InPeriod(ts, start, end) == OnDay(ts, start)
  {
    forall t | true
      ensures (t in InPeriod(ts, start, end) <==> t in ts && start <= t.date <= end)
      ensures multiset(InPeriod(ts, start, end))[t] == if start <= t.date <= end then multiset(ts)[t] else 0
    {
      InPeriodExact(ts, start, end, t);
    }
    if start > end {
      InPeriodReversed(ts, start, end);
    }
    if start == end {
      InPeriodSingleDay(ts, start);
    }
  }

  /** Filtering keeps insertion order: a query over a concatenation is the concatenation of the queries. */
  lemma InPeriodAppend(a: seq<Transaction>, b: seq<Transaction>, start: Day, end: Day)
    ensures InPeriod(a + b, start, end) == InPeriod(a, start, end) + InPeriod(b, start, end)
  {
    FilterAppend(a, b, (d: Day) => start <= d <= end);
  }

  /** A single-day query returns exactly the transactions dated that day. */
  lemma InPeriodSingleDay(ts: seq<Transaction>, d: Day)
    ensures InPeriod(ts, d, d) == OnDay(ts, d)
  {
    FilterCongruent(ts, (x: Day) => d <= x <= d, (x: Day) => x == d);
  }

  /** A query whose start lies after its end is empty. */
  lemma {:induction false} InPeriodReversed(ts: seq<Transaction>, start: Day, end: Day)
    requires start > end
    ensures InPeriod(ts, start, end) == []
  {
    if ts != [] {
      InPeriodReversed(ts[1..], start, end);
    }
  }

  /** The query from the first to the last day of a month selects that month's transactions. */
  lemma InPeriodWholeMonth(ts: seq<Transaction>, y: int, m: int)
    requires 1 <= y <= MaxYear && 1 <= m <= 12
    ensures InPeriod(ts, FirstDay(y, m), LastDay(y, m)) == InMonth(ts, y, m)
  {
    forall i | 0 <= i < |ts|
      ensures (FirstDay(y, m) <= ts[i].date <= LastDay(y, m)) == (Year(ts[i].date) == y && Month(ts[i].date) == m)
    {
      InMonthRange(ts[i].date, y, m);
    }
    FilterCongruent(ts, (d: Day) => FirstDay(y, m) <= d <= LastDay(y, m), (x: Day) => Year(x) == y && Month(x) == m);
  }

  /** Splitting a period at day `k` splits its total. */
  lemma {:induction false} InPeriodSplit(ts: seq<Transaction>, start: Day, k: Day, end: Day)
    requires start <= k < end
    ensures TotalOf(InPeriod(ts, start, end)) ==
      TotalOf(InPeriod(ts, start, k)) + TotalOf(InPeriod(ts, k + 1, end))
  {
    if ts != [] {
      InPeriodSplit(ts[1..], start, k, end);
      var head := ts[0];
      TotalOfAppend(if start <= head.date <= end then [head] else [], InPeriod(ts[1..], start, end));
      TotalOfAppend(if start <= head.date <= k then [head] else [], InPeriod(ts[1..], start, k));
      TotalOfAppend(if k + 1 <= head.date <= end then [head] else [], InPeriod(ts[1..], k + 1, end));
    }
  }

  /** The figures a category report shows. */
  datatype Report = Report(budget: real, totalSpent: real, remaining: real, transactions: seq<Transaction>)

  /**
    `generate_report`'s figures for one category: its budget, the sum of its amounts,
    what is left of the budget (negative once overspent), and its transactions in order.
  */
  function ReportOf(e: Entry): (r: Report)
    ensures r.budget == e.budget && r.transactions == e.transactions
    ensures r.totalSpent == TotalOf(e.transactions)
    ensures r.remaining == r.budget - r.totalSpent
    ensures r.remaining < 0.0 <==> r.totalSpent > r.budget
  {
    var spent := TotalOf(e.transactions);
    Report(e.budget, spent, e.budget - spent, e.transactions)
  }
}
