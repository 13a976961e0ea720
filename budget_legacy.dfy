/**
  The tracker of `budget_tracker.py`, the older version of the program. It shares the
  category object and the document format with `main.py`. It differs in four ways.
  Adding an existing category replaces it. The weekly and monthly reports print one
  period total and then plot the per-day or per-month buckets. Loading merges the
  document into the categories already present. Only a missing file is handled.
*/
module BudgetLegacy {
  import opened Outcomes
  import opened Calendar
  import opened Ledger
  import opened Periods
  import opened Document
  import opened Categories

  /** What a period report shows: the printed total and the plotted buckets. */
  datatype PeriodReport = PeriodReport(total: real, buckets: seq<real>)

  class BudgetTracker {
    var categories: map<string, Category>

    ghost predicate Valid()
      reads this, categories.Values
    {
      ValidMap(categories)
    }

    /** The ledger the dictionary currently holds. */
    function Snapshot(): Book
      reads this, categories.Values
    {
      SnapshotOf(categories)
    }

    /** `BudgetTracker()`: no categories. */
    constructor ()
      ensures Valid() && Snapshot() == map[]
    {
      categories := map[];
    }

    /**
      `add_category`: always succeeds. A new empty category with the given budget takes
      the name, replacing and emptying any category already there. No other name is touched.
    */
    method AddCategory(name: string, budget: real)
      requires Valid()
      modifies this
      ensures Valid()
      ensures Snapshot() == old(Snapshot())[name := Entry(budget, [])]
    {
      var category := new Category(name, budget);
      categories := categories[name := category];
    }

    /**
      `add_transaction`: an unknown name changes nothing. Otherwise exactly one
      transaction dated `today` and naming the category is appended to that category.
      Every other category is untouched.
    */
    method AddTransaction(name: string, amount: real, description: string, today: Day) returns (s: Status)
      requires Valid()
      modifies categories.Values
      ensures Valid() && categories == old(categories)
      ensures name !in categories ==> s == Failed(CategoryNotFound) && Snapshot() == old(Snapshot())
      ensures name in categories ==>
                && s == Done
                && Snapshot() == old(Snapshot())[name := Entry(old(Snapshot())[name].budget,
                     old(Snapshot())[name].transactions + [Transaction(today, amount, name, description)])]
    {
      if name !in categories {
        return Failed(CategoryNotFound);
      }
      var category := categories[name];
      category.AddTransaction(Transaction(today, amount, name, description));
      assert forall k :: k in categories && k != name ==> categories[k] != category;
      s := Done;
    }

    /**
      `generate_report`: for a known category, the figures it prints from the current
      ledger (budget, total spent, remaining budget, transactions); otherwise not found.
    */
    function GenerateReport(name: string): (r: Result<Report>)
      reads this, categories.Values
      ensures r.Ok? <==> name in categories
      ensures r.Err? ==> r.error == CategoryNotFound
      ensures r.Ok? ==> r.value == ReportOf(Snapshot()[name])
    {
      ReportFor(categories, name)
    }

    /**
      `generate_weekly_report`: the total from Monday to Sunday of today's week, then the
      plotted day buckets of the same week, which add up to that total. The week that
      runs past 9999-12-31 cannot be reported.
    */
    method GenerateWeeklyReport(name: string, today: Day) returns (r: Result<PeriodReport>)
      ensures name !in categories ==> r == Err(CategoryNotFound)
      ensures name in categories ==> (r.Ok? <==> today < MaxOrdinal - 4) && (r.Err? ==> r.error == DateOutOfRange)
      ensures name in categories && r.Ok? ==>
                var ts, monday := categories[name].transactions, WeekStart(today);
                && r.value.total == TotalOf(InPeriod(ts, monday, monday + 6))
                && r.value.buckets == WeeklyTotals(ts, today).value
                && r.value.total == Sum(r.value.buckets)
    {
      if name !in categories {
        return Err(CategoryNotFound);
      }
      var total := WeekTotalOf(categories[name], today);
      if total.None? {
        return Err(DateOutOfRange);
      }
      var buckets := PlotWeeklyComparison(name, today);
      WeekTotalIsSumOfBuckets(categories[name].transactions, today);
      r := Ok(PeriodReport(total.value, buckets.value));
    }

    /**
      The total `generate_weekly_report` prints: the transactions from Monday of today's
      week to six days later. None for the week of 9999-12-31, which runs past it.
    */
    static method WeekTotalOf(category: Category, today: Day) returns (total: Option<real>)
      ensures total.None? <==> today >= MaxOrdinal - 4
      ensures total.Some? ==>
                total.value == TotalOf(InPeriod(category.transactions, WeekStart(today), WeekStart(today) + 6))
    {
      WeekStartInRange(today);
      LastWeek(today);
      var start := AddDays(today, -Weekday(today)).value;
      var end := AddDays(start, 6);
      if end.None? {
        return None;
      }
      total := Some(TotalOf(category.TransactionsInPeriod(start, end.value)));
    }

    /** `plot_weekly_comparison`'s data: the seven day totals of today's week. */
    method PlotWeeklyComparison(name: string, today: Day) returns (r: Option<seq<real>>)
      requires name in categories
      ensures r == WeeklyTotals(categories[name].transactions, today)
    {
      r := WeekBuckets(categories[name].transactions, today);
    }

    /**
      `generate_monthly_report`: the total of today's calendar month, then the plotted
      month buckets from January on, whose last bucket is that total. December 9999
      cannot be reported.
    */
    method GenerateMonthlyReport(name: string, today: Day) returns (r: Result<PeriodReport>)
      ensures name !in categories ==> r == Err(CategoryNotFound)
      ensures name in categories ==>
                && (r.Ok? <==> !(Year(today) == MaxYear && Month(today) == 12))
                && (r.Err? ==> r.error == DateOutOfRange)
      ensures name in categories && r.Ok? ==>
                var ts := categories[name].transactions;
                && r.value.total == TotalOf(InMonth(ts, Year(today), Month(today)))
                && r.value.buckets == MonthlyTotals(ts, today).value
                && |r.value.buckets| == Month(today)
                && r.value.total == r.value.buckets[Month(today) - 1]
    {
      if name !in categories {
        return Err(CategoryNotFound);
      }
      var total := MonthTotalOf(categories[name], today);
      if total.None? {
        return Err(DateOutOfRange);
      }
      var buckets := PlotMonthlyComparison(name, today);
      r := Ok(PeriodReport(total.value, buckets.value));
    }

    /**
      The total `generate_monthly_report` prints: the transactions from `today.replace(day=1)`
      to the day before the first of the month 31 days later, which are exactly today's
      month's. None in December 9999, where the 31 days run past 9999-12-31.
    */
    static method MonthTotalOf(category: Category, today: Day) returns (total: Option<real>)
      ensures total.None? <==> Year(today) == MaxYear && Month(today) == 12
      ensures total.Some? ==> total.value == TotalOf(InMonth(category.transactions, Year(today), Month(today)))
    {
      MonthWindow(category.transactions, today);
      var start := ReplaceDay(today, 1).value;
      var end := MonthEnd(start, 31);
      if end.None? {
        return None;
      }
      total := Some(TotalOf(category.TransactionsInPeriod(start, end.value)));
    }

    /** `plot_monthly_comparison`'s data: one total per month of today's year up to today's month. */
    method PlotMonthlyComparison(name: string, today: Day) returns (r: Option<seq<real>>)
      requires name in categories
      ensures r == MonthlyTotals(categories[name].transactions, today)
    {
      r := MonthBuckets(categories[name].transactions, today);
    }

    /** `save_to_file`'s document, from which loading gives back exactly this ledger. */
    function SaveToFile(): (doc: Json)
      requires Valid()
      reads this, categories.Values
      ensures doc.JObject? && doc.fields.Keys == categories.Keys
      ensures FromDocument(doc) == Some(Snapshot())
    {
      RoundTrip(Snapshot());
      ToDocument(Snapshot())
    }

    /**
      `load_from_file`: a missing file changes nothing. A well-formed document is merged
      into the ledger. Each of its names gets that entry, replacing any category of the
      same name, and every other category stays as it was.
    */
    method LoadFromFile(file: Stored) returns (s: Status)
      requires Valid()
      modifies this
      ensures Valid()
      ensures file.Missing? ==> s == Failed(FileNotFound) && Snapshot() == old(Snapshot())
      ensures file.Unreadable? ==> s == Failed(DecodeError) && Snapshot() == old(Snapshot())
      ensures file.Parsed? && FromDocument(file.doc).None? ==> s == Failed(MalformedDocument)
      ensures file.Parsed? && FromDocument(file.doc).Some? ==>
                s == Done && Snapshot() == old(Snapshot()) + FromDocument(file.doc).value
    {
      if file.Missing? {
        return Failed(FileNotFound);
      }
      if file.Unreadable? {
        return Failed(DecodeError);
      }
      var parsed := FromDocument(file.doc);
      if parsed.None? {
        return Failed(MalformedDocument);
      }
      MergeBook(parsed.value);
      s := Done;
    }

    /**
      `load_from_file`'s loop over a well-formed document: each name gets a new category
      holding its entry, and every other category stays as it was.
    */
    method MergeBook(book: Book)
      requires Valid() && WellFormed(book)
      modifies this
      ensures Valid()
      ensures Snapshot() == old(Snapshot()) + book
    {
      ghost var before := Snapshot();
      var loaded := BuildCategories(book);
      assert SnapshotOf(categories) == before;
      MergeKeepsValid(categories, loaded);
      categories := categories + loaded;
    }

    /**
      `load_from_file`'s loop body for each item: a new category whose transaction list
      is assigned whole. Storing each one under its name, as the loop does, amounts to
      updating the dictionary with all of them.
    */
    static method BuildCategories(book: Book) returns (cs: map<string, Category>)
      requires WellFormed(book)
      ensures ValidMap(cs) && SnapshotOf(cs) == book
    {
      cs := map[];
      var pending := book.Keys;
      while pending != {}
        invariant pending <= book.Keys
        invariant cs.Keys == book.Keys - pending
        invariant forall k :: k in cs ==> cs[k].name == k
        invariant forall k :: k in cs ==> cs[k].budget == book[k].budget
        invariant forall k :: k in cs ==> cs[k].transactions == book[k].transactions
        decreases pending
      {
        var name :| name in pending;
        var category := new Category(name, book[name].budget);
        category.transactions := book[name].transactions;
        cs := cs[name := category];
        pending := pending - {name};
      }
      assert SnapshotOf(cs) == book;
    }
  }
}
