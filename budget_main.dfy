/**
  The tracker of `main.py`: a dictionary from category name to category object,
  updated in place. Adding an existing category is refused, and loading replaces the
  whole dictionary by the document's categories.
*/
module BudgetMain {
  import opened Outcomes
  import opened Calendar
  import opened Ledger
  import opened Periods
  import opened Document
  import opened Categories

  class BudgetTracker {
    var categories: map<string, Category>

    ghost predicate Valid()
      reads this, categories.Values
    {
      ValidMap(categories)
    }

    /** The ledger the dictionary currently holds. */
    function Snapshot(): Book
      reads this, categories.Values
    {
      SnapshotOf(categories)
    }

    /** `BudgetTracker()`: no categories. */
    constructor ()
      ensures Valid() && Snapshot() == map[]
    {
      categories := map[];
    }

    /**
      `add_category`: a name already present is refused and nothing changes, its budget
      and transactions included; otherwise one empty category with the given budget is
      added and no other name is touched.
    */
    method AddCategory(name: string, budget: real) returns (s: Status)
      requires Valid()
      modifies this
      ensures Valid()
      ensures name in old(categories) ==> s == Failed(DuplicateCategory) && Snapshot() == old(Snapshot())
      ensures name !in old(categories) ==> s == Done && Snapshot() == old(Snapshot())[name := Entry(budget, [])]
    {
      if name in categories {
        return Failed(DuplicateCategory);
      }
      var category := new Category(name, budget);
      categories := categories[name := category];
      s := Done;
    }

    /**
      `add_transaction`: an unknown name changes nothing; otherwise exactly one
      transaction dated `today` and naming the category is appended to the end of that
      category, and every other category is untouched.
    */
    method AddTransaction(name: string, amount: real, description: string, today: Day) returns (s: Status)
      requires Valid()
      modifies categories.Values
      ensures Valid() && categories == old(categories)
      ensures name !in categories ==> s == Failed(CategoryNotFound) && Snapshot() == old(Snapshot())
      ensures name in categories ==>
                && s == Done
                && Snapshot() == old(Snapshot())[name := Entry(old(Snapshot())[name].budget,
                     old(Snapshot())[name].transactions + [Transaction(today, amount, name, description)])]
    {
      if name !in categories {
        return Failed(CategoryNotFound);
      }
      var category := categories[name];
      category.AddTransaction(Transaction(today, amount, name, description));
      assert forall k :: k in categories && k != name ==> categories[k] != category;
      s := Done;
    }

    /**
      `generate_report`: for a known category, the figures it prints from the current
      ledger (budget, total spent, remaining budget, transactions); otherwise not found.
    */
    function GenerateReport(name: string): (r: Result<Report>)
      reads this, categories.Values
      ensures r.Ok? <==> name in categories
      ensures r.Err? ==> r.error == CategoryNotFound
      ensures r.Ok? ==> r.value == ReportOf(Snapshot()[name])
    {
      ReportFor(categories, name)
    }

    /**
      `generate_period_report` with `_calculate_period_spending`: for "weekly" the seven
      day totals of today's week, for any other period type the month totals of today's
      year up to today's month; the date arithmetic fails only at the end of year 9999.
    */
    method GeneratePeriodReport(name: string, periodType: string, today: Day) returns (r: Result<seq<real>>)
      ensures name !in categories ==> r == Err(CategoryNotFound)
      ensures name in categories && periodType == "weekly" ==>
                r == OkOr(WeeklyTotals(categories[name].transactions, today), DateOutOfRange)
      ensures name in categories && periodType != "weekly" ==>
                r == OkOr(MonthlyTotals(categories[name].transactions, today), DateOutOfRange)
    {
      if name !in categories {
        return Err(CategoryNotFound);
      }
      var ts := categories[name].transactions;
      var data;
      if periodType == "weekly" {
        data := WeekBuckets(ts, today);
      } else {
        data := MonthBuckets(ts, today);
      }
      r := OkOr(data, DateOutOfRange);
    }

    /** `save_data`'s document, from which loading gives back exactly this ledger. */
    function SaveData(): (doc: Json)
      requires Valid()
      reads this, categories.Values
      ensures doc.JObject? && doc.fields.Keys == categories.Keys
      ensures FromDocument(doc) == Some(Snapshot())
    {
      RoundTrip(Snapshot());
      ToDocument(Snapshot())
    }

    /**
      `load_data`: no file and unreadable text are reported before anything is cleared,
      so the ledger is unchanged; a well-formed document replaces the ledger by exactly
      its categories. The document is read whole before the dictionary is cleared.
    */
    method LoadData(file: Stored) returns (s: Status)
      requires Valid()
      modifies this
      ensures Valid()
      ensures file.Missing? ==> s == Failed(FileNotFound) && Snapshot() == old(Snapshot())
      ensures file.Unreadable? ==> s == Failed(DecodeError) && Snapshot() == old(Snapshot())
      ensures file.Parsed? && FromDocument(file.doc).None? ==> s == Failed(MalformedDocument)
      ensures file.Parsed? && FromDocument(file.doc).Some? ==> s == Done && Snapshot() == FromDocument(file.doc).value
    {
      if file.Missing? {
        return Failed(FileNotFound);
      }
      if file.Unreadable? {
        return Failed(DecodeError);
      }
      var parsed := FromDocument(file.doc);
      if parsed.None? {
        return Failed(MalformedDocument);
      }
      categories := BuildCategories(parsed.value);
      s := Done;
    }

    /** `load_data`'s loop over the document's items: one new category per name. */
    static method BuildCategories(book: Book) returns (cs: map<string, Category>)
      requires WellFormed(book)
      ensures ValidMap(cs) && SnapshotOf(cs) == book
    {
      cs := map[];
      var pending := book.Keys;
      while pending != {}
        invariant pending <= book.Keys
        invariant cs.Keys == book.Keys - pending
        invariant forall k :: k in cs ==> cs[k].name == k
        invariant forall k :: k in cs ==> cs[k].budget == book[k].budget
        invariant forall k :: k in cs ==> cs[k].transactions == book[k].transactions
        decreases pending
      {
        var name :| name in pending;
        var category := BuildCategory(name, book[name]);
        cs := cs[name := category];
        pending := pending - {name};
      }
      assert SnapshotOf(cs) == book;
    }

    /** The body of `load_data`'s loop for one name: a new category, its transactions appended in order. */
    static method BuildCategory(name: string, entry: Entry) returns (category: Category)
      ensures fresh(category)
      ensures category.name == name && category.budget == entry.budget
      ensures category.transactions == entry.transactions
    {
      category := new Category(name, entry.budget);
      for i := 0 to |entry.transactions|
        modifies category
        invariant category.budget == entry.budget
        invariant category.transactions == entry.transactions[..i]
      {
        category.transactions := category.transactions + [entry.transactions[i]];
      }
      assert entry.transactions[..|entry.transactions|] == entry.transactions;
    }
  }
}
