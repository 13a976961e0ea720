/**
  A spending category as an object whose transaction list grows in place, and the
  tracker's dictionary of categories read as a ledger value. Both trackers share it:
  the `Category` classes of the two programs differ only in what they print.
*/
module Categories {
  import opened Outcomes
  import opened Calendar
  import opened Ledger

  class Category {
    /** Set by the constructor and never reassigned. */
    const name: string
    var budget: real
    var transactions: seq<Transaction>

    /** `Category(name, budget)`: a category with no transactions yet. */
    constructor (name: string, budget: real)
      ensures this.name == name && this.budget == budget && transactions == []
    {
      this.name := name;
      this.budget := budget;
      transactions := [];
    }

    /** `add_transaction`: appends at the end; the budget stays and the total grows by the amount. */
    method AddTransaction(t: Transaction)
      modifies this
      ensures transactions == old(transactions) + [t] && budget == old(budget)
      ensures TotalSpent() == old(TotalSpent()) + t.amount
    {
      TotalOfAppendOne(transactions, t);
      transactions := transactions + [t];
    }

    /** `total_spent`: the sum of all amounts, 0 for a category without transactions. */
    function TotalSpent(): (r: real)
      reads this
      ensures transactions == [] ==> r == 0.0
    {
      TotalOf(transactions)
    }

    /** `remaining_budget`: negative exactly when the category is overspent. */
    function RemainingBudget(): (r: real)
      reads this
      ensures r < 0.0 <==> TotalSpent() > budget
      ensures r + TotalSpent() == budget
    {
      budget - TotalSpent()
    }

    /**
      `transactions_in_period(start, end)`: exactly the transactions dated within both
      ends, each as often as it was added and in insertion order; nothing when start
      lies after end; the day's transactions when start and end coincide.
    */
    function TransactionsInPeriod(start: Day, end: Day): (r: seq<Transaction>)
      reads this
      ensures forall t :: t in r <==> t in transactions && start <= t.date <= end
      ensures forall t :: multiset(r)[t] == if start <= t.date <= end then multiset(transactions)[t] else 0
      ensures start > end ==> r == []
      ensures start == end ==> r == OnDay(transactions, start)
    {
      InPeriodMembers(transactions, start, end);
      InPeriod(transactions, start, end)
    }
  }

  /** The dictionary as a value: each name's budget and transactions. */
  function SnapshotOf(cs: map<string, Category>): (b: Book)
    reads cs.Values
    ensures b.Keys == cs.Keys
  {
    map k | k in cs :: Entry(cs[k].budget, cs[k].transactions)
  }

  /**
    The tracker's invariant: every key is its category's name, so distinct keys hold
    distinct objects, and every transaction names the category that holds it.
  */
  ghost predicate ValidMap(cs: map<string, Category>)
    reads cs.Values
  {
    (forall k :: k in cs ==> cs[k].name == k) && WellFormed(SnapshotOf(cs))
  }

  /**
    Updating a dictionary with another keeps the invariant, and the ledger it holds is
    the first ledger updated with the second: the second wins on a shared name.
  */
  lemma MergeKeepsValid(a: map<string, Category>, b: map<string, Category>)
    requires ValidMap(a) && ValidMap(b)
    ensures ValidMap(a + b)
    ensures SnapshotOf(a + b) == SnapshotOf(a) + SnapshotOf(b)
  {
  }

  /** `generate_report` on the dictionary: the figures of category `name`, or not found. */
  function ReportFor(cs: map<string, Category>, name: string): (r: Result<Report>)
    reads cs.Values
    ensures r.Ok? <==> name in cs
    ensures r.Err? ==> r.error == CategoryNotFound
    ensures r.Ok? ==>
              && r.value.budget == cs[name].budget && r.value.transactions == cs[name].transactions
              && r.value.totalSpent == cs[name].TotalSpent() && r.value.remaining == cs[name].RemainingBudget()
  {
    if name in cs then Ok(ReportOf(SnapshotOf(cs)[name])) else Err(CategoryNotFound)
  }
}
