# Personal budget tracker, modelled and verified in Dafny

This project models the command-line budget tracker in `main.py` and its older version `budget_tracker.py`. It then proves properties of the model.

The tracker keeps spending categories. Each category has a name, a budget and an insertion-ordered list of transactions. Each transaction has a date, an amount, a description and the name of its owning category.

The tracker's `BudgetTracker` object keeps a dictionary from category name to category object. It offers these operations:

- add a category;
- add a transaction dated today;
- report one category (budget, total spent, remaining budget, transactions);
- report spending per day of the current week and per month of the current year;
- save the dictionary as a JSON document and load it back.

The two programs share the category object and the document format. They differ in four ways:

- `main.py` refuses a duplicate category name; `budget_tracker.py` replaces the existing category.
- `main.py` clears the dictionary before loading; `budget_tracker.py` merges the document into it.
- `main.py` reports a file that is not JSON; `budget_tracker.py` handles only a missing file.
- `budget_tracker.py` prints one weekly or monthly total and then computes the per-day or per-month buckets. `main.py` computes only the buckets.

Modules, one file each, in dependency order:

- `outcomes.dfy` (`Outcomes`): `Option`, `Result`, `Status` and the error kinds the tracker prints or raises.
- `calendar.dfy` (`Calendar`): Python's `datetime.date` as a proleptic Gregorian day ordinal, from 1 (0001-01-01) to 3652059 (date.max, 9999-12-31). It includes conversion to and from (year, month, day), `weekday()`, `d + timedelta(days=k)` and `replace(...)`. It also includes the tracker's end-of-month idiom `(first + timedelta(days=step)).replace(day=1) - timedelta(days=1)`.
- `iso_date.dfy` (`IsoDate`): `isoformat()` and `fromisoformat()`. Both use the ISO 8601 extended calendar date form `YYYY-MM-DD` (ISO 8601:2004, section 4.1.2.2).
- `ledger.dfy` (`Ledger`): transactions, a category's content (`Entry`), the dictionary as a value (`Book`), sums, date-range filters and the report figures.
- `periods.dfy` (`Periods`): the weekly and monthly bucket loops. Each is a method proved equal to a reference definition stated in calendar terms. The file also holds the lemmas that relate these buckets to the single-period totals of the older reports. Those totals themselves are computed in `budget_legacy.dfy` (`WeekTotalOf`, `MonthTotalOf`).
- `document.dfy` (`Document`): the saved document as a JSON value. It covers what saving writes, what loading accepts, and the round trip.
- `categories.dfy` (`Categories`): the `Category` class, whose transaction list grows in place. It also reads the tracker's dictionary of category objects as a `Book` value, and states the invariant both trackers keep.
- `budget_main.dfy` (`BudgetMain`): the `BudgetTracker` class of `main.py`.
- `budget_legacy.dfy` (`BudgetLegacy`): the `BudgetTracker` class of `budget_tracker.py`.

Both trackers keep the same invariant:

- each dictionary key is its category's name, so distinct keys hold distinct objects;
- every transaction names the category that holds it.

Every state-changing method preserves the invariant and states its new state through `Snapshot()`, the dictionary read as a `Book` value.

Amounts and budgets are `real`. The current date is a `today` parameter. The file is a `Stored` value: no file, text that is not JSON, or a parsed JSON value.

A JSON number is read as a `real`. The model expects every budget and amount to be a JSON number and every description a JSON string.

Date arithmetic beyond date.max is an `OverflowError` in Python. In the model it is `None` or `DateOutOfRange`. Two cases are affected:

- the week of 9999-12-31, whose Monday plus six days runs past date.max;
- December 9999, where the month-end idiom runs past date.max.

`budget_tracker.py` spells its constructors `_init_`, so as written they never run. The model gives each class the initialisation it evidently intends: the fields the misspelled methods assign.

The `Category` class of `budget_tracker.py` (lines 12-29) is the same as that of `main.py` apart from its printed messages. The rows for `Categories` below cite `main.py`; they apply equally to `budget_tracker.py`:12-29.

## Model

| member | source | states |
|---|---|---|
| Calendar.DaysInMonth | main.py:125 | a month has 28 to 31 days, and 29 exactly for February of a leap year |
| Calendar.ToOrdinal | main.py:48 | the ordinal of a valid date lies within its year's range of ordinals, inside 1..date.max |
| Calendar.FromOrdinal | main.py:117-125 | every ordinal names a valid date whose ordinal is that number |
| Calendar.CivilRoundTrip | main.py:48 | a valid date converted to its ordinal and back is itself |
| Calendar.OrdinalOrder | main.py:48 | comparing ordinals is comparing dates by year, then month, then day, so `start <= t.date <= end` is calendar order |
| Calendar.Weekday | main.py:117 | `weekday()` is between 0 and 6 |
| Calendar.AddDays | main.py:119 | adding k days succeeds exactly when the result stays within 0001-01-01..9999-12-31, and then moves the date by k |
| Calendar.Replace | main.py:124 | `replace(month, day)` succeeds exactly when the triple with the same year is a valid date, and yields that date |
| Calendar.ReplaceDay | budget_tracker.py:77 | `replace(day)` succeeds exactly when the day exists in the date's month, and yields that date |
| Calendar.ReplaceWithFirst | main.py:124 | `replace(day=1, month=m)` never fails and is the first day of month m of the same year |
| Calendar.WeekdayAfterMonday | main.py:117-119 | the six days after a Monday have weekdays 1 to 6 |
| Calendar.NextMonthIsAdjacent | main.py:123-125 | the day after a month's last day is the first of the next month, also from December into January; December 9999 ends at date.max |
| Calendar.StepLandsInNextMonth | main.py:125 | 31 to 58 days after the first of a month is a date in the next month, whose first day follows the month's last day |
| Calendar.MonthEndIsLastDay | main.py:125 | the month-end idiom with a step of 31 to 58 days gives the true last day of the month for every month length and year, and fails only for December 9999 |
| Calendar.MonthEnd | main.py:125 | a month-end idiom that succeeds ends the day before a first of a month, earlier than the stepped-to date |
| Calendar.InMonthRange | main.py:124-126 | a day lies between a month's first and last day exactly when it is a date of that month |
| IsoDate.IsoFormat | main.py:146 | `isoformat()` is ten characters with dashes at positions 4 and 7 |
| IsoDate.FromIsoFormat | main.py:165 | an accepted string is `YYYY-MM-DD` with digits in all three fields, and the date read has exactly the year, month and day those digits spell |
| IsoDate.IsoRoundTrip | main.py:146-165 | `fromisoformat(d.isoformat())` is d for every date |
| IsoDate.IsoCanonical | main.py:165 | every string the strict `fromisoformat` accepts is the `isoformat()` of the date it yields |
| Ledger.TotalOf | main.py:38-40 | the sum of no transactions is 0, and of one transaction its amount |
| Ledger.TotalOfNonNegative | main.py:38-40 | when no amount is negative, the total spent is not negative |
| Ledger.TotalOfAppend | main.py:40 | the sum over a concatenation is the sum of the two sums |
| Ledger.TotalOfAppendOne | main.py:33-40 | appending one transaction adds exactly its amount to the sum |
| Ledger.FilterAppend | main.py:48 | the filter comprehension distributes over concatenation, so it keeps insertion order |
| Ledger.FilterCount | main.py:48 | the filter keeps every occurrence of a matching transaction and no other |
| Ledger.FilterMembers | main.py:48 | a transaction is in the filter's result exactly when it is in the list and its date passes the condition |
| Ledger.InPeriod | main.py:46-48 | the query is no longer than the list, and every transaction it returns is dated within both ends |
| Ledger.InPeriodExact | main.py:46-48 | a period query holds a transaction as often as the list does when its date is within both ends, and otherwise not at all |
| Ledger.InPeriodMembers | main.py:46-48 | for all transactions: membership iff dated within both ends, the exact multiplicities, empty when start is after end, the day's transactions when start equals end |
| Ledger.InPeriodAppend | main.py:48 | a query over a concatenation is the concatenation of the queries |
| Ledger.InPeriodSingleDay | main.py:120 | the query from day d to day d is exactly the transactions dated d |
| Ledger.InPeriodReversed | main.py:48 | a query whose start lies after its end is empty |
| Ledger.InPeriodWholeMonth | main.py:124-126 | the query from a month's first to its last day is exactly that month's transactions |
| Ledger.InPeriodSplit | budget_tracker.py:65-67 | splitting a period at any day splits its total into the totals of the two parts |
| Ledger.ReportOf | main.py:72-86 | the report shows the budget, the transactions in order, their sum, and remaining = budget - spent, negative exactly when overspent |
| Periods.WeekStart | main.py:117 | `today - timedelta(days=today.weekday())` is a Monday, at most six days before today |
| Periods.WeekStartInRange | main.py:117 | stepping back to Monday never leaves the range of dates |
| Periods.DaysOfElement | main.py:118-121 | bucket i of the day buckets is the total of day start + i |
| Periods.WeeklyTotalsMeaning | main.py:116-121 | straight from the calendar, the weekly buckets are seven; bucket i is weekday i of today's week; it sums the amounts dated that day; the week contains today; only the week of 9999-12-31 fails |
| Periods.WeekBuckets | main.py:116-121 | the weekly loop builds exactly the reference weekly buckets, or fails exactly when they do |
| Periods.MonthsOf | main.py:123-127 | there are m month buckets and bucket k sums the transactions dated in month k + 1 |
| Periods.MonthBucket | main.py:124-126 | one pass of the monthly loop sums exactly the given month's transactions and fails only for December 9999 |
| Periods.MonthBuckets | main.py:122-127 | the monthly loop builds exactly the reference month buckets, January to today's month, or fails exactly in December 9999 |
| Periods.MonthIdiomSelectsMonth | main.py:124-126 | the period from the first of a month to the 32-day idiom's end holds that month's total |
| Periods.MonthlyTotalsMeaning | main.py:122-127 | there are `today.month` buckets; bucket k covers day 1 to the true last day of month k + 1; consecutive buckets are adjacent ranges of days |
| Periods.PeriodIsSumOfDays | budget_tracker.py:65-67 | the total over n consecutive days is the sum of the n per-day totals |
| Periods.SumOfDaysStep | budget_tracker.py:88-93 | one more day bucket adds that day's total to the sum of the buckets |
| Periods.WeekTotalIsSumOfBuckets | budget_tracker.py:63-67 | the weekly buckets exist exactly when Monday + 6 is a date, and then the total from Monday to Monday + 6 is their sum |
| Periods.MonthWindow | budget_tracker.py:77-80 | `today.replace(day=1)` always exists; the 31-day idiom fails only in December 9999; otherwise the window holds exactly today's month's transactions |
| Document.TxToJson | main.py:146 | a saved transaction is an object with exactly the keys "date", "amount" and "description", whose date string `fromisoformat` reads back as the transaction's date |
| Document.TxsToJson | main.py:145-148 | saving writes one transaction object per transaction |
| Document.EntryToJson | main.py:143-148 | a saved category is an object with exactly the keys "budget" and "transactions", the latter a list with one item per transaction |
| Document.ToDocument | main.py:142-150 | the saved document is an object with one entry per category name |
| Document.ParseTransaction | main.py:164-169 | a loaded transaction belongs to the category under whose name it was stored |
| Document.Elements | main.py:163 | iterating a list visits its items; anything else that can be iterated without failing visits nothing |
| Document.ParseTransactions | main.py:163-170 | a loaded list has one transaction per item, all belonging to the category |
| Document.ParseEntry | main.py:162-170 | every transaction of a loaded category names that category |
| Document.FromDocument | main.py:159-171 | a document loads exactly when it is an object whose every entry parses; the ledger then has the document's names and keeps the invariant |
| Document.TxRoundTrip | main.py:146 | a saved transaction loads back as itself |
| Document.TxsRoundTrip | main.py:145-148 | a saved transaction list loads back as the same list in the same order |
| Document.EntryRoundTrip | main.py:143-148 | a saved category loads back with the same budget and transactions |
| Document.LoadsAs | main.py:159-171 | a document whose every entry parses to a ledger's entry of the same name, with the same names, loads as that ledger |
| Document.RoundTrip | main.py:140-171 | loading the saved document of a well-formed ledger gives back exactly that ledger |
| Document.SaveIsInjective | main.py:142-150 | different well-formed ledgers are saved as different documents |
| Document.ExtraKeyIgnored | main.py:165-168 | a key other than the three the loader reads does not affect a transaction |
| Document.BadDateRejectsDocument | main.py:165 | a date string `fromisoformat` rejects anywhere in a list makes loading fail |
| Document.BadItemRejectsList | main.py:163-170 | one malformed item anywhere in a transaction list makes the list fail to load |
| Categories.Category.constructor | main.py:28-31 | a new category has the given name and budget and no transactions |
| Categories.Category.AddTransaction | main.py:33-35 | appends exactly the transaction at the end; the budget stays; the total grows by its amount |
| Categories.Category.TotalSpent | main.py:38-40 | the total of a category without transactions is 0 |
| Categories.Category.RemainingBudget | main.py:42-44 | remaining plus spent is the budget, and remaining is negative exactly when spending exceeds the budget |
| Categories.Category.TransactionsInPeriod | main.py:46-48 | exactly the transactions dated within both ends, with their multiplicities; nothing when start is after end; the day's transactions when start equals end |
| Categories.MergeKeepsValid | budget_tracker.py:138-141 | updating a dictionary with another keeps the invariant, and the second's categories win on shared names |
| Categories.ReportFor | main.py:72-88 | a report exists exactly for a known category: its budget, transactions, total spent and remaining budget; otherwise not found |
| BudgetMain.BudgetTracker.constructor | main.py:52-53 | a new tracker is empty and keeps the invariant |
| BudgetMain.BudgetTracker.AddCategory | main.py:55-61 | a present name is refused and nothing changes; otherwise exactly one empty category with the budget is added and no other name changes |
| BudgetMain.BudgetTracker.AddTransaction | main.py:63-70 | an unknown name changes nothing; otherwise exactly one transaction dated today and naming the category is appended to it, and no other category changes |
| BudgetMain.BudgetTracker.GenerateReport | main.py:72-88 | a report exists exactly for a known category and shows that category's figures from the current ledger; otherwise not found |
| BudgetMain.BudgetTracker.GeneratePeriodReport | main.py:90-128 | an unknown name is not found; "weekly" gives the reference weekly buckets, any other period the reference monthly buckets, failing only where they do |
| BudgetMain.BudgetTracker.SaveData | main.py:140-153 | the saved document has one entry per category and loads back as exactly the current ledger |
| BudgetMain.BudgetTracker.LoadData | main.py:155-176 | a missing or unreadable file is reported and nothing changes; a well-formed document becomes exactly the ledger; the invariant always holds |
| BudgetMain.BudgetTracker.BuildCategories | main.py:161-171 | the loop creates one category per document entry, and their ledger is the document's, keeping the invariant |
| BudgetMain.BudgetTracker.BuildCategory | main.py:162-170 | a new category with the entry's budget and transactions, appended one by one in order |
| BudgetLegacy.BudgetTracker.constructor | budget_tracker.py:32-33 | a new tracker is empty and keeps the invariant |
| BudgetLegacy.BudgetTracker.AddCategory | budget_tracker.py:35-38 | the name always gets a new empty category with the budget, replacing any existing one; no other name changes |
| BudgetLegacy.BudgetTracker.AddTransaction | budget_tracker.py:40-46 | an unknown name changes nothing; otherwise exactly one transaction dated today is appended to that category alone |
| BudgetLegacy.BudgetTracker.GenerateReport | budget_tracker.py:48-59 | a report exists exactly for a known category and shows that category's figures from the current ledger; otherwise not found |
| BudgetLegacy.BudgetTracker.GenerateWeeklyReport | budget_tracker.py:61-72 | an unknown name is not found; for a known one it succeeds exactly when the week ends by 9999-12-31, and otherwise fails only with `DateOutOfRange`; on success its total is that of Monday to Sunday and equals the sum of the seven plotted day buckets |
| BudgetLegacy.BudgetTracker.WeekTotalOf | budget_tracker.py:63-67 | the printed total is that of the seven days from Monday of today's week; it fails exactly for the week of 9999-12-31 |
| BudgetLegacy.BudgetTracker.PlotWeeklyComparison | budget_tracker.py:87-93 | the plotted data are the reference weekly buckets |
| BudgetLegacy.BudgetTracker.GenerateMonthlyReport | budget_tracker.py:74-85 | an unknown name is not found; for a known one it succeeds exactly outside December 9999, and otherwise fails only with `DateOutOfRange`; on success its total is today's month's total and equals the last of the `today.month` plotted buckets |
| BudgetLegacy.BudgetTracker.MonthTotalOf | budget_tracker.py:76-80 | the printed total is today's calendar month's total; it fails exactly in December 9999 |
| BudgetLegacy.BudgetTracker.PlotMonthlyComparison | budget_tracker.py:104-112 | the plotted data are the reference month buckets |
| BudgetLegacy.BudgetTracker.SaveToFile | budget_tracker.py:123-132 | the saved document has one entry per category and loads back as exactly the current ledger |
| BudgetLegacy.BudgetTracker.LoadFromFile | budget_tracker.py:134-144 | a missing file changes nothing; a well-formed document is merged in, its names replaced by its entries and every other category kept; the invariant always holds |
| BudgetLegacy.BudgetTracker.MergeBook | budget_tracker.py:137-141 | each name of the document gets its entry, replacing any category of that name, every other category stays, and the invariant holds |
| BudgetLegacy.BudgetTracker.BuildCategories | budget_tracker.py:138-141 | one new category per document entry, each with its transaction list assigned whole; their ledger is the document's |

## Left out

- The interactive menus and input parsing (main.py:178-226, budget_tracker.py:147-184) are not modelled. They are console I/O.
- Plotting with matplotlib and the `strftime` labels (main.py:99-109, main.py:130-138, budget_tracker.py:95-102, budget_tracker.py:114-121) are not modelled. They are presentation. The data the plots receive is modelled. The weekly labels of main.py:99 fail for the same week as the data.
- Printed messages are left out. Each operation returns a `Status` or `Result`, and `generate_report` returns its figures as a `Report` value.
- Opening, writing and reading files, and JSON text, are left out. They are I/O. The file is a `Stored` parameter and the document a `Json` value.
- Amounts and budgets are `real`, not binary floating point, so sums are exact and rounding is not modelled.
- `date.today()` is a `today` parameter. The clock is not modelled.
- BudgetLegacy.BudgetTracker.GenerateWeeklyReport: `budget_tracker.py` reads the clock at line 63 for the printed total and again, twice, at line 88 for the plotted buckets. The model uses one `today` for all three reads, so its equality between the total and the sum of the buckets holds only when the clock reads the same day each time; across midnight the source's total and buckets can cover different weeks, and `week_start` need not be a Monday.
- BudgetLegacy.BudgetTracker.GenerateMonthlyReport: the clock is read at line 76 for the total and at line 105 for the buckets. The model uses one `today` for both, so the total equals the last bucket only when both reads give the same month.
- BudgetMain.BudgetTracker.GeneratePeriodReport: the clock is read at main.py:96 for the labels and at main.py:113 for the data. The model uses one `today`, so labels and data always cover the same period.
- `fromisoformat` is modelled in its strict `YYYY-MM-DD` form. Python 3.11 and later also accept other ISO 8601 forms, such as `YYYYMMDD`. Those forms are not modelled.
- The dictionary is a map, so the insertion order of category names, which only affects printing and the key order of the saved document, is not modelled.
- A document with a repeated key is not modelled, because `json.load` keeps the last value and the `Json` value already has one value per key.
- Document.ParseTransaction: the model requires every amount to be a JSON number and every description a JSON string. Python stores any JSON value there. A description of another type is printed and saved back as it is. A boolean amount is added as 0 or 1. Any other non-number amount fails only later, when a report adds or formats it.
- Document.ParseEntry: the model requires the budget to be a JSON number. Python stores any JSON value there. A boolean budget counts as 0 or 1; any other non-number fails only later, when a report subtracts from or formats it.
- BudgetMain.BudgetTracker.LoadData: after a malformed document, `main.py` has already cleared the dictionary and may have filled part of it. The contract only promises the invariant and the `MalformedDocument` status. The model reads the whole document before assigning anything.
- BudgetMain.BudgetTracker.LoadData: `main.py` catches only `FileNotFoundError` and `JSONDecodeError` there. A malformed document raises `KeyError`, `TypeError`, `ValueError` or `AttributeError`, which the menu loop catches and prints. The model reports it as `MalformedDocument`.
- BudgetLegacy.BudgetTracker.LoadFromFile: `budget_tracker.py` handles only a missing file. Text that is not JSON, or a malformed document, raises an uncaught exception and ends the program. The model reports `DecodeError` or `MalformedDocument` instead. After a malformed document the state may be partly merged in the source; the contract only promises the invariant.
- BudgetLegacy.BudgetTracker.GenerateWeeklyReport: an `OverflowError` from the date arithmetic is uncaught in `budget_tracker.py` and ends the program. The model reports `DateOutOfRange`. The same holds for GenerateMonthlyReport.
- BudgetMain.BudgetTracker.GeneratePeriodReport: the `OverflowError` for the last week or month of year 9999 reaches the menu loop's `except Exception` in `main.py`. The model reports `DateOutOfRange`.
- The misspelled constructors `_init_` (budget_tracker.py:6, budget_tracker.py:13, budget_tracker.py:32) are modelled as the intended constructors. As written, `Category(name, budget)` raises `TypeError` and a new `BudgetTracker` has no `categories` attribute. The misspelled `"_main_"` guard (budget_tracker.py:183) only concerns the menu, which is not modelled.
- Default arguments (`budget=0`, `description=''`) are not modelled separately. Every caller in the model passes the value.
- Ledger.Filter: its own contract only bounds the length. Membership and multiplicities are stated by InPeriodExact and InPeriodMembers.
