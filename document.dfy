/**
  The saved document as a JSON value, what saving writes and what loading accepts.
  The document maps each category name to an object with a "budget" and a list of
  "transactions", each an object with an ISO "date", an "amount" and a "description";
  the owning category of a transaction is not stored but restored from the key.
*/
module Document {
  import opened Outcomes
  import opened Calendar
  import opened IsoDate
  import opened Ledger

  /** A JSON value as `json.load` produces it; objects are dictionaries. */
  datatype Json =
    | JNull
    | JBool(b: bool)
    | JNumber(n: real)
    | JString(s: string)
    | JArray(items: seq<Json>)
    | JObject(fields: map<string, Json>)

  /** What opening the file and `json.load` give: no file, text that is not JSON, or a value. */
  datatype Stored = Missing | Unreadable | Parsed(doc: Json)

  /** `{"date": t.date.isoformat(), "amount": t.amount, "description": t.description}` */
  function TxToJson(t: Transaction): (j: Json)
    ensures j.JObject? && j.fields.Keys == {"date", "amount", "description"}
    ensures j.fields["date"].JString? && FromIsoFormat(j.fields["date"].s) == Some(t.date)
  {
    IsoRoundTrip(t.date);
    JObject(map["date" := JString(IsoFormat(t.date)), "amount" := JNumber(t.amount),
                "description" := JString(t.description)])
  }

  /** The "transactions" list, in insertion order. */
  function TxsToJson(ts: seq<Transaction>): (r: seq<Json>)
    ensures |r| == |ts|
  {
    if ts == [] then [] else [TxToJson(ts[0])] + TxsToJson(ts[1..])
  }

  /** `{"budget": cat.budget, "transactions": [...]}` */
  function EntryToJson(e: Entry): (j: Json)
    ensures j.JObject? && j.fields.Keys == {"budget", "transactions"}
    ensures j.fields["transactions"].JArray? && |j.fields["transactions"].items| == |e.transactions|
  {
    JObject(map["budget" := JNumber(e.budget), "transactions" := JArray(TxsToJson(e.transactions))])
  }

  /** The document `save_data` writes: one entry per category name. */
  function ToDocument(b: Book): (doc: Json)
    ensures doc.JObject? && doc.fields.Keys == b.Keys
  {
    JObject(map k | k in b :: EntryToJson(b[k]))
  }

  /**
    One transaction of category `name`, as the loader builds it from `t_data`: the value
    must be an object with the three keys, the date a string `fromisoformat` accepts;
    extra keys are ignored. None where Python raises KeyError, TypeError or ValueError.
  */
  function ParseTransaction(name: string, j: Json): (r: Option<Transaction>)
    ensures r.Some? ==> r.value.category == name
  {
    match j
    case JObject(f) =>
      if "date" in f && "amount" in f && "description" in f
         && f["date"].JString? && f["amount"].JNumber? && f["description"].JString?
      then
        match FromIsoFormat(f["date"].s)
        case None => None
        case Some(d) => Some(Transaction(d, f["amount"].n, name, f["description"].s))
      else None
    case _ => None
  }

  /**
    The elements `for t_data in cat_data["transactions"]` visits: a list's items; an
    empty string or empty object visits nothing; a non-empty string or object yields
    strings, which the loader then cannot index by "date"; anything else is not iterable.
  */
  function Elements(j: Json): (r: Option<seq<Json>>)
    ensures j.JArray? ==> r == Some(j.items)
    ensures r.Some? && !j.JArray? ==> r.value == []
  {
    match j
    case JArray(items) => Some(items)
    case JString(s) => if s == "" then Some([]) else None
    case JObject(f) => if f == map[] then Some([]) else None
    case _ => None
  }

  /** All transactions of one category, in document order; None if any one is malformed. */
  function ParseTransactions(name: string, items: seq<Json>): (r: Option<seq<Transaction>>)
    ensures r.Some? ==> |r.value| == |items|
    ensures r.Some? ==> forall t :: t in r.value ==> t.category == name
  {
    if items == [] then Some([])
    else
      match ParseTransaction(name, items[0])
      case None => None
      case Some(t) =>
        match ParseTransactions(name, items[1..])
        case None => None
        case Some(rest) => Some([t] + rest)
  }

  /** `Category(name, cat_data["budget"])` and its transactions. */
  function ParseEntry(name: string, j: Json): (r: Option<Entry>)
    ensures r.Some? ==> forall t :: t in r.value.transactions ==> t.category == name
  {
    match j
    case JObject(f) =>
      if "budget" in f && "transactions" in f && f["budget"].JNumber? then
        match Elements(f["transactions"])
        case None => None
        case Some(items) =>
          match ParseTransactions(name, items)
          case None => None
          case Some(ts) => Some(Entry(f["budget"].n, ts))
      else None
    case _ => None
  }

  /** Every entry of the object parses. */
  predicate AllEntriesParse(fields: map<string, Json>) {
    forall k :: k in fields ==> ParseEntry(k, fields[k]).Some?
  }

  /**
    The whole document read into a ledger value before anything is assigned: the top
    level must be an object (`data.items()`) and every entry must parse.
  */
  function FromDocument(j: Json): (r: Option<Book>)
    ensures r.Some? <==> j.JObject? && AllEntriesParse(j.fields)
    ensures r.Some? ==> r.value.Keys == j.fields.Keys && WellFormed(r.value)
  {
    match j
    case JObject(fields) =>
      if AllEntriesParse(fields)
      then Some(map k | k in fields :: ParseEntry(k, fields[k]).value)
      else None
    case _ => None
  }

  /** A saved transaction reads back as itself once its owner's name is supplied. */
  lemma TxRoundTrip(name: string, t: Transaction)
    requires t.category == name
    ensures ParseTransaction(name, TxToJson(t)) == Some(t)
  {
    IsoRoundTrip(t.date);
  }

  /** A saved transaction list reads back as the same list, in the same order. */
  lemma {:induction false} TxsRoundTrip(name: string, ts: seq<Transaction>)
    requires forall t :: t in ts ==> t.category == name
    ensures ParseTransactions(name, TxsToJson(ts)) == Some(ts)
  {
    if ts != [] {
      TxRoundTrip(name, ts[0]);
      TxsRoundTrip(name, ts[1..]);
      assert TxsToJson(ts)[1..] == TxsToJson(ts[1..]);
      assert [ts[0]] + ts[1..] == ts;
    }
  }

  lemma EntryRoundTrip(name: string, e: Entry)
    requires forall t :: t in e.transactions ==> t.category == name
    ensures ParseEntry(name, EntryToJson(e)) == Some(e)
  {
    var items := TxsToJson(e.transactions);
    var f := map["budget" := JNumber(e.budget), "transactions" := JArray(items)];
    assert EntryToJson(e) == JObject(f);
    assert Elements(f["transactions"]) == Some(items);
    TxsRoundTrip(name, e.transactions);
  }

  /** A document whose every entry parses to the ledger's entry for that name loads as that ledger. */
  lemma LoadsAs(fields: map<string, Json>, b: Book)
    requires fields.Keys == b.Keys
    requires forall k :: k in fields ==> ParseEntry(k, fields[k]) == Some(b[k])
    ensures FromDocument(JObject(fields)) == Some(b)
  {
    var loaded := map k | k in fields :: ParseEntry(k, fields[k]).value;
    assert loaded == b;
  }

  /**
    Loading what was saved gives back the same ledger: the same names, budgets, and
    transactions with the same dates, amounts and descriptions in the same order.
  */
  lemma RoundTrip(b: Book)
    requires WellFormed(b)
    ensures FromDocument(ToDocument(b)) == Some(b)
  {
    var fields := ToDocument(b).fields;
    forall k | k in fields
      ensures ParseEntry(k, fields[k]) == Some(b[k])
    {
      EntryRoundTrip(k, b[k]);
    }
    LoadsAs(fields, b);
  }

  /** Distinct well-formed ledgers are saved as distinct documents. */
  lemma SaveIsInjective(a: Book, b: Book)
    requires WellFormed(a) && WellFormed(b) && ToDocument(a) == ToDocument(b)
    ensures a == b
  {
    RoundTrip(a);
    RoundTrip(b);
  }

  /** The loader reads only the three keys of a transaction object; any other key is ignored. */
  lemma ExtraKeyIgnored(name: string, f: map<string, Json>, key: string, v: Json)
    requires key != "date" && key != "amount" && key != "description"
    ensures ParseTransaction(name, JObject(f[key := v])) == ParseTransaction(name, JObject(f))
  {
    var g := f[key := v];
    assert ("date" in g) == ("date" in f) && ("amount" in g) == ("amount" in f)
      && ("description" in g) == ("description" in f);
  }

  /** A transaction whose date string fromisoformat rejects makes the whole document unreadable. */
  lemma BadDateRejectsDocument(fields: map<string, Json>, name: string, before: seq<Json>,
                               f: map<string, Json>, after: seq<Json>)
    requires name in fields && fields[name].JObject? && "transactions" in fields[name].fields
    requires fields[name].fields["transactions"] == JArray(before + [JObject(f)] + after)
    requires "date" in f && f["date"].JString? && FromIsoFormat(f["date"].s).None?
    ensures FromDocument(JObject(fields)) == None
  {
    BadItemRejectsList(name, before, JObject(f), after);
  }

  /** One malformed item anywhere in a transaction list makes the list unreadable. */
  lemma {:induction false} BadItemRejectsList(name: string, before: seq<Json>, bad: Json, after: seq<Json>)
    requires ParseTransaction(name, bad).None?
    ensures ParseTransactions(name, before + [bad] + after).None?
  {
    if before == [] {
      assert before + [bad] + after == [bad] + after;
    } else {
      BadItemRejectsList(name, before[1..], bad, after);
      assert (before + [bad] + after)[1..] == before[1..] + [bad] + after;
    }
  }
}
