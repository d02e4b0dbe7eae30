/** What travels on the topics, and the rows it becomes. */
module Messages {
  import opened Wrappers

  datatype Value = Null | Int(i: int) | Num(n: real) | Str(s: string)

  // A JSON object.
  type Record = map<string, Value>

  datatype Topic = EodOhlcv | Fundamentals | IntradayBars

  // One value per topic.
  datatype Feeds<T> = Feeds(eod: T, fundamentals: T, intraday: T) {
    function At(t: Topic): T {
      match t
      case EodOhlcv => eod
      case Fundamentals => fundamentals
      case IntradayBars => intraday
    }

    function With(t: Topic, v: T): Feeds<T> {
      match t
      case EodOhlcv => this.(eod := v)
      case Fundamentals => this.(fundamentals := v)
      case IntradayBars => this.(intraday := v)
    }
  }

  datatype DlqTopic = DlqEodOhlcv | DlqFundamentals | DlqCorporateActions

  // A dead letter: its own fields, and the record it wraps if it is a wrapper.
  datatype DeadLetter = DeadLetter(topic: DlqTopic, body: Record, original: Option<Record>)

  function Get(r: Record, key: string, default: Value): Value { if key in r then r[key] else default }

  // ---------------------------------------------------------------- rows

  datatype Key =
    | BarKey(time: Value, symbol: Value, exchange: Value)
    | StatementKey(symbol: Value, periodEnd: Value, kind: Value)

  datatype Row =
    | Bar(open: Value, high: Value, low: Value, close: Value, volume: Value, adjustedClose: Value)
    | Statement(revenue: Value, netIncome: Value, totalAssets: Value, totalLiabilities: Value, totalEquity: Value)

  type Table = map<Key, Row>

  datatype Entry = Entry(key: Key, row: Row)

  predicate HasBarFields(r: Record) {
    "symbol" in r && "open" in r && "high" in r && "low" in r && "close" in r
  }

  // Key columns are not nullable: a null in one makes the insert raise.
  function NonNull(e: Entry): Option<Entry> {
    match e.key
    case BarKey(t, s, x) => if t.Null? || s.Null? || x.Null? then None else Some(e)
    case StatementKey(s, p, k) => if s.Null? || p.Null? || k.Null? then None else Some(e)
  }

  // The row a record is inserted as; None when a required field is missing or a key column null.
  function EntryOf(t: Topic, r: Record): Option<Entry> {
    match t
    case EodOhlcv =>
      if !HasBarFields(r) then None
      else
        NonNull(Entry(BarKey(Get(r, "date", Get(r, "time", Null)), r["symbol"], Get(r, "exchange", Str("IDX"))),
                      Bar(r["open"], r["high"], r["low"], r["close"], Get(r, "volume", Int(0)),
                          Get(r, "adjusted_close", r["close"]))))
    case IntradayBars =>
      if !HasBarFields(r) then None
      else
        NonNull(Entry(BarKey(Get(r, "timestamp", Get(r, "time", Null)), r["symbol"], Get(r, "exchange", Str("IEX"))),
                      Bar(r["open"], r["high"], r["low"], r["close"], Get(r, "volume", Int(0)), r["close"])))
    case Fundamentals =>
      NonNull(Entry(StatementKey(Get(r, "symbol", Null), Get(r, "period_end", Get(r, "fiscal_date", Null)),
                                 Get(r, "statement_type", Str("INCOME"))),
                    Statement(Get(r, "revenue", Null), Get(r, "net_income", Null), Get(r, "total_assets", Null),
                              Get(r, "total_liabilities", Null), Get(r, "total_equity", Null))))
  }

  // INSERT ... ON CONFLICT DO NOTHING.
  function InsertIfAbsent(table: Table, e: Entry): Table {
    if e.key in table then table else table[e.key := e.row]
  }

  // The rows of a list of records inserted in order; records without a row leave the table alone.
  function InsertAll(t: Topic, records: seq<Record>, table: Table): Table {
    if records == [] then table
    else
      var before := InsertAll(t, records[..|records| - 1], table);
      var e := EntryOf(t, records[|records| - 1]);
      if e.Some? then InsertIfAbsent(before, e.value) else before
  }

  function Lookup(table: Table, k: Key): Option<Row> { if k in table then Some(table[k]) else None }

  ghost predicate Supplies(t: Topic, records: seq<Record>, k: Key) {
    exists i :: 0 <= i < |records| && EntryOf(t, records[i]).Some? && EntryOf(t, records[i]).value.key == k
  }

  lemma {:induction false} InsertAllConcat(t: Topic, a: seq<Record>, b: seq<Record>, table: Table)
    ensures InsertAll(t, a + b, table) == InsertAll(t, b, InsertAll(t, a, table))
  {
    hide EntryOf;
    if b == [] {
      assert a + b == a;
    } else {
      assert (a + b)[..|a + b| - 1] == a + b[..|b| - 1];
      InsertAllConcat(t, a, b[..|b| - 1], table);
    }
  }

  /** Rows already present never change, and the keys of inserted records are present afterwards. */
  lemma {:induction false} InsertAllKeeps(t: Topic, records: seq<Record>, table: Table)
    ensures forall k :: k in table ==> k in InsertAll(t, records, table) && InsertAll(t, records, table)[k] == table[k]
    ensures forall i :: 0 <= i < |records| && EntryOf(t, records[i]).Some? ==>
      EntryOf(t, records[i]).value.key in InsertAll(t, records, table)
  {
    hide EntryOf;
    if records != [] { InsertAllKeeps(t, records[..|records| - 1], table); }
  }

  /** Inserting records whose keys are all present changes nothing. */
  lemma {:induction false} InsertAllAbsorbed(t: Topic, records: seq<Record>, table: Table)
    requires forall i :: 0 <= i < |records| && EntryOf(t, records[i]).Some? ==>
      EntryOf(t, records[i]).value.key in table
    ensures InsertAll(t, records, table) == table
  {
    hide EntryOf;
    if records != [] { InsertAllAbsorbed(t, records[..|records| - 1], table); }
  }

  /** What an insertion does at one key depends on the table at that key only, and needs a record with that key. */
  lemma {:induction false} InsertAllLocal(t: Topic, records: seq<Record>, a: Table, b: Table, k: Key)
    requires Lookup(a, k) == Lookup(b, k)
    ensures Lookup(InsertAll(t, records, a), k) == Lookup(InsertAll(t, records, b), k)
    ensures !Supplies(t, records, k) ==> Lookup(InsertAll(t, records, a), k) == Lookup(a, k)
  {
    hide EntryOf;
    if records != [] {
      var init, last := records[..|records| - 1], |records| - 1;
      InsertAllLocal(t, init, a, b, k);
      if Supplies(t, init, k) {
        var i :| 0 <= i < |init| && EntryOf(t, init[i]).Some? && EntryOf(t, init[i]).value.key == k;
        assert records[i] == init[i];
      }
    }
  }

  // ---------------------------------------------------------------- rows, column by column

  predicate FieldOr(v: Value, r: Record, field: string, default: Value) {
    if field in r then v == r[field] else v == default
  }

  predicate FirstField(v: Value, r: Record, field: string, fallback: string) {
    if field in r then v == r[field] else FieldOr(v, r, fallback, Null)
  }

  // The key a record asks for.
  predicate HasKey(t: Topic, r: Record, k: Key) {
    match t
    case EodOhlcv =>
      && k.BarKey? && FirstField(k.time, r, "date", "time") && FieldOr(k.symbol, r, "symbol", Null)
      && FieldOr(k.exchange, r, "exchange", Str("IDX"))
    case IntradayBars =>
      && k.BarKey? && FirstField(k.time, r, "timestamp", "time") && FieldOr(k.symbol, r, "symbol", Null)
      && FieldOr(k.exchange, r, "exchange", Str("IEX"))
    case Fundamentals =>
      && k.StatementKey? && FieldOr(k.symbol, r, "symbol", Null)
      && FirstField(k.periodEnd, r, "period_end", "fiscal_date") && FieldOr(k.kind, r, "statement_type", Str("INCOME"))
  }

  // Only end-of-day bars have an adjusted close of their own.
  predicate HasColumns(t: Topic, r: Record, row: Row) {
    if t == Fundamentals then
      && row.Statement? && FieldOr(row.revenue, r, "revenue", Null) && FieldOr(row.netIncome, r, "net_income", Null)
      && FieldOr(row.totalAssets, r, "total_assets", Null)
      && FieldOr(row.totalLiabilities, r, "total_liabilities", Null)
      && FieldOr(row.totalEquity, r, "total_equity", Null)
    else
      && row.Bar? && "open" in r && row.open == r["open"] && "high" in r && row.high == r["high"]
      && "low" in r && row.low == r["low"] && "close" in r && row.close == r["close"]
      && FieldOr(row.volume, r, "volume", Int(0))
      && (if t == EodOhlcv then FieldOr(row.adjustedClose, r, "adjusted_close", r["close"])
          else row.adjustedClose == r["close"])
  }

  // The field, or its fallback, is there and not null.
  predicate Filled(r: Record, field: string, fallback: string) {
    if field in r then r[field] != Null else fallback in r && r[fallback] != Null
  }

  predicate NullField(r: Record, field: string) { field in r && r[field] == Null }

  // The records a statement takes: the others make it raise.
  predicate Acceptable(t: Topic, r: Record) {
    if t == Fundamentals then
      Filled(r, "symbol", "symbol") && Filled(r, "period_end", "fiscal_date") && !NullField(r, "statement_type")
    else
      && "symbol" in r && "open" in r && "high" in r && "low" in r && "close" in r
      && !NullField(r, "symbol") && !NullField(r, "exchange")
      && Filled(r, if t == EodOhlcv then "date" else "timestamp", "time")
  }

  // The record has a row, under this key.
  predicate Asks(t: Topic, r: Record, k: Key) { Acceptable(t, r) && HasKey(t, r, k) }

  /** A record has a row exactly when it is acceptable, and then its columns are the record's own fields. */
  lemma EntryIsTheRecord(t: Topic, r: Record)
    ensures EntryOf(t, r).Some? <==> Acceptable(t, r)
    ensures EntryOf(t, r).Some? ==>
      var e := EntryOf(t, r).value;
      HasColumns(t, r, e.row) && forall k :: Asks(t, r, k) <==> k == e.key
  {
    match t
    case EodOhlcv =>
    case IntradayBars =>
    case Fundamentals =>
  }

  ghost predicate SomeAsks(t: Topic, records: seq<Record>, k: Key) {
    exists i :: 0 <= i < |records| && Asks(t, records[i], k)
  }

  ghost predicate FirstToAsk(t: Topic, records: seq<Record>, k: Key, i: nat)
    requires i < |records|
  {
    Asks(t, records[i], k) && forall j :: 0 <= j < i ==> !Asks(t, records[j], k)
  }

  // Of the records, the first with a row under this key has these columns.
  ghost predicate FirstHasColumns(t: Topic, records: seq<Record>, k: Key, row: Row) {
    exists i :: 0 <= i < |records| && FirstToAsk(t, records, k, i) && HasColumns(t, records[i], row)
  }

  // Old rows stay, the keys of the records are there, and a new row is the first record with its key.
  ghost predicate InsertedFrom(t: Topic, records: seq<Record>, before: Table, after: Table) {
    && (forall k :: k in after <==> k in before || SomeAsks(t, records, k))
    && (forall k :: k in after ==>
          if k in before then after[k] == before[k] else FirstHasColumns(t, records, k, after[k]))
  }

  ghost predicate AllAcceptable(t: Topic, records: seq<Record>) {
    forall i :: 0 <= i < |records| ==> Acceptable(t, records[i])
  }

  lemma FirstStays(t: Topic, records: seq<Record>, r: Record, k: Key, row: Row)
    requires FirstHasColumns(t, records, k, row)
    ensures FirstHasColumns(t, records + [r], k, row)
  {
    hide Asks, HasColumns;
    var i :| 0 <= i < |records| && FirstToAsk(t, records, k, i) && HasColumns(t, records[i], row);
    var more := records + [r];
    assert forall j :: 0 <= j <= i ==> more[j] == records[j];
    assert FirstToAsk(t, more, k, i);
  }

  lemma FirstIsLast(t: Topic, records: seq<Record>, r: Record, k: Key, row: Row)
    requires Asks(t, r, k) && HasColumns(t, r, row) && !SomeAsks(t, records, k)
    ensures FirstHasColumns(t, records + [r], k, row)
  {
    hide Asks, HasColumns;
    var more := records + [r];
    assert more[|records|] == r && forall j :: 0 <= j < |records| ==> more[j] == records[j];
    assert FirstToAsk(t, more, k, |records|);
  }

  lemma SomeAsksOneMore(t: Topic, records: seq<Record>, r: Record, k: Key)
    ensures SomeAsks(t, records + [r], k) <==> SomeAsks(t, records, k) || Asks(t, r, k)
  {
    hide Asks;
    var more := records + [r];
    assert more[|records|] == r && forall j :: 0 <= j < |records| ==> more[j] == records[j];
  }

  lemma InsertedOne(t: Topic, records: seq<Record>, r: Record, e: Entry, before: Table, after: Table)
    requires InsertedFrom(t, records, before, after)
    requires HasColumns(t, r, e.row) && forall k :: Asks(t, r, k) <==> k == e.key
    ensures InsertedFrom(t, records + [r], before, InsertIfAbsent(after, e))
  {
    hide Asks, HasColumns, SomeAsks, FirstHasColumns;
    var more, after' := records + [r], InsertIfAbsent(after, e);
    forall k
      ensures k in after' <==> k in before || SomeAsks(t, more, k)
      ensures k in after' && k in before ==> after'[k] == before[k]
      ensures k in after' && k !in before ==> FirstHasColumns(t, more, k, after'[k])
    {
      SomeAsksOneMore(t, records, r, k);
      if k in after {
        if k !in before { FirstStays(t, records, r, k, after[k]); }
      } else if k == e.key {
        FirstIsLast(t, records, r, k, e.row);
      }
    }
  }

  lemma InsertedNone(t: Topic, records: seq<Record>, r: Record, before: Table, after: Table)
    requires InsertedFrom(t, records, before, after) && !Acceptable(t, r)
    ensures InsertedFrom(t, records + [r], before, after)
  {
    assert forall k :: !Asks(t, r, k);
    hide Asks, HasColumns, SomeAsks, FirstHasColumns;
    forall k
      ensures SomeAsks(t, records + [r], k) <==> SomeAsks(t, records, k)
      ensures k in after && k !in before ==> FirstHasColumns(t, records + [r], k, after[k])
    {
      SomeAsksOneMore(t, records, r, k);
      if k in after && k !in before { FirstStays(t, records, r, k, after[k]); }
    }
  }

  /** What inserting a list of records does, said of the records alone. */
  lemma {:induction false} InsertAllByRecord(t: Topic, records: seq<Record>, table: Table)
    ensures InsertedFrom(t, records, table, InsertAll(t, records, table))
  {
    hide EntryOf, Asks, HasColumns;
    if records != [] {
      var init, last := records[..|records| - 1], records[|records| - 1];
      InsertAllByRecord(t, init, table);
      EntryIsTheRecord(t, last);
      hide InsertedFrom, InsertIfAbsent, Acceptable;
      var e, before := EntryOf(t, last), InsertAll(t, init, table);
      if e.Some? {
        InsertedOne(t, init, last, e.value, table, before);
      } else {
        InsertedNone(t, init, last, table, before);
      }
      assert records == init + [last];
    }
  }

  lemma SuppliesByRecord(t: Topic, records: seq<Record>, k: Key)
    ensures Supplies(t, records, k) <==> SomeAsks(t, records, k)
  {
    forall i | 0 <= i < |records| ensures EntryOf(t, records[i]).Some? <==> Acceptable(t, records[i])
      ensures EntryOf(t, records[i]).Some? ==> (EntryOf(t, records[i]).value.key == k <==> Asks(t, records[i], k))
    {
      EntryIsTheRecord(t, records[i]);
    }
    hide EntryOf, Acceptable, HasKey;
  }
}
