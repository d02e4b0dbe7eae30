/** The momentum strategy's signal generation over price and trading-value tables, and the absence of
    look-ahead across whole backtests. */
module MomentumSignals {
  import opened PriceTable
  import opened RealArithmetic
  import opened SectorCap
  import opened Statistics
  import opened Survivorship
  import opened Wrappers
  import opened PortfolioConstruction

  const TRADING_DAYS_PER_MONTH := 21
  const LIQUIDITY_WINDOW := 63
  const MIN_PRICE := 100.0

  datatype Table = Table(columns: seq<string>, rows: seq<Row>)

  // The rows strictly before a date.
  function Before(rows: seq<Row>, date: int): seq<Row> {
    if rows == [] then []
    else Before(rows[..|rows| - 1], date) + if rows[|rows| - 1].date < date then [rows[|rows| - 1]] else []
  }

  // The prices present in one column.
  function Column(rows: seq<Row>, symbol: string): seq<real> {
    if rows == [] then []
    else
      Column(rows[..|rows| - 1], symbol)
      + if symbol in rows[|rows| - 1].cells then [rows[|rows| - 1].cells[symbol]] else []
  }

  ghost function DatedBefore(rows: seq<Row>, date: int): nat -> bool {
    (k: nat) => k < |rows| && rows[k].date < date
  }

  ghost function HavingCell(rows: seq<Row>, symbol: string): nat -> bool {
    (k: nat) => k < |rows| && symbol in rows[k].cells
  }

  // The prices are the symbol's cells in the rows at the places.
  ghost predicate CellsAt(column: seq<real>, at: seq<nat>, rows: seq<Row>, symbol: string) {
    && |column| == |at|
    && forall i :: 0 <= i < |at| ==>
         at[i] < |rows| && symbol in rows[at[i]].cells && column[i] == rows[at[i]].cells[symbol]
  }

  lemma CellsAtMore(column: seq<real>, at: seq<nat>, rows: seq<Row>, last: Row, symbol: string)
    requires CellsAt(column, at, rows, symbol)
    ensures CellsAt(column, at, rows + [last], symbol)
    ensures symbol in last.cells ==>
      CellsAt(column + [last.cells[symbol]], at + [|rows|], rows + [last], symbol)
  {
  }

  lemma DatedBeforeMore(at: seq<nat>, rows: seq<Row>, last: Row, date: int)
    requires Enumerates(at, |rows|, DatedBefore(rows, date))
    ensures Enumerates(if last.date < date then at + [|rows|] else at, |rows| + 1, DatedBefore(rows + [last], date))
  {
    var more, n := rows + [last], |rows|;
    assert more[n] == last && forall k: nat :: k < n ==> more[k] == rows[k];
    hide Enumerates;
    EnumeratesSame(at, n, DatedBefore(rows, date), DatedBefore(more, date));
    EnumeratesOneMore(at, n, DatedBefore(more, date));
  }

  lemma HavingCellMore(at: seq<nat>, rows: seq<Row>, last: Row, symbol: string)
    requires Enumerates(at, |rows|, HavingCell(rows, symbol))
    ensures Enumerates(if symbol in last.cells then at + [|rows|] else at, |rows| + 1,
                       HavingCell(rows + [last], symbol))
  {
    var more, n := rows + [last], |rows|;
    assert more[n] == last && forall k: nat :: k < n ==> more[k] == rows[k];
    hide Enumerates;
    EnumeratesSame(at, n, HavingCell(rows, symbol), HavingCell(more, symbol));
    EnumeratesOneMore(at, n, HavingCell(more, symbol));
  }

  /** What is available on a date are all rows strictly before it, in their order. */
  lemma {:induction false} BeforeRows(rows: seq<Row>, date: int) returns (at: seq<nat>)
    ensures Enumerates(at, |rows|, DatedBefore(rows, date)) && RowsAt(Before(rows, date), at, rows)
  {
    at := [];
    if rows != [] {
      var init, last := rows[..|rows| - 1], rows[|rows| - 1];
      at := BeforeRows(init, date);
      hide Enumerates, DatedBefore, RowsAt;
      DatedBeforeMore(at, init, last, date);
      RowsAtMore(Before(init, date), at, init, last);
      assert rows == init + [last];
      if last.date < date { at := at + [|init|]; }
    }
  }

  lemma ColumnOneMore(rows: seq<Row>, last: Row, symbol: string)
    ensures Column(rows + [last], symbol)
         == if symbol in last.cells then Column(rows, symbol) + [last.cells[symbol]] else Column(rows, symbol)
  {
    assert (rows + [last])[..|rows|] == rows;
  }

  lemma EmptyColumn(symbol: string)
    ensures Enumerates([], 0, HavingCell([], symbol)) && CellsAt(Column([], symbol), [], [], symbol)
  {
  }

  /** A column holds all of a symbol's cells, in the order of the rows. */
  lemma {:induction false} ColumnCells(rows: seq<Row>, symbol: string) returns (at: seq<nat>)
    ensures Enumerates(at, |rows|, HavingCell(rows, symbol)) && CellsAt(Column(rows, symbol), at, rows, symbol)
  {
    hide *;
    if rows == [] {
      at := [];
      EmptyColumn(symbol);
    } else {
      var init, last := rows[..|rows| - 1], rows[|rows| - 1];
      at := ColumnCells(init, symbol);
      HavingCellMore(at, init, last, symbol);
      CellsAtMore(Column(init, symbol), at, init, last, symbol);
      ColumnOneMore(init, last, symbol);
      assert rows == init + [last];
      if symbol in last.cells { at := at + [|init|]; }
    }
  }

  datatype Parameters = Parameters(formationMonths: nat, skipMonths: nat, topPct: real, maxPositionPct: real,
                                   sectorCap: real, minAverageValue: real)

  // ---------------------------------------------------------------- scores

  // The last row outside the skipped months, and the first row of the formation window. An offset of 0 rows from the
  // end is the first row.
  function WindowEnds(rows: nat, formation: nat, skip: nat): (ends: (nat, nat))
    requires rows > 0 && formation + skip <= rows
    ensures ends.0 < rows && ends.1 < rows
  {
    (if formation + skip > 0 then rows - (formation + skip) else 0, if skip > 0 then rows - skip else rows - 1)
  }

  // Price ratio minus one for the symbols priced at both ends of the formation window; None when there is no row at
  // all to look at.
  function MomentumScores(columns: seq<string>, available: seq<Row>, formationMonths: nat, skipMonths: nat)
    : Option<map<string, real>>
  {
    var formation, skip := formationMonths * TRADING_DAYS_PER_MONTH, skipMonths * TRADING_DAYS_PER_MONTH;
    if |available| < formation + skip then Some(map[])
    else if available == [] then None
    else
      var ends := WindowEnds(|available|, formation, skip);
      var first, last := available[ends.0], available[ends.1];
      Some(map s | s in columns && s in last.cells && s in first.cells && first.cells[s] != 0.0
             :: last.cells[s] / first.cells[s] - 1.0)
  }

  /** A score is the growth over a formation window: the start price compounded by it is the end price. The window
      spans the full formation period exactly when months are skipped; without a skip it is one day shorter. */
  lemma ScoreIsGrowth(columns: seq<string>, available: seq<Row>, formationMonths: nat, skipMonths: nat, s: string)
    returns (i: nat, j: nat)
    requires formationMonths > 0
    requires var scores := MomentumScores(columns, available, formationMonths, skipMonths);
             scores.Some? && s in scores.value
    ensures i < j < |available| && s in available[i].cells && s in available[j].cells
    ensures available[i].cells[s] * (1.0 + MomentumScores(columns, available, formationMonths, skipMonths).value[s])
         == available[j].cells[s]
    ensures |available| - i == (formationMonths + skipMonths) * 21
    ensures j - i == formationMonths * 21 <==> skipMonths > 0
    ensures skipMonths == 0 ==> j == |available| - 1
  {
    var formation, skip := formationMonths * TRADING_DAYS_PER_MONTH, skipMonths * TRADING_DAYS_PER_MONTH;
    i := |available| - (formation + skip);
    j := if skip > 0 then |available| - skip else |available| - 1;
    Compound(available[i].cells[s], available[j].cells[s]);
  }

  /** A symbol is scored exactly when the table is long enough and it is priced, not at 0, at both ends of the window;
      a table that is empty although nothing is asked of it raises. */
  lemma ScoredIff(columns: seq<string>, available: seq<Row>, formationMonths: nat, skipMonths: nat, s: string)
    ensures var scores, days := MomentumScores(columns, available, formationMonths, skipMonths),
                                (formationMonths + skipMonths) * 21;
            && (scores.None? <==> available == [] && days == 0)
            && (scores.Some? ==>
                  (s in scores.value <==>
                     && |available| >= days && available != [] && s in columns
                     && var first := available[if days > 0 then |available| - days else 0].cells;
                        var last := available[|available| - if skipMonths > 0 then 21 * skipMonths else 1].cells;
                        s in first && s in last && first[s] != 0.0))
  {
  }

  /** With one month of formation and none skipped the score is the growth over 20 days, not 21. */
  lemma UnskippedWindowIsShort()
    ensures var rows := seq(21, (d: int) => Row(d, map["A" := 100.0 + d as real]));
            MomentumScores(["A"], rows, 1, 0) == Some(map["A" := 120.0 / 100.0 - 1.0])
  {
    var rows := seq(21, (d: int) => Row(d, map["A" := 100.0 + d as real]));
    assert WindowEnds(21, 21, 0) == (0, 20);
    assert rows[0].cells == map["A" := 100.0] && rows[20].cells == map["A" := 120.0];
    hide WindowEnds;
    assert MomentumScores(["A"], rows, 1, 0).value == map["A" := 120.0 / 100.0 - 1.0];
  }

  lemma Compound(a: real, b: real)
    requires a != 0.0
    ensures a * (1.0 + (b / a - 1.0)) == b
  {
  }

  // ---------------------------------------------------------------- universe filter

  predicate Liquid(values: seq<real>, minAverage: real) {
    var trailing := Trailing(values, LIQUIDITY_WINDOW);
    trailing != [] && Mean(trailing) >= minAverage
  }

  /** One symbol of the filter: kept, dropped, or the last price of an empty column is asked for, which raises. */
  datatype Screening = Keep | Drop | Raise

  function Screen(symbol: string, prices: seq<Row>, valueColumns: seq<string>, values: seq<Row>,
                  meta: map<string, Instrument>, asOf: int, minHistory: int, minAverage: real): Screening
  {
    var column := Column(prices, symbol);
    if |column| < minHistory || !Tradable(meta, symbol, asOf) then Drop
    else if column == [] then Raise
    else if column[|column| - 1] >= MIN_PRICE && symbol in valueColumns && Liquid(Column(values, symbol), minAverage)
    then Keep
    else Drop
  }

  // The average of the last 63 values, or of all when there are fewer, reaches the minimum.
  ghost predicate TradesEnough(values: seq<real>, minAverage: real) {
    var n := if |values| < 63 then |values| else 63;
    n > 0 && Sum(values[|values| - n..]) >= Product(minAverage, n as real)
  }

  // A long enough history, listed on the day, a last price of at least 100, and enough trading.
  ghost predicate Passes(symbol: string, prices: seq<Row>, valueColumns: seq<string>, values: seq<Row>,
                         meta: map<string, Instrument>, asOf: int, minHistory: int, minAverage: real)
  {
    var column := Column(prices, symbol);
    && |column| >= minHistory && Tradable(meta, symbol, asOf)
    && column != [] && column[|column| - 1] >= 100.0
    && symbol in valueColumns && TradesEnough(Column(values, symbol), minAverage)
  }

  lemma MeanReaches(xs: seq<real>, least: real)
    requires xs != []
    ensures Mean(xs) >= least <==> Sum(xs) >= Product(least, |xs| as real)
  {
    var m, n := Mean(xs), |xs| as real;
    assert Product(n, m) == Sum(xs);
    ProductLaws(least, n, 1.0);
    hide Mean, Product;
    ProductMonotone(n, least, m);
  }

  lemma ScreenIff(symbol: string, prices: seq<Row>, valueColumns: seq<string>, values: seq<Row>,
                  meta: map<string, Instrument>, asOf: int, minHistory: int, minAverage: real)
    ensures var screening := Screen(symbol, prices, valueColumns, values, meta, asOf, minHistory, minAverage);
            && (screening.Keep? <==> Passes(symbol, prices, valueColumns, values, meta, asOf, minHistory, minAverage))
            && (screening.Raise? <==> Column(prices, symbol) == [] && minHistory <= 0 && Tradable(meta, symbol, asOf))
  {
    var column := Column(values, symbol);
    var trailing := Trailing(column, LIQUIDITY_WINDOW);
    assert trailing == column[|column| - |trailing|..];
    if trailing != [] { MeanReaches(trailing, minAverage); }
    hide Tradable, Column, Mean, Product, Sum;
  }

  // None when one of the symbols raises.
  function Filtered(symbols: seq<string>, prices: seq<Row>, valueColumns: seq<string>, values: seq<Row>,
                    meta: map<string, Instrument>, asOf: int, minHistory: int, minAverage: real): Option<seq<string>>
  {
    if symbols == [] then Some([])
    else
      var last := symbols[|symbols| - 1];
      var earlier := Filtered(symbols[..|symbols| - 1], prices, valueColumns, values, meta, asOf, minHistory,
                              minAverage);
      var screening := Screen(last, prices, valueColumns, values, meta, asOf, minHistory, minAverage);
      if earlier.None? || screening.Raise? then None
      else Some(earlier.value + if screening.Keep? then [last] else [])
  }

  method FilterUniverse(prices: Table, values: Table, meta: map<string, Instrument>, asOf: int, minHistory: int,
                        minAverage: real)
    returns (passed: Option<seq<string>>)
    ensures passed == Filtered(prices.columns, Before(prices.rows, asOf), values.columns, Before(values.rows, asOf),
                               meta, asOf, minHistory, minAverage)
  {
    var availablePrices, availableValues := Before(prices.rows, asOf), Before(values.rows, asOf);
    var kept := [];
    for i := 0 to |prices.columns|
      invariant Filtered(prices.columns[..i], availablePrices, values.columns, availableValues, meta, asOf, minHistory,
                         minAverage) == Some(kept)
    {
      hide Screen;
      assert prices.columns[..i + 1][..i] == prices.columns[..i];
      var screening := CheckSymbol(prices.columns[i], availablePrices, values.columns, availableValues, meta, asOf,
                                   minHistory, minAverage);
      if screening.Raise? {
        RaisedFilterStays(prices.columns, i + 1, availablePrices, values.columns, availableValues, meta, asOf,
                          minHistory, minAverage);
        return None;
      }
      assert kept + [] == kept;
      if screening.Keep? { kept := kept + [prices.columns[i]]; }
    }
    assert prices.columns[..|prices.columns|] == prices.columns;
    return Some(kept);
  }

  lemma {:induction false} RaisedFilterStays(symbols: seq<string>, i: nat, prices: seq<Row>, valueColumns: seq<string>,
                                             values: seq<Row>, meta: map<string, Instrument>, asOf: int,
                                             minHistory: int, minAverage: real)
    requires i <= |symbols|
    requires Filtered(symbols[..i], prices, valueColumns, values, meta, asOf, minHistory, minAverage).None?
    ensures Filtered(symbols, prices, valueColumns, values, meta, asOf, minHistory, minAverage).None?
    decreases |symbols| - i
  {
    hide Screen;
    if i == |symbols| {
      assert symbols[..i] == symbols;
    } else {
      assert symbols[..i + 1][..i] == symbols[..i];
      RaisedFilterStays(symbols, i + 1, prices, valueColumns, values, meta, asOf, minHistory, minAverage);
    }
  }

  // One symbol of the filter's loop: every failed test moves on to the next symbol.
  method CheckSymbol(symbol: string, prices: seq<Row>, valueColumns: seq<string>, values: seq<Row>,
                     meta: map<string, Instrument>, asOf: int, minHistory: int, minAverage: real)
    returns (screening: Screening)
    ensures screening == Screen(symbol, prices, valueColumns, values, meta, asOf, minHistory, minAverage)
    ensures screening.Keep? <==> Passes(symbol, prices, valueColumns, values, meta, asOf, minHistory, minAverage)
  {
    ScreenIff(symbol, prices, valueColumns, values, meta, asOf, minHistory, minAverage);
    hide Passes;
    var column := Column(prices, symbol);
    if |column| < minHistory { return Drop; }
    if symbol in meta {
      var row := meta[symbol];
      if !row.isActive { return Drop; }
      if row.listing.Some? && asOf < row.listing.value { return Drop; }
      if row.delisting.Some? && asOf > row.delisting.value { return Drop; }
    }
    if column == [] { return Raise; }
    if column[|column| - 1] < MIN_PRICE { return Drop; }
    if symbol !in valueColumns { return Drop; }
    var trailing := Trailing(Column(values, symbol), LIQUIDITY_WINDOW);
    if trailing == [] { return Drop; }
    return if Mean(trailing) >= minAverage then Keep else Drop;
  }

  /** The filter holds exactly the symbols that pass the screening. */
  lemma {:induction false} FilteredIff(symbols: seq<string>, prices: seq<Row>, valueColumns: seq<string>,
                                       values: seq<Row>, meta: map<string, Instrument>, asOf: int, minHistory: int,
                                       minAverage: real, s: string)
    requires Filtered(symbols, prices, valueColumns, values, meta, asOf, minHistory, minAverage).Some?
    ensures s in Filtered(symbols, prices, valueColumns, values, meta, asOf, minHistory, minAverage).value
      <==> s in symbols && Passes(s, prices, valueColumns, values, meta, asOf, minHistory, minAverage)
  {
    ScreenIff(s, prices, valueColumns, values, meta, asOf, minHistory, minAverage);
    hide Screen, Passes;
    if symbols != [] {
      var init, last := symbols[..|symbols| - 1], symbols[|symbols| - 1];
      FilteredIff(init, prices, valueColumns, values, meta, asOf, minHistory, minAverage, s);
      assert symbols == init + [last];
    }
  }

  /** A required history excludes the failure: with at least one day of it the filter never raises. */
  lemma {:induction false} FilterRaisesNever(symbols: seq<string>, prices: seq<Row>, valueColumns: seq<string>,
                                             values: seq<Row>, meta: map<string, Instrument>, asOf: int,
                                             minHistory: int, minAverage: real)
    requires minHistory > 0
    ensures Filtered(symbols, prices, valueColumns, values, meta, asOf, minHistory, minAverage).Some?
  {
    hide Liquid, Tradable, Column;
    if symbols != [] {
      FilterRaisesNever(symbols[..|symbols| - 1], prices, valueColumns, values, meta, asOf, minHistory, minAverage);
    }
  }

  // ---------------------------------------------------------------- signals over a backtest

  datatype Signal = Signal(target: Target, date: int, universeSize: nat)

  function Stamp(rows: seq<Target>, date: int, universeSize: nat): seq<Signal> {
    seq(|rows|, i requires 0 <= i < |rows| => Signal(rows[i], date, universeSize))
  }

  // The signals of one rebalance date; None when a step of it raises.
  function SignalsOn(prices: Table, values: Table, meta: map<string, Instrument>, date: int, nav: real, p: Parameters)
    : Option<seq<Signal>>
  {
    var available := Before(prices.rows, date);
    var filtered := Filtered(prices.columns, available, values.columns, Before(values.rows, date), meta, date,
                             p.formationMonths * TRADING_DAYS_PER_MONTH, p.minAverageValue);
    var scores := MomentumScores(prices.columns, available, p.formationMonths, p.skipMonths);
    if filtered.None? then None
    else if filtered.value == [] then Some([])
    else if scores.None? then None
    else if Reindex(scores.value, filtered.value) == [] then Some([])
    else if available == [] then None
    else
      var today := available[|available| - 1].cells;
      var portfolio := Construct(scores.value, filtered.value, meta, nav, today, Unquoted(prices.columns, today),
                                 p.topPct, p.maxPositionPct, p.sectorCap);
      if portfolio.None? then None else Some(Stamp(portfolio.value, date, |filtered.value|))
  }

  // The columns without a price in the row.
  function Unquoted(columns: seq<string>, cells: map<string, real>): set<string> {
    set s | s in columns && s !in cells
  }

  function SignalsOver(prices: Table, values: Table, meta: map<string, Instrument>, dates: seq<int>, nav: real,
                       p: Parameters): Option<seq<Signal>>
  {
    if dates == [] then Some([])
    else
      var earlier := SignalsOver(prices, values, meta, dates[..|dates| - 1], nav, p);
      var last := SignalsOn(prices, values, meta, dates[|dates| - 1], nav, p);
      if earlier.None? || last.None? then None else Some(earlier.value + last.value)
  }

  method GenerateSignalsFull(prices: Table, values: Table, meta: map<string, Instrument>, rebalanceDates: seq<int>,
                             nav: real, p: Parameters)
    returns (signals: Option<seq<Signal>>)
    ensures signals == SignalsOver(prices, values, meta, rebalanceDates, nav, p)
  {
    var all := [];
    assert rebalanceDates[..0] == [];
    for i := 0 to |rebalanceDates|
      invariant SignalsOver(prices, values, meta, rebalanceDates[..i], nav, p) == Some(all)
    {
      var date := rebalanceDates[i];
      assert rebalanceDates[..i + 1][..i] == rebalanceDates[..i];
      var today := SignalsForDate(prices, values, meta, date, nav, p);
      hide SignalsOn;
      if today.None? {
        FailureIsFinal(prices, values, meta, rebalanceDates, i + 1, nav, p);
        return None;
      }
      all := all + today.value;
    }
    assert rebalanceDates[..|rebalanceDates|] == rebalanceDates;
    return Some(all);
  }

  method SignalsForDate(prices: Table, values: Table, meta: map<string, Instrument>, date: int, nav: real,
                        p: Parameters)
    returns (signals: Option<seq<Signal>>)
    ensures signals == SignalsOn(prices, values, meta, date, nav, p)
  {
    hide Construct, Filtered, MomentumScores, Reindex, Before, Unquoted;
    var filtered := FilterUniverse(prices, values, meta, date, p.formationMonths * TRADING_DAYS_PER_MONTH,
                                   p.minAverageValue);
    if filtered.None? { return None; }
    if filtered.value == [] { return Some([]); }
    var available := Before(prices.rows, date);
    var scores := MomentumScores(prices.columns, available, p.formationMonths, p.skipMonths);
    if scores.None? { return None; }
    if Reindex(scores.value, filtered.value) == [] { return Some([]); }
    if available == [] { return None; }
    var today := available[|available| - 1].cells;
    var portfolio := ConstructPortfolio(scores.value, filtered.value, meta, nav, today, Unquoted(prices.columns, today),
                                        p.topPct, p.maxPositionPct, p.sectorCap);
    if portfolio.None? { return None; }
    return Some(Stamp(portfolio.value, date, |filtered.value|));
  }

  // One signal per row of the portfolio, with the date and the size of the filtered universe.
  ghost predicate Stamped(signals: seq<Signal>, portfolio: seq<Target>, date: int, universeSize: nat) {
    && |signals| == |portfolio|
    && forall i :: 0 <= i < |signals| ==>
         signals[i].target == portfolio[i] && signals[i].date == date && signals[i].universeSize == universeSize
  }

  /** The signals of a date are, if there are any, the rows of a portfolio built at the last prices before it for the
      ranked part of the filtered universe. */
  lemma SignalsAreAPortfolio(prices: Table, values: Table, meta: map<string, Instrument>, date: int, nav: real,
                             p: Parameters)
    returns (filtered: seq<string>, scores: map<string, real>, today: map<string, real>, unquoted: set<string>,
             portfolio: seq<Target>)
    requires nav >= 0.0 && p.maxPositionPct >= 0.0
    requires var signals := SignalsOn(prices, values, meta, date, nav, p); signals.Some? && signals.value != []
    ensures Filtered(prices.columns, Before(prices.rows, date), values.columns, Before(values.rows, date), meta, date,
                     p.formationMonths * 21, p.minAverageValue) == Some(filtered)
    ensures MomentumScores(prices.columns, Before(prices.rows, date), p.formationMonths, p.skipMonths) == Some(scores)
    ensures var available := Before(prices.rows, date); available != [] && today == available[|available| - 1].cells
    ensures forall s :: s in unquoted <==> s in prices.columns && s !in today
    ensures BuiltFor(Some(portfolio), SelectTop(Reindex(scores, filtered), p.topPct), meta, nav, today, unquoted,
                     p.maxPositionPct)
    ensures Stamped(SignalsOn(prices, values, meta, date, nav, p).value, portfolio, date, |filtered|)
  {
    hide Construct, Filtered, MomentumScores, Reindex, Before, BuiltFor, SelectTop;
    var available := Before(prices.rows, date);
    filtered := Filtered(prices.columns, available, values.columns, Before(values.rows, date), meta, date,
                         p.formationMonths * TRADING_DAYS_PER_MONTH, p.minAverageValue).value;
    scores := MomentumScores(prices.columns, available, p.formationMonths, p.skipMonths).value;
    today := available[|available| - 1].cells;
    unquoted := Unquoted(prices.columns, today);
    portfolio := Construct(scores, filtered, meta, nav, today, unquoted, p.topPct, p.maxPositionPct, p.sectorCap).value;
    ConstructedFromInputs(scores, filtered, meta, nav, today, unquoted, p.topPct, p.maxPositionPct, p.sectorCap);
  }

  lemma {:induction false} FailureIsFinal(prices: Table, values: Table, meta: map<string, Instrument>,
                                          dates: seq<int>, i: nat, nav: real, p: Parameters)
    requires i <= |dates|
    requires SignalsOver(prices, values, meta, dates[..i], nav, p).None?
    ensures SignalsOver(prices, values, meta, dates, nav, p).None?
    decreases |dates| - i
  {
    hide SignalsOn;
    if i == |dates| {
      assert dates[..i] == dates;
    } else {
      assert dates[..i + 1][..i] == dates[..i];
      FailureIsFinal(prices, values, meta, dates, i + 1, nav, p);
    }
  }

  // ---------------------------------------------------------------- no look-ahead

  // The same columns, and the same rows before the horizon; what comes later may differ at will.
  ghost predicate AgreeBefore(a: Table, b: Table, horizon: int) {
    a.columns == b.columns && Before(a.rows, horizon) == Before(b.rows, horizon)
  }

  lemma {:induction false} BeforeEarlier(rows: seq<Row>, date: int, horizon: int)
    requires date <= horizon
    ensures Before(Before(rows, horizon), date) == Before(rows, date)
  {
    if rows != [] {
      var init, last := rows[..|rows| - 1], rows[|rows| - 1];
      BeforeEarlier(init, date, horizon);
      if last.date < horizon {
        BeforeOneMore(Before(init, horizon), last, date);
        assert Before(rows, horizon) == Before(init, horizon) + [last];
      } else {
        assert Before(rows, horizon) == Before(init, horizon);
      }
    }
  }

  lemma BeforeOneMore(rows: seq<Row>, row: Row, date: int)
    ensures Before(rows + [row], date) == Before(rows, date) + if row.date < date then [row] else []
  {
    assert (rows + [row])[..|rows|] == rows;
  }

  /** Signals up to and including the horizon depend only on rows strictly before it. */
  lemma {:induction false} NoLookAhead(prices: Table, prices': Table, values: Table, values': Table,
                                       meta: map<string, Instrument>, dates: seq<int>, nav: real, p: Parameters,
                                       horizon: int)
    requires AgreeBefore(prices, prices', horizon) && AgreeBefore(values, values', horizon)
    requires forall i :: 0 <= i < |dates| ==> dates[i] <= horizon
    ensures SignalsOver(prices, values, meta, dates, nav, p) == SignalsOver(prices', values', meta, dates, nav, p)
  {
    hide SignalsOn;
    if dates != [] {
      var date := dates[|dates| - 1];
      NoLookAhead(prices, prices', values, values', meta, dates[..|dates| - 1], nav, p, horizon);
      NoLookAheadOn(prices, prices', values, values', meta, date, nav, p, horizon);
    }
  }

  lemma NoLookAheadOn(prices: Table, prices': Table, values: Table, values': Table, meta: map<string, Instrument>,
                      date: int, nav: real, p: Parameters, horizon: int)
    requires AgreeBefore(prices, prices', horizon) && AgreeBefore(values, values', horizon)
    requires date <= horizon
    ensures SignalsOn(prices, values, meta, date, nav, p) == SignalsOn(prices', values', meta, date, nav, p)
  {
    hide Construct, Filtered, MomentumScores, Reindex, Before, Stamp, Unquoted;
    BeforeEarlier(prices.rows, date, horizon);
    BeforeEarlier(prices'.rows, date, horizon);
    BeforeEarlier(values.rows, date, horizon);
    BeforeEarlier(values'.rows, date, horizon);
  }

  /** In particular a backtest can be replayed: extending the tables with later rows and the dates with later
      dates only appends signals. */
  lemma {:induction false} HistoryIsStable(prices: Table, values: Table, laterPrices: seq<Row>, laterValues: seq<Row>,
                                           meta: map<string, Instrument>, dates: seq<int>, laterDates: seq<int>,
                                           nav: real, p: Parameters, horizon: int)
    requires forall r :: r in laterPrices || r in laterValues ==> r.date >= horizon
    requires forall i :: 0 <= i < |dates| ==> dates[i] <= horizon
    requires SignalsOver(Table(prices.columns, prices.rows + laterPrices),
                         Table(values.columns, values.rows + laterValues), meta, dates + laterDates, nav, p).Some?
    ensures var before := SignalsOver(prices, values, meta, dates, nav, p);
            && before.Some?
            && before.value <= SignalsOver(Table(prices.columns, prices.rows + laterPrices),
                                           Table(values.columns, values.rows + laterValues),
                                           meta, dates + laterDates, nav, p).value
    decreases |laterDates|
  {
    var prices' := Table(prices.columns, prices.rows + laterPrices);
    var values' := Table(values.columns, values.rows + laterValues);
    hide SignalsOn, Before;
    if laterDates == [] {
      assert dates + laterDates == dates;
      BeforeExtended(prices.rows, laterPrices, horizon);
      BeforeExtended(values.rows, laterValues, horizon);
      NoLookAhead(prices, prices', values, values', meta, dates, nav, p, horizon);
    } else {
      var init := laterDates[..|laterDates| - 1];
      assert (dates + laterDates)[..|dates + laterDates| - 1] == dates + init;
      HistoryIsStable(prices, values, laterPrices, laterValues, meta, dates, init, nav, p, horizon);
    }
  }

  lemma {:induction false} BeforeExtended(rows: seq<Row>, later: seq<Row>, horizon: int)
    requires forall r :: r in later ==> r.date >= horizon
    ensures Before(rows + later, horizon) == Before(rows, horizon)
  {
    if later == [] {
      assert rows + later == rows;
    } else {
      assert later[|later| - 1] in later;
      assert (rows + later)[..|rows + later| - 1] == rows + later[..|later| - 1];
      BeforeExtended(rows, later[..|later| - 1], horizon);
    }
  }
}
