/** Moving a book from its current lots to a target portfolio without overdrawing cash. */
module Rebalancing {
  import opened RealArithmetic
  import opened SectorCap
  import opened Sorting
  import opened Survivorship
  import opened Wrappers
  import opened PortfolioConstruction

  type Lots = map<string, int>
  type Prices = map<string, real>

  datatype Action = Buy | Sell

  datatype Trade = Trade(symbol: string, action: Action, lotsDelta: int, value: real, score: real)

  const BY_TRADE_SCORE := (t: Trade) => t.score

  function LotsOf(lots: Lots, symbol: string): int { if symbol in lots then lots[symbol] else 0 }

  function PriceOf(prices: Prices, symbol: string): real { if symbol in prices then prices[symbol] else 0.0 }

  // The value of a number of standard lots.
  function Worth(prices: Prices, symbol: string, lots: int): real {
    Product((lots * IDX_LOT_SIZE) as real, PriceOf(prices, symbol))
  }

  // A repeated symbol keeps its last row.
  function TargetLots(rows: seq<Target>): Lots {
    if rows == [] then map[]
    else TargetLots(rows[..|rows| - 1])[rows[|rows| - 1].symbol := rows[|rows| - 1].lots]
  }

  function TargetScores(rows: seq<Target>): map<string, real> {
    if rows == [] then map[]
    else TargetScores(rows[..|rows| - 1])[rows[|rows| - 1].symbol := rows[|rows| - 1].score]
  }

  // ---------------------------------------------------------------- the trade list

  function TradeFor(symbol: string, current: Lots, target: Lots, scores: map<string, real>, prices: Prices): Trade {
    var delta := LotsOf(target, symbol) - LotsOf(current, symbol);
    Trade(symbol, if delta > 0 then Buy else Sell, delta,
          Worth(prices, symbol, if delta >= 0 then delta else -delta),
          if symbol in scores then scores[symbol] else 0.0)
  }

  ghost predicate OnePerSymbol(trades: seq<Trade>) {
    forall i, j :: 0 <= i < j < |trades| ==> trades[i].symbol != trades[j].symbol
  }

  // Every trade is the one its symbol needs.
  ghost predicate OnlyChanges(trades: seq<Trade>, symbols: set<string>, current: Lots, target: Lots,
                              scores: map<string, real>, prices: Prices)
  {
    forall t :: t in trades ==>
      t.symbol in symbols && t == TradeFor(t.symbol, current, target, scores, prices) && t.lotsDelta != 0
  }

  // Every symbol whose lots change has a trade.
  ghost predicate AllChanges(trades: seq<Trade>, symbols: set<string>, current: Lots, target: Lots) {
    forall s :: s in symbols && LotsOf(target, s) != LotsOf(current, s) ==> exists t :: t in trades && t.symbol == s
  }

  ghost predicate CoversChanges(trades: seq<Trade>, symbols: set<string>, current: Lots, target: Lots,
                                scores: map<string, real>, prices: Prices)
  {
    && OnePerSymbol(trades)
    && OnlyChanges(trades, symbols, current, target, scores, prices)
    && AllChanges(trades, symbols, current, target)
  }

  ghost predicate SellsFirst(trades: seq<Trade>) {
    forall i, j :: 0 <= i < j < |trades| && trades[j].action == Sell ==> trades[i].action == Sell
  }

  ghost predicate BuysByScore(trades: seq<Trade>) {
    forall i, j :: 0 <= i < j < |trades| && trades[i].action == Buy && trades[j].action == Buy ==>
      trades[i].score >= trades[j].score
  }

  ghost predicate IsPlan(trades: seq<Trade>, current: Lots, target: Lots, scores: map<string, real>, prices: Prices) {
    CoversChanges(trades, current.Keys + target.Keys, current, target, scores, prices)
    && SellsFirst(trades) && BuysByScore(trades)
  }

  function Select(trades: seq<Trade>, action: Action): (r: seq<Trade>)
    ensures forall t :: t in r <==> t in trades && t.action == action
    ensures OnePerSymbol(trades) ==> OnePerSymbol(r)
  {
    if trades == [] then []
    else
      var init, last := trades[..|trades| - 1], trades[|trades| - 1];
      var r := Select(init, action);
      assert forall i :: 0 <= i < |r| ==> r[i] in r && r[i] in init;
      r + if last.action == action then [last] else []
  }

  /** The symbols are visited in arbitrary order, as the iteration over a set is. */
  method ComputeRebalanceTrades(targetPortfolio: seq<Target>, current: Lots, prices: Prices)
    returns (trades: seq<Trade>)
    ensures IsPlan(trades, current, TargetLots(targetPortfolio), TargetScores(targetPortfolio), prices)
    ensures TradesFor(trades, targetPortfolio, current, prices)
  {
    var target, scores := TargetLots(targetPortfolio), TargetScores(targetPortfolio);
    var all: seq<Trade> := [];
    var symbols := current.Keys + target.Keys;
    var remaining := symbols;
    while remaining != {}
      invariant remaining <= symbols
      invariant CoversChanges(all, symbols - remaining, current, target, scores, prices)
      decreases remaining
    {
      hide Worth, TargetLots, TargetScores;
      var symbol :| symbol in remaining;
      var trade := TradeFor(symbol, current, target, scores, prices);
      ghost var before := all;
      if trade.lotsDelta >= 1 || trade.lotsDelta <= -1 {
        all := all + [trade];
      }
      CoverOneMore(before, symbols - remaining, symbol, current, target, scores, prices, all);
      assert symbols - remaining + {symbol} == symbols - (remaining - {symbol});
      remaining := remaining - {symbol};
    }
    assert symbols - remaining == symbols;
    var sells, buys := Select(all, Sell), SortDescending(Select(all, Buy), BY_TRADE_SCORE);
    trades := sells + buys;
    OrderedPlan(all, sells, buys, current, target, scores, prices);
    hide IsPlan, TradesFor;
    PlanFromRows(trades, targetPortfolio, current, prices);
  }

  lemma CoverOneMore(before: seq<Trade>, done: set<string>, symbol: string, current: Lots, target: Lots,
                     scores: map<string, real>, prices: Prices, all: seq<Trade>)
    requires symbol !in done && CoversChanges(before, done, current, target, scores, prices)
    requires var t := TradeFor(symbol, current, target, scores, prices);
             all == if t.lotsDelta != 0 then before + [t] else before
    ensures CoversChanges(all, done + {symbol}, current, target, scores, prices)
  {
    var t := TradeFor(symbol, current, target, scores, prices);
    assert t.symbol == symbol && t.lotsDelta == LotsOf(target, symbol) - LotsOf(current, symbol);
    hide TradeFor, LotsOf;
    assert forall i :: 0 <= i < |before| ==> before[i] in before;
    assert forall u :: u in all <==> u in before || (t.lotsDelta != 0 && u == t);
  }

  lemma OrderedPlan(all: seq<Trade>, sells: seq<Trade>, buys: seq<Trade>, current: Lots, target: Lots,
                    scores: map<string, real>, prices: Prices)
    requires CoversChanges(all, current.Keys + target.Keys, current, target, scores, prices)
    requires sells == Select(all, Sell) && buys == SortDescending(Select(all, Buy), BY_TRADE_SCORE)
    ensures IsPlan(sells + buys, current, target, scores, prices)
  {
    hide TradeFor, LotsOf, Select, OnePerSymbol, SortDescending, Descending, AllChanges, OnlyChanges;
    PermutedTrades(Select(all, Buy), buys);
    forall s, b | s in sells && b in buys ensures s.symbol != b.symbol {
      DifferentTrades(all, s, b);
    }
    SellsThenBuys(sells, buys);
    assert forall t :: t in sells + buys <==> t in all;
    SameCover(all, sells + buys, current.Keys + target.Keys, current, target, scores, prices);
  }

  lemma SameCover(xs: seq<Trade>, ys: seq<Trade>, symbols: set<string>, current: Lots, target: Lots,
                  scores: map<string, real>, prices: Prices)
    requires forall t :: t in xs <==> t in ys
    ensures OnlyChanges(xs, symbols, current, target, scores, prices)
        <==> OnlyChanges(ys, symbols, current, target, scores, prices)
    ensures AllChanges(xs, symbols, current, target) <==> AllChanges(ys, symbols, current, target)
  {
    hide TradeFor, LotsOf;
  }

  lemma DifferentTrades(all: seq<Trade>, s: Trade, b: Trade)
    requires OnePerSymbol(all) && s in all && b in all && s != b
    ensures s.symbol != b.symbol
  {
  }

  lemma SellsThenBuys(sells: seq<Trade>, buys: seq<Trade>)
    requires OnePerSymbol(sells) && OnePerSymbol(buys)
    requires forall t :: t in sells ==> t.action == Sell
    requires forall t :: t in buys ==> t.action == Buy
    requires forall s, b :: s in sells && b in buys ==> s.symbol != b.symbol
    requires Descending(buys, BY_TRADE_SCORE)
    ensures OnePerSymbol(sells + buys) && SellsFirst(sells + buys) && BuysByScore(sells + buys)
  {
    var trades := sells + buys;
    assert forall i :: 0 <= i < |sells| ==> trades[i] in sells;
    assert forall i :: |sells| <= i < |trades| ==> trades[i] == buys[i - |sells|] && trades[i] in buys;
    assert forall i, j :: 0 <= i < j < |buys| ==> BY_TRADE_SCORE(buys[i]) >= BY_TRADE_SCORE(buys[j]);
  }

  lemma PermutedTrades(xs: seq<Trade>, ys: seq<Trade>)
    requires multiset(xs) == multiset(ys)
    ensures forall t :: t in xs <==> t in ys
    ensures OnePerSymbol(xs) ==> OnePerSymbol(ys)
  {
    forall t ensures t in xs <==> t in ys {
      assert t in xs <==> t in multiset(xs);
      assert t in ys <==> t in multiset(ys);
    }
    if OnePerSymbol(xs) {
      forall i, j | 0 <= i < j < |ys| ensures ys[i].symbol != ys[j].symbol {
        assert ys[i] in xs && ys[j] in xs;
        if ys[i] == ys[j] {
          AtMostOnce(xs, ys[i]);
          AtLeastTwice(ys, i, j);
        }
      }
    }
  }

  lemma AtLeastTwice(ys: seq<Trade>, i: nat, j: nat)
    requires i < j < |ys| && ys[i] == ys[j]
    ensures multiset(ys)[ys[i]] >= 2
  {
    var l, m, r := ys[..i], ys[i + 1..j], ys[j + 1..];
    assert ys == l + [ys[i]] + m + [ys[j]] + r;
  }

  lemma {:induction false} AtMostOnce(xs: seq<Trade>, t: Trade)
    requires OnePerSymbol(xs)
    ensures multiset(xs)[t] <= 1
  {
    if xs != [] {
      var init := xs[..|xs| - 1];
      assert xs == init + [xs[|xs| - 1]];
      AtMostOnce(init, t);
      if xs[|xs| - 1] == t { assert t !in init; }
    }
  }

  // ---------------------------------------------------------------- the trades from the rows

  // The last row of the portfolio for the symbol.
  ghost predicate LastRow(rows: seq<Target>, i: nat, symbol: string) {
    i < |rows| && rows[i].symbol == symbol && forall j :: i < j < |rows| ==> rows[j].symbol != symbol
  }

  // The lots the portfolio asks for: those of the last row, or none.
  ghost predicate Wants(rows: seq<Target>, symbol: string, lots: int) {
    if exists i: nat :: LastRow(rows, i, symbol) then exists i: nat :: LastRow(rows, i, symbol) && rows[i].lots == lots
    else lots == 0
  }

  // The score of that row, or 0.
  ghost predicate Ranks(rows: seq<Target>, symbol: string, score: real) {
    if exists i: nat :: LastRow(rows, i, symbol)
    then exists i: nat :: LastRow(rows, i, symbol) && rows[i].score == score
    else score == 0.0
  }

  // The change from what is held to what is wanted, valued at 100 shares a lot and the price, 0 without one.
  ghost predicate Changes(t: Trade, rows: seq<Target>, current: Lots, prices: Prices) {
    var held, price := if t.symbol in current then current[t.symbol] else 0,
                       if t.symbol in prices then prices[t.symbol] else 0.0;
    && t.lotsDelta != 0 && Wants(rows, t.symbol, held + t.lotsDelta) && Ranks(rows, t.symbol, t.score)
    && (t.action == Buy <==> t.lotsDelta > 0)
    && t.value == Product((100 * if t.lotsDelta > 0 then t.lotsDelta else -t.lotsDelta) as real, price)
  }

  // One trade for each symbol whose wanted lots are not the ones held.
  ghost predicate TradesFor(trades: seq<Trade>, rows: seq<Target>, current: Lots, prices: Prices) {
    && OnePerSymbol(trades)
    && (forall t :: t in trades ==> Changes(t, rows, current, prices))
    && forall s: string, lots: int :: Wants(rows, s, lots) && lots != (if s in current then current[s] else 0) ==>
         HasTrade(trades, s)
  }

  ghost predicate HasTrade(trades: seq<Trade>, symbol: string) { exists t :: t in trades && t.symbol == symbol }

  lemma {:induction false} TargetsAreLastRows(rows: seq<Target>, symbol: string) returns (i: nat)
    ensures symbol in TargetLots(rows) <==> LastRow(rows, i, symbol)
    ensures symbol in TargetScores(rows) <==> LastRow(rows, i, symbol)
    ensures LastRow(rows, i, symbol) ==>
      TargetLots(rows)[symbol] == rows[i].lots && TargetScores(rows)[symbol] == rows[i].score
    ensures forall j: nat :: LastRow(rows, j, symbol) ==> LastRow(rows, i, symbol) && i == j
  {
    if rows == [] {
      i := 0;
    } else if rows[|rows| - 1].symbol == symbol {
      i := |rows| - 1;
    } else {
      var init := rows[..|rows| - 1];
      i := TargetsAreLastRows(init, symbol);
      forall j: nat ensures LastRow(rows, j, symbol) <==> LastRow(init, j, symbol) { SameLastRow(rows, j, symbol); }
      hide LastRow;
    }
  }

  lemma SameLastRow(rows: seq<Target>, j: nat, symbol: string)
    requires rows != [] && rows[|rows| - 1].symbol != symbol
    ensures LastRow(rows, j, symbol) <==> LastRow(rows[..|rows| - 1], j, symbol)
  {
    var init := rows[..|rows| - 1];
    assert forall k :: 0 <= k < |init| ==> init[k] == rows[k];
  }

  lemma WantsIff(rows: seq<Target>, symbol: string, lots: int)
    ensures Wants(rows, symbol, lots) <==> lots == LotsOf(TargetLots(rows), symbol)
  {
    var i := TargetsAreLastRows(rows, symbol);
    hide LastRow, TargetLots;
  }

  lemma RanksIff(rows: seq<Target>, symbol: string, score: real)
    ensures Ranks(rows, symbol, score)
      <==> score == if symbol in TargetScores(rows) then TargetScores(rows)[symbol] else 0.0
  {
    var i := TargetsAreLastRows(rows, symbol);
    hide LastRow, TargetScores, TargetLots;
  }

  lemma TradeFromRows(t: Trade, rows: seq<Target>, current: Lots, prices: Prices)
    requires t == TradeFor(t.symbol, current, TargetLots(rows), TargetScores(rows), prices) && t.lotsDelta != 0
    ensures Changes(t, rows, current, prices)
  {
    WantsIff(rows, t.symbol, LotsOf(TargetLots(rows), t.symbol));
    RanksIff(rows, t.symbol, t.score);
    hide Wants, Ranks, TargetLots, TargetScores;
  }

  lemma PlanFromRows(trades: seq<Trade>, rows: seq<Target>, current: Lots, prices: Prices)
    requires IsPlan(trades, current, TargetLots(rows), TargetScores(rows), prices)
    ensures TradesFor(trades, rows, current, prices)
  {
    hide TargetLots, TargetScores, Wants, Changes, LotsOf, TradeFor, HasTrade, SellsFirst, BuysByScore;
    forall t | t in trades ensures Changes(t, rows, current, prices) { TradeFromRows(t, rows, current, prices); }
    forall s: string, lots: int | Wants(rows, s, lots) && lots != (if s in current then current[s] else 0)
      ensures HasTrade(trades, s)
    {
      WantsIff(rows, s, lots);
      ChangedHasTrade(trades, s, current, TargetLots(rows));
    }
  }

  lemma ChangedHasTrade(trades: seq<Trade>, s: string, current: Lots, target: Lots)
    requires AllChanges(trades, current.Keys + target.Keys, current, target)
    requires LotsOf(target, s) != if s in current then current[s] else 0
    ensures HasTrade(trades, s)
  {
  }

  // ---------------------------------------------------------------- books and their value

  datatype Book = Book(cash: real, lots: Lots)

  ghost function Value(lots: Lots, prices: Prices): real {
    if lots == map[] then 0.0
    else
      var s :| s in lots;
      Worth(prices, s, lots[s]) + Value(lots - {s}, prices)
  }

  ghost function Nav(book: Book, prices: Prices): real { book.cash + Value(book.lots, prices) }

  // A buy costs its worth, a sale (negative lots) earns it.
  function Execute(book: Book, t: Trade, prices: Prices): Book {
    Book(book.cash - Worth(prices, t.symbol, t.lotsDelta),
         book.lots[t.symbol := LotsOf(book.lots, t.symbol) + t.lotsDelta])
  }

  function ExecuteAll(book: Book, trades: seq<Trade>, prices: Prices): Book {
    if trades == [] then book
    else Execute(ExecuteAll(book, trades[..|trades| - 1], prices), trades[|trades| - 1], prices)
  }

  lemma WorthAdds(prices: Prices, s: string, a: int, b: int)
    ensures Worth(prices, s, a + b) == Worth(prices, s, a) + Worth(prices, s, b)
    ensures Worth(prices, s, 0) == 0.0
  {
    var p := PriceOf(prices, s);
    assert ((a + b) * IDX_LOT_SIZE) as real == (a * IDX_LOT_SIZE) as real + (b * IDX_LOT_SIZE) as real;
    ProductLaws(p, (a * IDX_LOT_SIZE) as real, 0.0);
    ProductLaws(p, (b * IDX_LOT_SIZE) as real, 0.0);
    ProductLaws(p, ((a + b) * IDX_LOT_SIZE) as real, 0.0);
    ProductLaws(p, 0.0, 0.0);
    hide Product;
    DistributeOver(p, (a * IDX_LOT_SIZE) as real, (b * IDX_LOT_SIZE) as real);
  }

  ghost predicate NonNegative(prices: Prices) { forall s :: s in prices ==> prices[s] >= 0.0 }

  lemma WorthSign(prices: Prices, s: string, lots: int)
    requires NonNegative(prices)
    ensures lots >= 0 ==> Worth(prices, s, lots) >= 0.0
    ensures lots <= 0 ==> Worth(prices, s, lots) <= 0.0
  {
    var p := PriceOf(prices, s);
    if lots >= 0 { ProductNonNegative((lots * IDX_LOT_SIZE) as real, p); }
    if lots <= 0 { ProductNonNegative((-lots * IDX_LOT_SIZE) as real, p); }
  }

  lemma {:induction false} ValueSplits(lots: Lots, prices: Prices, s: string)
    requires s in lots
    ensures Value(lots, prices) == Worth(prices, s, lots[s]) + Value(lots - {s}, prices)
    decreases |lots|
  {
    hide Worth;
    var x :| x in lots && Value(lots, prices) == Worth(prices, x, lots[x]) + Value(lots - {x}, prices);
    if x != s {
      assert |lots - {x}| == |lots| - 1 && |lots - {s}| == |lots| - 1 by {
        assert (lots - {x}).Keys == lots.Keys - {x} && (lots - {s}).Keys == lots.Keys - {s};
      }
      ValueSplits(lots - {x}, prices, s);
      ValueSplits(lots - {s}, prices, x);
      assert lots - {x} - {s} == lots - {s} - {x};
    }
  }

  lemma ValueUpdated(lots: Lots, prices: Prices, s: string, n: int)
    ensures Value(lots[s := n], prices)
         == Value(lots, prices) - Worth(prices, s, LotsOf(lots, s)) + Worth(prices, s, n)
  {
    hide Worth;
    ValueSplits(lots[s := n], prices, s);
    WorthAdds(prices, s, 0, 0);
    if s in lots {
      ValueSplits(lots, prices, s);
      assert lots[s := n] - {s} == lots - {s};
    } else {
      assert lots[s := n] - {s} == lots;
    }
  }

  /** Trading at the prices used for valuation conserves net asset value. */
  lemma {:induction false} NavConserved(book: Book, trades: seq<Trade>, prices: Prices)
    ensures Nav(ExecuteAll(book, trades, prices), prices) == Nav(book, prices)
  {
    hide Worth, Value;
    if trades != [] {
      var init, t := trades[..|trades| - 1], trades[|trades| - 1];
      NavConserved(book, init, prices);
      var before := ExecuteAll(book, init, prices);
      var held := LotsOf(before.lots, t.symbol);
      ValueUpdated(before.lots, prices, t.symbol, held + t.lotsDelta);
      WorthAdds(prices, t.symbol, held, t.lotsDelta);
    }
  }

  lemma {:induction false} ValueOfNothing(lots: Lots, prices: Prices)
    requires forall s :: LotsOf(lots, s) == 0
    ensures Value(lots, prices) == 0.0
    decreases |lots|
  {
    hide Worth;
    if lots != map[] {
      var s :| s in lots;
      ValueSplits(lots, prices, s);
      assert LotsOf(lots, s) == 0;
      WorthAdds(prices, s, 0, 0);
      assert forall t :: LotsOf(lots - {s}, t) == if t == s then 0 else LotsOf(lots, t);
      assert (lots - {s}).Keys == lots.Keys - {s};
      ValueOfNothing(lots - {s}, prices);
    }
  }

  lemma {:induction false} SameHoldingsSameValue(a: Lots, b: Lots, prices: Prices)
    requires forall s :: LotsOf(a, s) == LotsOf(b, s)
    ensures Value(a, prices) == Value(b, prices)
    decreases |a|
  {
    hide Worth;
    if a == map[] {
      assert forall s :: LotsOf(a, s) == 0;
      ValueOfNothing(b, prices);
    } else {
      var s :| s in a;
      ValueSplits(a, prices, s);
      WorthAdds(prices, s, 0, 0);
      if s in b { ValueSplits(b, prices, s); }
      SameWithout(a, b, s);
      assert (a - {s}).Keys == a.Keys - {s};
      SameHoldingsSameValue(a - {s}, b - {s}, prices);
    }
  }

  lemma SameWithout(a: Lots, b: Lots, s: string)
    requires forall t :: LotsOf(a, t) == LotsOf(b, t)
    ensures forall t :: LotsOf(a - {s}, t) == LotsOf(b - {s}, t)
    ensures LotsOf(a, s) == LotsOf(b, s) && (s !in b ==> b - {s} == b)
  {
    assert forall t :: LotsOf(a - {s}, t) == if t == s then 0 else LotsOf(a, t);
    assert forall t :: LotsOf(b - {s}, t) == if t == s then 0 else LotsOf(b, t);
  }

  // ---------------------------------------------------------------- where a plan ends

  function DeltaOf(trades: seq<Trade>, s: string): int {
    if trades == [] then 0
    else
      DeltaOf(trades[..|trades| - 1], s)
      + if trades[|trades| - 1].symbol == s then trades[|trades| - 1].lotsDelta else 0
  }

  lemma {:induction false} LotsAfter(book: Book, trades: seq<Trade>, prices: Prices, s: string)
    ensures LotsOf(ExecuteAll(book, trades, prices).lots, s) == LotsOf(book.lots, s) + DeltaOf(trades, s)
  {
    hide Worth;
    if trades != [] { LotsAfter(book, trades[..|trades| - 1], prices, s); }
  }

  lemma {:induction false} DeltaOfOne(trades: seq<Trade>, s: string)
    requires OnePerSymbol(trades)
    ensures forall t :: t in trades && t.symbol == s ==> DeltaOf(trades, s) == t.lotsDelta
    ensures (forall t :: t in trades ==> t.symbol != s) ==> DeltaOf(trades, s) == 0
  {
    if trades != [] {
      var init, last := trades[..|trades| - 1], trades[|trades| - 1];
      DeltaOfOne(init, s);
      assert last in trades;
      assert forall t :: t in trades <==> t in init || t == last;
      assert forall i :: 0 <= i < |init| ==> init[i].symbol != last.symbol;
    }
  }

  /** Whatever the order of the trades, a plan ends exactly at the target lots. */
  lemma PlanReachesTarget(book: Book, trades: seq<Trade>, target: Lots, scores: map<string, real>, prices: Prices,
                          s: string)
    requires IsPlan(trades, book.lots, target, scores, prices)
    ensures LotsOf(ExecuteAll(book, trades, prices).lots, s) == LotsOf(target, s)
  {
    hide Worth, ExecuteAll;
    LotsAfter(book, trades, prices, s);
    DeltaOfOne(trades, s);
    if t :| t in trades && t.symbol == s {
    } else {
    }
  }

  // ---------------------------------------------------------------- solvency

  function CashAfter(book: Book, trades: seq<Trade>, k: nat, prices: Prices): real
    requires k <= |trades|
  {
    ExecuteAll(book, trades[..k], prices).cash
  }

  lemma CashStep(book: Book, trades: seq<Trade>, k: nat, prices: Prices)
    requires k < |trades| && NonNegative(prices)
    ensures trades[k].lotsDelta <= 0 ==> CashAfter(book, trades, k, prices) <= CashAfter(book, trades, k + 1, prices)
    ensures trades[k].lotsDelta >= 0 ==> CashAfter(book, trades, k, prices) >= CashAfter(book, trades, k + 1, prices)
  {
    hide Worth;
    assert trades[..k + 1][..k] == trades[..k];
    WorthSign(prices, trades[k].symbol, trades[k].lotsDelta);
  }

  lemma {:induction false} SellsOnlyRaise(book: Book, trades: seq<Trade>, k: nat, prices: Prices)
    requires k <= |trades| && NonNegative(prices)
    requires forall i :: 0 <= i < k ==> trades[i].lotsDelta <= 0
    ensures book.cash <= CashAfter(book, trades, k, prices)
  {
    if k > 0 {
      SellsOnlyRaise(book, trades, k - 1, prices);
      CashStep(book, trades, k - 1, prices);
    } else {
      assert trades[..0] == [];
    }
  }

  lemma {:induction false} BuysOnlyLower(book: Book, trades: seq<Trade>, k: nat, prices: Prices)
    requires k <= |trades| && NonNegative(prices)
    requires forall i :: k <= i < |trades| ==> trades[i].lotsDelta >= 0
    ensures CashAfter(book, trades, k, prices) >= CashAfter(book, trades, |trades|, prices)
    decreases |trades| - k
  {
    if k < |trades| {
      BuysOnlyLower(book, trades, k + 1, prices);
      CashStep(book, trades, k, prices);
    }
  }

  /** Because sells come first, cash never dips below its lower end point. */
  lemma CashIsUnimodal(book: Book, trades: seq<Trade>, k: nat, target: Lots, scores: map<string, real>, prices: Prices)
    requires k <= |trades| && NonNegative(prices) && IsPlan(trades, book.lots, target, scores, prices)
    ensures CashAfter(book, trades, k, prices) >= book.cash
         || CashAfter(book, trades, k, prices) >= CashAfter(book, trades, |trades|, prices)
  {
    assert forall i :: 0 <= i < |trades| ==> trades[i] in trades;
    hide CashAfter;
    if k < |trades| {
      if trades[k].action == Sell {
        SellsOnlyRaise(book, trades, k, prices);
      } else {
        BuysOnlyLower(book, trades, k, prices);
      }
    }
  }

  /** A plan never overdraws on the way exactly when cash starts non-negative and the target costs at most the
      net asset value. */
  lemma SolventIffTargetFits(book: Book, trades: seq<Trade>, target: Lots, scores: map<string, real>, prices: Prices)
    requires NonNegative(prices) && IsPlan(trades, book.lots, target, scores, prices)
    ensures ExecuteAll(book, trades, prices).cash == Nav(book, prices) - Value(target, prices)
    ensures (forall k :: 0 <= k <= |trades| ==> CashAfter(book, trades, k, prices) >= 0.0)
       <==> book.cash >= 0.0 && Value(target, prices) <= Nav(book, prices)
  {
    var n := |trades|;
    assert trades[..n] == trades && trades[..0] == [];
    assert CashAfter(book, trades, 0, prices) == book.cash;
    assert CashAfter(book, trades, n, prices) == ExecuteAll(book, trades, prices).cash;
    NavConserved(book, trades, prices);
    forall s ensures LotsOf(ExecuteAll(book, trades, prices).lots, s) == LotsOf(target, s) {
      PlanReachesTarget(book, trades, target, scores, prices, s);
    }
    SameHoldingsSameValue(ExecuteAll(book, trades, prices).lots, target, prices);
    hide CashAfter, ExecuteAll, Value, IsPlan;
    forall k | 0 <= k <= n
      ensures CashAfter(book, trades, k, prices) >= book.cash
           || CashAfter(book, trades, k, prices) >= CashAfter(book, trades, n, prices)
    {
      CashIsUnimodal(book, trades, k, target, scores, prices);
    }
  }

  // ---------------------------------------------------------------- end to end

  lemma {:induction false} TargetCost(rows: seq<Target>, prices: Prices)
    requires NonNegative(prices)
    requires forall r :: r in rows ==> r.lots >= 0 && Worth(prices, r.symbol, r.lots) <= r.value
    ensures Value(TargetLots(rows), prices) <= TotalValue(rows)
    ensures forall s :: s in TargetLots(rows) ==> TargetLots(rows)[s] >= 0
  {
    hide Worth;
    if rows != [] {
      var init, last := rows[..|rows| - 1], rows[|rows| - 1];
      assert last in rows;
      TargetCost(init, prices);
      ValueUpdated(TargetLots(init), prices, last.symbol, last.lots);
      WorthSign(prices, last.symbol, LotsOf(TargetLots(init), last.symbol));
    }
  }

  ghost predicate StandardLotsOrLarger(meta: map<string, Instrument>) {
    forall s :: s in meta ==> meta[s].lotSize >= IDX_LOT_SIZE
  }

  lemma {:induction false} BuiltRowsAreCovered(top: seq<Score>, n: nat, meta: map<string, Instrument>, weight: real,
                                               nav: real, prices: Prices, unquoted: set<string>,
                                               rows: seq<Target>)
    requires n <= |top| && weight * nav >= 0.0 && StandardLotsOrLarger(meta)
    requires BuildRows(top, n, meta, weight, nav, prices, unquoted) == Some(rows)
    ensures forall r :: r in rows ==> r.lots >= 0 && Worth(prices, r.symbol, r.lots) <= r.value
  {
    hide SizeOne, Worth;
    if n > 0 {
      var before := BuildRows(top, n - 1, meta, weight, nav, prices, unquoted).value;
      BuiltRowsAreCovered(top, n - 1, meta, weight, nav, prices, unquoted, before);
      if SizeOne(top[n - 1], n, meta, weight, nav, prices, unquoted).Sized? {
        SizedWithinTarget(top[n - 1], n, meta, weight, nav, prices, unquoted);
        var t := SizeOne(top[n - 1], n, meta, weight, nav, prices, unquoted).target;
        LargerLotsCostMore(prices, t.symbol, t.lots, LotSizeOf(meta, t.symbol));
      }
    }
  }

  lemma LargerLotsCostMore(prices: Prices, s: string, lots: int, lotSize: int)
    requires s in prices && prices[s] > 0.0 && lots >= 0 && lotSize >= IDX_LOT_SIZE
    ensures Worth(prices, s, lots) <= Product(prices[s], (lots * lotSize) as real)
  {
    ProductLaws(prices[s], (lots * IDX_LOT_SIZE) as real, 0.0);
    assert lots * IDX_LOT_SIZE <= lots * lotSize;
    hide Product;
    ProductMonotone(prices[s], (lots * IDX_LOT_SIZE) as real, (lots * lotSize) as real);
  }

  /** The self-financing rebalance: with no lot size below the standard lot, running any plan toward a portfolio
      constructed for the book's own net asset value keeps cash non-negative throughout and ends at the target. */
  lemma SelfFinancingRebalance(book: Book, scores: map<string, real>, filtered: seq<string>,
                               meta: map<string, Instrument>, prices: Prices, unquoted: set<string>, topPct: real,
                               maxPositionPct: real, sectorCap: real, rows: seq<Target>, trades: seq<Trade>)
    requires maxPositionPct >= 0.0 && NonNegative(prices) && StandardLotsOrLarger(meta)
    requires book.cash >= 0.0 && Nav(book, prices) >= 0.0
    requires Construct(scores, filtered, meta, Nav(book, prices), prices, unquoted, topPct, maxPositionPct, sectorCap)
          == Some(rows)
    requires IsPlan(trades, book.lots, TargetLots(rows), TargetScores(rows), prices)
    ensures forall k :: 0 <= k <= |trades| ==> CashAfter(book, trades, k, prices) >= 0.0
    ensures forall s :: LotsOf(ExecuteAll(book, trades, prices).lots, s) == LotsOf(TargetLots(rows), s)
  {
    hide *;
    var nav := Nav(book, prices);
    ConstructedRowsCovered(scores, filtered, meta, nav, prices, unquoted, topPct, maxPositionPct, sectorCap, rows);
    TargetCost(rows, prices);
    PortfolioFitsNav(scores, filtered, meta, nav, prices, unquoted, topPct, maxPositionPct, sectorCap);
    SolventIffTargetFits(book, trades, TargetLots(rows), TargetScores(rows), prices);
    forall s ensures LotsOf(ExecuteAll(book, trades, prices).lots, s) == LotsOf(TargetLots(rows), s) {
      PlanReachesTarget(book, trades, TargetLots(rows), TargetScores(rows), prices, s);
    }
  }

  lemma ConstructedRowsCovered(scores: map<string, real>, filtered: seq<string>, meta: map<string, Instrument>,
                               nav: real, prices: Prices, unquoted: set<string>, topPct: real, maxPositionPct: real,
                               sectorCap: real, rows: seq<Target>)
    requires maxPositionPct >= 0.0 && nav >= 0.0 && StandardLotsOrLarger(meta)
    requires Construct(scores, filtered, meta, nav, prices, unquoted, topPct, maxPositionPct, sectorCap) == Some(rows)
    ensures forall r :: r in rows ==> r.lots >= 0 && Worth(prices, r.symbol, r.lots) <= r.value
  {
    hide SelectTop, Reindex, BuildRows, Capped, Worth, StandardLotsOrLarger;
    var top := SelectTop(Reindex(scores, filtered), topPct);
    var weight := PositionWeight(|top|, maxPositionPct);
    var built := BuildRows(top, |top|, meta, weight, nav, prices, unquoted).value;
    EqualSharesFit(|top|, weight, nav);
    BuiltRowsAreCovered(top, |top|, meta, weight, nav, prices, unquoted, built);
    CappingKeepsValue(built, sectorCap);
    forall r | r in rows ensures r.lots >= 0 && Worth(prices, r.symbol, r.lots) <= r.value {
      var i :| 0 <= i < |rows| && rows[i] == r;
      assert built[i] in built;
    }
  }

  // ---------------------------------------------------------------- lots below the standard lot

  const SMALL_LOT := map["A" := Instrument("", 1, true, None, None)]
  const CASH_ONLY := Book(1000.0, map[])

  // What construction makes of 1000 in cash, one symbol priced at 100 and one share to the lot.
  function TenShares(): Target { Target("A", "", 1.0, 10, 1000.0, 0.5, 1) }

  lemma TenSharesSized()
    ensures SizeOne(Score("A", 0.5), 1, SMALL_LOT, 1.0, 1000.0, FULL_PRICE, {}) == Sized(TenShares())
  {
    assert CalculateLotSize(1.0, 1000.0, 100.0, 1) == 10;
  }

  lemma TenSharesConstructed()
    ensures Construct(map["A" := 0.5], ["A"], SMALL_LOT, 1000.0, FULL_PRICE, {}, 1.0, 1.0, 1.0) == Some([TenShares()])
  {
    OneScored();
    OnlyScore(Score("A", 0.5));
    OneBuilt();
    OneRowCapped();
    hide SizeOne, SelectTop, Reindex, BuildRows, Capped, SMALL_LOT, FULL_PRICE;
    assert PositionWeight(1, 1.0) == 1.0;
  }

  lemma OneBuilt()
    ensures BuildRows([Score("A", 0.5)], 1, SMALL_LOT, 1.0, 1000.0, FULL_PRICE, {}) == Some([TenShares()])
  {
    TenSharesSized();
    hide SizeOne;
    assert [Score("A", 0.5)][0] == Score("A", 0.5) && [] + [TenShares()] == [TenShares()];
    assert BuildRows([Score("A", 0.5)], 0, SMALL_LOT, 1.0, 1000.0, FULL_PRICE, {}) == Some([]);
  }

  lemma OneRowCapped()
    ensures Capped([TenShares()], 1.0) == [TenShares()]
  {
    var rows := [TenShares()];
    assert rows[..0] == [];
    assert TotalWeight(rows) == 1.0 && SectorWeight(rows, "") == 1.0;
    CapHoldsOnlyIfItHeld(rows, 1.0);
  }

  lemma TenSharesWorth()
    ensures TargetLots([TenShares()]) == map["A" := 10] && TargetScores([TenShares()]) == map["A" := 0.5]
    ensures Value(map["A" := 10], FULL_PRICE) == 100000.0
    ensures Nav(CASH_ONLY, FULL_PRICE) == 1000.0
  {
    assert [TenShares()][..0] == [];
    var lots := map["A" := 10];
    ValueSplits(lots, FULL_PRICE, "A");
    assert lots - {"A"} == map[];
    assert Worth(FULL_PRICE, "A", 10) == 100000.0;
  }

  lemma OneTradePlan() returns (trades: seq<Trade>)
    ensures IsPlan(trades, map[], map["A" := 10], map["A" := 0.5], FULL_PRICE)
  {
    var t := TradeFor("A", map[], map["A" := 10], map["A" := 0.5], FULL_PRICE);
    hide Worth;
    trades := [t];
    assert t in trades && t.symbol == "A";
  }

  /** The lot-size condition matters: construction honours a lot of one share, but trades move 100 shares to the lot.
      A portfolio constructed for exactly the cash at hand has a plan, and every plan toward it overdraws. */
  lemma SmallLotsBreakTheBudget(trades: seq<Trade>)
    returns (plan: seq<Trade>)
    ensures Construct(map["A" := 0.5], ["A"], SMALL_LOT, Nav(CASH_ONLY, FULL_PRICE), FULL_PRICE, {}, 1.0, 1.0, 1.0)
         == Some([TenShares()])
    ensures IsPlan(plan, CASH_ONLY.lots, TargetLots([TenShares()]), TargetScores([TenShares()]), FULL_PRICE)
    ensures IsPlan(trades, CASH_ONLY.lots, TargetLots([TenShares()]), TargetScores([TenShares()]), FULL_PRICE) ==>
      exists k :: 0 <= k <= |trades| && CashAfter(CASH_ONLY, trades, k, FULL_PRICE) < 0.0
  {
    TenSharesConstructed();
    TenSharesWorth();
    plan := OneTradePlan();
    hide Construct, IsPlan, CashAfter, Value, Nav, TargetLots, TargetScores, ExecuteAll;
    if IsPlan(trades, CASH_ONLY.lots, TargetLots([TenShares()]), TargetScores([TenShares()]), FULL_PRICE) {
      SolventIffTargetFits(CASH_ONLY, trades, map["A" := 10], map["A" := 0.5], FULL_PRICE);
    }
  }
}
