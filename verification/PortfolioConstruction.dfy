/** Lot sizing and the target portfolio of the cross-sectional momentum strategy. */
module PortfolioConstruction {
  import opened RealArithmetic
  import opened SectorCap
  import opened Sorting
  import opened Survivorship
  import opened Wrappers

  const IDX_LOT_SIZE := 100

  datatype Score = Score(symbol: string, value: real)

  const BY_SCORE := (s: Score) => s.value

  // Truncation toward zero.
  function Truncate(x: real): int { if x >= 0.0 then x.Floor else -((-x).Floor) }

  function Ceiling(x: real): int { -((-x).Floor) }

  // Division rounding toward minus infinity.
  function FloorDiv(a: int, b: int): int
    requires b != 0
  {
    if b > 0 then a / b else (-a) / (-b)
  }

  function CalculateLotSize(targetWeight: real, nav: real, price: real, lotSize: int): int
    requires lotSize != 0
  {
    if price <= 0.0 then 0
    else
      var lots := FloorDiv(Truncate(targetWeight * nav / price), lotSize);
      if lots > 0 then lots else 0
  }

  /** The position never costs more than its target value, and one more lot would. */
  lemma LotsAreMaximal(targetWeight: real, nav: real, price: real, lotSize: int)
    requires lotSize > 0 && price > 0.0 && targetWeight * nav >= 0.0
    ensures var lots := CalculateLotSize(targetWeight, nav, price, lotSize);
            && lots >= 0
            && Product(price, (lots * lotSize) as real) <= targetWeight * nav
            && targetWeight * nav < Product(price, ((lots + 1) * lotSize) as real)
  {
    var q := targetWeight * nav / price;
    assert Product(price, q) == targetWeight * nav;
    AtLeastOfProduct(q, price);
    var shares := Truncate(q);
    WholeLots(shares, lotSize);
    var lots := shares / lotSize;
    hide Product;
    ProductMonotone(price, (lots * lotSize) as real, q);
    ProductMonotone(price, ((lots + 1) * lotSize) as real, q);
  }

  lemma WholeLots(shares: int, lotSize: int)
    requires lotSize > 0
    ensures (shares / lotSize) * lotSize <= shares < (shares / lotSize + 1) * lotSize
  {
  }

  // ---------------------------------------------------------------- construction

  /** One ranked symbol: the source raises on a NaN price or a zero lot size, skips a symbol that is not in the price
      series or not priced above 0, or sizes it. `unquoted` are the symbols whose price is NaN. */
  datatype Sizing = Raised | Skipped | Sized(target: Target)

  function SizeOne(s: Score, rank: int, meta: map<string, Instrument>, weight: real, nav: real,
                   prices: map<string, real>, unquoted: set<string>): Sizing
  {
    var sector := if s.symbol in meta then meta[s.symbol].sector else "";
    var lotSize := if s.symbol in meta then meta[s.symbol].lotSize else IDX_LOT_SIZE;
    if s.symbol in unquoted then Raised
    else if s.symbol !in prices || prices[s.symbol] <= 0.0 then Skipped
    else if lotSize == 0 then Raised
    else
      var price := prices[s.symbol];
      var lots := CalculateLotSize(weight, nav, price, lotSize);
      if lots < 1 then Skipped
      else
        var value := Product(price, (lots * lotSize) as real);
        Sized(Target(s.symbol, sector, if nav > 0.0 then value / nav else 0.0, lots, value, s.value, rank))
  }

  // The rows for the first `n` ranked symbols; None when one of them raises.
  function BuildRows(top: seq<Score>, n: nat, meta: map<string, Instrument>, weight: real, nav: real,
                     prices: map<string, real>, unquoted: set<string>): Option<seq<Target>>
    requires n <= |top|
  {
    if n == 0 then Some([])
    else
      var before := BuildRows(top, n - 1, meta, weight, nav, prices, unquoted);
      var last := SizeOne(top[n - 1], n, meta, weight, nav, prices, unquoted);
      if before.None? || last.Raised? then None
      else if last.Skipped? then before
      else Some(before.value + [last.target])
  }

  function Reindex(scores: map<string, real>, symbols: seq<string>): seq<Score> {
    if symbols == [] then []
    else
      var last := symbols[|symbols| - 1];
      Reindex(scores, symbols[..|symbols| - 1]) + if last in scores then [Score(last, scores[last])] else []
  }

  // The requested fraction rounded up, at least one and at most all.
  function SelectedCount(available: nat, topPct: real): (n: nat)
    ensures n <= available
  {
    var wanted := Ceiling(Product(available as real, topPct));
    var count := if wanted > 1 then wanted else 1;
    if count <= available then count else available
  }

  // The best-scored fraction.
  function SelectTop(scores: seq<Score>, topPct: real): (top: seq<Score>)
    ensures |top| == SelectedCount(|scores|, topPct)
  {
    SortedLength(scores);
    SortDescending(scores, BY_SCORE)[..SelectedCount(|scores|, topPct)]
  }

  /** The count is the least whole number that reaches the fraction, unless that is below one or more than there are. */
  lemma SelectedCountIsLeast(available: nat, topPct: real, n: nat)
    requires 1 <= n < available
    ensures n == SelectedCount(available, topPct) <==>
      && n as real >= Product(available as real, topPct)
      && (n > 1 ==> (n - 1) as real < Product(available as real, topPct))
  {
    CeilingIsLeast(Product(available as real, topPct), n);
    CeilingIsLeast(Product(available as real, topPct), 1);
    hide Product, Ceiling;
  }

  lemma CeilingIsLeast(x: real, n: int)
    ensures n >= Ceiling(x) <==> n as real >= x
    ensures n - 1 >= Ceiling(x) <==> (n - 1) as real >= x
  {
  }

  /** The selection is a best part of the ranking: the rest scores no higher, and nothing is lost between the two. */
  lemma TopIsBest(scores: seq<Score>, topPct: real) returns (rest: seq<Score>)
    ensures multiset(SelectTop(scores, topPct) + rest) == multiset(scores)
    ensures forall a, b :: a in SelectTop(scores, topPct) && b in rest ==> a.value >= b.value
    ensures forall i, j :: 0 <= i < j < |SelectTop(scores, topPct)| ==>
      SelectTop(scores, topPct)[i].value >= SelectTop(scores, topPct)[j].value
    ensures |SelectTop(scores, topPct)| == SelectedCount(|scores|, topPct)
  {
    hide SelectedCount, SortDescending;
    SortedLength(scores);
    var sorted, top := SortDescending(scores, BY_SCORE), SelectTop(scores, topPct);
    rest := sorted[|top|..];
    assert sorted == top + rest;
    forall a, b | a in top && b in rest ensures a.value >= b.value {
      var i :| 0 <= i < |top| && top[i] == a;
      var j :| 0 <= j < |rest| && rest[j] == b;
      assert BY_SCORE(sorted[i]) >= BY_SCORE(sorted[|top| + j]);
    }
    forall i, j | 0 <= i < j < |top| ensures top[i].value >= top[j].value {
      assert BY_SCORE(sorted[i]) >= BY_SCORE(sorted[j]);
    }
  }

  lemma SortedLength(scores: seq<Score>)
    ensures |SortDescending(scores, BY_SCORE)| == |scores|
  {
    assert |multiset(SortDescending(scores, BY_SCORE))| == |multiset(scores)|;
  }

  function PositionWeight(count: nat, maxPositionPct: real): real
    requires count > 0
  {
    Min(1.0 / count as real, maxPositionPct)
  }

  // None when the source raises; otherwise the rows with capped sector weights.
  function Construct(scores: map<string, real>, filtered: seq<string>, meta: map<string, Instrument>, nav: real,
                     prices: map<string, real>, unquoted: set<string>, topPct: real, maxPositionPct: real,
                     sectorCap: real): Option<seq<Target>>
  {
    var top := SelectTop(Reindex(scores, filtered), topPct);
    if top == [] then None
    else
      var rows := BuildRows(top, |top|, meta, PositionWeight(|top|, maxPositionPct), nav, prices, unquoted);
      if rows.None? then None else Some(Capped(rows.value, sectorCap))
  }

  method ConstructPortfolio(scores: map<string, real>, filtered: seq<string>, meta: map<string, Instrument>,
                            nav: real, prices: map<string, real>, unquoted: set<string>, topPct: real,
                            maxPositionPct: real, sectorCap: real)
    returns (portfolio: Option<seq<Target>>)
    ensures portfolio == Construct(scores, filtered, meta, nav, prices, unquoted, topPct, maxPositionPct, sectorCap)
    ensures nav >= 0.0 && maxPositionPct >= 0.0 ==>
      BuiltFor(portfolio, SelectTop(Reindex(scores, filtered), topPct), meta, nav, prices, unquoted, maxPositionPct)
  {
    ConstructedFromInputs(scores, filtered, meta, nav, prices, unquoted, topPct, maxPositionPct, sectorCap);
    hide SizeOne, Capped, SelectTop, Reindex, BuiltFor;
    var top := SelectTop(Reindex(scores, filtered), topPct);
    if top == [] { return None; }
    var weight := PositionWeight(|top|, maxPositionPct);
    var rows := [];
    for i := 0 to |top|
      invariant BuildRows(top, i, meta, weight, nav, prices, unquoted) == Some(rows)
    {
      var sizing := SizeOne(top[i], i + 1, meta, weight, nav, prices, unquoted);
      if sizing.Raised? {
        RaisedStaysRaised(top, i + 1, meta, weight, nav, prices, unquoted);
        return None;
      }
      if sizing.Sized? { rows := rows + [sizing.target]; }
    }
    var df := ApplySectorCap(rows, sectorCap);
    return Some(df);
  }

  lemma {:induction false} RaisedStaysRaised(top: seq<Score>, n: nat, meta: map<string, Instrument>, weight: real,
                                             nav: real, prices: map<string, real>, unquoted: set<string>)
    requires n <= |top| && BuildRows(top, n, meta, weight, nav, prices, unquoted).None?
    ensures BuildRows(top, |top|, meta, weight, nav, prices, unquoted).None?
    decreases |top| - n
  {
    if n < |top| { RaisedStaysRaised(top, n + 1, meta, weight, nav, prices, unquoted); }
  }

  // ---------------------------------------------------------------- what a portfolio costs

  function TotalValue(rows: seq<Target>): real {
    if rows == [] then 0.0 else TotalValue(rows[..|rows| - 1]) + rows[|rows| - 1].value
  }

  lemma {:induction false} BuiltRowsFitWeights(top: seq<Score>, n: nat, meta: map<string, Instrument>, weight: real,
                                               nav: real, prices: map<string, real>, unquoted: set<string>,
                                               rows: seq<Target>)
    requires n <= |top| && weight * nav >= 0.0
    requires BuildRows(top, n, meta, weight, nav, prices, unquoted) == Some(rows)
    ensures TotalValue(rows) <= Product(n as real, weight * nav)
  {
    hide Product, SizeOne;
    var target := weight * nav;
    if n == 0 {
      DistributeOver(target, 0.0, 0.0);
      ProductLaws(target, 0.0, 0.0);
    } else {
      var before := BuildRows(top, n - 1, meta, weight, nav, prices, unquoted).value;
      BuiltRowsFitWeights(top, n - 1, meta, weight, nav, prices, unquoted, before);
      DistributeOver(target, (n - 1) as real, 1.0);
      ProductLaws(target, (n - 1) as real, 1.0);
      ProductLaws(target, n as real, 1.0);
      var sizing := SizeOne(top[n - 1], n, meta, weight, nav, prices, unquoted);
      if sizing.Sized? {
        SizedWithinTarget(top[n - 1], n, meta, weight, nav, prices, unquoted);
        assert rows[..|rows| - 1] == before;
      }
    }
  }

  lemma SizedWithinTarget(s: Score, rank: int, meta: map<string, Instrument>, weight: real, nav: real,
                          prices: map<string, real>, unquoted: set<string>)
    requires SizeOne(s, rank, meta, weight, nav, prices, unquoted).Sized? && weight * nav >= 0.0
    ensures var t := SizeOne(s, rank, meta, weight, nav, prices, unquoted).target;
            && t.value <= weight * nav
            && t.symbol == s.symbol && t.lots >= 1 && s.symbol in prices && prices[s.symbol] > 0.0
            && t.value == Product(prices[s.symbol], (t.lots * LotSizeOf(meta, s.symbol)) as real)
            && LotSizeOf(meta, s.symbol) > 0
  {
    hide Product;
    var price, lotSize := prices[s.symbol], LotSizeOf(meta, s.symbol);
    if lotSize < 0 { NegativeLotSize(weight, nav, price, lotSize); }
    LotsAreMaximal(weight, nav, price, lotSize);
  }

  function LotSizeOf(meta: map<string, Instrument>, symbol: string): int {
    if symbol in meta then meta[symbol].lotSize else IDX_LOT_SIZE
  }

  lemma NegativeLotSize(weight: real, nav: real, price: real, lotSize: int)
    requires lotSize < 0 && price > 0.0 && weight * nav >= 0.0
    ensures CalculateLotSize(weight, nav, price, lotSize) == 0
  {
    var q := weight * nav / price;
    assert price * q == weight * nav;
    AtLeastOfProduct(q, price);
  }

  lemma EqualSharesFit(n: nat, weight: real, nav: real)
    requires n > 0 && nav >= 0.0 && 0.0 <= weight <= 1.0 / n as real
    ensures weight * nav >= 0.0
    ensures Product(n as real, weight * nav) <= nav
  {
    ProductNonNegative(weight, nav);
    var share := 1.0 / n as real;
    assert n as real * share == 1.0;
    ProductNonNegative(share - weight, nav);
    ProductNonNegative(n as real, share * nav - weight * nav);
    assert n as real * (share * nav) == (n as real * share) * nav;
  }

  /** A constructed portfolio never costs more than the net asset value it was built for. */
  lemma PortfolioFitsNav(scores: map<string, real>, filtered: seq<string>, meta: map<string, Instrument>, nav: real,
                         prices: map<string, real>, unquoted: set<string>, topPct: real, maxPositionPct: real,
                         sectorCap: real)
    requires nav >= 0.0 && maxPositionPct >= 0.0
    ensures var portfolio := Construct(scores, filtered, meta, nav, prices, unquoted, topPct, maxPositionPct,
                                       sectorCap);
            portfolio.Some? ==> TotalValue(portfolio.value) <= nav
  {
    hide BuildRows, SelectTop, Reindex, Product, Capped;
    var top := SelectTop(Reindex(scores, filtered), topPct);
    if top != [] {
      var weight := PositionWeight(|top|, maxPositionPct);
      var rows := BuildRows(top, |top|, meta, weight, nav, prices, unquoted);
      if rows.Some? {
        EqualSharesFit(|top|, weight, nav);
        BuiltRowsFitWeights(top, |top|, meta, weight, nav, prices, unquoted, rows.value);
        CappingKeepsValue(rows.value, sectorCap);
      }
    }
  }

  lemma CappingKeepsValue(rows: seq<Target>, cap: real)
    ensures TotalValue(Capped(rows, cap)) == TotalValue(rows)
    ensures |Capped(rows, cap)| == |rows|
    ensures forall i :: 0 <= i < |rows| ==> Capped(rows, cap)[i] == rows[i].(weight := Capped(rows, cap)[i].weight)
  {
    hide Product, Renormaliser, TrimFactor;
    SameValues(Capped(rows, cap), rows);
  }

  lemma {:induction false} SameValues(xs: seq<Target>, ys: seq<Target>)
    requires |xs| == |ys| && forall i :: 0 <= i < |xs| ==> xs[i].value == ys[i].value
    ensures TotalValue(xs) == TotalValue(ys)
  {
    if xs != [] { SameValues(xs[..|xs| - 1], ys[..|ys| - 1]); }
  }

  // ---------------------------------------------------------------- what the rows are

  // Selected, priced, and with a lot that fits both the equal share and the position cap.
  ghost predicate Affordable(symbol: string, n: nat, meta: map<string, Instrument>, nav: real,
                             prices: map<string, real>, maxPositionPct: real)
    requires n > 0
  {
    var lotSize := if symbol in meta then meta[symbol].lotSize else 100;
    && symbol in prices && prices[symbol] > 0.0 && lotSize > 0
    && Product(prices[symbol], lotSize as real) <= nav / n as real
    && Product(prices[symbol], lotSize as real) <= Product(maxPositionPct, nav)
  }

  // The value of whole lots at the price, within the equal share and the position cap; one more lot is not.
  ghost predicate SizedToFit(row: Target, n: nat, meta: map<string, Instrument>, nav: real, prices: map<string, real>,
                             maxPositionPct: real)
    requires n > 0
  {
    && row.symbol in prices && row.lots >= 1
    && row.sector == (if row.symbol in meta then meta[row.symbol].sector else "")
    && var price, lotSize := prices[row.symbol], if row.symbol in meta then meta[row.symbol].lotSize else 100;
       && row.value == Product(price, (row.lots * lotSize) as real)
       && row.value <= nav / n as real && row.value <= Product(maxPositionPct, nav)
       && (|| Product(price, ((row.lots + 1) * lotSize) as real) > nav / n as real
           || Product(price, ((row.lots + 1) * lotSize) as real) > Product(maxPositionPct, nav))
  }

  // Rows of the selection by rank: one for each affordable symbol, sized to fit, and no others.
  ghost predicate RowsFrom(rows: seq<Target>, top: seq<Score>, ranks: nat, meta: map<string, Instrument>, nav: real,
                           prices: map<string, real>, maxPositionPct: real)
    requires top != [] && ranks <= |top|
  {
    && (forall row :: row in rows ==>
          && 1 <= row.rank <= ranks && Score(row.symbol, row.score) == top[row.rank - 1]
          && SizedToFit(row, |top|, meta, nav, prices, maxPositionPct))
    && (forall i, j :: 0 <= i < j < |rows| ==> rows[i].rank < rows[j].rank)
    && (forall k :: 0 <= k < ranks ==>
          (HasRank(rows, k + 1) <==> Affordable(top[k].symbol, |top|, meta, nav, prices, maxPositionPct)))
  }

  ghost predicate HasRank(rows: seq<Target>, rank: int) { exists row :: row in rows && row.rank == rank }

  // Some selected symbol makes the construction raise.
  ghost predicate Raises(top: seq<Score>, n: nat, meta: map<string, Instrument>, prices: map<string, real>,
                         unquoted: set<string>)
    requires n <= |top|
  {
    exists k :: 0 <= k < n
      && (|| top[k].symbol in unquoted
          || (&& top[k].symbol in prices && prices[top[k].symbol] > 0.0
              && top[k].symbol in meta && meta[top[k].symbol].lotSize == 0))
  }

  lemma WeightedNav(n: nat, maxPositionPct: real, nav: real, x: real)
    requires n > 0 && nav >= 0.0
    ensures x <= PositionWeight(n, maxPositionPct) * nav <==> x <= nav / n as real && x <= Product(maxPositionPct, nav)
    ensures maxPositionPct >= 0.0 ==> PositionWeight(n, maxPositionPct) * nav >= 0.0
  {
    var share := 1.0 / n as real;
    assert n as real * share == 1.0;
    assert n as real * (share * nav) == (n as real * share) * nav;
    assert share * nav == nav / n as real;
    if share <= maxPositionPct {
      ProductNonNegative(maxPositionPct - share, nav);
    } else {
      ProductNonNegative(share - maxPositionPct, nav);
    }
    if maxPositionPct >= 0.0 { ProductNonNegative(PositionWeight(n, maxPositionPct), nav); }
  }

  // One lot fits exactly when at least one is bought.
  lemma FirstLot(weight: real, nav: real, price: real, lotSize: int)
    requires lotSize > 0 && price > 0.0 && weight * nav >= 0.0
    ensures CalculateLotSize(weight, nav, price, lotSize) >= 1 <==> Product(price, lotSize as real) <= weight * nav
  {
    LotsAreMaximal(weight, nav, price, lotSize);
    var lots := CalculateLotSize(weight, nav, price, lotSize);
    hide CalculateLotSize;
    hide Product;
    if lots >= 1 {
      WholeLotsMonotone(1, lots, lotSize);
      ProductMonotone(price, lotSize as real, (lots * lotSize) as real);
    } else {
      WholeLotsMonotone(lots + 1, 1, lotSize);
      ProductMonotone(price, ((lots + 1) * lotSize) as real, lotSize as real);
    }
  }

  lemma WholeLotsMonotone(a: int, b: int, lotSize: int)
    requires lotSize > 0 && a <= b
    ensures a * lotSize <= b * lotSize
  {
  }

  // What one ranked symbol comes to.
  lemma SizedFromInputs(s: Score, rank: int, n: nat, meta: map<string, Instrument>, nav: real,
                        prices: map<string, real>, unquoted: set<string>, maxPositionPct: real)
    requires n > 0 && nav >= 0.0 && maxPositionPct >= 0.0
    ensures var sizing := SizeOne(s, rank, meta, PositionWeight(n, maxPositionPct), nav, prices, unquoted);
            && (sizing.Raised? <==> Raises([s], 1, meta, prices, unquoted))
            && (!sizing.Raised? ==> (sizing.Sized? <==> Affordable(s.symbol, n, meta, nav, prices, maxPositionPct)))
            && (sizing.Sized? ==>
                  && sizing.target.rank == rank && Score(sizing.target.symbol, sizing.target.score) == s
                  && SizedToFit(sizing.target, n, meta, nav, prices, maxPositionPct)
                  && (nav > 0.0 ==> Product(sizing.target.weight, nav) == sizing.target.value))
  {
    var weight := PositionWeight(n, maxPositionPct);
    WeightedNav(n, maxPositionPct, nav, 0.0);
    RaisesOne(s, meta, prices, unquoted);
    var lotSize := LotSizeOf(meta, s.symbol);
    if s.symbol in prices && prices[s.symbol] > 0.0 && lotSize != 0 && s.symbol !in unquoted {
      var price := prices[s.symbol];
      if lotSize < 0 {
        hide Product;
        NegativeLotSize(weight, nav, price, lotSize);
      } else {
        SizedRight(weight, n, meta, nav, price, lotSize, maxPositionPct);
        hide PositionWeight, CalculateLotSize, Product;
        var lots := CalculateLotSize(weight, nav, price, lotSize);
        if nav > 0.0 { QuotientBack(Product(price, (lots * lotSize) as real), nav); }
      }
    }
  }

  lemma QuotientBack(value: real, nav: real)
    requires nav > 0.0
    ensures Product(value / nav, nav) == value
  {
  }

  lemma RaisesOne(s: Score, meta: map<string, Instrument>, prices: map<string, real>, unquoted: set<string>)
    ensures Raises([s], 1, meta, prices, unquoted)
      <==> s.symbol in unquoted
           || (s.symbol in prices && prices[s.symbol] > 0.0 && s.symbol in meta && meta[s.symbol].lotSize == 0)
  {
    assert [s][0] == s;
  }

  lemma SizedRight(weight: real, n: nat, meta: map<string, Instrument>, nav: real, price: real, lotSize: int,
                   maxPositionPct: real)
    requires n > 0 && nav >= 0.0 && maxPositionPct >= 0.0 && price > 0.0 && lotSize > 0
    requires weight == PositionWeight(n, maxPositionPct)
    ensures var lots, cap := CalculateLotSize(weight, nav, price, lotSize), Product(maxPositionPct, nav);
            && (lots >= 1 <==> Product(price, lotSize as real) <= nav / n as real
                               && Product(price, lotSize as real) <= cap)
            && Product(price, (lots * lotSize) as real) <= nav / n as real
            && Product(price, (lots * lotSize) as real) <= cap
            && (|| Product(price, ((lots + 1) * lotSize) as real) > nav / n as real
                || Product(price, ((lots + 1) * lotSize) as real) > cap)
  {
    hide CalculateLotSize, PositionWeight, Product;
    WeightedNav(n, maxPositionPct, nav, 0.0);
    LotsAreMaximal(weight, nav, price, lotSize);
    FirstLot(weight, nav, price, lotSize);
    var lots := CalculateLotSize(weight, nav, price, lotSize);
    WeightedNav(n, maxPositionPct, nav, Product(price, lotSize as real));
    WeightedNav(n, maxPositionPct, nav, Product(price, (lots * lotSize) as real));
    WeightedNav(n, maxPositionPct, nav, Product(price, ((lots + 1) * lotSize) as real));
  }

  lemma OneRankMore(rows: seq<Target>, row: Target, k: int)
    ensures HasRank(rows + [row], k) <==> HasRank(rows, k) || row.rank == k
  {
    if HasRank(rows, k) {
      var r :| r in rows && r.rank == k;
      assert r in rows + [row];
    }
    assert row in rows + [row];
  }

  lemma RowsSkip(rows: seq<Target>, top: seq<Score>, ranks: nat, meta: map<string, Instrument>, nav: real,
                 prices: map<string, real>, maxPositionPct: real)
    requires ranks < |top| && RowsFrom(rows, top, ranks, meta, nav, prices, maxPositionPct)
    requires !Affordable(top[ranks].symbol, |top|, meta, nav, prices, maxPositionPct)
    ensures RowsFrom(rows, top, ranks + 1, meta, nav, prices, maxPositionPct)
  {
    hide Affordable, SizedToFit;
  }

  lemma RowsAdd(rows: seq<Target>, row: Target, top: seq<Score>, ranks: nat, meta: map<string, Instrument>, nav: real,
                prices: map<string, real>, maxPositionPct: real)
    requires ranks < |top| && RowsFrom(rows, top, ranks, meta, nav, prices, maxPositionPct)
    requires Affordable(top[ranks].symbol, |top|, meta, nav, prices, maxPositionPct)
    requires row.rank == ranks + 1 && Score(row.symbol, row.score) == top[ranks]
    requires SizedToFit(row, |top|, meta, nav, prices, maxPositionPct)
    ensures RowsFrom(rows + [row], top, ranks + 1, meta, nav, prices, maxPositionPct)
  {
    hide Affordable, SizedToFit, HasRank;
    var more := rows + [row];
    forall i, j | 0 <= i < j < |more| ensures more[i].rank < more[j].rank {
      if j == |rows| { assert rows[i] in rows; }
    }
    forall k | 0 <= k < ranks + 1
      ensures HasRank(more, k + 1) <==> Affordable(top[k].symbol, |top|, meta, nav, prices, maxPositionPct)
    {
      OneRankMore(rows, row, k + 1);
    }
  }

  lemma RaisesOneMore(top: seq<Score>, n: nat, meta: map<string, Instrument>, prices: map<string, real>,
                      unquoted: set<string>)
    requires 0 < n <= |top|
    ensures Raises(top, n, meta, prices, unquoted)
      <==> Raises(top, n - 1, meta, prices, unquoted) || Raises([top[n - 1]], 1, meta, prices, unquoted)
  {
    RaisesOne(top[n - 1], meta, prices, unquoted);
  }

  /** The rows built for the first ranks are the affordable symbols sized to fit; building them raises exactly when one
      of them has no quote or a lot size of zero. */
  lemma {:induction false} BuiltFromInputs(top: seq<Score>, ranks: nat, meta: map<string, Instrument>, nav: real,
                                           prices: map<string, real>, unquoted: set<string>, maxPositionPct: real)
    requires top != [] && ranks <= |top| && nav >= 0.0 && maxPositionPct >= 0.0
    ensures var rows := BuildRows(top, ranks, meta, PositionWeight(|top|, maxPositionPct), nav, prices, unquoted);
            && (rows.None? <==> Raises(top, ranks, meta, prices, unquoted))
            && (rows.Some? ==>
                  && RowsFrom(rows.value, top, ranks, meta, nav, prices, maxPositionPct)
                  && (nav > 0.0 ==> forall row :: row in rows.value ==> Product(row.weight, nav) == row.value))
  {
    hide SizeOne, PositionWeight, RowsFrom, Product, Raises;
    if ranks == 0 {
      NoRowsYet(top, meta, nav, prices, unquoted, maxPositionPct);
    } else {
      BuiltFromInputs(top, ranks - 1, meta, nav, prices, unquoted, maxPositionPct);
      SizedFromInputs(top[ranks - 1], ranks, |top|, meta, nav, prices, unquoted, maxPositionPct);
      RaisesOneMore(top, ranks, meta, prices, unquoted);
      hide SizedToFit, Affordable;
      var weight := PositionWeight(|top|, maxPositionPct);
      var before := BuildRows(top, ranks - 1, meta, weight, nav, prices, unquoted);
      var sizing := SizeOne(top[ranks - 1], ranks, meta, weight, nav, prices, unquoted);
      if before.Some? && sizing.Sized? {
        RowsAdd(before.value, sizing.target, top, ranks - 1, meta, nav, prices, maxPositionPct);
      } else if before.Some? && sizing.Skipped? {
        RowsSkip(before.value, top, ranks - 1, meta, nav, prices, maxPositionPct);
      }
    }
  }

  lemma NoRowsYet(top: seq<Score>, meta: map<string, Instrument>, nav: real, prices: map<string, real>,
                  unquoted: set<string>, maxPositionPct: real)
    requires top != []
    ensures RowsFrom([], top, 0, meta, nav, prices, maxPositionPct) && !Raises(top, 0, meta, prices, unquoted)
  {
  }

  lemma SameRanks(rows: seq<Target>, capped: seq<Target>, k: int)
    requires |capped| == |rows| && forall i :: 0 <= i < |rows| ==> capped[i].rank == rows[i].rank
    ensures HasRank(capped, k) <==> HasRank(rows, k)
  {
    if HasRank(capped, k) {
      var row :| row in capped && row.rank == k;
      var i :| 0 <= i < |capped| && capped[i] == row;
      assert rows[i] in rows;
    }
    if HasRank(rows, k) {
      var row :| row in rows && row.rank == k;
      var i :| 0 <= i < |rows| && rows[i] == row;
      assert capped[i] in capped;
    }
  }

  lemma SameFit(row: Target, weight: real, n: nat, meta: map<string, Instrument>, nav: real, prices: map<string, real>,
                maxPositionPct: real)
    requires n > 0 && SizedToFit(row, n, meta, nav, prices, maxPositionPct)
    ensures SizedToFit(row.(weight := weight), n, meta, nav, prices, maxPositionPct)
  {
    hide Product;
  }

  lemma WeightsAside(rows: seq<Target>, capped: seq<Target>, top: seq<Score>, ranks: nat,
                     meta: map<string, Instrument>, nav: real, prices: map<string, real>, maxPositionPct: real)
    requires top != [] && ranks <= |top| && RowsFrom(rows, top, ranks, meta, nav, prices, maxPositionPct)
    requires |capped| == |rows|
    requires forall i :: 0 <= i < |rows| ==> capped[i] == rows[i].(weight := capped[i].weight)
    ensures RowsFrom(capped, top, ranks, meta, nav, prices, maxPositionPct)
  {
    hide Affordable, SizedToFit, HasRank;
    forall row | row in capped
      ensures 1 <= row.rank <= ranks && Score(row.symbol, row.score) == top[row.rank - 1]
      ensures SizedToFit(row, |top|, meta, nav, prices, maxPositionPct)
    {
      var i :| 0 <= i < |capped| && capped[i] == row;
      assert rows[i] in rows;
      SameFit(rows[i], row.weight, |top|, meta, nav, prices, maxPositionPct);
    }
    forall k ensures HasRank(capped, k) <==> HasRank(rows, k) { SameRanks(rows, capped, k); }
  }

  // A portfolio, or the failure to construct one, as the selection and the other inputs determine it.
  ghost predicate BuiltFor(portfolio: Option<seq<Target>>, top: seq<Score>, meta: map<string, Instrument>, nav: real,
                           prices: map<string, real>, unquoted: set<string>, maxPositionPct: real)
  {
    && (portfolio.None? <==> top == [] || Raises(top, |top|, meta, prices, unquoted))
    && (portfolio.Some? ==> RowsFrom(portfolio.value, top, |top|, meta, nav, prices, maxPositionPct))
  }

  /** The constructed rows, from the inputs alone: the capped weights change neither lots nor values. */
  lemma ConstructedFromInputs(scores: map<string, real>, filtered: seq<string>, meta: map<string, Instrument>,
                              nav: real, prices: map<string, real>, unquoted: set<string>, topPct: real,
                              maxPositionPct: real, sectorCap: real)
    ensures nav >= 0.0 && maxPositionPct >= 0.0 ==>
      BuiltFor(Construct(scores, filtered, meta, nav, prices, unquoted, topPct, maxPositionPct, sectorCap),
               SelectTop(Reindex(scores, filtered), topPct), meta, nav, prices, unquoted, maxPositionPct)
  {
    hide BuildRows, SelectTop, Reindex, Capped, PositionWeight, RowsFrom, Raises;
    var top := SelectTop(Reindex(scores, filtered), topPct);
    if top != [] && nav >= 0.0 && maxPositionPct >= 0.0 {
      BuiltFromInputs(top, |top|, meta, nav, prices, unquoted, maxPositionPct);
      var rows := BuildRows(top, |top|, meta, PositionWeight(|top|, maxPositionPct), nav, prices, unquoted);
      if rows.Some? {
        CappingKeepsValue(rows.value, sectorCap);
        WeightsAside(rows.value, Capped(rows.value, sectorCap), top, |top|, meta, nav, prices, maxPositionPct);
      }
    }
  }

  ghost predicate AllDistinct(symbols: seq<string>) {
    forall i, j :: 0 <= i < j < |symbols| ==> symbols[i] != symbols[j]
  }

  /** The ranking holds the filtered symbols with a score, each with its own score. */
  lemma {:induction false} ReindexedIff(scores: map<string, real>, symbols: seq<string>, s: Score)
    ensures s in Reindex(scores, symbols) <==> s.symbol in symbols && s.symbol in scores && s.value == scores[s.symbol]
  {
    if symbols != [] {
      var init, last := symbols[..|symbols| - 1], symbols[|symbols| - 1];
      ReindexedIff(scores, init, s);
      assert symbols == init + [last];
    }
  }

  ghost function Scored(scores: map<string, real>, symbols: seq<string>): set<string> {
    set x | x in symbols && x in scores
  }

  lemma ScoredOneMore(scores: map<string, real>, symbols: seq<string>, last: string)
    requires last !in symbols
    ensures |Scored(scores, symbols + [last])| == |Scored(scores, symbols)| + if last in scores then 1 else 0
  {
    var before, now := Scored(scores, symbols), Scored(scores, symbols + [last]);
    if last in scores { assert now == before + {last}; } else { assert now == before; }
  }

  // Every scored symbol is ranked once.
  lemma {:induction false} ReindexedCount(scores: map<string, real>, symbols: seq<string>)
    requires AllDistinct(symbols)
    ensures |Reindex(scores, symbols)| == |Scored(scores, symbols)|
  {
    if symbols == [] {
      assert Scored(scores, symbols) == {};
    } else {
      var init, last := symbols[..|symbols| - 1], symbols[|symbols| - 1];
      ReindexedCount(scores, init);
      hide Scored;
      ScoredOneMore(scores, init, last);
      assert symbols == init + [last];
    }
  }

  // ---------------------------------------------------------------- a cap that does not hold

  const FULL_PRICE := map["A" := 100.0]
  const ONE_BANK := map["A" := Instrument("BANKS", 100, true, None, None)]

  lemma OneScored()
    ensures Reindex(map["A" := 0.5], ["A"]) == [Score("A", 0.5)]
  {
    assert ["A"][..0] == [];
  }

  lemma OnlyScore(score: Score)
    ensures SelectTop([score], 1.0) == [score]
  {
    assert multiset(SortDescending([score], BY_SCORE)) == multiset{score};
    var sorted := SortDescending([score], BY_SCORE);
    assert |sorted| == |multiset(sorted)| == 1;
    assert sorted[0] in multiset(sorted);
  }

  lemma OneLotBuilt()
    ensures BuildRows([Score("A", 0.5)], 1, ONE_BANK, 1.0, 10000.0, FULL_PRICE, {})
         == Some([Target("A", "BANKS", 1.0, 1, 10000.0, 0.5, 1)])
  {
    var target := Target("A", "BANKS", 1.0, 1, 10000.0, 0.5, 1);
    assert CalculateLotSize(1.0, 10000.0, 100.0, 100) == 1;
    assert SizeOne(Score("A", 0.5), 1, ONE_BANK, 1.0, 10000.0, FULL_PRICE, {}) == Sized(target);
    hide SizeOne;
    assert [Score("A", 0.5)][0] == Score("A", 0.5) && [] + [target] == [target];
    assert BuildRows([Score("A", 0.5)], 0, ONE_BANK, 1.0, 10000.0, FULL_PRICE, {}) == Some([]);
  }

  lemma OneLotOver()
    ensures var rows := [Target("A", "BANKS", 1.0, 1, 10000.0, 0.5, 1)]; SectorWeight(Capped(rows, 0.4), "BANKS") > 0.4
  {
    var target := Target("A", "BANKS", 1.0, 1, 10000.0, 0.5, 1);
    var rows := [target];
    assert rows[..0] == [] && target in rows;
    assert TotalWeight(rows) == 1.0 && SectorWeight(rows, "BANKS") == 1.0;
    OverweightStaysOver(rows, 0.4, target);
  }

  /** A portfolio constructed with the default cap of 0.4 and a sector above it. */
  lemma ConstructedAboveTheCap() returns (rows: seq<Target>)
    ensures Construct(map["A" := 0.5], ["A"], ONE_BANK, 10000.0, FULL_PRICE, {}, 1.0, 1.0, 0.4) == Some(rows)
    ensures SectorWeight(rows, "BANKS") > 0.4
  {
    rows := Capped([Target("A", "BANKS", 1.0, 1, 10000.0, 0.5, 1)], 0.4);
    OneScored();
    OnlyScore(Score("A", 0.5));
    OneLotBuilt();
    OneLotOver();
    hide SizeOne, SelectTop, Reindex, BuildRows, Capped, ONE_BANK, FULL_PRICE, SectorWeight;
    assert PositionWeight(1, 1.0) == 1.0;
  }
}
