/** The Bollinger mean-reversion strategy: its position book across calls, and when its entry can fire at all. */
module BollingerStrategy {
  import opened RealArithmetic
  import opened Statistics
  import opened Survivorship
  import opened Wrappers

  // ---------------------------------------------------------------- window statistics

  // Sum of squared distances from m.
  function Scatter(xs: seq<real>, m: real): real {
    if xs == [] then 0.0 else Scatter(xs[..|xs| - 1], m) + Square(xs[|xs| - 1] - m)
  }

  // Sample variance, one degree of freedom removed.
  function Variance(xs: seq<real>): real
    requires |xs| >= 2
  {
    Scatter(xs, Mean(xs)) / (|xs| - 1) as real
  }

  // A standard deviation of the window: a non-negative square root of its variance.
  ghost predicate IsDeviation(std: real, xs: seq<real>)
    requires |xs| >= 2
  {
    std >= 0.0 && Square(std) == Variance(xs)
  }

  // Sum of the deviations from m.
  function Offset(xs: seq<real>, m: real): real {
    if xs == [] then 0.0 else Offset(xs[..|xs| - 1], m) + (xs[|xs| - 1] - m)
  }

  lemma {:induction false} OffsetIsSum(xs: seq<real>, m: real)
    ensures Offset(xs, m) == Sum(xs) - Product(|xs| as real, m)
  {
    hide Product;
    if xs == [] {
      ProductLaws(0.0, m, m);
      DistributeOver(m, 0.0, 0.0);
    } else {
      OffsetIsSum(xs[..|xs| - 1], m);
      ProductLaws(|xs| as real, m, m);
      ProductLaws((|xs| - 1) as real, m, m);
      ProductLaws(m, 1.0, m);
      DistributeOver(m, (|xs| - 1) as real, 1.0);
    }
  }

  /** Cauchy-Schwarz for the deviations: the square of their sum is at most their number times the scatter. */
  lemma {:induction false} OffsetBound(xs: seq<real>, m: real)
    ensures Scatter(xs, m) >= 0.0
    ensures Square(Offset(xs, m)) <= Product(|xs| as real, Scatter(xs, m))
  {
    hide Product, Square;
    if xs == [] {
      SquareOfZero();
      ProductLaws(0.0, 0.0, 0.0);
      DistributeOver(0.0, 0.0, 0.0);
    } else {
      var init, d := xs[..|xs| - 1], xs[|xs| - 1] - m;
      OffsetBound(init, m);
      CauchyStep(|init|, Offset(init, m), Scatter(init, m), d);
    }
  }

  lemma SquareOfZero()
    ensures Square(0.0) == 0.0
  {
  }

  // (a + d)^2 <= (n + 1) (s + d^2) when a^2 <= n s.
  lemma CauchyStep(n: nat, a: real, s: real, d: real)
    requires s >= 0.0 && Square(a) <= Product(n as real, s)
    ensures s + Square(d) >= 0.0
    ensures Square(a + d) <= Product((n + 1) as real, s + Square(d))
  {
    var k := n as real;
    assert Square(a + d) == a * a + 2.0 * (a * d) + d * d;
    assert Product((n + 1) as real, s + Square(d)) == k * s + s + k * (d * d) + d * d;
    // 2 a d <= s + n d^2, for if n > 0 then a^2 <= n s and (a - n d)^2 >= 0.
    if n == 0 {
      ZeroSquare(a);
    } else {
      CrossTerm(k, a, s, d);
    }
  }

  lemma ZeroSquare(a: real)
    requires Square(a) <= 0.0
    ensures a == 0.0
  {
    hide Square;
    if a > 0.0 { PositiveSquare(a); }
    if a < 0.0 { PositiveSquare(-a); SquareOfNegation(a); }
  }

  lemma PositiveSquare(a: real)
    requires a > 0.0
    ensures Square(a) > 0.0
  {
    SquareIsProduct(a);
    hide Square, Product;
    ProductPositive(a, a);
  }

  lemma SquareIsProduct(a: real)
    ensures Square(a) == Product(a, a)
  {
  }

  lemma SquareOfNegation(a: real)
    ensures Square(-a) == Square(a)
  {
  }

  lemma CrossTerm(k: real, a: real, s: real, d: real)
    requires k > 0.0 && Square(a) <= Product(k, s)
    ensures 2.0 * (a * d) <= s + k * (d * d)
  {
    var e := a - k * d;
    assert e * e >= 0.0;
    assert e * e == a * a - 2.0 * (k * (a * d)) + k * (k * (d * d));
    assert k * (s + k * (d * d) - 2.0 * (a * d)) >= 0.0;
    AtLeastOfProduct(s + k * (d * d) - 2.0 * (a * d), k);
  }

  /** Samuelson's inequality for the last close of a window: n (x - mean)^2 <= (n - 1)^2 variance. */
  lemma LastCloseDeviation(xs: seq<real>)
    requires |xs| >= 2
    ensures Product(|xs| as real, Square(xs[|xs| - 1] - Mean(xs)))
         <= Product(Square((|xs| - 1) as real), Variance(xs))
  {
    var n, m, v := |xs|, Mean(xs), Variance(xs);
    var init, d := xs[..n - 1], xs[n - 1] - m;
    OffsetsCancel(xs);
    OffsetBound(init, m);
    VarianceTimes(xs);
    hide *;
    SamuelsonAlgebra((n - 1) as real, d, Scatter(init, m), v);
  }

  // The other deviations add up to the opposite of the last.
  lemma OffsetsCancel(xs: seq<real>)
    requires xs != []
    ensures Offset(xs[..|xs| - 1], Mean(xs)) == -(xs[|xs| - 1] - Mean(xs))
  {
    OffsetIsSum(xs, Mean(xs));
    MeanTimes(xs);
    hide Mean, Product;
  }

  lemma MeanTimes(xs: seq<real>)
    requires xs != []
    ensures Product(|xs| as real, Mean(xs)) == Sum(xs)
  {
  }

  lemma VarianceTimes(xs: seq<real>)
    requires |xs| >= 2
    ensures Product((|xs| - 1) as real, Variance(xs))
         == Scatter(xs[..|xs| - 1], Mean(xs)) + Square(xs[|xs| - 1] - Mean(xs))
  {
    hide Mean, Square;
  }

  lemma SamuelsonAlgebra(k: real, d: real, s: real, v: real)
    requires k >= 1.0 && Square(-d) <= Product(k, s) && Product(k, v) == s + Square(d)
    ensures Product(k + 1.0, Square(d)) <= Product(Square(k), v)
  {
    // d^2 <= k (k v - d^2)
    assert k * s == k * (k * v) - k * (d * d);
    assert Square(-d) == d * d;
    assert (k + 1.0) * (d * d) == k * (d * d) + d * d;
    assert (k * k) * v == k * (k * v);
  }

  // ---------------------------------------------------------------- when an entry is possible

  /** A close at or below the lower band is possible only for parameters with k^2 n <= (n - 1)^2. */
  lemma EntryNeedsFeasibleBand(xs: seq<real>, std: real, bbStd: real)
    requires |xs| >= 2 && IsDeviation(std, xs) && Variance(xs) != 0.0 && bbStd >= 0.0
    requires xs[|xs| - 1] <= Mean(xs) - Product(bbStd, std)
    ensures Product(Square(bbStd), |xs| as real) <= Square((|xs| - 1) as real)
  {
    LastCloseDeviation(xs);
    var n, d, v := |xs| as real, xs[|xs| - 1] - Mean(xs), Variance(xs);
    var k1 := Square((|xs| - 1) as real);
    hide Mean, Variance;
    FeasibleAlgebra(n, d, v, std, bbStd, k1);
  }

  lemma FeasibleAlgebra(n: real, d: real, v: real, std: real, k: real, k1: real)
    requires n > 0.0 && k >= 0.0 && std >= 0.0 && Square(std) == v && v != 0.0
    requires d <= -Product(k, std)
    requires Product(n, Square(d)) <= Product(k1, v)
    ensures Product(Square(k), n) <= k1
  {
    var reach := k * std;
    ProductNonNegative(k, std);
    ProductNonNegative(-d - reach, -d + reach);
    assert d * d >= reach * reach by { assert (-d - reach) * (-d + reach) == d * d - reach * reach; }
    assert reach * reach == (k * k) * v by { assert (k * std) * (k * std) == (k * k) * (std * std); }
    ProductNonNegative(n, d * d - (k * k) * v);
    assert n * ((k * k) * v) == ((k * k) * n) * v;
    assert v > 0.0;
    AtLeastOfProduct(k1 - (k * k) * n, v) by {
      assert (k1 - (k * k) * n) * v == k1 * v - ((k * k) * n) * v;
      assert n * (d * d) >= n * ((k * k) * v);
    }
  }

  // n - 1 equal closes followed by one that is n lower.
  function DropWindow(level: real, n: nat): seq<real>
    requires n >= 2
  {
    seq(n - 1, i => level) + [level - n as real]
  }

  lemma {:induction false} ConstantSums(level: real, n: nat, m: real)
    ensures Sum(seq(n, i => level)) == Product(n as real, level)
    ensures Scatter(seq(n, i => level), m) == Product(n as real, Square(level - m))
  {
    hide Product, Square;
    var xs := seq(n, i => level);
    ProductLaws(level, 0.0, 0.0);
    ProductLaws(Square(level - m), 0.0, 0.0);
    DistributeOver(level, 0.0, 0.0);
    DistributeOver(Square(level - m), 0.0, 0.0);
    ProductLaws(n as real, level, 0.0);
    ProductLaws(n as real, Square(level - m), 0.0);
    if n > 0 {
      ConstantSums(level, n - 1, m);
      assert xs[..n - 1] == seq(n - 1, i => level);
      ProductLaws((n - 1) as real, level, 0.0);
      ProductLaws((n - 1) as real, Square(level - m), 0.0);
      DistributeOver(level, (n - 1) as real, 1.0);
      DistributeOver(Square(level - m), (n - 1) as real, 1.0);
      ProductLaws(level, 1.0, 0.0);
      ProductLaws(Square(level - m), 1.0, 0.0);
    }
  }

  /** The bound is sharp: on this window, with variance n, the entry fires exactly when k^2 n <= (n - 1)^2. */
  lemma BoundIsAttained(level: real, n: nat, std: real, bbStd: real)
    requires n >= 2 && bbStd >= 0.0 && IsDeviation(std, DropWindow(level, n))
    ensures var xs := DropWindow(level, n);
            && Variance(xs) == n as real
            && (xs[n - 1] <= Mean(xs) - Product(bbStd, std)
                <==> Product(Square(bbStd), n as real) <= Square((n - 1) as real))
  {
    var xs, k := DropWindow(level, n), n as real;
    var m := level - 1.0;
    ConstantSums(level, n - 1, m);
    assert xs[..n - 1] == seq(n - 1, i => level);
    assert Sum(xs) == (k - 1.0) * level + (level - k);
    assert Sum(xs) == k * m;
    assert Mean(xs) == m;
    assert Scatter(xs, m) == (k - 1.0) * 1.0 + (k - 1.0) * (k - 1.0);
    assert Scatter(xs, m) == (k - 1.0) * k;
    assert Variance(xs) == k;
    hide Sum, Scatter, Mean, Variance;
    RootComparison(bbStd, std, k);
  }

  lemma RootComparison(b: real, std: real, k: real)
    requires b >= 0.0 && std >= 0.0 && k >= 2.0 && Square(std) == k
    ensures Product(b, std) <= k - 1.0 <==> Product(Square(b), k) <= Square(k - 1.0)
  {
    var reach, limit := Product(b, std), k - 1.0;
    ProductNonNegative(b, std);
    SquaresCompare(reach, limit);
    assert Square(reach) == Product(Square(b), k) by { assert (b * std) * (b * std) == (b * b) * (std * std); }
  }

  lemma SquaresCompare(a: real, b: real)
    requires a >= 0.0 && b >= 0.0
    ensures a <= b <==> Square(a) <= Square(b)
  {
    if a <= b {
      SquareMonotone(a, b);
    } else {
      SquareMonotone(b, a);
      SquareStrict(b, a);
    }
  }

  lemma SquareMonotone(a: real, b: real)
    requires 0.0 <= a <= b
    ensures Square(a) <= Square(b)
  {
    ProductNonNegative(b - a, b + a);
    assert (b - a) * (b + a) == b * b - a * a;
  }

  lemma SquareStrict(a: real, b: real)
    requires 0.0 <= a < b
    ensures Square(a) < Square(b)
  {
    var gap := b - a;
    ProductPositive(gap, gap);
    ProductNonNegative(a, gap);
    assert b * b == a * a + 2.0 * (a * gap) + gap * gap;
  }

  // ---------------------------------------------------------------- signals and the position book

  datatype Signal =
    | Long(symbol: string, price: real)
    | Close(symbol: string, price: real, entryPrice: real)

  type Positions = map<string, real>

  // The closes of each symbol up to the evaluation date, gaps removed; `dates` counts the rows of the matrix.
  datatype Market = Market(dates: nat, closes: map<string, seq<real>>)

  datatype Parameters = Parameters(period: nat, bbStd: real, regimePeriod: nat, indexSymbol: string,
                                   deviation: seq<real> -> real)
  {
    ghost predicate Valid() { period >= 1 && regimePeriod >= 1 }
  }

  // None stands for NaN: the sample deviation of a single close is undefined, and no price compares to it.
  function Lower(p: Parameters, window: seq<real>): Option<real>
    requires window != []
  {
    if |window| < 2 then None else Some(Mean(window) - Product(p.bbStd, p.deviation(window)))
  }

  // True by default when the index is missing or too short.
  function RegimeIsBullish(p: Parameters, market: Market): bool
    requires p.Valid()
  {
    if p.indexSymbol !in market.closes then true
    else
      var series := market.closes[p.indexSymbol];
      if |series| < p.regimePeriod then true
      else series[|series| - 1] > Mean(Trailing(series, p.regimePeriod))
  }

  function SignalFor(p: Parameters, market: Market, bullish: bool, open: Positions, symbol: string): Option<Signal>
    requires p.Valid()
  {
    if symbol !in market.closes || |market.closes[symbol]| < p.period then None
    else
      var series := market.closes[symbol];
      var price, window := series[|series| - 1], Trailing(series, p.period);
      if symbol in open then
        if price >= Mean(window) then Some(Close(symbol, price, open[symbol])) else None
      else
        var lower := Lower(p, window);
        if bullish && lower.Some? && price <= lower.value then Some(Long(symbol, price)) else None
  }

  function Record(open: Positions, signal: Signal): Positions {
    match signal
    case Long(s, price) => open[s := price]
    case Close(s, _, _) => open - {s}
  }

  // The signals of one call over the symbols in order, and the book it leaves.
  function Scan(p: Parameters, market: Market, bullish: bool, open: Positions, symbols: seq<string>)
    : (seq<Signal>, Positions)
    requires p.Valid()
  {
    if symbols == [] then ([], open)
    else
      var (signals, book) := Scan(p, market, bullish, open, symbols[..|symbols| - 1]);
      match SignalFor(p, market, bullish, book, symbols[|symbols| - 1])
      case None => (signals, book)
      case Some(signal) => (signals + [signal], Record(book, signal))
  }

  function TradableSymbols(meta: map<string, Instrument>, symbols: seq<string>, asOf: int): seq<string> {
    if symbols == [] then []
    else
      TradableSymbols(meta, symbols[..|symbols| - 1], asOf)
      + if Tradable(meta, symbols[|symbols| - 1], asOf) then [symbols[|symbols| - 1]] else []
  }

  // Replays a signal trace against an empty book; None when a signal does not fit: an entry into an open
  // position, an exit from a closed one, or an exit quoting the wrong entry price.
  ghost function Replay(trace: seq<Signal>): Option<Positions> {
    if trace == [] then Some(map[])
    else
      var before, last := Replay(trace[..|trace| - 1]), trace[|trace| - 1];
      if before.None? || !Fits(before.value, last) then None else Some(Record(before.value, last))
  }

  ghost predicate Fits(open: Positions, signal: Signal) {
    match signal
    case Long(s, _) => s !in open
    case Close(s, _, entry) => s in open && open[s] == entry
  }

  // ---------------------------------------------------------------- the signals from the closes

  // The last close is above, or at least at, the average of the last n.
  ghost predicate AboveAverage(series: seq<real>, n: nat)
    requires 1 <= n <= |series|
  {
    Product(n as real, series[|series| - 1]) > Sum(series[|series| - n..])
  }

  ghost predicate AtAverage(series: seq<real>, n: nat)
    requires 1 <= n <= |series|
  {
    Product(n as real, series[|series| - 1]) >= Sum(series[|series| - n..])
  }

  // At least two closes, the last of them so many deviations below their average.
  ghost predicate BelowBand(p: Parameters, series: seq<real>)
    requires p.Valid() && p.period <= |series|
  {
    var window := series[|series| - p.period..];
    p.period >= 2
    && Product(p.period as real, series[|series| - 1] + Product(p.bbStd, p.deviation(window))) <= Sum(window)
  }

  ghost predicate Bullish(p: Parameters, market: Market)
    requires p.Valid()
  {
    p.indexSymbol in market.closes && |market.closes[p.indexSymbol]| >= p.regimePeriod ==>
      AboveAverage(market.closes[p.indexSymbol], p.regimePeriod)
  }

  ghost predicate HasPeriod(p: Parameters, market: Market, symbol: string) {
    symbol in market.closes && |market.closes[symbol]| >= p.period
  }

  // What the call signals for a symbol: an exit of an open position at the average, an entry below the band.
  ghost predicate Signals(p: Parameters, market: Market, open: Positions, symbol: string, signal: Signal)
    requires p.Valid()
  {
    && HasPeriod(p, market, symbol)
    && var series := market.closes[symbol];
       && signal.symbol == symbol && signal.price == series[|series| - 1]
       && if symbol in open then signal.Close? && signal.entryPrice == open[symbol] && AtAverage(series, p.period)
          else signal.Long? && Bullish(p, market) && BelowBand(p, series)
  }

  lemma MeanComparison(xs: seq<real>, x: real)
    requires xs != []
    ensures x >= Mean(xs) <==> Product(|xs| as real, x) >= Sum(xs)
    ensures x <= Mean(xs) <==> Product(|xs| as real, x) <= Sum(xs)
  {
    MeanTimes(xs);
    hide Mean, Product;
    ProductMonotone(|xs| as real, Mean(xs), x);
    ProductMonotone(|xs| as real, x, Mean(xs));
  }

  /** The regime filter is bearish exactly when the index is there, long enough, and not above its average. */
  lemma RegimeIff(p: Parameters, market: Market)
    requires p.Valid()
    ensures RegimeIsBullish(p, market) <==> Bullish(p, market)
  {
    if p.indexSymbol in market.closes && |market.closes[p.indexSymbol]| >= p.regimePeriod {
      var series := market.closes[p.indexSymbol];
      var window := Trailing(series, p.regimePeriod);
      assert window == series[|series| - p.regimePeriod..];
      MeanComparison(window, series[|series| - 1]);
    }
    hide Mean, Product;
  }

  lemma SignalForIff(p: Parameters, market: Market, open: Positions, symbol: string, signal: Signal)
    requires p.Valid()
    ensures SignalFor(p, market, RegimeIsBullish(p, market), open, symbol) == Some(signal)
      <==> Signals(p, market, open, symbol, signal)
  {
    RegimeIff(p, market);
    hide RegimeIsBullish, Bullish, Mean, Product;
    if HasPeriod(p, market, symbol) {
      var series := market.closes[symbol];
      var window := Trailing(series, p.period);
      assert window == series[|series| - p.period..];
      MeanComparison(window, series[|series| - 1]);
      MeanComparison(window, series[|series| - 1] + Product(p.bbStd, p.deviation(window)));
    }
  }

  // The symbol is listed at most once.
  ghost predicate Once(symbols: seq<string>, symbol: string) {
    forall i, j :: 0 <= i < j < |symbols| ==> symbols[i] != symbol || symbols[j] != symbol
  }

  // At this symbol the two books agree.
  ghost predicate SameAt(a: Positions, b: Positions, symbol: string) {
    (symbol in a <==> symbol in b) && (symbol in a ==> a[symbol] == b[symbol])
  }

  /** A symbol's signal and its place in the book depend on its own closes and position only. */
  lemma {:induction false} ScanAt(p: Parameters, market: Market, bullish: bool, open: Positions, symbols: seq<string>,
                                  symbol: string)
    requires p.Valid() && Once(symbols, symbol)
    ensures var (signals, book) := Scan(p, market, bullish, open, symbols);
            var own := if symbol in symbols then SignalFor(p, market, bullish, open, symbol) else None;
            && (forall signal :: signal in signals && signal.symbol == symbol <==> own == Some(signal))
            && SameAt(book, if own.Some? then Record(open, own.value) else open, symbol)
  {
    hide Mean, Lower, Trailing;
    if symbols != [] {
      var init, last := symbols[..|symbols| - 1], symbols[|symbols| - 1];
      assert symbols == init + [last] && (last == symbol ==> symbol !in init);
      ScanAt(p, market, bullish, open, init, symbol);
      var (signals, book) := Scan(p, market, bullish, open, init);
      SignalNamesSymbol(p, market, bullish, book, open, last);
      SignalNamesSymbol(p, market, bullish, open, book, symbol);
      hide SignalFor, Scan;
    }
  }

  lemma SignalNamesSymbol(p: Parameters, market: Market, bullish: bool, a: Positions, b: Positions, symbol: string)
    requires p.Valid()
    ensures var signal := SignalFor(p, market, bullish, a, symbol); signal.Some? ==> signal.value.symbol == symbol
    ensures SameAt(a, b, symbol) ==>
      SignalFor(p, market, bullish, a, symbol) == SignalFor(p, market, bullish, b, symbol)
  {
    hide Mean, Lower, Trailing;
  }

  /** The tradable part of the universe, in its order. */
  lemma {:induction false} TradableIff(meta: map<string, Instrument>, symbols: seq<string>, asOf: int)
    ensures forall s :: s in TradableSymbols(meta, symbols, asOf) <==> s in symbols && Tradable(meta, s, asOf)
    ensures forall s :: Once(symbols, s) ==> Once(TradableSymbols(meta, symbols, asOf), s)
  {
    hide Tradable;
    if symbols != [] {
      var init, last := symbols[..|symbols| - 1], symbols[|symbols| - 1];
      TradableIff(meta, init, asOf);
      assert symbols == init + [last];
      forall s | Once(symbols, s) ensures Once(TradableSymbols(meta, symbols, asOf), s) {
        assert Once(init, s) && (last == s ==> s !in init);
      }
    }
  }

  // The outcome of a call for one symbol, and its place in the book afterwards.
  ghost predicate Settled(p: Parameters, market: Market, open: Positions, traded: bool, symbol: string,
                          signals: seq<Signal>, book: Positions)
    requires p.Valid()
  {
    && (forall signal :: signal in signals && signal.symbol == symbol
          <==> traded && market.dates >= p.period && Signals(p, market, open, symbol, signal))
    && (symbol in book <==>
          if symbol in open then forall signal :: signal in signals ==> signal.symbol != symbol
          else exists signal :: signal in signals && signal.symbol == symbol)
    && (symbol in book ==>
          if symbol in open then book[symbol] == open[symbol]
          else symbol in market.closes && market.closes[symbol] != []
               && book[symbol] == market.closes[symbol][|market.closes[symbol]| - 1])
  }

  lemma ScanSettles(p: Parameters, market: Market, open: Positions, symbols: seq<string>, symbol: string)
    requires p.Valid() && Once(symbols, symbol) && market.dates >= p.period
    ensures var (signals, book) := Scan(p, market, RegimeIsBullish(p, market), open, symbols);
            Settled(p, market, open, symbol in symbols, symbol, signals, book)
  {
    var bullish := RegimeIsBullish(p, market);
    ScanAt(p, market, bullish, open, symbols, symbol);
    forall signal
      ensures SignalFor(p, market, bullish, open, symbol) == Some(signal) <==> Signals(p, market, open, symbol, signal)
    {
      SignalForIff(p, market, open, symbol, signal);
    }
    SignalNamesSymbol(p, market, bullish, open, open, symbol);
    hide Scan, SignalFor, RegimeIsBullish, Bullish, AtAverage, BelowBand;
  }

  // The signals and the book of one call.
  ghost function Call(p: Parameters, market: Market, open: Positions, meta: map<string, Instrument>,
                      universe: seq<string>, asOf: int): (seq<Signal>, Positions)
    requires p.Valid()
  {
    if market.dates < p.period then ([], open)
    else Scan(p, market, RegimeIsBullish(p, market), open, TradableSymbols(meta, universe, asOf))
  }

  /** Symbol by symbol, a call signals exactly the exits and entries that the closes call for. */
  lemma CallSettles(p: Parameters, market: Market, open: Positions, meta: map<string, Instrument>,
                    universe: seq<string>, asOf: int)
    requires p.Valid()
    ensures forall symbol :: Once(universe, symbol) ==>
      Settled(p, market, open, symbol in universe && Tradable(meta, symbol, asOf), symbol,
              Call(p, market, open, meta, universe, asOf).0, Call(p, market, open, meta, universe, asOf).1)
  {
    TradableIff(meta, universe, asOf);
    hide Tradable, TradableSymbols, Settled, Once, Scan, RegimeIsBullish;
    forall symbol | Once(universe, symbol)
      ensures Settled(p, market, open, symbol in universe && Tradable(meta, symbol, asOf), symbol,
                      Call(p, market, open, meta, universe, asOf).0, Call(p, market, open, meta, universe, asOf).1)
    {
      if market.dates < p.period {
        NothingSettled(p, market, open, symbol in universe && Tradable(meta, symbol, asOf), symbol);
      } else {
        ScanSettles(p, market, open, TradableSymbols(meta, universe, asOf), symbol);
      }
    }
  }

  lemma NothingSettled(p: Parameters, market: Market, open: Positions, traded: bool, symbol: string)
    requires p.Valid() && market.dates < p.period
    ensures Settled(p, market, open, traded, symbol, [], open)
  {
    hide Signals;
  }

  class Strategy {
    const universe: seq<string>
    const meta: map<string, Instrument>
    const p: Parameters
    var openPositions: Positions
    ghost var trace: seq<Signal>   // everything signalled so far

    ghost predicate Valid()
      reads this
    {
      p.Valid() && Replay(trace) == Some(openPositions)
    }

    constructor (universe: seq<string>, meta: map<string, Instrument>, p: Parameters)
      requires p.Valid()
      ensures Valid() && trace == [] && openPositions == map[]
      ensures this.universe == universe && this.meta == meta && this.p == p
    {
      this.universe, this.meta, this.p := universe, meta, p;
      openPositions, trace := map[], [];
    }

    method ComputeSignals(market: Market, asOf: int) returns (signals: seq<Signal>)
      requires Valid()
      modifies this
      ensures Valid() && trace == old(trace) + signals
      ensures market.dates < p.period ==> signals == [] && openPositions == old(openPositions)
      ensures market.dates >= p.period ==>
        (signals, openPositions) == Scan(p, market, RegimeIsBullish(p, market), old(openPositions),
                                         TradableSymbols(meta, universe, asOf))
      ensures !RegimeIsBullish(p, market) ==> forall i :: 0 <= i < |signals| ==> signals[i].Close?
      ensures forall symbol :: Once(universe, symbol) ==>
        Settled(p, market, old(openPositions), symbol in universe && Tradable(meta, symbol, asOf), symbol, signals,
                openPositions)
    {
      CallSettles(p, market, openPositions, meta, universe, asOf);
      signals := [];
      if market.dates < p.period {
        assert trace + [] == trace;
        return;
      }
      var bullish := RegimeIsBullish(p, market);
      var symbols := TradableSymbols(meta, universe, asOf);
      assert symbols[..0] == [] && trace + [] == trace;
      for i := 0 to |symbols|
        invariant Valid() && trace == old(trace) + signals
        invariant (signals, openPositions) == Scan(p, market, bullish, old(openPositions), symbols[..i])
      {
        assert symbols[..i + 1][..i] == symbols[..i];
        ScanOneMore(p, market, bullish, old(openPositions), symbols, i);
        hide SignalFor, Scan, Replay, Record, RegimeIsBullish, TradableSymbols, Parameters.Valid;
        var signal := SignalFor(p, market, bullish, openPositions, symbols[i]);
        if signal.Some? {
          SignalFits(p, market, bullish, openPositions, symbols[i]);
          ReplayOneMore(trace, openPositions, signal.value);
          assert trace + [signal.value] == old(trace) + (signals + [signal.value]);
          signals := signals + [signal.value];
          openPositions := Record(openPositions, signal.value);
          trace := trace + [signal.value];
        }
      }
      assert symbols[..|symbols|] == symbols;
      if !bullish {
        forall i | 0 <= i < |signals| ensures signals[i].Close? {
          EntriesSuppressed(p, market, old(openPositions), symbols, i);
        }
      }
    }
  }

  /** No entry while the regime is bearish, on any data and with any parameters. */
  lemma {:induction false} EntriesSuppressed(p: Parameters, market: Market, open: Positions, symbols: seq<string>,
                                             i: nat)
    requires p.Valid() && !RegimeIsBullish(p, market)
    requires i < |Scan(p, market, RegimeIsBullish(p, market), open, symbols).0|
    ensures Scan(p, market, RegimeIsBullish(p, market), open, symbols).0[i].Close?
  {
    hide RegimeIsBullish, Mean, Lower, Trailing;
    if symbols != [] {
      var init := symbols[..|symbols| - 1];
      if i < |Scan(p, market, false, open, init).0| { EntriesSuppressed(p, market, open, init, i); }
    }
  }

  /** Every emitted signal comes from some book for a symbol of the universe. */
  lemma {:induction false} SignalOrigin(p: Parameters, market: Market, bullish: bool, open: Positions,
                                        symbols: seq<string>, i: nat) returns (book: Positions)
    requires p.Valid() && i < |Scan(p, market, bullish, open, symbols).0|
    ensures var signal := Scan(p, market, bullish, open, symbols).0[i];
            signal.symbol in symbols && SignalFor(p, market, bullish, book, signal.symbol) == Some(signal)
  {
    var init, last := symbols[..|symbols| - 1], symbols[|symbols| - 1];
    var (signals, before) := Scan(p, market, bullish, open, init);
    hide Mean, Lower, Trailing, Record;
    assert symbols == init + [last];
    if i < |signals| {
      book := SignalOrigin(p, market, bullish, open, init, i);
      assert Scan(p, market, bullish, open, symbols).0[i] == signals[i];
    } else {
      book := before;
    }
  }

  // The closes a signal about the symbol is computed from.
  function Window(p: Parameters, market: Market, symbol: string): seq<real> {
    if symbol in market.closes then Trailing(market.closes[symbol], p.period) else []
  }

  /** Parameters beyond the bound make the strategy blind: whatever the regime and the book, an emitted entry is for a
      constant window only. */
  lemma InfeasibleBandNeverEnters(p: Parameters, market: Market, bullish: bool, open: Positions, symbols: seq<string>,
                                  i: nat)
    requires p.Valid() && p.bbStd >= 0.0
    requires Product(Square(p.bbStd), p.period as real) > Square((p.period - 1) as real)
    requires i < |Scan(p, market, bullish, open, symbols).0| && Scan(p, market, bullish, open, symbols).0[i].Long?
    requires var window := Window(p, market, Scan(p, market, bullish, open, symbols).0[i].symbol);
             |window| >= 2 ==> IsDeviation(p.deviation(window), window)
    ensures var window := Window(p, market, Scan(p, market, bullish, open, symbols).0[i].symbol);
            |window| >= 2 && Variance(window) == 0.0
  {
    var signal := Scan(p, market, bullish, open, symbols).0[i];
    var book := SignalOrigin(p, market, bullish, open, symbols, i);
    hide *;
    EntryIsBelowBand(p, market, bullish, book, signal.symbol);
    var window := Window(p, market, signal.symbol);
    if Variance(window) != 0.0 { EntryNeedsFeasibleBand(window, p.deviation(window), p.bbStd); }
  }

  lemma EntryIsBelowBand(p: Parameters, market: Market, bullish: bool, open: Positions, symbol: string)
    requires p.Valid()
    requires var signal := SignalFor(p, market, bullish, open, symbol); signal.Some? && signal.value.Long?
    ensures var window := Window(p, market, symbol);
            && |window| == p.period >= 2
            && window[|window| - 1] <= Mean(window) - Product(p.bbStd, p.deviation(window))
  {
    hide Mean, Product;
  }

  lemma ScanOneMore(p: Parameters, market: Market, bullish: bool, open: Positions, symbols: seq<string>, i: nat)
    requires p.Valid() && i < |symbols|
    ensures var (signals, book) := Scan(p, market, bullish, open, symbols[..i]);
            Scan(p, market, bullish, open, symbols[..i + 1])
            == match SignalFor(p, market, bullish, book, symbols[i])
               case None => (signals, book)
               case Some(signal) => (signals + [signal], Record(book, signal))
  {
    assert symbols[..i + 1][..i] == symbols[..i];
    hide SignalFor, Record;
  }

  lemma SignalFits(p: Parameters, market: Market, bullish: bool, open: Positions, symbol: string)
    requires p.Valid() && SignalFor(p, market, bullish, open, symbol).Some?
    ensures Fits(open, SignalFor(p, market, bullish, open, symbol).value)
  {
    hide Lower, Mean;
  }

  lemma ReplayOneMore(trace: seq<Signal>, open: Positions, signal: Signal)
    requires Replay(trace) == Some(open) && Fits(open, signal)
    ensures Replay(trace + [signal]) == Some(Record(open, signal))
  {
    assert (trace + [signal])[..|trace|] == trace;
  }

  // ---------------------------------------------------------------- what a fitting trace looks like

  // The last signal of a symbol.
  ghost function LastOf(trace: seq<Signal>, symbol: string): Option<Signal> {
    if trace == [] then None
    else if trace[|trace| - 1].symbol == symbol then Some(trace[|trace| - 1])
    else LastOf(trace[..|trace| - 1], symbol)
  }

  /** The book holds exactly the symbols whose last signal is an entry, at the price of that entry. */
  lemma {:induction false} BookIsLastEntries(trace: seq<Signal>, symbol: string)
    requires Replay(trace).Some?
    ensures var open := Replay(trace).value;
            && (symbol in open <==> LastOf(trace, symbol).Some? && LastOf(trace, symbol).value.Long?)
            && (symbol in open ==> open[symbol] == LastOf(trace, symbol).value.price)
  {
    if trace != [] { BookIsLastEntries(trace[..|trace| - 1], symbol); }
  }

  lemma {:induction false} PrefixesReplay(trace: seq<Signal>, k: nat)
    requires Replay(trace).Some? && k <= |trace|
    ensures Replay(trace[..k]).Some?
    decreases |trace|
  {
    if k < |trace| {
      PrefixesReplay(trace[..|trace| - 1], k);
      assert trace[..|trace| - 1][..k] == trace[..k];
    } else {
      assert trace[..k] == trace;
    }
  }

  /** Per symbol the signals alternate, starting with an entry, and each exit quotes the price of the entry before
      it. Every reachable trace replays, so this holds over any sequence of calls on any data. */
  lemma SignalsAlternate(trace: seq<Signal>, k: nat)
    requires Replay(trace).Some? && k < |trace|
    ensures var previous := LastOf(trace[..k], trace[k].symbol);
            && (trace[k].Long? <==> previous.None? || previous.value.Close?)
            && (trace[k].Close? ==> previous.Some? && trace[k].entryPrice == previous.value.price)
  {
    PrefixesReplay(trace, k + 1);
    assert trace[..k + 1][..k] == trace[..k];
    BookIsLastEntries(trace[..k], trace[k].symbol);
  }
}
