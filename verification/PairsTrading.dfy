/** The pairs strategy: which pairs are traded, the filters kept between calls, and the signals of one call. */
module PairsTrading {
  import opened KalmanHedgeRatio
  import opened PriceTable
  import opened RealArithmetic
  import opened Statistics
  import opened Survivorship
  import opened Wrappers

  type Pair = (string, string)

  const MIN_COMMON_CLOSES := 60
  const DEVIATION_FLOOR := 0.000000001

  // Closes in date order.
  datatype Market = Market(columns: set<string>, rows: seq<Row>)

  /** `pvalue` is the cointegration test of a window, `deviation` the population standard deviation. */
  datatype Parameters = Parameters(formationDays: nat, zscoreEntry: real, maxPvalue: real,
                                   pvalue: seq<Observation> -> real, deviation: seq<real> -> real)
  {
    ghost predicate Valid() { forall xs :: deviation(xs) >= 0.0 }
  }

  datatype Direction = Long | Short

  datatype Signal = Signal(symbol: string, direction: Direction, zscore: real, hedgeRatio: real)

  // ---------------------------------------------------------------- which pairs are traded

  function UpTo(rows: seq<Row>, asOf: int): seq<Row> {
    if rows == [] then []
    else UpTo(rows[..|rows| - 1], asOf) + if rows[|rows| - 1].date <= asOf then [rows[|rows| - 1]] else []
  }

  // The last rows up to the date; a formation of 0 days takes them all.
  function Formation(rows: seq<Row>, asOf: int, days: nat): seq<Row> {
    var available := UpTo(rows, asOf);
    if 0 < days < |available| then available[|available| - days..] else available
  }

  // The closes of both symbols on the days that have both.
  function CommonCloses(rows: seq<Row>, pair: Pair): seq<Observation> {
    if rows == [] then []
    else
      var cells := rows[|rows| - 1].cells;
      CommonCloses(rows[..|rows| - 1], pair)
      + if pair.0 in cells && pair.1 in cells then [Observation(cells[pair.0], cells[pair.1])] else []
  }

  predicate IsTraded(pair: Pair, market: Market, meta: map<string, Instrument>, asOf: int, p: Parameters) {
    var window := CommonCloses(Formation(market.rows, asOf, p.formationDays), pair);
    && Tradable(meta, pair.0, asOf) && Tradable(meta, pair.1, asOf)
    && pair.0 in market.columns && pair.1 in market.columns
    && |window| >= MIN_COMMON_CLOSES
    && p.pvalue(window) <= p.maxPvalue
  }

  // The windows of the traded pairs.
  ghost function Windows(pairs: seq<Pair>, market: Market, meta: map<string, Instrument>, asOf: int, p: Parameters)
    : map<Pair, seq<Observation>>
  {
    map pair | pair in pairs && IsTraded(pair, market, meta, asOf, p)
      :: CommonCloses(Formation(market.rows, asOf, p.formationDays), pair)
  }

  // ---------------------------------------------------------------- signals

  function Spread(window: seq<Observation>, beta: real): seq<real> {
    seq(|window|, i requires 0 <= i < |window| => window[i].y - beta * window[i].x)
  }

  function Zscore(window: seq<Observation>, beta: real, p: Parameters): real
    requires window != [] && p.deviation(Spread(window, beta)) >= 0.0
  {
    var spread := Spread(window, beta);
    (spread[|spread| - 1] - Mean(spread)) / (p.deviation(spread) + DEVIATION_FLOOR)
  }

  // Two legs on opposite sides when the spread is far from its mean.
  function Legs(pair: Pair, z: real, beta: real, p: Parameters): seq<Signal> {
    if Abs(z) >= p.zscoreEntry then
      [Signal(pair.0, if z < 0.0 then Long else Short, z, beta),
       Signal(pair.1, if z < 0.0 then Short else Long, z, beta)]
    else []
  }

  ghost predicate Filled(windows: map<Pair, seq<Observation>>) {
    forall pair :: pair in windows ==> windows[pair] != []
  }

  // The signals of one call, pair by pair; a repeated candidate feeds its filter once more.
  ghost function SignalsOver(pairs: seq<Pair>, windows: map<Pair, seq<Observation>>, p: Parameters): seq<Signal>
    requires p.Valid() && Filled(windows)
  {
    if pairs == [] then []
    else
      var last := pairs[|pairs| - 1];
      SignalsOver(pairs[..|pairs| - 1], windows, p)
      + if last !in windows then []
        else
          var beta := Run(DEFAULT_DELTA, DEFAULT_VE, Feed(pairs, windows)[last]).beta;
          Legs(last, Zscore(windows[last], beta, p), beta, p)
  }

  /** What one call feeds to each filter: a pair's window, once per occurrence in the candidate list. */
  ghost function Feed(pairs: seq<Pair>, windows: map<Pair, seq<Observation>>): map<Pair, seq<Observation>> {
    if pairs == [] then map[]
    else FeedOne(Feed(pairs[..|pairs| - 1], windows), windows, pairs[|pairs| - 1])
  }

  ghost function FeedOne(fed: map<Pair, seq<Observation>>, windows: map<Pair, seq<Observation>>, pair: Pair)
    : map<Pair, seq<Observation>>
  {
    if pair !in windows then fed
    else fed[pair := (if pair in fed then fed[pair] else []) + windows[pair]]
  }

  /** Without duplicate candidates every filter has seen exactly its own window, nothing from earlier calls. */
  lemma {:induction false} FeedOfDistinctPairs(pairs: seq<Pair>, windows: map<Pair, seq<Observation>>)
    requires forall i, j :: 0 <= i < j < |pairs| ==> pairs[i] != pairs[j]
    ensures Feed(pairs, windows) == map p | p in pairs && p in windows :: windows[p]
  {
    if pairs != [] {
      var init, last := pairs[..|pairs| - 1], pairs[|pairs| - 1];
      FeedOfDistinctPairs(init, windows);
      assert forall p :: p in pairs <==> p in init || p == last;
      if last in windows { assert [] + windows[last] == windows[last]; }
    }
  }

  // The signals when every pair's hedge ratio comes from its own window alone.
  ghost function OwnSignals(pairs: seq<Pair>, windows: map<Pair, seq<Observation>>, p: Parameters): seq<Signal>
    requires p.Valid() && Filled(windows)
  {
    if pairs == [] then []
    else
      var last := pairs[|pairs| - 1];
      OwnSignals(pairs[..|pairs| - 1], windows, p)
      + if last !in windows then []
        else
          var beta := Run(DEFAULT_DELTA, DEFAULT_VE, windows[last]).beta;
          Legs(last, Zscore(windows[last], beta, p), beta, p)
  }

  /** Without duplicate candidates a pair's signals depend on its own window only, neither on other pairs nor on
      anything fed before. */
  lemma {:induction false} SignalsAreIndependent(pairs: seq<Pair>, windows: map<Pair, seq<Observation>>, p: Parameters)
    requires p.Valid() && Filled(windows)
    requires forall i, j :: 0 <= i < j < |pairs| ==> pairs[i] != pairs[j]
    ensures SignalsOver(pairs, windows, p) == OwnSignals(pairs, windows, p)
  {
    hide Run, Legs, Zscore, Parameters.Valid, Feed;
    if pairs != [] {
      SignalsAreIndependent(pairs[..|pairs| - 1], windows, p);
      FeedOfDistinctPairs(pairs, windows);
      assert pairs[|pairs| - 1] in pairs;
    }
  }

  // Two signals on opposite sides about a traded pair, whose score on its window reaches the entry level.
  ghost predicate IsHedge(a: Signal, b: Signal, windows: map<Pair, seq<Observation>>, p: Parameters)
    requires p.Valid() && Filled(windows)
  {
    && (a.symbol, b.symbol) in windows
    && a.zscore == b.zscore == Zscore(windows[(a.symbol, b.symbol)], a.hedgeRatio, p)
    && a.hedgeRatio == b.hedgeRatio && Abs(a.zscore) >= p.zscoreEntry
    && a.direction == (if a.zscore < 0.0 then Long else Short) && b.direction != a.direction
  }

  /** Signals come in hedged pairs: no leg is ever opened alone. */
  lemma {:induction false} LegsComeInPairs(pairs: seq<Pair>, windows: map<Pair, seq<Observation>>, p: Parameters)
    requires p.Valid() && Filled(windows)
    ensures var signals := SignalsOver(pairs, windows, p);
            && |signals| % 2 == 0
            && forall k :: 0 <= 2 * k < |signals| - 1 ==> IsHedge(signals[2 * k], signals[2 * k + 1], windows, p)
  {
    hide Run, Zscore, Parameters.Valid, Feed;
    if pairs != [] {
      LegsComeInPairs(pairs[..|pairs| - 1], windows, p);
    }
  }

  // ---------------------------------------------------------------- what a hedge earns

  ghost predicate PositiveCloses(window: seq<Observation>) {
    forall i :: 0 <= i < |window| ==> window[i].x > 0.0 && window[i].y > 0.0
  }

  // A slope no observation exceeds.
  lemma {:induction false} LargestSlope(obs: seq<Observation>) returns (hi: real)
    requires PositiveCloses(obs)
    ensures hi >= 0.0 && forall o :: o in obs ==> SlopeWithin(o, 0.0, hi)
  {
    hi := 0.0;
    if obs != [] {
      var init, last := obs[..|obs| - 1], obs[|obs| - 1];
      hi := LargestSlope(init);
      var slope := last.y / last.x;
      assert slope * last.x == last.y;
      AtLeastOfProduct(slope, last.x);
      if slope > hi { hi := slope; }
      assert obs == init + [last];
    }
  }

  lemma PositiveRatio(obs: seq<Observation>)
    requires PositiveCloses(obs)
    ensures Run(DEFAULT_DELTA, DEFAULT_VE, obs).beta >= 0.0
  {
    var hi := LargestSlope(obs);
    hide Run, SlopeWithin;
    EstimateStaysInHull(DEFAULT_DELTA, DEFAULT_VE, obs, 0.0, hi);
  }

  ghost predicate AllPositive(windows: map<Pair, seq<Observation>>) {
    forall pair :: pair in windows ==> PositiveCloses(windows[pair])
  }

  lemma {:induction false} FedPositive(pairs: seq<Pair>, windows: map<Pair, seq<Observation>>)
    requires AllPositive(windows)
    ensures AllPositive(Feed(pairs, windows))
  {
    if pairs != [] { FedPositive(pairs[..|pairs| - 1], windows); }
  }

  /** On positive closes every hedge ratio is non-negative, so the legs are on opposite sides of the spread. */
  lemma {:induction false} RatiosNonNegative(pairs: seq<Pair>, windows: map<Pair, seq<Observation>>, p: Parameters)
    requires p.Valid() && Filled(windows) && AllPositive(windows)
    ensures var signals := SignalsOver(pairs, windows, p);
            forall i :: 0 <= i < |signals| ==> signals[i].hedgeRatio >= 0.0
  {
    if pairs != [] {
      var init, last := pairs[..|pairs| - 1], pairs[|pairs| - 1];
      RatiosNonNegative(init, windows, p);
      FedPositive(init, windows);
      OnePairMore(init, last, windows, p);
      assert pairs == init + [last];
      var fed := Feed(init, windows);
      hide SignalsOver, Feed, Run, Zscore, Parameters.Valid;
      if last in windows { PositiveRatio((if last in fed then fed[last] else []) + windows[last]); }
    }
  }

  function Side(d: Direction): real { if d.Long? then 1.0 else -1.0 }

  // What the legs earn on a move of the two closes, at the hedge ratio in the first per one of the second.
  function Gain(a: Signal, b: Signal, dx: real, dy: real): real {
    Side(a.direction) * Product(a.hedgeRatio, dx) + Side(b.direction) * dy
  }

  function SpreadOf(o: Observation, beta: real): real { o.y - Product(beta, o.x) }

  /** The legs bet on divergence: a hedge earns exactly what the spread moves on in the direction of its deviation and
      loses exactly what it moves back; while the spread stays on its side, that is its change of distance from the
      mean. */
  lemma HedgeEarnsDivergence(a: Signal, b: Signal, windows: map<Pair, seq<Observation>>, p: Parameters,
                             next: Observation)
    requires p.Valid() && Filled(windows) && IsHedge(a, b, windows, p)
    ensures var window := windows[(a.symbol, b.symbol)];
            var last, mean := window[|window| - 1], Mean(Spread(window, a.hedgeRatio));
            var before, after := SpreadOf(last, a.hedgeRatio) - mean, SpreadOf(next, a.hedgeRatio) - mean;
            var gain := Gain(a, b, next.x - last.x, next.y - last.y);
            && gain == (if before < 0.0 then before - after else after - before)
            && (before < 0.0 && after <= 0.0 ==> gain == Abs(after) - Abs(before))
            && (before >= 0.0 && after >= 0.0 ==> gain == Abs(after) - Abs(before))
  {
    var window, beta := windows[(a.symbol, b.symbol)], a.hedgeRatio;
    var last := window[|window| - 1];
    var spread := Spread(window, beta);
    LastSpread(window, beta);
    SignOfQuotient(spread[|spread| - 1] - Mean(spread), p.deviation(spread) + DEVIATION_FLOOR);
    MovedSpread(beta, last, next);
    hide Mean, Product, Spread, Filled, Parameters.Valid;
  }

  lemma LastSpread(window: seq<Observation>, beta: real)
    requires window != []
    ensures var spread := Spread(window, beta);
            |spread| == |window| && spread[|spread| - 1] == SpreadOf(window[|window| - 1], beta)
  {
  }

  lemma SignOfQuotient(n: real, d: real)
    requires d > 0.0
    ensures n / d < 0.0 <==> n < 0.0
  {
    var q := n / d;
    assert q * d == n;
    if q < 0.0 { ProductPositive(-q, d); } else { ProductNonNegative(q, d); }
  }

  lemma MovedSpread(beta: real, last: Observation, next: Observation)
    ensures SpreadOf(next, beta) - SpreadOf(last, beta)
         == (next.y - last.y) - Product(beta, next.x - last.x)
  {
    DistributeOver(beta, next.x - last.x, last.x);
    hide Product;
    assert next.x == (next.x - last.x) + last.x;
  }

  /** So on positive closes every pair of signals of a call is such a bet on divergence, long one leg and short the
      other. */
  lemma SignalsBetOnDivergence(pairs: seq<Pair>, windows: map<Pair, seq<Observation>>, p: Parameters, k: nat,
                               next: Observation)
    requires p.Valid() && Filled(windows) && AllPositive(windows) && 2 * k + 1 < |SignalsOver(pairs, windows, p)|
    ensures var a, b := SignalsOver(pairs, windows, p)[2 * k], SignalsOver(pairs, windows, p)[2 * k + 1];
            && IsHedge(a, b, windows, p) && a.hedgeRatio >= 0.0
            && var window := windows[(a.symbol, b.symbol)];
               var last, mean := window[|window| - 1], Mean(Spread(window, a.hedgeRatio));
               var before, after := SpreadOf(last, a.hedgeRatio) - mean, SpreadOf(next, a.hedgeRatio) - mean;
               Gain(a, b, next.x - last.x, next.y - last.y) == if before < 0.0 then before - after else after - before
  {
    LegsComeInPairs(pairs, windows, p);
    RatiosNonNegative(pairs, windows, p);
    hide SignalsOver, IsHedge, Gain, SpreadOf, Spread, Mean, Parameters.Valid;
    HedgeEarnsDivergence(SignalsOver(pairs, windows, p)[2 * k], SignalsOver(pairs, windows, p)[2 * k + 1], windows, p,
                         next);
  }

  // ---------------------------------------------------------------- the signals from the closes

  ghost function DatedUpTo(rows: seq<Row>, asOf: int): nat -> bool {
    (k: nat) => k < |rows| && rows[k].date <= asOf
  }

  ghost function HavingBoth(rows: seq<Row>, pair: Pair): nat -> bool {
    (k: nat) => k < |rows| && pair.0 in rows[k].cells && pair.1 in rows[k].cells
  }

  lemma DatedOneMore(at: seq<nat>, rows: seq<Row>, last: Row, asOf: int)
    requires Enumerates(at, |rows|, DatedUpTo(rows, asOf))
    ensures Enumerates(if last.date <= asOf then at + [|rows|] else at, |rows| + 1, DatedUpTo(rows + [last], asOf))
  {
    var more, n := rows + [last], |rows|;
    assert more[n] == last && forall k: nat :: k < n ==> more[k] == rows[k];
    hide Enumerates;
    EnumeratesSame(at, n, DatedUpTo(rows, asOf), DatedUpTo(more, asOf));
    EnumeratesOneMore(at, n, DatedUpTo(more, asOf));
  }

  lemma BothOneMore(at: seq<nat>, rows: seq<Row>, last: Row, pair: Pair)
    requires Enumerates(at, |rows|, HavingBoth(rows, pair))
    ensures Enumerates(if pair.0 in last.cells && pair.1 in last.cells then at + [|rows|] else at, |rows| + 1,
                       HavingBoth(rows + [last], pair))
  {
    var more, n := rows + [last], |rows|;
    assert more[n] == last && forall k: nat :: k < n ==> more[k] == rows[k];
    hide Enumerates;
    EnumeratesSame(at, n, HavingBoth(rows, pair), HavingBoth(more, pair));
    EnumeratesOneMore(at, n, HavingBoth(more, pair));
  }

  // The observations are the two closes of the rows at the places, first symbol first.
  ghost predicate ClosesAt(window: seq<Observation>, at: seq<nat>, rows: seq<Row>, pair: Pair) {
    && |window| == |at|
    && forall i :: 0 <= i < |at| ==>
         && at[i] < |rows| && pair.0 in rows[at[i]].cells && pair.1 in rows[at[i]].cells
         && window[i].x == rows[at[i]].cells[pair.0] && window[i].y == rows[at[i]].cells[pair.1]
  }

  lemma ClosesAtMore(window: seq<Observation>, at: seq<nat>, rows: seq<Row>, last: Row, pair: Pair)
    requires ClosesAt(window, at, rows, pair)
    ensures ClosesAt(window, at, rows + [last], pair)
    ensures pair.0 in last.cells && pair.1 in last.cells ==>
      ClosesAt(window + [Observation(last.cells[pair.0], last.cells[pair.1])], at + [|rows|], rows + [last], pair)
  {
  }

  /** The formation rows are the last ones of those dated up to the day. */
  lemma FormationRows(rows: seq<Row>, asOf: int, days: nat) returns (at: seq<nat>, earlier: seq<Row>)
    ensures Enumerates(at, |rows|, DatedUpTo(rows, asOf))
    ensures RowsAt(earlier + Formation(rows, asOf, days), at, rows)
    ensures if days == 0 then earlier == [] else |Formation(rows, asOf, days)| == if days < |at| then days else |at|
  {
    at := UpToRows(rows, asOf);
    hide Enumerates, DatedUpTo;
    var available := UpTo(rows, asOf);
    earlier := if 0 < days < |available| then available[..|available| - days] else [];
    assert earlier + Formation(rows, asOf, days) == available;
  }

  lemma {:induction false} UpToRows(rows: seq<Row>, asOf: int) returns (at: seq<nat>)
    ensures Enumerates(at, |rows|, DatedUpTo(rows, asOf)) && RowsAt(UpTo(rows, asOf), at, rows)
  {
    at := [];
    if rows != [] {
      var init, last := rows[..|rows| - 1], rows[|rows| - 1];
      at := UpToRows(init, asOf);
      hide Enumerates, DatedUpTo, RowsAt;
      DatedOneMore(at, init, last, asOf);
      RowsAtMore(UpTo(init, asOf), at, init, last);
      assert rows == init + [last];
      if last.date <= asOf { at := at + [|init|]; }
    }
  }

  lemma CommonClosesOneMore(rows: seq<Row>, last: Row, pair: Pair)
    ensures CommonCloses(rows + [last], pair)
         == if pair.0 in last.cells && pair.1 in last.cells
            then CommonCloses(rows, pair) + [Observation(last.cells[pair.0], last.cells[pair.1])]
            else CommonCloses(rows, pair)
  {
    assert (rows + [last])[..|rows|] == rows;
  }

  lemma NoCommonDays(pair: Pair)
    ensures Enumerates([], 0, HavingBoth([], pair)) && ClosesAt(CommonCloses([], pair), [], [], pair)
  {
  }

  /** The common closes are those of the days that have both, in their order. */
  lemma {:induction false} CommonDays(rows: seq<Row>, pair: Pair) returns (at: seq<nat>)
    ensures Enumerates(at, |rows|, HavingBoth(rows, pair)) && ClosesAt(CommonCloses(rows, pair), at, rows, pair)
  {
    hide *;
    if rows == [] {
      at := [];
      NoCommonDays(pair);
    } else {
      var init, last := rows[..|rows| - 1], rows[|rows| - 1];
      at := CommonDays(init, pair);
      BothOneMore(at, init, last, pair);
      ClosesAtMore(CommonCloses(init, pair), at, init, last, pair);
      CommonClosesOneMore(init, last, pair);
      assert rows == init + [last];
      if pair.0 in last.cells && pair.1 in last.cells { at := at + [|init|]; }
    }
  }

  // The second close less the ratio times the first, day by day.
  ghost predicate IsSpread(spread: seq<real>, window: seq<Observation>, beta: real) {
    && |spread| == |window| > 0
    && forall i :: 0 <= i < |window| ==> spread[i] == window[i].y - Product(beta, window[i].x)
  }

  // The last value of the spread less its average.
  function Divergence(spread: seq<real>): real
    requires spread != []
  {
    spread[|spread| - 1] - Sum(spread) / |spread| as real
  }

  function Occurrences(pairs: seq<Pair>, pair: Pair): nat {
    if pairs == [] then 0
    else Occurrences(pairs[..|pairs| - 1], pair) + if pairs[|pairs| - 1] == pair then 1 else 0
  }

  function Repeated(window: seq<Observation>, n: nat): seq<Observation> {
    if n == 0 then [] else Repeated(window, n - 1) + window
  }

  // The hedge ratio at candidate i: the filter has run over the pair's own window from the start, once per time the
  // pair has been listed so far.
  ghost function RatioAt(pairs: seq<Pair>, i: nat, windows: map<Pair, seq<Observation>>): real
    requires i < |pairs| && pairs[i] in windows
  {
    Run(0.0001, 0.001, Repeated(windows[pairs[i]], Occurrences(pairs[..i + 1], pairs[i]))).beta
  }

  // The last spread is far enough from the average to trade.
  ghost predicate Diverges(window: seq<Observation>, beta: real, p: Parameters) {
    forall spread :: IsSpread(spread, window, beta) ==>
      Product(p.zscoreEntry, p.deviation(spread) + 0.000000001) <= Abs(Divergence(spread))
  }

  // The two legs of a pair: opposite sides, the first long below the average, the score the scaled divergence.
  ghost predicate AreLegs(a: Signal, b: Signal, pair: Pair, window: seq<Observation>, beta: real, p: Parameters) {
    && a.symbol == pair.0 && b.symbol == pair.1 && a.zscore == b.zscore
    && a.hedgeRatio == b.hedgeRatio == beta && a.direction != b.direction
    && forall spread :: IsSpread(spread, window, beta) ==>
         && Product(a.zscore, p.deviation(spread) + 0.000000001) == Divergence(spread)
         && (a.direction == Long <==> Divergence(spread) < 0.0)
  }

  lemma SpreadIff(spread: seq<real>, window: seq<Observation>, beta: real)
    requires window != []
    ensures IsSpread(spread, window, beta) <==> spread == Spread(window, beta)
  {
    if IsSpread(spread, window, beta) {
      assert |spread| == |Spread(window, beta)|;
      assert forall i :: 0 <= i < |spread| ==> spread[i] == Spread(window, beta)[i];
    }
  }

  lemma ScaledScore(n: real, d: real, entry: real)
    requires d > 0.0
    ensures Product(n / d, d) == n && (n / d < 0.0 <==> n < 0.0)
    ensures Abs(n / d) >= entry <==> Product(entry, d) <= Abs(n)
  {
    SignOfQuotient(n, d);
    var z := n / d;
    assert Product(z, d) == n;
    ProductLaws(z, d, 1.0);
    ProductLaws(entry, d, 1.0);
    ProductLaws(-z, d, 1.0);
    hide Product;
    ProductMonotone(d, entry, Abs(z));
    assert Product(d, -z) == -n by { NegatedProduct(d, z); }
  }

  lemma NegatedProduct(d: real, z: real)
    ensures Product(d, -z) == -Product(d, z)
  {
  }

  // What one window's score comes to.
  lemma LegsFromCloses(pair: Pair, window: seq<Observation>, beta: real, p: Parameters)
    requires p.Valid() && window != []
    ensures var legs := Legs(pair, Zscore(window, beta, p), beta, p);
            if Diverges(window, beta, p) then |legs| == 2 && AreLegs(legs[0], legs[1], pair, window, beta, p)
            else legs == []
  {
    var spread := Spread(window, beta);
    forall s ensures IsSpread(s, window, beta) <==> s == spread { SpreadIff(s, window, beta); }
    var d := p.deviation(spread) + DEVIATION_FLOOR;
    ScaledScore(Divergence(spread), d, p.zscoreEntry);
    assert Zscore(window, beta, p) == Divergence(spread) / d;
    hide Product, Spread, IsSpread, Divergence, Zscore, Parameters.Valid, Abs;
  }

  lemma FeedOneMore(pairs: seq<Pair>, last: Pair, windows: map<Pair, seq<Observation>>)
    ensures Feed(pairs + [last], windows) == FeedOne(Feed(pairs, windows), windows, last)
  {
    assert (pairs + [last])[..|pairs|] == pairs;
  }

  lemma OccurrencesOneMore(pairs: seq<Pair>, last: Pair, pair: Pair)
    ensures Occurrences(pairs + [last], pair) == Occurrences(pairs, pair) + if last == pair then 1 else 0
  {
    assert (pairs + [last])[..|pairs|] == pairs;
  }

  lemma RepeatedOneMore(window: seq<Observation>, n: nat)
    ensures Repeated(window, n + 1) == Repeated(window, n) + window && Repeated(window, 0) == []
  {
  }

  /** What a filter has seen is the pair's own window over and over, once per time the pair is listed. */
  lemma {:induction false} FeedIsRepeated(pairs: seq<Pair>, windows: map<Pair, seq<Observation>>, pair: Pair)
    requires pair in windows
    ensures pair in Feed(pairs, windows) <==> Occurrences(pairs, pair) > 0
    ensures pair in Feed(pairs, windows) ==>
      Feed(pairs, windows)[pair] == Repeated(windows[pair], Occurrences(pairs, pair))
  {
    if pairs != [] {
      var init, last := pairs[..|pairs| - 1], pairs[|pairs| - 1];
      FeedIsRepeated(init, windows, pair);
      assert pairs == init + [last];
      FeedOneMore(init, last, windows);
      OccurrencesOneMore(init, last, pair);
      RepeatedOneMore(windows[pair], Occurrences(init, pair));
      RepeatedOneMore(windows[pair], 0);
      hide Feed, Occurrences, Repeated;
    }
  }

  // The legs of the pairs at these places, in order.
  ghost predicate LegsAt(signals: seq<Signal>, at: seq<nat>, pairs: seq<Pair>, windows: map<Pair, seq<Observation>>,
                         p: Parameters)
  {
    && |signals| == 2 * |at|
    && forall k :: 0 <= k < |at| ==>
         && at[k] < |pairs| && pairs[at[k]] in windows
         && AreLegs(signals[2 * k], signals[2 * k + 1], pairs[at[k]], windows[pairs[at[k]]],
                    RatioAt(pairs, at[k], windows), p)
  }

  // Exactly the candidates that are traded and diverge have their two legs, in the order of the list.
  ghost predicate Hedges(signals: seq<Signal>, pairs: seq<Pair>, windows: map<Pair, seq<Observation>>, p: Parameters) {
    exists at :: LegsAt(signals, at, pairs, windows, p) && Enumerates(at, |pairs|, Opening(pairs, windows, p))
  }

  ghost function Opening(pairs: seq<Pair>, windows: map<Pair, seq<Observation>>, p: Parameters): nat -> bool {
    (i: nat) =>
      i < |pairs| && pairs[i] in windows && Diverges(windows[pairs[i]], RatioAt(pairs, i, windows), p)
  }

  lemma RatioStays(pairs: seq<Pair>, pair: Pair, i: nat, windows: map<Pair, seq<Observation>>)
    requires i < |pairs| && pairs[i] in windows
    ensures (pairs + [pair])[i] == pairs[i] && RatioAt(pairs + [pair], i, windows) == RatioAt(pairs, i, windows)
  {
    assert (pairs + [pair])[..i + 1] == pairs[..i + 1];
  }

  lemma OpeningStays(at: seq<nat>, pairs: seq<Pair>, pair: Pair, windows: map<Pair, seq<Observation>>, p: Parameters)
    requires Enumerates(at, |pairs|, Opening(pairs, windows, p))
    ensures Enumerates(at, |pairs|, Opening(pairs + [pair], windows, p))
  {
    hide Diverges, RatioAt, Enumerates;
    forall k: nat | k < |pairs| ensures Opening(pairs, windows, p)(k) == Opening(pairs + [pair], windows, p)(k) {
      assert (pairs + [pair])[k] == pairs[k];
      if pairs[k] in windows { RatioStays(pairs, pair, k, windows); }
    }
    EnumeratesSame(at, |pairs|, Opening(pairs, windows, p), Opening(pairs + [pair], windows, p));
  }

  lemma LegsStay(signals: seq<Signal>, at: seq<nat>, pairs: seq<Pair>, pair: Pair,
                 windows: map<Pair, seq<Observation>>, p: Parameters)
    requires LegsAt(signals, at, pairs, windows, p)
    ensures LegsAt(signals, at, pairs + [pair], windows, p)
  {
    hide AreLegs, RatioAt;
    forall k | 0 <= k < |at|
      ensures (pairs + [pair])[at[k]] == pairs[at[k]]
      ensures RatioAt(pairs + [pair], at[k], windows) == RatioAt(pairs, at[k], windows)
    {
      RatioStays(pairs, pair, at[k], windows);
    }
  }

  lemma LegsAtMore(signals: seq<Signal>, at: seq<nat>, pairs: seq<Pair>, i: nat,
                   windows: map<Pair, seq<Observation>>, p: Parameters, legs: seq<Signal>)
    requires LegsAt(signals, at, pairs, windows, p) && i < |pairs| && pairs[i] in windows
    requires |legs| == 2
             && AreLegs(legs[0], legs[1], pairs[i], windows[pairs[i]], RatioAt(pairs, i, windows), p)
    ensures LegsAt(signals + legs, at + [i], pairs, windows, p)
  {
    hide AreLegs, RatioAt;
  }

  lemma HedgesOneMore(signals: seq<Signal>, pairs: seq<Pair>, pair: Pair, windows: map<Pair, seq<Observation>>,
                      p: Parameters, beta: real, legs: seq<Signal>)
    requires Hedges(signals, pairs, windows, p)
    requires pair in windows ==> beta == RatioAt(pairs + [pair], |pairs|, windows)
    requires if pair in windows && Diverges(windows[pair], beta, p)
             then |legs| == 2 && AreLegs(legs[0], legs[1], pair, windows[pair], beta, p) else legs == []
    ensures Hedges(signals + legs, pairs + [pair], windows, p)
  {
    hide AreLegs, Diverges, LegsAt, Enumerates, RatioAt;
    var n, all := |pairs|, pairs + [pair];
    var at: seq<nat> :| LegsAt(signals, at, pairs, windows, p) && Enumerates(at, n, Opening(pairs, windows, p));
    OpeningStays(at, pairs, pair, windows, p);
    LegsStay(signals, at, pairs, pair, windows, p);
    EnumeratesOneMore(at, n, Opening(all, windows, p));
    assert all[n] == pair;
    if pair in windows && Diverges(windows[pair], beta, p) {
      LegsAtMore(signals, at, all, n, windows, p, legs);
    } else {
      assert signals + legs == signals;
    }
  }

  // The filter's hedge ratio when the last candidate's turn comes.
  lemma FedRatio(pairs: seq<Pair>, windows: map<Pair, seq<Observation>>)
    requires pairs != [] && pairs[|pairs| - 1] in windows
    ensures var last := pairs[|pairs| - 1];
            && last in Feed(pairs, windows)
            && Run(DEFAULT_DELTA, DEFAULT_VE, Feed(pairs, windows)[last]).beta
               == RatioAt(pairs, |pairs| - 1, windows)
  {
    var init, last := pairs[..|pairs| - 1], pairs[|pairs| - 1];
    FeedIsRepeated(pairs, windows, last);
    assert pairs == init + [last];
    OccurrencesOneMore(init, last, last);
    assert pairs[..|pairs|] == pairs;
    hide Run, Feed, Occurrences, Repeated;
  }

  /** The signals are the legs of exactly those candidates that are traded and whose last spread is at least the entry
      level from the average, at the hedge ratio of a filter that has seen the pair's own window only. */
  lemma {:induction false} SignalsAreHedges(pairs: seq<Pair>, windows: map<Pair, seq<Observation>>, p: Parameters)
    requires p.Valid() && Filled(windows)
    ensures Hedges(SignalsOver(pairs, windows, p), pairs, windows, p)
  {
    hide Run, Legs, Zscore, Hedges, AreLegs, Diverges, Feed, RatioAt;
    if pairs == [] {
      NoHedges(windows, p);
    } else {
      var init, last := pairs[..|pairs| - 1], pairs[|pairs| - 1];
      SignalsAreHedges(init, windows, p);
      assert pairs == init + [last];
      if last in windows {
        FedRatio(pairs, windows);
        var beta := RatioAt(pairs, |init|, windows);
        LegsFromCloses(last, windows[last], beta, p);
        HedgesOneMore(SignalsOver(init, windows, p), init, last, windows, p, beta,
                      Legs(last, Zscore(windows[last], beta, p), beta, p));
      } else {
        HedgesOneMore(SignalsOver(init, windows, p), init, last, windows, p, 0.0, []);
      }
    }
  }

  lemma NoHedges(windows: map<Pair, seq<Observation>>, p: Parameters)
    ensures Hedges([], [], windows, p)
  {
    var at: seq<nat> := [];
    assert LegsAt([], at, [], windows, p) && Enumerates(at, 0, Opening([], windows, p));
  }

  lemma WindowAt(pairs: seq<Pair>, market: Market, meta: map<string, Instrument>, asOf: int, p: Parameters, i: nat)
    requires i < |pairs|
    ensures var windows := Windows(pairs, market, meta, asOf, p);
            && (pairs[i] in windows <==> IsTraded(pairs[i], market, meta, asOf, p))
            && (pairs[i] in windows ==>
                  windows[pairs[i]] == CommonCloses(Formation(market.rows, asOf, p.formationDays), pairs[i])
                  && windows[pairs[i]] != [])
  {
    hide CommonCloses, Formation, Tradable;
  }

  lemma WindowsFilled(pairs: seq<Pair>, market: Market, meta: map<string, Instrument>, asOf: int, p: Parameters)
    ensures Filled(Windows(pairs, market, meta, asOf, p))
  {
    hide CommonCloses, Formation, Tradable;
  }

  lemma HedgesOfWindows(pairs: seq<Pair>, market: Market, meta: map<string, Instrument>, asOf: int, p: Parameters)
    requires p.Valid()
    ensures var windows := Windows(pairs, market, meta, asOf, p);
            Filled(windows) && Hedges(SignalsOver(pairs, windows, p), pairs, windows, p)
  {
    WindowsFilled(pairs, market, meta, asOf, p);
    var windows := Windows(pairs, market, meta, asOf, p);
    hide Windows, Hedges, SignalsOver, Parameters.Valid, Filled;
    SignalsAreHedges(pairs, windows, p);
  }

  // What a pair adds to the filters and to the signals.
  lemma OnePairMore(pairs: seq<Pair>, pair: Pair, windows: map<Pair, seq<Observation>>, p: Parameters)
    requires p.Valid() && Filled(windows)
    ensures var fed, all := Feed(pairs, windows), pairs + [pair];
            && (pair !in windows ==>
                  Feed(all, windows) == fed && SignalsOver(all, windows, p) == SignalsOver(pairs, windows, p))
            && (pair in windows ==>
                  var seen := (if pair in fed then fed[pair] else []) + windows[pair];
                  var beta := Run(DEFAULT_DELTA, DEFAULT_VE, seen).beta;
                  && Feed(all, windows) == fed[pair := seen]
                  && SignalsOver(all, windows, p)
                     == SignalsOver(pairs, windows, p) + Legs(pair, Zscore(windows[pair], beta, p), beta, p))
  {
    assert (pairs + [pair])[..|pairs|] == pairs;
    hide Run, Zscore, Legs;
  }

  class PairsStrategy {
    const pairs: seq<Pair>
    const meta: map<string, Instrument>
    const p: Parameters
    // Filters survive between calls unless cleared.
    var filters: map<Pair, HedgeRatioFilter>

    ghost predicate Separate()
      reads this
    {
      forall p, q :: p in filters && q in filters && p != q ==> filters[p] != filters[q]
    }

    constructor (pairs: seq<Pair>, meta: map<string, Instrument>, p: Parameters)
      ensures filters == map[] && this.pairs == pairs && this.meta == meta && this.p == p
    {
      this.pairs, this.meta, this.p, filters := pairs, meta, p, map[];
    }

    method Reset()
      modifies this
      ensures filters == map[]
    {
      filters := map[];
    }

    // Every filter is the run over what was fed to it.
    ghost predicate Fed(fed: map<Pair, seq<Observation>>)
      reads this, filters.Values
    {
      && filters.Keys == fed.Keys
      && (forall p :: p in filters ==> filters[p].delta == DEFAULT_DELTA && filters[p].ve == DEFAULT_VE)
      && (forall p :: p in filters ==> filters[p].Current() == Run(DEFAULT_DELTA, DEFAULT_VE, fed[p]))
    }

    /** One call: the filters end up as runs over this call's windows and the signals follow from them, whatever
        earlier calls left behind. */
    method GenerateSignals(market: Market, asOf: int) returns (signals: seq<Signal>)
      requires p.Valid()
      modifies this
      ensures Fed(Feed(pairs, Windows(pairs, market, meta, asOf, p)))
      ensures Filled(Windows(pairs, market, meta, asOf, p))
      ensures signals == SignalsOver(pairs, Windows(pairs, market, meta, asOf, p), p)
      ensures Hedges(signals, pairs, Windows(pairs, market, meta, asOf, p), p)
    {
      hide Run, Windows, Zscore, Legs, Parameters.Valid, Filled, Hedges, Spread, CommonCloses, Formation,
           IsTraded;
      HedgesOfWindows(pairs, market, meta, asOf, p);
      Reset();
      signals := [];
      ghost var windows := Windows(pairs, market, meta, asOf, p);
      WindowsFilled(pairs, market, meta, asOf, p);
      assert pairs[..0] == [];
      for i := 0 to |pairs|
        invariant Separate() && fresh(filters.Values)
        invariant Fed(Feed(pairs[..i], windows))
        invariant signals == SignalsOver(pairs[..i], windows, p)
      {
        hide *;
        var pair := pairs[i];
        var window := TradedWindow(market, asOf, pair);
        WindowAt(pairs, market, meta, asOf, p, i);
        assert pairs[..i + 1] == pairs[..i] + [pair];
        OnePairMore(pairs[..i], pair, windows, p);
        if window.None? { continue; }
        var legs := TradePair(Feed(pairs[..i], windows), pair, window.value);
        signals := signals + legs;
      }
      assert pairs[..|pairs|] == pairs;
    }

    // One traded pair: feed its filter, then signal at the new hedge ratio.
    method TradePair(ghost fed: map<Pair, seq<Observation>>, pair: Pair, window: seq<Observation>)
      returns (legs: seq<Signal>)
      requires Separate() && Fed(fed) && window != [] && p.Valid()
      modifies this, filters.Values
      ensures Separate() && fresh(filters.Values - old(filters.Values))
      ensures var seen := (if pair in fed then fed[pair] else []) + window;
              && Fed(fed[pair := seen])
              && var beta := Run(DEFAULT_DELTA, DEFAULT_VE, seen).beta;
                 legs == Legs(pair, Zscore(window, beta, p), beta, p)
    {
      FeedPair(fed, pair, window);
      hide Run, Zscore, Legs;
      var beta := filters[pair].beta;
      return Legs(pair, Zscore(window, beta, p), beta, p);
    }

    // The candidate tests of the loop; None when one of them moves on to the next pair.
    method TradedWindow(market: Market, asOf: int, pair: Pair) returns (window: Option<seq<Observation>>)
      ensures window.Some? <==> IsTraded(pair, market, meta, asOf, p)
      ensures window.Some? ==>
        && |window.value| >= 60 && p.pvalue(window.value) <= p.maxPvalue
        && {pair.0, pair.1} <= market.columns
      ensures window.Some? ==> window.value == CommonCloses(Formation(market.rows, asOf, p.formationDays), pair)
    {
      hide Tradable, CommonCloses, Formation;
      if !Tradable(meta, pair.0, asOf) || !Tradable(meta, pair.1, asOf) { return None; }
      if pair.0 !in market.columns || pair.1 !in market.columns { return None; }
      var common := CommonCloses(Formation(market.rows, asOf, p.formationDays), pair);
      if |common| < MIN_COMMON_CLOSES { return None; }
      if p.pvalue(common) > p.maxPvalue { return None; }
      return Some(common);
    }

    method FeedPair(ghost fed: map<Pair, seq<Observation>>, pair: Pair, window: seq<Observation>)
      requires Separate() && Fed(fed)
      modifies this, filters.Values
      ensures Separate() && Fed(fed[pair := (if pair in fed then fed[pair] else []) + window])
      ensures fresh(filters.Values - old(filters.Values))
    {
      hide Run;
      ghost var before := if pair in fed then fed[pair] else [];
      if pair !in filters {
        var created := new HedgeRatioFilter(DEFAULT_DELTA, DEFAULT_VE);
        filters := filters[pair := created];
        RunOfNothing(DEFAULT_DELTA, DEFAULT_VE);
      }
      var filter := filters[pair];
      assert filter.Current() == Run(DEFAULT_DELTA, DEFAULT_VE, before);
      FitWindow(filter, before, window);
    }
  }
}
