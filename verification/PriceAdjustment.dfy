/** Backward adjustment of historical closes for corporate actions, and the detector that reads it back.

    The processor walks the actions from the most recent to the oldest and overwrites ever shorter
    prefixes of a column with a running product. The specification is per bar: a bar's adjusted close is
    its close times the factors of all later actions. */
module PriceAdjustment {
  import opened RealArithmetic
  import opened Sorting

  datatype Action =
    | Split(date: int, ratio: real)
    | Dividend(exDate: int, amount: real)
  {
    function Day(): int { if Split? then date else exDate }
  }

  // The bars of one symbol in time order; bars of two exchanges may share a time.
  datatype Bars = Bars(times: seq<int>, closes: seq<real>) {
    ghost predicate Valid() {
      && |times| == |closes|
      && forall i, j :: 0 <= i < j < |times| ==> times[i] <= times[j]
    }

    // How many bars lie before day d; they are the first ones.
    function Before(d: int): (n: nat)
      requires Valid()
      ensures n <= |times|
      ensures forall i :: 0 <= i < |times| ==> (i < n <==> times[i] < d)
    {
      CountBefore(times, d)
    }
  }

  function CountBefore(times: seq<int>, d: int): (n: nat)
    requires forall i, j :: 0 <= i < j < |times| ==> times[i] <= times[j]
    ensures n <= |times|
    ensures forall i :: 0 <= i < |times| ==> (i < n <==> times[i] < d)
  {
    if times == [] then 0
    else if times[|times| - 1] < d then |times|
    else CountBefore(times[..|times| - 1], d)
  }

  function ComputeAdjustmentFactor(action: Action, closeBefore: real): real {
    match action
    case Split(_, ratio) => if ratio == 0.0 then 1.0 else 1.0 / ratio
    case Dividend(_, amount) => if closeBefore <= 0.0 then 1.0 else (closeBefore - amount) / closeBefore
  }

  // The factor of an action against its own last close before the day; 1 when no bar precedes it.
  function Factor(bars: Bars, action: Action): real
    requires bars.Valid()
  {
    var n := bars.Before(action.Day());
    if n == 0 then 1.0 else ComputeAdjustmentFactor(action, bars.closes[n - 1])
  }

  /** The product of the factors of all actions after time t. */
  function ProductAfter(bars: Bars, actions: seq<Action>, t: int): real
    requires bars.Valid()
  {
    if actions == [] then 1.0
    else
      var rest, last := actions[..|actions| - 1], actions[|actions| - 1];
      if last.Day() > t then Product(ProductAfter(bars, rest, t), Factor(bars, last)) else ProductAfter(bars, rest, t)
  }

  function AdjustedCloses(bars: Bars, actions: seq<Action>): seq<real>
    requires bars.Valid()
  {
    seq(|bars.times|, i requires 0 <= i < |bars.times| =>
      Product(bars.closes[i], ProductAfter(bars, actions, bars.times[i])))
  }

  function CountAfter(actions: seq<Action>, t: int): nat {
    if actions == [] then 0
    else CountAfter(actions[..|actions| - 1], t) + if actions[|actions| - 1].Day() > t then 1 else 0
  }

  // Sum over the bars of the number of actions after each.
  function UpdatesPerBar(times: seq<int>, actions: seq<Action>): nat {
    if times == [] then 0
    else UpdatesPerBar(times[..|times| - 1], actions) + CountAfter(actions, times[|times| - 1])
  }

  lemma {:induction false} UpdatesPerBarOfOneMore(times: seq<int>, actions: seq<Action>, a: Action)
    requires forall i, j :: 0 <= i < j < |times| ==> times[i] <= times[j]
    ensures UpdatesPerBar(times, actions + [a]) == UpdatesPerBar(times, actions) + CountBefore(times, a.Day())
  {
    if times != [] {
      var init, t := times[..|times| - 1], times[|times| - 1];
      UpdatesPerBarOfOneMore(init, actions, a);
      assert (actions + [a])[..|actions|] == actions;
      if t < a.Day() && init != [] {
        assert init[|init| - 1] < a.Day();
      }
    }
  }

  // ---------------------------------------------------------------- independence of the list order

  lemma {:induction false} ProductAfterConcat(bars: Bars, xs: seq<Action>, ys: seq<Action>, t: int)
    requires bars.Valid()
    ensures ProductAfter(bars, xs + ys, t) == Product(ProductAfter(bars, xs, t), ProductAfter(bars, ys, t))
    ensures CountAfter(xs + ys, t) == CountAfter(xs, t) + CountAfter(ys, t)
  {
    hide Factor, Product;
    if ys == [] {
      assert xs + ys == xs;
      ProductLaws(ProductAfter(bars, xs, t), 1.0, 1.0);
    } else {
      var init, last := ys[..|ys| - 1], ys[|ys| - 1];
      assert (xs + ys)[..|xs + ys| - 1] == xs + init;
      ProductAfterConcat(bars, xs, init, t);
      ProductLaws(ProductAfter(bars, xs, t), ProductAfter(bars, init, t), Factor(bars, last));
    }
  }

  /** The adjusted closes depend on the actions as a multiset, not on their order. */
  lemma {:induction false} OrderIrrelevant(bars: Bars, xs: seq<Action>, ys: seq<Action>, t: int)
    requires bars.Valid() && multiset(xs) == multiset(ys)
    ensures ProductAfter(bars, xs, t) == ProductAfter(bars, ys, t)
    ensures CountAfter(xs, t) == CountAfter(ys, t)
    decreases |xs|
  {
    hide Factor, Product;
    if xs == [] {
      assert |multiset(ys)| == |ys|;
    } else {
      var init, last := xs[..|xs| - 1], xs[|xs| - 1];
      assert xs == init + [last];
      var l, r := Extract(init, last, ys);
      OrderIrrelevant(bars, init, l + r, t);
      ProductAfterConcat(bars, l, r, t);
      ProductAfterConcat(bars, init, [last], t);
      ProductAfterConcat(bars, l, [last] + r, t);
      ProductAfterConcat(bars, [last], r, t);
      hide *;
      var pl, pr, p := ProductAfter(bars, l, t), ProductAfter(bars, r, t), ProductAfter(bars, [last], t);
      ProductLaws(pl, pr, p);
      ProductLaws(pr, p, p);
    }
  }

  lemma SameAdjustedCloses(bars: Bars, xs: seq<Action>, ys: seq<Action>)
    requires bars.Valid() && multiset(xs) == multiset(ys)
    ensures AdjustedCloses(bars, xs) == AdjustedCloses(bars, ys)
    ensures UpdatesPerBar(bars.times, xs) == UpdatesPerBar(bars.times, ys)
  {
    hide ProductAfter, Product;
    forall t ensures ProductAfter(bars, xs, t) == ProductAfter(bars, ys, t) && CountAfter(xs, t) == CountAfter(ys, t) {
      OrderIrrelevant(bars, xs, ys, t);
    }
    SameUpdates(bars.times, xs, ys);
    assert forall i :: 0 <= i < |bars.times| ==> AdjustedCloses(bars, xs)[i] == AdjustedCloses(bars, ys)[i];
  }

  lemma {:induction false} SameUpdates(times: seq<int>, xs: seq<Action>, ys: seq<Action>)
    requires forall t :: CountAfter(xs, t) == CountAfter(ys, t)
    ensures UpdatesPerBar(times, xs) == UpdatesPerBar(times, ys)
  {
    if times != [] { SameUpdates(times[..|times| - 1], xs, ys); }
  }

  // ---------------------------------------------------------------- what one action does to the prices

  // Bar i is the last one before day d.
  ghost predicate LastBefore(bars: Bars, i: nat, d: int)
    requires bars.Valid()
  {
    i < |bars.times| && bars.times[i] < d && forall j :: i < j < |bars.times| ==> bars.times[j] >= d
  }

  // One bar before the action: a split divides its price by the ratio; a dividend scales it as it takes the last close
  // before the day down by the amount. A ratio of 0 and a last close not above 0 leave the price alone.
  ghost predicate ScaledOnce(before: real, after: real, a: Action, lastClose: real) {
    match a
    case Split(_, ratio) => if ratio == 0.0 then after == before else Product(after, ratio) == before
    case Dividend(_, amount) =>
      if lastClose <= 0.0 then after == before else Product(after, lastClose) == Product(before, lastClose - amount)
  }

  // The bars before the action are scaled by it and the others left.
  ghost predicate ScaledBy(bars: Bars, before: seq<real>, after: seq<real>, a: Action)
    requires bars.Valid()
  {
    && |before| == |after| == |bars.times|
    && forall i :: 0 <= i < |bars.times| ==>
         if bars.times[i] >= a.Day() then after[i] == before[i]
         else forall j: nat :: LastBefore(bars, j, a.Day()) ==> ScaledOnce(before[i], after[i], a, bars.closes[j])
  }

  lemma LastBeforeIff(bars: Bars, i: nat, d: int)
    requires bars.Valid()
    ensures LastBefore(bars, i, d) <==> bars.Before(d) > 0 && i == bars.Before(d) - 1
  {
    var n := bars.Before(d);
    hide CountBefore;
    assert n > 0 ==> bars.times[n - 1] < d;
    assert i + 1 < n ==> bars.times[i + 1] < d;
  }

  lemma ScaledByFactor(p: real, a: Action, lastClose: real)
    ensures ScaledOnce(p, Product(p, ComputeAdjustmentFactor(a, lastClose)), a, lastClose)
  {
    match a
    case Split(_, ratio) =>
      if ratio != 0.0 { assert p * (1.0 / ratio) * ratio == p * ((1.0 / ratio) * ratio); }
    case Dividend(_, amount) =>
      if lastClose > 0.0 {
        var f := (lastClose - amount) / lastClose;
        assert f * lastClose == lastClose - amount;
        Associate(p, f, lastClose);
      }
  }

  /** Without actions the prices are the closes, and each action, wherever it stands in the list, scales the prices of
      the bars before it once. */
  lemma EachActionScalesOnce(bars: Bars, xs: seq<Action>, a: Action, ys: seq<Action>)
    requires bars.Valid()
    ensures AdjustedCloses(bars, []) == bars.closes
    ensures ScaledBy(bars, AdjustedCloses(bars, xs + ys), AdjustedCloses(bars, xs + [a] + ys), a)
  {
    NoActions(bars);
    assert multiset(xs + [a] + ys) == multiset((xs + ys) + [a]);
    SameAdjustedCloses(bars, xs + [a] + ys, (xs + ys) + [a]);
    LastActionScalesOnce(bars, xs + ys, a);
  }

  lemma LastActionScalesOnce(bars: Bars, rest: seq<Action>, a: Action)
    requires bars.Valid()
    ensures ScaledBy(bars, AdjustedCloses(bars, rest), AdjustedCloses(bars, rest + [a]), a)
  {
    var all := rest + [a];
    assert all[..|rest|] == rest;
    var n := bars.Before(a.Day());
    hide Product, CountBefore, ScaledOnce, ComputeAdjustmentFactor;
    forall i | 0 <= i < |bars.times|
      ensures bars.times[i] >= a.Day() ==> AdjustedCloses(bars, all)[i] == AdjustedCloses(bars, rest)[i]
      ensures bars.times[i] < a.Day() ==>
        forall j: nat :: LastBefore(bars, j, a.Day()) ==>
          ScaledOnce(AdjustedCloses(bars, rest)[i], AdjustedCloses(bars, all)[i], a, bars.closes[j])
    {
      if bars.times[i] < a.Day() {
        var c, p := bars.closes[i], ProductAfter(bars, rest, bars.times[i]);
        var f := ComputeAdjustmentFactor(a, bars.closes[n - 1]);
        assert AdjustedCloses(bars, all)[i] == Product(c, Product(p, f));
        ProductLaws(c, p, f);
        ScaledByFactor(Product(c, p), a, bars.closes[n - 1]);
        forall j: nat | LastBefore(bars, j, a.Day()) ensures j == n - 1 { LastBeforeIff(bars, j, a.Day()); }
      }
    }
  }

  /** A dividend on its own takes the last close before it down by its amount; a split divides every earlier close by
      its ratio. */
  lemma SingleAction(bars: Bars, a: Action, i: nat)
    requires bars.Valid() && i < |bars.times| && bars.times[i] < a.Day()
    ensures a.Dividend? && LastBefore(bars, i, a.exDate) && bars.closes[i] > 0.0 ==>
      AdjustedCloses(bars, [a])[i] == bars.closes[i] - a.amount
    ensures a.Split? && a.ratio != 0.0 ==> Product(AdjustedCloses(bars, [a])[i], a.ratio) == bars.closes[i]
  {
    var none: seq<Action> := [];
    EachActionScalesOnce(bars, none, a, none);
    assert none + [a] + none == [a] && none + none == none;
    LastBeforeIff(bars, bars.Before(a.Day()) - 1, a.Day());
    var after := AdjustedCloses(bars, [a])[i];
    hide AdjustedCloses, CountBefore, Product;
    if a.Dividend? && LastBefore(bars, i, a.exDate) && bars.closes[i] > 0.0 {
      var c := bars.closes[i];
      assert Product(after, c) == Product(c, c - a.amount);
      ProductLaws(after, c, 1.0);
      CancelProduct(c, after, c - a.amount);
    }
  }

  lemma CancelProduct(r: real, u: real, v: real)
    requires r > 0.0 && Product(r, u) == Product(r, v)
    ensures u == v
  {
    CancelFactor(r, u, v);
  }

  // ---------------------------------------------------------------- the processor

  const BY_DAY := (a: Action) => a.Day() as real

  lemma {:induction false} ProductOfLaterActions(bars: Bars, actions: seq<Action>, t: int, s: int)
    requires bars.Valid()
    requires forall a :: a in actions ==> a.Day() > t && a.Day() > s
    ensures ProductAfter(bars, actions, t) == ProductAfter(bars, actions, s)
  {
    hide Factor, Product;
    if actions != [] { ProductOfLaterActions(bars, actions[..|actions| - 1], t, s); }
  }

  /** One round of the descending loop: `earliest` is the first bar's time, before which nothing is updated. */
  lemma AdjustmentRound(bars: Bars, done: seq<Action>, action: Action, earliest: int)
    requires bars.Valid() && Descending(done + [action], BY_DAY)
    requires bars.times != [] ==> earliest == bars.times[0]
    requires bars.times == [] ==> earliest >= action.Day()
    ensures var before := bars.Before(action.Day());
            var now := done + [action];
            && ProductAfter(bars, now, earliest)
               == (if before == 0 then ProductAfter(bars, done, earliest)
                   else Product(ProductAfter(bars, done, earliest), Factor(bars, action)))
            && forall i :: 0 <= i < |bars.times| ==>
                 ProductAfter(bars, now, bars.times[i])
                 == if i < before then ProductAfter(bars, now, earliest) else ProductAfter(bars, done, bars.times[i])
  {
    hide Factor, Product;
    var before := bars.Before(action.Day());
    var now := done + [action];
    assert now[..|done|] == done;
    forall i | 0 <= i < before
      ensures ProductAfter(bars, now, bars.times[i]) == ProductAfter(bars, now, earliest)
    {
      assert BY_DAY(action) > bars.times[i] as real;
      forall a | a in now ensures a.Day() > bars.times[i] {
        var k :| 0 <= k < |now| && now[k] == a;
        assert k < |done| ==> BY_DAY(now[k]) >= BY_DAY(now[|done|]);
      }
      hide *;
      ProductOfLaterActions(bars, now, bars.times[i], earliest);
    }
  }

  lemma OneAction(bars: Bars, actions: seq<Action>)
    requires bars.Valid() && |actions| == 1
    ensures ScaledBy(bars, bars.closes, AdjustedCloses(bars, actions), actions[0])
  {
    var none: seq<Action> := [];
    EachActionScalesOnce(bars, none, actions[0], none);
    assert none + [actions[0]] + none == actions && none + none == none;
    hide AdjustedCloses, ScaledBy;
  }

  class OhlcvTable {
    ghost const bars: Bars
    const times: seq<int>
    const closes: seq<real>
    const adjusted: array<real>

    ghost predicate Valid() {
      bars.Valid() && times == bars.times && closes == bars.closes && adjusted.Length == |times|
    }

    constructor (bars: Bars)
      requires bars.Valid()
      ensures Valid() && this.bars == bars && adjusted[..] == bars.closes && fresh(adjusted)
    {
      this.bars, times, closes := bars, bars.times, bars.closes;
      adjusted := new real[|bars.closes|](i requires 0 <= i < |bars.closes| => bars.closes[i]);
    }

    /** With at least one action the column is recomputed from the closes, whatever it held; with none it
        is left as it was, so a stale adjustment survives the removal of the last action. */
    method ApplyAdjustments(actions: seq<Action>) returns (totalUpdated: nat)
      requires Valid()
      modifies adjusted
      ensures actions != [] ==> adjusted[..] == AdjustedCloses(bars, actions)
      ensures actions == [] ==> adjusted[..] == old(adjusted[..])
      ensures adjusted[..] == AdjustedCloses(bars, actions)
         <==> actions != [] || old(adjusted[..]) == closes
      ensures |actions| == 1 ==> ScaledBy(bars, closes, adjusted[..], actions[0])
      ensures totalUpdated == UpdatesPerBar(bars.times, actions)
    {
      if actions == [] {
        NoActions(bars);
        return 0;
      }
      UpdateFirst(|times|, 1.0);
      NoActions(bars);
      assert adjusted[..] == AdjustedCloses(bars, []);
      var sorted := SortDescending(actions, BY_DAY);
      totalUpdated := ApplySorted(sorted);
      SameAdjustedCloses(bars, sorted, actions);
      if |actions| == 1 { OneAction(bars, actions); }
    }

    // The effect on the table of one UPDATE over the bars before some day.
    method UpdateFirst(n: nat, factor: real)
      requires Valid() && n <= |times|
      modifies adjusted
      ensures forall i :: 0 <= i < n ==> adjusted[i] == Product(closes[i], factor)
      ensures forall i :: n <= i < |times| ==> adjusted[i] == old(adjusted[i])
    {
      forall i | 0 <= i < n { adjusted[i] := Product(closes[i], factor); }
    }

    // The column, the running product and the row count after the rounds for `done`.
    ghost predicate Progress(done: seq<Action>, earliest: int, cumulative: real, updated: nat)
      requires Valid()
      reads adjusted
    {
      && cumulative == ProductAfter(bars, done, earliest)
      && adjusted[..] == AdjustedCloses(bars, done)
      && updated == UpdatesPerBar(times, done)
    }

    method ApplySorted(sorted: seq<Action>) returns (totalUpdated: nat)
      requires Valid() && sorted != [] && Descending(sorted, BY_DAY)
      requires adjusted[..] == AdjustedCloses(bars, [])
      modifies adjusted
      ensures adjusted[..] == AdjustedCloses(bars, sorted)
      ensures totalUpdated == UpdatesPerBar(bars.times, sorted)
    {
      totalUpdated := 0;
      var cumulative := 1.0;
      ghost var earliest := if times == [] then sorted[0].Day() else times[0];
      NoActions(bars);
      assert sorted[..0] == [];
      for k := 0 to |sorted|
        invariant Progress(sorted[..k], earliest, cumulative, totalUpdated)
      {
        assert sorted[..k + 1] == sorted[..k] + [sorted[k]];
        assert times == [] ==> earliest >= sorted[k].Day() by { assert BY_DAY(sorted[0]) >= BY_DAY(sorted[k]); }
        cumulative, totalUpdated := ApplyOne(sorted[..k], sorted[k], earliest, cumulative, totalUpdated);
      }
      assert sorted[..|sorted|] == sorted;
    }

    method ApplyOne(ghost done: seq<Action>, action: Action, ghost earliest: int, cumulative: real, updated: nat)
      returns (cumulative': real, updated': nat)
      requires Valid() && Descending(done + [action], BY_DAY)
      requires if times == [] then earliest >= action.Day() else earliest == times[0]
      requires Progress(done, earliest, cumulative, updated)
      modifies adjusted
      ensures Progress(done + [action], earliest, cumulative', updated')
    {
      var before := CountBefore(times, action.Day());
      assert bars.Before(action.Day()) == before;
      hide ProductAfter, UpdatesPerBar, Product, Factor, ComputeAdjustmentFactor, CountBefore, BY_DAY;
      UpdatesPerBarOfOneMore(times, done, action);
      AdjustmentRound(bars, done, action, earliest);
      cumulative', updated' := cumulative, updated + before;
      if before > 0 {
        FactorOfPreceded(bars, action);
        cumulative' := Product(cumulative, ComputeAdjustmentFactor(action, closes[before - 1]));
        UpdateFirst(before, cumulative');
      }
      RoundOnColumn(bars, done, action, earliest, old(adjusted[..]), adjusted[..]);
    }

    /** Reports the actions whose last preceding bar has an unadjusted close. */
    method DetectUnprocessedActions(actionsInDb: seq<Action>) returns (unprocessed: seq<Action>)
      requires Valid()
      ensures unprocessed == Report(bars, adjusted[..], actionsInDb)
      ensures forall a :: a in unprocessed <==>
        a in actionsInDb && exists i: nat :: LastBefore(bars, i, a.Day()) && closes[i] == adjusted[i]
    {
      unprocessed := [];
      for i := 0 to |actionsInDb|
        invariant unprocessed == Report(bars, adjusted[..], actionsInDb[..i])
      {
        assert actionsInDb[..i + 1][..i] == actionsInDb[..i];
        var before := CountBefore(times, actionsInDb[i].Day());
        if before > 0 && closes[before - 1] == adjusted[before - 1] {
          unprocessed := unprocessed + [actionsInDb[i]];
        }
      }
      assert actionsInDb[..|actionsInDb|] == actionsInDb;
      forall a ensures a in unprocessed <==>
        a in actionsInDb && exists i: nat :: LastBefore(bars, i, a.Day()) && closes[i] == adjusted[i]
      {
        Reported(bars, adjusted[..], actionsInDb, a);
        LooksUnprocessedIff(bars, adjusted[..], a);
        hide LooksUnprocessed, Report, LastBefore;
      }
    }
  }

  // The column after a round, from the column before it.
  lemma RoundOnColumn(bars: Bars, done: seq<Action>, action: Action, earliest: int, before: seq<real>, after: seq<real>)
    requires bars.Valid() && Descending(done + [action], BY_DAY)
    requires bars.times != [] ==> earliest == bars.times[0]
    requires bars.times == [] ==> earliest >= action.Day()
    requires before == AdjustedCloses(bars, done) && |after| == |before|
    requires forall i :: 0 <= i < |before| ==>
      after[i] == if i < bars.Before(action.Day())
                  then Product(bars.closes[i], ProductAfter(bars, done + [action], earliest)) else before[i]
    ensures after == AdjustedCloses(bars, done + [action])
  {
    AdjustmentRound(bars, done, action, earliest);
    hide ProductAfter, Product, Factor, CountBefore, BY_DAY;
  }

  lemma FactorOfPreceded(bars: Bars, action: Action)
    requires bars.Valid() && CountBefore(bars.times, action.Day()) > 0
    ensures Factor(bars, action)
         == ComputeAdjustmentFactor(action, bars.closes[CountBefore(bars.times, action.Day()) - 1])
  {
  }

  lemma NoActions(bars: Bars)
    requires bars.Valid()
    ensures AdjustedCloses(bars, []) == bars.closes
    ensures UpdatesPerBar(bars.times, []) == 0
  {
    NoUpdates(bars.times);
    hide Product;
    forall i | 0 <= i < |bars.closes| ensures AdjustedCloses(bars, [])[i] == bars.closes[i] {
      ProductLaws(bars.closes[i], 1.0, 1.0);
    }
  }

  lemma {:induction false} NoUpdates(times: seq<int>)
    ensures UpdatesPerBar(times, []) == 0
  {
    if times != [] { NoUpdates(times[..|times| - 1]); }
  }

  // ---------------------------------------------------------------- what detection reports afterwards

  ghost predicate LooksUnprocessed(bars: Bars, adjusted: seq<real>, a: Action)
    requires bars.Valid() && |adjusted| == |bars.times|
  {
    var n := bars.Before(a.Day());
    n > 0 && bars.closes[n - 1] == adjusted[n - 1]
  }

  lemma LooksUnprocessedIff(bars: Bars, adjusted: seq<real>, a: Action)
    requires bars.Valid() && |adjusted| == |bars.times|
    ensures LooksUnprocessed(bars, adjusted, a)
      <==> exists i: nat :: LastBefore(bars, i, a.Day()) && bars.closes[i] == adjusted[i]
  {
    var n := bars.Before(a.Day());
    forall i: nat ensures LastBefore(bars, i, a.Day()) <==> n > 0 && i == n - 1 { LastBeforeIff(bars, i, a.Day()); }
    hide LastBefore, CountBefore;
  }

  // The actions that look unprocessed, in the order given.
  ghost function Report(bars: Bars, adjusted: seq<real>, actions: seq<Action>): seq<Action>
    requires bars.Valid() && |adjusted| == |bars.times|
  {
    if actions == [] then []
    else
      var last := actions[|actions| - 1];
      Report(bars, adjusted, actions[..|actions| - 1]) + if LooksUnprocessed(bars, adjusted, last) then [last] else []
  }

  lemma {:induction false} Reported(bars: Bars, adjusted: seq<real>, actions: seq<Action>, a: Action)
    requires bars.Valid() && |adjusted| == |bars.times|
    ensures a in Report(bars, adjusted, actions) <==> a in actions && LooksUnprocessed(bars, adjusted, a)
  {
    hide LooksUnprocessed;
    if actions != [] {
      Reported(bars, adjusted, actions[..|actions| - 1], a);
      assert actions == actions[..|actions| - 1] + [actions[|actions| - 1]];
    }
  }

  /** After an adjustment, detection reports an action exactly when the factors after its last preceding
      bar multiply to one, whether or not that action was applied. */
  lemma DetectionAfterAdjustment(bars: Bars, actions: seq<Action>, a: Action)
    requires bars.Valid() && forall i :: 0 <= i < |bars.closes| ==> bars.closes[i] > 0.0
    ensures var n := bars.Before(a.Day());
            LooksUnprocessed(bars, AdjustedCloses(bars, actions), a)
            <==> n > 0 && ProductAfter(bars, actions, bars.times[n - 1]) == 1.0
  {
    hide Factor, ProductAfter, Product;
    var n := bars.Before(a.Day());
    if n > 0 {
      var c, p := bars.closes[n - 1], ProductAfter(bars, actions, bars.times[n - 1]);
      assert AdjustedCloses(bars, actions)[n - 1] == Product(c, p);
      UnitFactor(c, p);
    }
  }

  lemma UnitFactor(c: real, p: real)
    requires c > 0.0
    ensures Product(c, p) == c <==> p == 1.0
  {
    if c * p == c { CancelFactor(c, p, 1.0); }
  }

  lemma {:induction false} ProductOfProperFactors(bars: Bars, actions: seq<Action>, t: int)
    requires bars.Valid() && forall a :: a in actions && a.Day() > t ==> 0.0 < Factor(bars, a) < 1.0
    ensures 0.0 < ProductAfter(bars, actions, t) <= 1.0
    ensures (exists a :: a in actions && a.Day() > t) ==> ProductAfter(bars, actions, t) < 1.0
  {
    hide Factor, Product;
    if actions != [] {
      var rest, last := actions[..|actions| - 1], actions[|actions| - 1];
      ProductOfProperFactors(bars, rest, t);
      assert last in actions;
      if last.Day() > t {
        ProductOfFractions(ProductAfter(bars, rest, t), Factor(bars, last));
      } else if exists a :: a in actions && a.Day() > t {
        var a :| a in actions && a.Day() > t;
        assert a in rest;
      }
    }
  }

  lemma ProductOfFractions(p: real, f: real)
    requires 0.0 < p <= 1.0 && 0.0 < f < 1.0
    ensures 0.0 < Product(p, f) < 1.0
  {
    ProductPositive(p, f);
    ProductPositive(p, 1.0 - f);
  }

  // A split into more shares, or a dividend of less than the last close before it.
  ghost predicate Discounts(bars: Bars, a: Action)
    requires bars.Valid()
  {
    match a
    case Split(_, ratio) => ratio > 1.0
    case Dividend(day, amount) =>
      amount > 0.0 && forall i: nat :: LastBefore(bars, i, day) ==> amount < bars.closes[i]
  }

  lemma DiscountIsProper(bars: Bars, a: Action)
    requires bars.Valid() && bars.Before(a.Day()) > 0 && Discounts(bars, a)
    requires forall i :: 0 <= i < |bars.closes| ==> bars.closes[i] > 0.0
    ensures 0.0 < Factor(bars, a) < 1.0
  {
    var n := bars.Before(a.Day());
    LastBeforeIff(bars, n - 1, a.Day());
    hide CountBefore;
    match a
    case Split(_, ratio) => ProperFraction(1.0, ratio);
    case Dividend(_, amount) => ProperFraction(bars.closes[n - 1] - amount, bars.closes[n - 1]);
  }

  lemma ProperFraction(a: real, b: real)
    requires 0.0 < a < b
    ensures 0.0 < a / b < 1.0
  {
    var q := a / b;
    assert q * b == a;
    AtLeastOfProduct(q, b);
    if q >= 1.0 { ProductNonNegative(q - 1.0, b); }
  }

  /** On positive closes, if every split has a ratio above 1 and every dividend is less than the last close before it,
      detection over the applied actions is silent. */
  lemma NothingLeftToDetect(bars: Bars, actions: seq<Action>)
    requires bars.Valid() && forall i :: 0 <= i < |bars.closes| ==> bars.closes[i] > 0.0
    requires forall x :: x in actions ==> Discounts(bars, x)
    ensures Report(bars, AdjustedCloses(bars, actions), actions) == []
  {
    var report := Report(bars, AdjustedCloses(bars, actions), actions);
    hide Factor, Product, Report, LooksUnprocessed, Discounts;
    if report != [] {
      var a := report[0];
      Reported(bars, AdjustedCloses(bars, actions), actions, a);
      DetectionAfterAdjustment(bars, actions, a);
      var n := bars.Before(a.Day());
      forall x | x in actions && x.Day() > bars.times[n - 1] ensures 0.0 < Factor(bars, x) < 1.0 {
        DiscountIsProper(bars, x);
      }
      ProductOfProperFactors(bars, actions, bars.times[n - 1]);
      assert false;
    }
  }

  /** Otherwise detection can mislead: a split undone by a reverse split is reported although both
      were applied. */
  lemma CancellingSplitsAreReported()
    ensures var bars := Bars([1], [10.0]);
            var actions := [Split(2, 2.0), Split(3, 0.5)];
            && bars.Valid()
            && (forall a :: a in actions ==> LooksUnprocessed(bars, AdjustedCloses(bars, actions), a))
  {
    var bars, first, second := Bars([1], [10.0]), Split(2, 2.0), Split(3, 0.5);
    var actions := [first, second];
    assert actions[..1] == [first] && [first][..0] == [];
    assert Factor(bars, first) == 0.5 && Factor(bars, second) == 2.0;
    assert ProductAfter(bars, [first], 1) == 0.5;
    assert ProductAfter(bars, actions, 1) == 1.0;
  }
}
