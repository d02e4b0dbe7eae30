/** The Kalman hedge-ratio filter of the pairs strategy, in exact real arithmetic.

    `HedgeRatioFilter` mutates its fields as the strategy's filter does; `Step` and `Run` are the
    specification it is proved against, and the lemmas say what `Run` computes:
    ridge regression when the state variance is zero, and a stable contracting estimator otherwise. */
module KalmanHedgeRatio {
  import opened RealArithmetic

  datatype Observation = Observation(x: real, y: real)

  datatype Estimate = Estimate(beta: real, r: real)

  const INITIAL := Estimate(0.0, 1.0)
  const DEFAULT_DELTA := 0.0001
  const DEFAULT_VE := 0.001

  // The variance of the innovation y - beta * x, by which the gain divides.
  function Innovation(e: Estimate, delta: real, ve: real, x: real): real {
    x * (e.r + delta) * x + ve
  }

  function Step(e: Estimate, delta: real, ve: real, o: Observation): Estimate
    requires Innovation(e, delta, ve, o.x) != 0.0
  {
    var prior := e.r + delta;
    var gain := prior * o.x / Innovation(e, delta, ve, o.x);
    Estimate(e.beta + gain * (o.y - e.beta * o.x), (1.0 - gain * o.x) * prior)
  }

  /** The estimate after a whole sequence of observations. */
  function Run(delta: real, ve: real, obs: seq<Observation>): (e: Estimate)
    requires delta >= 0.0 && ve > 0.0
    ensures e.r > 0.0
  {
    if obs == [] then INITIAL
    else
      var before := Run(delta, ve, obs[..|obs| - 1]);
      StepClearsDenominator(before, delta, ve, obs[|obs| - 1]);
      Step(before, delta, ve, obs[|obs| - 1])
  }

  /** The update without its division: posterior variance and estimate over the common denominator. */
  lemma StepClearsDenominator(e: Estimate, delta: real, ve: real, o: Observation)
    requires delta >= 0.0 && ve > 0.0 && e.r > 0.0
    ensures var d := Innovation(e, delta, ve, o.x);
            && d == (e.r + delta) * Square(o.x) + ve
            && d >= ve
    ensures var d := Innovation(e, delta, ve, o.x);
            var e' := Step(e, delta, ve, o);
            && e'.r * d == ve * (e.r + delta)
            && e'.beta * d == ve * e.beta + (e.r + delta) * Product(o.x, o.y)
            && e'.r > 0.0
  {
    var p, x, d := e.r + delta, o.x, Innovation(e, delta, ve, o.x);
    assert x * p * x == p * (x * x);
    ProductNonNegative(p, x * x);
    var gain := p * x / d;
    assert gain * d == p * x;
    GainAlgebra(p, x, o.y, ve, e.beta, d, gain);
    var r' := (1.0 - gain * x) * p;
    assert Step(e, delta, ve, o).r == r';
    PositiveFactor(r', d, ve, p);
  }

  lemma PositiveFactor(u: real, d: real, v: real, p: real)
    requires d > 0.0 && v > 0.0 && p > 0.0 && u * d == v * p
    ensures u > 0.0
  {
    ProductPositive(v, p);
    if u <= 0.0 { ProductNonNegative(-u, d); }
  }

  lemma GainAlgebra(p: real, x: real, y: real, ve: real, beta: real, d: real, gain: real)
    requires d == p * (x * x) + ve && gain * d == p * x
    ensures ((1.0 - gain * x) * p) * d == ve * p
    ensures (beta + gain * (y - beta * x)) * d == ve * beta + p * (x * y)
  {
    var gx := gain * x;
    assert gx * d == p * (x * x) by { assert gx * d == (gain * d) * x; }
    calc {
      ((1.0 - gx) * p) * d;
      p * (d - gx * d);
      p * ve;
    }
    var innovation := y - beta * x;
    calc {
      (beta + gain * innovation) * d;
      beta * d + (gain * d) * innovation;
      beta * (p * (x * x) + ve) + (p * x) * (y - beta * x);
      ve * beta + p * (x * y);
    }
  }

  lemma RunOfNothing(delta: real, ve: real)
    requires delta >= 0.0 && ve > 0.0
    ensures Run(delta, ve, []) == INITIAL
  {
  }

  // ---------------------------------------------------------------- batch regression

  function SumXX(obs: seq<Observation>): real {
    if obs == [] then 0.0
    else var o := obs[|obs| - 1]; SumXX(obs[..|obs| - 1]) + Square(o.x)
  }

  function SumXY(obs: seq<Observation>): real {
    if obs == [] then 0.0
    else var o := obs[|obs| - 1]; SumXY(obs[..|obs| - 1]) + Product(o.x, o.y)
  }

  function SumYY(obs: seq<Observation>): real {
    if obs == [] then 0.0
    else var o := obs[|obs| - 1]; SumYY(obs[..|obs| - 1]) + Square(o.y)
  }

  /** The penalised squared error of a constant hedge ratio b. */
  function RidgeCost(ve: real, obs: seq<Observation>, b: real): real {
    if obs == [] then ve * Square(b)
    else
      var o := obs[|obs| - 1];
      RidgeCost(ve, obs[..|obs| - 1], b) + Square(o.y - Product(b, o.x))
  }

  /** With no state noise the recursion is batch regression with penalty ve. */
  lemma {:induction false} RecursionIsBatchRegression(ve: real, obs: seq<Observation>)
    requires ve > 0.0
    ensures Run(0.0, ve, obs).beta * (ve + SumXX(obs)) == SumXY(obs)
    ensures Run(0.0, ve, obs).r * (ve + SumXX(obs)) == ve
    ensures SumXX(obs) >= 0.0
  {
    hide Step, Innovation, Product, Square;
    if obs != [] {
      var past, o := obs[..|obs| - 1], obs[|obs| - 1];
      RecursionIsBatchRegression(ve, past);
      var e := Run(0.0, ve, past);
      StepClearsDenominator(e, 0.0, ve, o);
      var e' := Run(0.0, ve, obs);
      RidgeStep(e.r, e.beta, ve + SumXX(past), SumXY(past), ve, Square(o.x), Product(o.x, o.y),
                Innovation(e, 0.0, ve, o.x), e'.r, e'.beta);
      SquareNonNegative(o.x);
    }
  }

  lemma SquareNonNegative(a: real)
    ensures Square(a) >= 0.0
  {
  }

  lemma RidgeStep(r: real, beta: real, a: real, q: real, ve: real, xx: real, xy: real, d: real, r': real, beta': real)
    requires r > 0.0 && r * a == ve && beta * a == q && d == r * xx + ve
    requires r' * d == ve * r && beta' * d == ve * beta + r * xy
    ensures r' * (a + xx) == ve && beta' * (a + xx) == q + xy
  {
    var a' := a + xx;
    assert r * xx + ve == r * a';
    assert r' * (r * a') == r * (r' * a');
    CancelFactor(r, r' * a', ve);
    assert beta' * (r * a') == r * (beta' * a');
    assert ve * beta == r * (beta * a) by { assert (r * a) * beta == r * (beta * a); }
    CancelFactor(r, beta' * a', q + xy);
  }

  // The quadratic c - 2 q b + a b^2.
  function Quadratic(a: real, q: real, c: real, b: real): real { c - 2.0 * (b * q) + (b * b) * a }

  lemma {:induction false} RidgeCostIsQuadratic(ve: real, obs: seq<Observation>, b: real)
    ensures RidgeCost(ve, obs, b) == Quadratic(ve + SumXX(obs), SumXY(obs), SumYY(obs), b)
  {
    hide Product, Square, Quadratic;
    if obs == [] {
      QuadraticOfPenalty(ve, b);
    } else {
      var past, o := obs[..|obs| - 1], obs[|obs| - 1];
      RidgeCostIsQuadratic(ve, past, b);
      QuadraticAdds(ve + SumXX(past), SumXY(past), SumYY(past), b, o);
    }
  }

  lemma QuadraticOfPenalty(ve: real, b: real)
    ensures ve * Square(b) == Quadratic(ve, 0.0, 0.0, b)
  {
  }

  lemma QuadraticAdds(a: real, q: real, c: real, b: real, o: Observation)
    ensures Quadratic(a, q, c, b) + Square(o.y - Product(b, o.x))
         == Quadratic(a + Square(o.x), q + Product(o.x, o.y), c + Square(o.y), b)
  {
    var xx, xy := o.x * o.x, o.x * o.y;
    SquareExpands(o.x, o.y, b);
    assert b * (q + xy) == b * q + b * xy;
    assert (b * b) * (a + xx) == (b * b) * a + (b * b) * xx;
  }

  lemma SquareExpands(x: real, y: real, b: real)
    ensures (y - b * x) * (y - b * x) == y * y - 2.0 * (b * (x * y)) + (b * b) * (x * x)
  {
  }

  /** Hence the filter's estimate is the unique minimiser of the penalised squared error. */
  lemma EstimateMinimisesRidgeCost(ve: real, obs: seq<Observation>, b: real)
    requires ve > 0.0
    ensures var beta := Run(0.0, ve, obs).beta;
            && RidgeCost(ve, obs, beta) <= RidgeCost(ve, obs, b)
            && (RidgeCost(ve, obs, beta) == RidgeCost(ve, obs, b) ==> b == beta)
  {
    hide *;
    var beta := Run(0.0, ve, obs).beta;
    RecursionIsBatchRegression(ve, obs);
    RidgeCostIsQuadratic(ve, obs, b);
    RidgeCostIsQuadratic(ve, obs, beta);
    CompletedSquare(b, beta, ve + SumXX(obs), SumXY(obs), SumYY(obs));
    SquareGain(b - beta, ve + SumXX(obs));
  }

  lemma SquareGain(gap: real, a: real)
    requires a > 0.0
    ensures gap * (gap * a) >= 0.0
    ensures gap * (gap * a) == 0.0 ==> gap == 0.0
  {
    if gap > 0.0 {
      ProductPositive(gap, a);
      ProductPositive(gap, gap * a);
    } else if gap < 0.0 {
      ProductPositive(-gap, a);
      ProductPositive(-gap, -gap * a);
    }
  }

  lemma CompletedSquare(b: real, beta: real, a: real, q: real, c: real)
    requires beta * a == q
    ensures Quadratic(a, q, c, b) - Quadratic(a, q, c, beta) == (b - beta) * ((b - beta) * a)
  {
    calc {
      (b - beta) * ((b - beta) * a);
      (b * b) * a - 2.0 * (b * (beta * a)) + (beta * beta) * a;
      (b * b) * a - 2.0 * (b * (beta * a)) + beta * (beta * a);
    }
    assert (beta * beta) * a == beta * (beta * a);
  }

  // ---------------------------------------------------------------- stability

  /** The posterior variance after an observation with |x| >= m stays below ve / m^2. */
  lemma VarianceBounded(delta: real, ve: real, obs: seq<Observation>, m: real)
    requires delta >= 0.0 && ve > 0.0 && m > 0.0
    requires obs != [] && obs[|obs| - 1].x * obs[|obs| - 1].x >= m * m
    ensures 0.0 < Run(delta, ve, obs).r < ve / (m * m)
  {
    hide Step;
    var e, o := Run(delta, ve, obs[..|obs| - 1]), obs[|obs| - 1];
    var e' := Run(delta, ve, obs);
    StepClearsDenominator(e, delta, ve, o);
    var p, xx := e.r + delta, o.x * o.x;
    assert Innovation(e, delta, ve, o.x) == p * xx + ve;
    PosteriorBelow(e'.r, p, xx, ve);
    ProductNonNegative(e'.r, xx - m * m);
    SquarePositive(m);
    ScaleDifference(e'.r, xx, m * m);
    BelowQuotient(e'.r, m * m, ve);
  }

  lemma PosteriorBelow(r: real, p: real, xx: real, ve: real)
    requires p > 0.0 && ve > 0.0 && r > 0.0 && r * (p * xx + ve) == ve * p
    ensures r * xx < ve
  {
    ProductPositive(r, ve);
    assert p * (ve - r * xx) == r * ve;
    if ve - r * xx <= 0.0 { ProductNonNegative(p, r * xx - ve); }
  }

  // An observation with x = 0 has no slope and asks nothing.
  ghost predicate SlopeWithin(o: Observation, lo: real, hi: real) {
    o.x == 0.0 || lo <= o.y / o.x <= hi
  }

  /** The estimate never leaves the hull of 0 and the slopes y / x seen so far. */
  lemma {:induction false} EstimateStaysInHull(delta: real, ve: real, obs: seq<Observation>, lo: real, hi: real)
    requires delta >= 0.0 && ve > 0.0 && lo <= 0.0 <= hi
    requires forall o :: o in obs ==> SlopeWithin(o, lo, hi)
    ensures lo <= Run(delta, ve, obs).beta <= hi
  {
    hide Step;
    if obs != [] {
      var past, o := obs[..|obs| - 1], obs[|obs| - 1];
      EstimateStaysInHull(delta, ve, past, lo, hi);
      var e, e' := Run(delta, ve, past), Run(delta, ve, obs);
      StepClearsDenominator(e, delta, ve, o);
      assert SlopeWithin(o, lo, hi);
      var slope := if o.x == 0.0 then 0.0 else o.y / o.x;
      var xx := o.x * o.x;
      assert o.x * o.y == xx * slope by {
        if o.x != 0.0 { assert slope * o.x == o.y; assert o.x * (slope * o.x) == xx * slope; }
      }
      ProductNonNegative(e.r + delta, xx);
      WeightedMeanWithin(e'.beta, e.beta, slope, ve, (e.r + delta) * xx, lo, hi) by {
        assert (e.r + delta) * (xx * slope) == ((e.r + delta) * xx) * slope;
      }
    }
  }

  lemma WeightedMeanWithin(mean: real, u: real, v: real, wu: real, wv: real, lo: real, hi: real)
    requires lo <= u <= hi && lo <= v <= hi && wu > 0.0 && wv >= 0.0
    requires mean * (wv + wu) == wu * u + wv * v
    ensures lo <= mean <= hi
  {
    ProductNonNegative(wu, u - lo);
    ProductNonNegative(wv, v - lo);
    ProductNonNegative(wu, hi - u);
    ProductNonNegative(wv, hi - v);
    AtLeastOfProduct(mean - lo, wv + wu);
    AtLeastOfProduct(hi - mean, wv + wu);
  }

  function Power(base: real, n: nat): real {
    if n == 0 then 1.0 else base * Power(base, n - 1)
  }

  /** On data with a true ratio b the error shrinks geometrically, at a rate set by delta, ve and a lower bound
      mm > 0 on x^2. */
  lemma ErrorContracts(delta: real, ve: real, obs: seq<Observation>, mm: real, b: real)
    requires delta >= 0.0 && ve > 0.0 && mm > 0.0
    requires forall i :: 0 <= i < |obs| ==> obs[i].y == b * obs[i].x && obs[i].x * obs[i].x >= mm
    ensures mm * delta + ve >= ve
    ensures Abs(Run(delta, ve, obs).beta - b) <= Power(ve / (mm * delta + ve), |obs|) * Abs(b)
  {
    ProductNonNegative(mm, delta);
    ErrorContractsAt(delta, ve, obs, mm, b, ve / (mm * delta + ve));
  }

  lemma {:induction false} ErrorContractsAt(delta: real, ve: real, obs: seq<Observation>, mm: real, b: real, rate: real)
    requires delta >= 0.0 && ve > 0.0 && mm > 0.0
    requires forall i :: 0 <= i < |obs| ==> obs[i].y == b * obs[i].x && obs[i].x * obs[i].x >= mm
    requires mm * delta + ve >= ve && rate == ve / (mm * delta + ve)
    ensures Abs(Run(delta, ve, obs).beta - b) <= Power(rate, |obs|) * Abs(b)
  {
    hide Step, Innovation;
    if obs != [] {
      var past, o := obs[..|obs| - 1], obs[|obs| - 1];
      ErrorContractsAt(delta, ve, past, mm, b, rate);
      var e := Run(delta, ve, past);
      ErrorStep(e, delta, ve, o, mm, b, rate);
      ChainBound(Abs(Run(delta, ve, obs).beta - b), Abs(e.beta - b), rate, Power(rate, |past|), Abs(b));
    }
  }

  lemma ChainBound(next: real, previous: real, rate: real, power: real, start: real)
    requires rate >= 0.0 && next <= rate * previous && previous <= power * start
    ensures next <= (rate * power) * start
  {
    ProductNonNegative(rate, power * start - previous);
    Associate(rate, power, start);
  }

  lemma ErrorStep(e: Estimate, delta: real, ve: real, o: Observation, mm: real, b: real, rate: real)
    requires delta >= 0.0 && ve > 0.0 && e.r > 0.0 && mm > 0.0
    requires o.y == b * o.x && o.x * o.x >= mm
    requires mm * delta + ve >= ve && rate == ve / (mm * delta + ve)
    ensures rate >= 0.0
    ensures Innovation(e, delta, ve, o.x) >= ve
    ensures Abs(Step(e, delta, ve, o).beta - b) <= rate * Abs(e.beta - b)
  {
    StepClearsDenominator(e, delta, ve, o);
    hide Step, Innovation;
    ErrorOverDenominator(e.beta, Step(e, delta, ve, o).beta, e.r, delta, ve, o, mm, b, Innovation(e, delta, ve, o.x));
    RateOfFloor(rate, mm * delta + ve, ve);
  }

  lemma RateOfFloor(rate: real, floor: real, ve: real)
    requires 0.0 < ve <= floor && rate == ve / floor
    ensures rate >= 0.0
  {
    assert rate * floor == ve;
    AtLeastOfProduct(rate, floor);
  }

  // One update in division-free form, on data with the true ratio b.
  lemma ErrorOverDenominator(beta: real, beta': real, r: real, delta: real, ve: real, o: Observation, mm: real, b: real,
                             d: real)
    requires delta >= 0.0 && ve > 0.0 && r > 0.0 && mm > 0.0 && mm * delta + ve >= ve
    requires o.y == b * o.x && o.x * o.x >= mm
    requires d == (r + delta) * Square(o.x) + ve && beta' * d == ve * beta + (r + delta) * Product(o.x, o.y)
    ensures Abs(beta' - b) <= (ve / (mm * delta + ve)) * Abs(beta - b)
  {
    hide Abs;
    ErrorScales(beta', beta, b, o, r + delta, ve, d);
    DenominatorFloor(r + delta, delta, o.x * o.x, mm, ve);
    ScaledErrorBound(beta - b, beta' - b, d, mm * delta + ve, ve);
  }

  lemma ErrorScales(beta': real, beta: real, b: real, o: Observation, p: real, ve: real, d: real)
    requires o.y == b * o.x && d == p * (o.x * o.x) + ve && beta' * d == ve * beta + p * (o.x * o.y)
    ensures (beta' - b) * d == ve * (beta - b)
  {
    var xx := o.x * o.x;
    assert o.x * o.y == b * xx;
    assert p * (b * xx) == b * (p * xx);
  }

  lemma DenominatorFloor(p: real, delta: real, xx: real, mm: real, ve: real)
    requires p >= delta >= 0.0 && xx >= mm >= 0.0
    ensures p * xx + ve >= mm * delta + ve
  {
    ProductNonNegative(p, xx - mm);
    ProductNonNegative(p - delta, mm);
  }

  lemma ScaledErrorBound(err: real, err': real, d: real, floor: real, ve: real)
    requires 0.0 < ve <= floor <= d
    requires err' * d == ve * err
    ensures Abs(err') <= (ve / floor) * Abs(err)
  {
    var rate := ve / floor;
    assert rate * floor == ve;
    assert Abs(err') * d == ve * Abs(err) by {
      if err' < 0.0 && err >= 0.0 { ProductPositive(-err', d); ProductNonNegative(ve, err); }
      if err' >= 0.0 && err < 0.0 { ProductNonNegative(err', d); ProductPositive(ve, -err); }
    }
    ProductNonNegative(Abs(err'), d - floor);
    ScaleDifference(Abs(err'), d, floor);
    assert (rate * floor) * Abs(err) == (rate * Abs(err)) * floor;
    AtLeastOfProduct(rate * Abs(err) - Abs(err'), floor);
  }

  // ---------------------------------------------------------------- the strategy's mutable state

  class HedgeRatioFilter {
    const delta: real
    const ve: real
    var beta: real
    var r: real

    function Current(): Estimate
      reads this
    {
      Estimate(beta, r)
    }

    constructor (delta: real, ve: real)
      ensures this.delta == delta && this.ve == ve && Current() == INITIAL
    {
      this.delta, this.ve := delta, ve;
      beta, r := 0.0, 1.0;
    }

    method Update(x: real, y: real) returns (updated: real)
      requires Innovation(Current(), delta, ve, x) != 0.0
      modifies this
      ensures Current() == Step(old(Current()), delta, ve, Observation(x, y))
      ensures updated == beta
    {
      var prior := r + delta;
      var gain := prior * x / (x * prior * x + ve);
      beta := beta + gain * (y - beta * x);
      r := (1.0 - gain * x) * prior;
      return beta;
    }
  }

  // One pass of a filter over a window, after it has already seen `past`.
  method FitWindow(filter: HedgeRatioFilter, ghost past: seq<Observation>, window: seq<Observation>)
    requires filter.delta >= 0.0 && filter.ve > 0.0
    requires filter.Current() == Run(filter.delta, filter.ve, past)
    modifies filter
    ensures filter.Current() == Run(filter.delta, filter.ve, past + window)
  {
    assert past + window[..0] == past;
    for i := 0 to |window|
      invariant filter.Current() == Run(filter.delta, filter.ve, past + window[..i])
    {
      var o := window[i];
      ghost var seen := past + window[..i + 1];
      assert seen[..|seen| - 1] == past + window[..i];
      StepClearsDenominator(filter.Current(), filter.delta, filter.ve, o);
      var _ := filter.Update(o.x, o.y);
    }
    assert window[..|window|] == window;
  }
}
