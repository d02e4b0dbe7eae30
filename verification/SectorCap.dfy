/** Sector trimming of a constructed portfolio, in exact arithmetic.

    The method runs the source's loop: up to ten passes that scale every over-weight sector down to the cap,
    then one renormalisation to the original total. The lemmas give its closed form and say what the cap is
    worth on output. */
module SectorCap {
  import opened RealArithmetic

  datatype Target = Target(symbol: string, sector: string, weight: real, lots: int, value: real, score: real, rank: int)

  function TotalWeight(rows: seq<Target>): real {
    if rows == [] then 0.0 else TotalWeight(rows[..|rows| - 1]) + rows[|rows| - 1].weight
  }

  function SectorWeight(rows: seq<Target>, sector: string): real {
    if rows == [] then 0.0
    else
      SectorWeight(rows[..|rows| - 1], sector)
      + if rows[|rows| - 1].sector == sector then rows[|rows| - 1].weight else 0.0
  }

  // Multiplies every weight by a factor that depends on its sector.
  function ScaleBy(rows: seq<Target>, factor: string -> real): (r: seq<Target>)
    ensures |r| == |rows|
    ensures forall i :: 0 <= i < |r| ==>
      r[i] == rows[i].(weight := Product(factor(rows[i].sector), rows[i].weight))
  {
    seq(|rows|, i requires 0 <= i < |rows| => rows[i].(weight := Product(factor(rows[i].sector), rows[i].weight)))
  }

  function Min(a: real, b: real): real { if a <= b then a else b }

  // The factor that brings a sector of total weight w down to the cap; a weightless sector stays weightless.
  function TrimFactor(w: real, cap: real): real { if w > cap && w != 0.0 then cap / w else 1.0 }

  // Every over-weight sector scaled to the cap.
  function Trimmed(rows: seq<Target>, cap: real): seq<Target>
  {
    ScaleBy(rows, s => TrimFactor(SectorWeight(rows, s), cap))
  }

  // The ratio of the original total to the trimmed total.
  function Renormaliser(rows: seq<Target>, cap: real): real
  {
    var m := TotalWeight(Trimmed(rows, cap));
    if m > 0.0 then TotalWeight(rows) / m else 1.0
  }

  function Capped(rows: seq<Target>, cap: real): seq<Target>
  {
    ScaleBy(Trimmed(rows, cap), s => Renormaliser(rows, cap))
  }

  // ---------------------------------------------------------------- linearity of the sums

  lemma {:induction false} ScaledSector(rows: seq<Target>, factor: string -> real, s: string)
    ensures SectorWeight(ScaleBy(rows, factor), s) == Product(factor(s), SectorWeight(rows, s))
  {
    hide Product;
    if rows == [] {
      DistributeOver(factor(s), 0.0, 0.0);
    } else {
      var init, last := rows[..|rows| - 1], rows[|rows| - 1];
      ScaledSector(init, factor, s);
      assert ScaleBy(rows, factor)[..|init|] == ScaleBy(init, factor);
      DistributeOver(factor(s), SectorWeight(init, s), if last.sector == s then last.weight else 0.0);
      DistributeOver(factor(s), 0.0, 0.0);
    }
  }

  lemma {:induction false} ScaledTotal(rows: seq<Target>, k: real)
    ensures TotalWeight(ScaleBy(rows, s => k)) == Product(k, TotalWeight(rows))
  {
    hide Product;
    if rows == [] {
      DistributeOver(k, 0.0, 0.0);
    } else {
      var init := rows[..|rows| - 1];
      ScaledTotal(init, k);
      assert ScaleBy(rows, s => k)[..|init|] == ScaleBy(init, s => k);
      DistributeOver(k, TotalWeight(init), rows[|rows| - 1].weight);
    }
  }

  /** A trimmed sector weighs the smaller of its weight and the cap. */
  lemma TrimmedSector(rows: seq<Target>, cap: real, s: string)
    requires cap > 0.0
    ensures SectorWeight(Trimmed(rows, cap), s) == Min(SectorWeight(rows, s), cap)
  {
    hide Product;
    ScaledSector(rows, t => TrimFactor(SectorWeight(rows, t), cap), s);
    TrimFactorEffect(SectorWeight(rows, s), cap);
  }

  lemma TrimFactorEffect(w: real, cap: real)
    requires cap > 0.0
    ensures Product(TrimFactor(w, cap), w) == Min(w, cap)
  {
  }

  // ---------------------------------------------------------------- sums over sectors

  ghost predicate Distinct(names: seq<string>) {
    forall i, j :: 0 <= i < j < |names| ==> names[i] != names[j]
  }

  // The sector names in order of first appearance.
  function SectorNames(rows: seq<Target>): (names: seq<string>)
    ensures Distinct(names)
    ensures forall r :: r in rows ==> r.sector in names
  {
    if rows == [] then []
    else
      var names := SectorNames(rows[..|rows| - 1]);
      if rows[|rows| - 1].sector in names then names else names + [rows[|rows| - 1].sector]
  }

  // Sum over the sectors of the smaller of weight and cap.
  function CappedTotal(names: seq<string>, rows: seq<Target>, cap: real): real {
    if names == [] then 0.0
    else
      CappedTotal(names[..|names| - 1], rows, cap) + Min(SectorWeight(rows, names[|names| - 1]), cap)
  }

  function SumOfSectors(names: seq<string>, rows: seq<Target>): real {
    if names == [] then 0.0
    else SumOfSectors(names[..|names| - 1], rows) + SectorWeight(rows, names[|names| - 1])
  }

  lemma {:induction false} SumOfSectorsOneMore(names: seq<string>, rows: seq<Target>)
    requires Distinct(names) && rows != []
    ensures var last := rows[|rows| - 1];
            SumOfSectors(names, rows)
            == SumOfSectors(names, rows[..|rows| - 1]) + if last.sector in names then last.weight else 0.0
  {
    if names != [] {
      SumOfSectorsOneMore(names[..|names| - 1], rows);
    }
  }

  lemma {:induction false} TotalIsSumOfSectors(names: seq<string>, rows: seq<Target>)
    requires Distinct(names) && forall r :: r in rows ==> r.sector in names
    ensures TotalWeight(rows) == SumOfSectors(names, rows)
  {
    if rows == [] {
      NoRowsNoWeight(names);
    } else {
      TotalIsSumOfSectors(names, rows[..|rows| - 1]);
      SumOfSectorsOneMore(names, rows);
      assert rows[|rows| - 1] in rows;
    }
  }

  lemma {:induction false} NoRowsNoWeight(names: seq<string>)
    ensures SumOfSectors(names, []) == 0.0
  {
    if names != [] { NoRowsNoWeight(names[..|names| - 1]); }
  }

  lemma {:induction false} SumOfTrimmedSectors(names: seq<string>, rows: seq<Target>, cap: real)
    requires cap > 0.0
    ensures SumOfSectors(names, Trimmed(rows, cap)) == CappedTotal(names, rows, cap)
  {
    hide Trimmed;
    if names != [] {
      SumOfTrimmedSectors(names[..|names| - 1], rows, cap);
      TrimmedSector(rows, cap, names[|names| - 1]);
    }
  }

  /** The trimmed total is the sum over the sectors of min(weight, cap). */
  lemma TrimmedTotal(rows: seq<Target>, cap: real)
    requires cap > 0.0
    ensures TotalWeight(Trimmed(rows, cap)) == CappedTotal(SectorNames(rows), rows, cap)
  {
    var names, trimmed := SectorNames(rows), Trimmed(rows, cap);
    forall r | r in trimmed ensures r.sector in names {
      var i :| 0 <= i < |trimmed| && trimmed[i] == r;
      assert rows[i] in rows;
    }
    TotalIsSumOfSectors(names, trimmed);
    SumOfTrimmedSectors(names, rows, cap);
  }

  // ---------------------------------------------------------------- the method

  // Factors that agree on the sectors present scale alike.
  lemma SameFactors(rows: seq<Target>, f: string -> real, g: string -> real)
    requires forall r :: r in rows ==> f(r.sector) == g(r.sector)
    ensures ScaleBy(rows, f) == ScaleBy(rows, g)
  {
    forall i | 0 <= i < |rows| ensures ScaleBy(rows, f)[i] == ScaleBy(rows, g)[i] {
      assert rows[i] in rows;
    }
  }

  lemma ScaleByOne(rows: seq<Target>, f: string -> real)
    requires forall r :: r in rows ==> f(r.sector) == 1.0
    ensures ScaleBy(rows, f) == rows
  {
    forall i | 0 <= i < |rows| ensures ScaleBy(rows, f)[i] == rows[i] {
      assert rows[i] in rows;
    }
  }

  ghost predicate MeetsCap(rows: seq<Target>, cap: real) {
    forall r :: r in rows ==> SectorWeight(rows, r.sector) <= cap
  }

  lemma TrimmingNothing(rows: seq<Target>, cap: real)
    requires MeetsCap(rows, cap)
    ensures Trimmed(rows, cap) == rows
  {
    ScaleByOne(rows, s => TrimFactor(SectorWeight(rows, s), cap));
  }

  /** One pass brings every sector to a positive cap or below. */
  lemma TrimmedMeetsCap(rows: seq<Target>, cap: real)
    requires cap > 0.0
    ensures MeetsCap(Trimmed(rows, cap), cap)
  {
    var trimmed := Trimmed(rows, cap);
    forall r | r in trimmed ensures SectorWeight(trimmed, r.sector) <= cap {
      TrimmedSector(rows, cap, r.sector);
    }
  }

  /** A second pass changes nothing, whatever the cap. */
  lemma TrimmedTwice(rows: seq<Target>, cap: real)
    ensures Trimmed(Trimmed(rows, cap), cap) == Trimmed(rows, cap)
  {
    var trimmed := Trimmed(rows, cap);
    forall r | r in trimmed ensures TrimFactor(SectorWeight(trimmed, r.sector), cap) == 1.0 {
      ScaledSector(rows, t => TrimFactor(SectorWeight(rows, t), cap), r.sector);
      TrimmedEnough(SectorWeight(rows, r.sector), cap);
    }
    ScaleByOne(trimmed, s => TrimFactor(SectorWeight(trimmed, s), cap));
  }

  lemma TrimmedEnough(w: real, cap: real)
    ensures TrimFactor(Product(TrimFactor(w, cap), w), cap) == 1.0
  {
    if w > cap && w != 0.0 { assert (cap / w) * w == cap; }
  }

  // The names of the sectors above the cap.
  function Overweight(rows: seq<Target>, names: seq<string>, cap: real): (over: seq<string>)
    requires Distinct(names)
    ensures forall s :: s in over <==> s in names && SectorWeight(rows, s) > cap
    ensures Distinct(over)
  {
    if names == [] then []
    else
      var init, last := names[..|names| - 1], names[|names| - 1];
      assert last !in init;
      Overweight(rows, init, cap) + if SectorWeight(rows, last) > cap then [last] else []
  }

  // One pass: the inner loop over the over-weight sectors, each rescaled in place.
  method TrimSectors(rows: seq<Target>, over: seq<string>, cap: real) returns (df: seq<Target>)
    requires Distinct(over)
    requires forall r :: r in rows ==> (r.sector in over <==> SectorWeight(rows, r.sector) > cap)
    requires forall s :: s in over ==> SectorWeight(rows, s) > cap
    ensures df == Trimmed(rows, cap)
  {
    df := rows;
    ScaleByOne(rows, PartlyTrimmed(rows, [], cap));
    assert over[..0] == [];
    for i := 0 to |over|
      invariant df == ScaleBy(rows, PartlyTrimmed(rows, over[..i], cap))
    {
      hide Product;
      var name := over[i];
      var sectorTotal := SectorWeight(df, name);
      assert sectorTotal == SectorWeight(rows, name) by {
        ScaledSector(rows, PartlyTrimmed(rows, over[..i], cap), name);
        ProductLaws(SectorWeight(rows, name), 1.0, 1.0);
      }
      if sectorTotal > cap {
        var scale := if sectorTotal != 0.0 then cap / sectorTotal else 1.0;
        OneMoreTrimmed(rows, over, i, cap, scale);
        df := ScaleBy(df, s => if s == name then scale else 1.0);
      }
    }
    assert over[..|over|] == over;
    SameFactors(rows, PartlyTrimmed(rows, over, cap), s => TrimFactor(SectorWeight(rows, s), cap));
  }

  ghost function PartlyTrimmed(rows: seq<Target>, done: seq<string>, cap: real): string -> real
  {
    s => if s in done then TrimFactor(SectorWeight(rows, s), cap) else 1.0
  }

  lemma OneMoreTrimmed(rows: seq<Target>, over: seq<string>, i: nat, cap: real, scale: real)
    requires Distinct(over) && i < |over|
    requires scale == TrimFactor(SectorWeight(rows, over[i]), cap)
    ensures ScaleBy(ScaleBy(rows, PartlyTrimmed(rows, over[..i], cap)), s => if s == over[i] then scale else 1.0)
         == ScaleBy(rows, PartlyTrimmed(rows, over[..i + 1], cap))
  {
    hide Product;
    var f, g := PartlyTrimmed(rows, over[..i], cap), PartlyTrimmed(rows, over[..i + 1], cap);
    forall k | 0 <= k < |rows|
      ensures ScaleBy(ScaleBy(rows, f), s => if s == over[i] then scale else 1.0)[k] == ScaleBy(rows, g)[k]
    {
      assert over[..i + 1] == over[..i] + [over[i]];
      ProductLaws(rows[k].weight, 1.0, 1.0);
      ProductLaws(Product(f(rows[k].sector), rows[k].weight), 1.0, 1.0);
    }
  }

  method ApplySectorCap(portfolio: seq<Target>, cap: real) returns (df: seq<Target>)
    ensures df == Capped(portfolio, cap)
  {
    if portfolio == [] { return portfolio; }
    df := portfolio;
    var pass := 0;
    while pass < 10
      invariant 0 <= pass <= 10
      invariant df == if pass == 0 then portfolio else Trimmed(portfolio, cap)
    {
      var over := Overweight(df, SectorNames(df), cap);
      if over == [] {
        TrimmingNothing(df, cap);
        break;
      }
      TrimmedTwice(portfolio, cap);
      df := TrimSectors(df, over, cap);
      pass := pass + 1;
    }
    assert df == Trimmed(portfolio, cap);
    var total := TotalWeight(df);
    if total > 0.0 {
      var originalTotal := TotalWeight(portfolio);
      df := ScaleBy(df, s => originalTotal / total);
      SameFactors(Trimmed(portfolio, cap), s => originalTotal / total, s => Renormaliser(portfolio, cap));
    } else {
      ScaleByOne(df, s => Renormaliser(portfolio, cap));
    }
  }

  // ---------------------------------------------------------------- what the result guarantees

  ghost predicate ProperWeights(rows: seq<Target>) {
    (forall r :: r in rows ==> r.weight >= 0.0) && TotalWeight(rows) > 0.0
  }

  lemma {:induction false} SumsNonNegative(rows: seq<Target>, s: string)
    requires forall r :: r in rows ==> r.weight >= 0.0
    ensures 0.0 <= SectorWeight(rows, s) <= TotalWeight(rows)
  {
    if rows != [] {
      SumsNonNegative(rows[..|rows| - 1], s);
      assert rows[|rows| - 1] in rows;
    }
  }

  // Bounds on the capped total, termwise over the sectors. h is a heaviest sector.
  lemma {:induction false} CappedTotalBounds(names: seq<string>, rows: seq<Target>, cap: real, h: string)
    requires cap > 0.0 && forall r :: r in rows ==> r.weight >= 0.0
    requires forall s :: s in names ==> SectorWeight(rows, s) <= SectorWeight(rows, h)
    ensures 0.0 <= CappedTotal(names, rows, cap) <= SumOfSectors(names, rows)
    ensures SumOfSectors(names, rows) > 0.0 ==> CappedTotal(names, rows, cap) > 0.0
    ensures (exists s :: s in names && SectorWeight(rows, s) > cap) ==>
      CappedTotal(names, rows, cap) < SumOfSectors(names, rows)
    ensures (forall s :: s in names ==> SectorWeight(rows, s) <= cap) ==>
      CappedTotal(names, rows, cap) == SumOfSectors(names, rows)
    ensures SectorWeight(rows, h) > cap ==>
      Product(cap, SumOfSectors(names, rows)) <= Product(SectorWeight(rows, h), CappedTotal(names, rows, cap))
  {
    hide Product;
    var top := SectorWeight(rows, h);
    if names == [] {
      DistributeOver(cap, 0.0, 0.0);
      DistributeOver(top, 0.0, 0.0);
    } else {
      var init, s := names[..|names| - 1], names[|names| - 1];
      CappedTotalBounds(init, rows, cap, h);
      SumsNonNegative(rows, s);
      var w := SectorWeight(rows, s);
      assert s in names && forall t :: t in names <==> t in init || t == s;
      DistributeOver(cap, SumOfSectors(init, rows), w);
      DistributeOver(top, CappedTotal(init, rows, cap), Min(w, cap));
      CrossProduct(cap, w, top);
    }
  }

  lemma CrossProduct(cap: real, w: real, top: real)
    requires cap > 0.0 && 0.0 <= w <= top
    ensures top > cap ==> Product(cap, w) <= Product(top, Min(w, cap))
  {
    if top > cap {
      if w <= cap { ProductNonNegative(top - cap, w); } else { ProductNonNegative(cap, top - w); }
    }
  }

  /** The closed form: each sector ends at min(weight, cap), scaled by one common factor at least 1 that restores
      the original total. The factor is 1 exactly when no sector was above the cap. */
  lemma CappedClosedForm(rows: seq<Target>, cap: real, s: string) returns (k: real)
    requires cap > 0.0 && ProperWeights(rows)
    ensures k == Renormaliser(rows, cap) >= 1.0
    ensures Product(k, CappedTotal(SectorNames(rows), rows, cap)) == TotalWeight(rows)
    ensures SectorWeight(Capped(rows, cap), s) == Product(k, Min(SectorWeight(rows, s), cap))
    ensures k == 1.0 <==> MeetsCap(rows, cap)
  {
    hide Product, Trimmed;
    k := Renormaliser(rows, cap);
    ScaledSector(Trimmed(rows, cap), t => Renormaliser(rows, cap), s);
    TrimmedSector(rows, cap, s);
    TrimmedTotal(rows, cap);
    TotalIsSumOfSectors(SectorNames(rows), rows);
    var names := SectorNames(rows);
    var h := Heaviest(rows, names);
    CappedTotalBounds(names, rows, cap, h);
    QuotientRestores(TotalWeight(rows), CappedTotal(names, rows, cap), k);
    NamesOfRows(rows, cap);
  }

  lemma QuotientRestores(t: real, m: real, k: real)
    requires 0.0 < m <= t && k == t / m
    ensures Product(k, m) == t && k >= 1.0 && (k == 1.0 <==> m == t)
  {
    assert k * m == t;
    if k < 1.0 { ProductPositive(1.0 - k, m); }
  }

  lemma {:induction false} Heaviest(rows: seq<Target>, names: seq<string>) returns (h: string)
    ensures forall s :: s in names ==> SectorWeight(rows, s) <= SectorWeight(rows, h)
  {
    h := "";
    if names != [] {
      h := Heaviest(rows, names[..|names| - 1]);
      if SectorWeight(rows, names[|names| - 1]) > SectorWeight(rows, h) { h := names[|names| - 1]; }
    }
  }

  lemma NamesOfRows(rows: seq<Target>, cap: real)
    ensures MeetsCap(rows, cap) <==> forall s :: s in SectorNames(rows) ==> SectorWeight(rows, s) <= cap
  {
    NamesComeFromRows(rows);
  }

  lemma {:induction false} NamesComeFromRows(rows: seq<Target>)
    ensures forall s :: s in SectorNames(rows) ==> exists r :: r in rows && r.sector == s
  {
    if rows != [] {
      NamesComeFromRows(rows[..|rows| - 1]);
      assert rows[|rows| - 1] in rows;
    }
  }

  /** The total weight is kept. */
  lemma TotalKept(rows: seq<Target>, cap: real)
    requires cap > 0.0 && ProperWeights(rows)
    ensures TotalWeight(Capped(rows, cap)) == TotalWeight(rows)
  {
    hide Product, SectorWeight, TrimFactor, Trimmed;
    var k := CappedClosedForm(rows, cap, "");
    TrimmedTotal(rows, cap);
    ScaledTotal(Trimmed(rows, cap), k);
    SameFactors(Trimmed(rows, cap), s => k, s => Renormaliser(rows, cap));
  }

  lemma CappedRow(rows: seq<Target>, cap: real, i: nat)
    requires i < |rows|
    ensures Capped(rows, cap)[i]
         == rows[i].(weight := Product(Renormaliser(rows, cap),
                                       Product(TrimFactor(SectorWeight(rows, rows[i].sector), cap), rows[i].weight)))
  {
    hide Product, Renormaliser, TrimFactor, SectorWeight;
  }

  /** Only weights change, and their ratios inside a sector are kept. */
  lemma RatiosKept(rows: seq<Target>, cap: real, i: nat, j: nat)
    requires i < |rows| && j < |rows| && rows[i].sector == rows[j].sector
    ensures Capped(rows, cap)[i] == rows[i].(weight := Capped(rows, cap)[i].weight)
    ensures Product(Capped(rows, cap)[i].weight, rows[j].weight)
         == Product(Capped(rows, cap)[j].weight, rows[i].weight)
  {
    CappedRow(rows, cap, i);
    CappedRow(rows, cap, j);
    hide *;
    SwapWeights(Renormaliser(rows, cap), TrimFactor(SectorWeight(rows, rows[i].sector), cap),
                rows[i].weight, rows[j].weight);
  }

  lemma SwapWeights(k: real, f: real, a: real, b: real)
    ensures Product(Product(k, Product(f, a)), b) == Product(Product(k, Product(f, b)), a)
  {
    var kf := k * f;
    assert Product(k, Product(f, a)) == kf * a && Product(k, Product(f, b)) == kf * b;
    assert (kf * a) * b == (kf * b) * a;
  }

  /** No sector at or below the cap loses weight, the order of the sectors is kept, and the heaviest sector
      does not grow. */
  lemma SectorsAfterCapping(rows: seq<Target>, cap: real, s: string, t: string)
    requires cap > 0.0 && ProperWeights(rows)
    ensures SectorWeight(rows, s) <= cap ==> SectorWeight(Capped(rows, cap), s) >= SectorWeight(rows, s)
    ensures SectorWeight(rows, s) <= SectorWeight(rows, t) ==>
      SectorWeight(Capped(rows, cap), s) <= SectorWeight(Capped(rows, cap), t)
    ensures (forall r :: r in rows ==> SectorWeight(rows, r.sector) <= SectorWeight(rows, s)) ==>
      SectorWeight(Capped(rows, cap), s) <= SectorWeight(rows, s)
  {
    hide Product, Capped, Renormaliser;
    var k := CappedClosedForm(rows, cap, s);
    k := CappedClosedForm(rows, cap, t);
    var ws, wt := SectorWeight(rows, s), SectorWeight(rows, t);
    ProductMonotone(k, Min(ws, cap), Min(wt, cap));
    SumsNonNegative(rows, s);
    if forall r :: r in rows ==> SectorWeight(rows, r.sector) <= ws {
      NamesComeFromRows(rows);
      var names := SectorNames(rows);
      if ws <= cap {
        assert MeetsCap(rows, cap);
      } else {
        CappedTotalBounds(names, rows, cap, s);
        TotalIsSumOfSectors(names, rows);
        HeaviestShrinks(k, cap, ws, CappedTotal(names, rows, cap), TotalWeight(rows));
      }
    }
  }

  lemma HeaviestShrinks(k: real, cap: real, top: real, m: real, total: real)
    requires k > 0.0 && Product(k, m) == total > 0.0 && Product(cap, total) <= Product(top, m)
    ensures Product(k, cap) <= top
  {
    // (top - k * cap) * m == top * m - cap * total >= 0, and m > 0.
    if m <= 0.0 { ProductNonNegative(k, -m); }
    assert (k * cap) * m == cap * (k * m);
    AtLeastOfProduct(top - k * cap, m);
  }

  /** Renormalising lifts every trimmed sector back above the cap. */
  lemma OverweightStaysOver(rows: seq<Target>, cap: real, r: Target)
    requires cap > 0.0 && ProperWeights(rows)
    requires r in rows && SectorWeight(rows, r.sector) > cap
    ensures SectorWeight(Capped(rows, cap), r.sector) > cap
  {
    hide Product, Renormaliser, Capped, SectorWeight;
    var k := CappedClosedForm(rows, cap, r.sector);
    ProductMonotone(k, cap, cap);
  }

  lemma SectorsUnchanged(rows: seq<Target>, cap: real)
    ensures |Capped(rows, cap)| == |rows|
    ensures forall i :: 0 <= i < |rows| ==> Capped(rows, cap)[i].sector == rows[i].sector
  {
    hide Product, Renormaliser, TrimFactor, SectorWeight;
  }

  lemma CompliantIsUnchanged(rows: seq<Target>, cap: real)
    requires cap > 0.0 && ProperWeights(rows) && MeetsCap(rows, cap)
    ensures Capped(rows, cap) == rows
  {
    hide Product, SectorWeight, TotalWeight;
    TrimmingNothing(rows, cap);
    var k := CappedClosedForm(rows, cap, "");
    ScaleByOne(rows, s => Renormaliser(rows, cap));
  }

  /** The cap is not enforced: the result respects it exactly when the input already did, and then nothing
      changes. */
  lemma CapHoldsOnlyIfItHeld(rows: seq<Target>, cap: real)
    requires cap > 0.0 && ProperWeights(rows)
    ensures MeetsCap(Capped(rows, cap), cap) <==> MeetsCap(rows, cap)
    ensures MeetsCap(rows, cap) ==> Capped(rows, cap) == rows
  {
    SectorsUnchanged(rows, cap);
    hide Capped, SectorWeight, ProperWeights;
    if MeetsCap(rows, cap) {
      CompliantIsUnchanged(rows, cap);
    } else {
      var r :| r in rows && SectorWeight(rows, r.sector) > cap;
      OverweightStaysOver(rows, cap, r);
      var i :| 0 <= i < |rows| && rows[i] == r;
      assert Capped(rows, cap)[i] in Capped(rows, cap);
    }
  }
}
