/** What a filing is turned into, said of the text of its facts: context ids, units and names as they stand in the
    filing, and statements told by their kind and year. */
module FilingReports {
  import opened Taxonomy
  import opened Wrappers

  function Joined(before: string, part: string, after: string): string { before + part + after }

  ghost predicate HasPart(s: string, part: string) { exists before, after :: s == Joined(before, part, after) }

  lemma ContainsIff(s: string, part: string)
    ensures Contains(s, part) <==> HasPart(s, part)
  {
    if Contains(s, part) {
      var i :| 0 <= i <= |s| && OccursAt(s, part, i);
      assert s == Joined(s[..i], part, s[i + |part|..]);
    }
    if HasPart(s, part) {
      var before, after :| s == Joined(before, part, after);
      ContainsPart(before, part, after);
    }
  }

  lemma PartOfPart(s: string, whole: string, before: string, part: string, after: string)
    requires HasPart(s, whole) && whole == before + part + after
    ensures HasPart(s, part)
  {
    var b, a :| s == Joined(b, whole, a);
    assert s == Joined(b + before, part, after + a);
  }

  // ---------------------------------------------------------------- contexts

  predicate IsSheet(kind: string, offset: int) {
    (kind == "income" || kind == "balance") && (offset == 0 || offset == -1)
  }

  // A context id of the statement of this kind, for the filing's year or the one before.
  ghost predicate InSheet(id: string, kind: string, offset: int) {
    && (if kind == "income" then HasPart(id, "Duration") else HasPart(id, "Instant") && !HasPart(id, "Duration"))
    && (if offset == 0 then HasPart(id, "CurrentYear")
        else !HasPart(id, "CurrentYear") && (HasPart(id, "PriorYear") || HasPart(id, "PriorEndYear")))
  }

  /** The four primary contexts by the words in the id, whatever stands around them. */
  lemma ContextIff(id: string, c: ContextType)
    requires c != Other
    ensures ClassifyContext(id) == c <==> InSheet(id, KindOf(c), OffsetOf(c))
  {
    KindsDiffer();
    ContainsIff(id, "CurrentYear");
    ContainsIff(id, "PriorYear");
    ContainsIff(id, "PriorEndYear");
    ContainsIff(id, "Duration");
    ContainsIff(id, "Instant");
    hide Contains, HasPart;
  }

  lemma ConcatHas(before: string, part: string, after: string)
    ensures HasPart(before + part + after, part)
  {
    assert before + part + after == Joined(before, part, after);
  }

  /** The prior contexts as they are written, with anything before, within and after. */
  lemma PriorContexts(before: string, middle: string, after: string)
    ensures var id := before + "PriorYear" + middle + "Duration" + after;
            !HasPart(id, "CurrentYear") ==> ClassifyContext(id) == IncomePrior
    ensures var id := before + "PriorYear" + middle + "Instant" + after;
            !HasPart(id, "CurrentYear") && !HasPart(id, "Duration") ==> ClassifyContext(id) == BalancePrior
    ensures var id := before + "PriorEndYear" + middle + "Instant" + after;
            !HasPart(id, "CurrentYear") && !HasPart(id, "Duration") ==> ClassifyContext(id) == BalancePrior
  {
    KindsDiffer();
    var a := before + "PriorYear" + middle + "Duration" + after;
    var b := before + "PriorYear" + middle + "Instant" + after;
    var c := before + "PriorEndYear" + middle + "Instant" + after;
    TwoParts(before, "PriorYear", middle, "Duration", after);
    TwoParts(before, "PriorYear", middle, "Instant", after);
    TwoParts(before, "PriorEndYear", middle, "Instant", after);
    hide ClassifyContext, HasPart;
    ContextIff(a, IncomePrior);
    ContextIff(b, BalancePrior);
    ContextIff(c, BalancePrior);
  }

  lemma TwoParts(before: string, year: string, middle: string, kind: string, after: string)
    ensures var id := before + year + middle + kind + after; HasPart(id, year) && HasPart(id, kind)
  {
    var id := before + year + middle + kind + after;
    PrimaryParts(before, year, middle, kind, after);
    ContainsIff(id, year);
    ContainsIff(id, kind);
  }

  // ---------------------------------------------------------------- units

  // The text with its capital letters, by character code, made small.
  ghost predicate SmallLetters(low: string, s: string) {
    |low| == |s| && forall i :: 0 <= i < |s| ==>
      if 65 <= s[i] as int <= 90 then low[i] as int == s[i] as int + 32 else low[i] == s[i]
  }

  lemma LowerIff(low: string, s: string)
    ensures low == Lower(s) <==> SmallLetters(low, s)
  {
    if SmallLetters(low, s) {
      forall i | 0 <= i < |s| ensures low[i] == Lower(s)[i] {
        assert low[i] as int == Lower(s)[i] as int;
      }
    }
  }

  // Rupiah, not money, or no known unit.
  ghost predicate UnitTaken(unit: string) {
    forall low :: SmallLetters(low, unit) ==>
      || HasPart(unit, "IDR") || HasPart(unit, "Rupiah") || HasPart(low, "pure") || HasPart(low, "shares")
      || !HasPart(low, "iso4217")
  }

  lemma UnitTakenIff(unit: string)
    ensures var low := Lower(unit);
            UnitTaken(unit) <==>
              || HasPart(unit, "IDR") || HasPart(unit, "Rupiah") || HasPart(low, "pure") || HasPart(low, "shares")
              || !HasPart(low, "iso4217")
  {
    LowerIff(Lower(unit), unit);
    forall l | SmallLetters(l, unit) ensures l == Lower(unit) { LowerIff(l, unit); }
    hide HasPart, SmallLetters, Lower;
  }

  lemma MarkersNest(unit: string, low: string)
    ensures HasPart(unit, "iso4217:IDR") ==> HasPart(unit, "IDR")
    ensures HasPart(low, "pureitemtype") || HasPart(low, "xbrli:pure") ==> HasPart(low, "pure")
  {
    hide HasPart;
    if HasPart(unit, "iso4217:IDR") { PartOfPart(unit, "iso4217:IDR", "iso4217:", "IDR", ""); }
    if HasPart(low, "pureitemtype") { PartOfPart(low, "pureitemtype", "", "pure", "itemtype"); }
    if HasPart(low, "xbrli:pure") { PartOfPart(low, "xbrli:pure", "xbrli:", "pure", ""); }
  }

  /** Three of the markers of the source add nothing: each contains one of the others. */
  lemma UnitIff(unit: string)
    ensures !IsForeign(unit) <==> UnitTaken(unit)
  {
    var low := Lower(unit);
    hide Contains, HasPart, UnitTaken, Lower;
    UnitTakenIff(unit);
    MarkersNest(unit, low);
    ContainsIff(unit, "IDR");
    ContainsIff(unit, "Rupiah");
    ContainsIff(unit, "iso4217:IDR");
    ContainsIff(low, "pure");
    ContainsIff(low, "shares");
    ContainsIff(low, "pureitemtype");
    ContainsIff(low, "xbrli:pure");
    ContainsIff(low, "iso4217");
  }

  // ---------------------------------------------------------------- facts

  // The local name, after the namespace and a colon if there is one.
  function FullName(q: QName): string {
    if q.namespace == "" then q.localName else q.namespace + ":" + q.localName
  }

  ghost predicate Taken(f: ModelFact) {
    !f.isNil && f.unit.Some? && UnitTaken(f.unit.value) && f.value.Some? && f.concept.Some? && f.hasContext
  }

  predicate Lists(e: Entry, name: string, tag: string) {
    name in e.localnames && ("*" in e.contexts || tag in e.contexts)
  }

  // The first entry that lists the name for the tag is the metric's.
  ghost predicate MapsTo(entries: seq<Entry>, name: string, tag: string, metric: string) {
    exists i :: 0 <= i < |entries| && Lists(entries[i], name, tag) && entries[i].metric == metric
                && forall j :: 0 <= j < i ==> !Lists(entries[j], name, tag)
  }

  // Taxonomy labels: income_current, income_prior, balance_current, balance_prior.
  function SheetLabel(kind: string, offset: int): string { kind + if offset == 0 then "_current" else "_prior" }

  // The fact reports the metric on the sheet.
  ghost predicate Gives(f: ModelFact, entries: seq<Entry>, kind: string, offset: int, metric: string) {
    && Taken(f) && InSheet(f.contextId, kind, offset)
    && MapsTo(entries, f.concept.value.localName, SheetLabel(kind, offset), metric)
  }

  lemma ScanIff(entries: seq<Entry>, name: string, tag: string, metric: string)
    ensures Scan(entries, name, tag) == Some(metric) <==> MapsTo(entries, name, tag, metric)
  {
    var i := ScanFindsFirst(entries, name, tag);
    hide Scan;
    assert forall j :: 0 <= j < |entries| && j <= i ==>
      (Lists(entries[j], name, tag) <==> name in entries[j].localnames && Applies(entries[j], tag));
    hide Lists, Applies;
    if MapsTo(entries, name, tag, metric) {
      var k :| 0 <= k < |entries| && Lists(entries[k], name, tag) && entries[k].metric == metric
               && forall j :: 0 <= j < k ==> !Lists(entries[j], name, tag);
    }
  }

  lemma LabelIff(c: ContextType)
    requires c != Other
    ensures Label(c) == SheetLabel(KindOf(c), OffsetOf(c))
  {
  }

  lemma AdmittedIff(f: ModelFact, entries: seq<Entry>)
    ensures ParseFact(f, entries).Admitted? <==> Taken(f)
  {
    if f.unit.Some? { UnitIff(f.unit.value); }
    hide IsForeign, UnitTaken, ClassifyContext, Scan;
  }

  lemma SuppliesIff(f: ModelFact, entries: seq<Entry>, c: ContextType, metric: string)
    requires c != Other
    ensures Supplies(f, entries, c, metric) <==> Gives(f, entries, KindOf(c), OffsetOf(c), metric)
  {
    AdmittedIff(f, entries);
    ContextIff(f.contextId, c);
    LabelIff(c);
    if f.concept.Some? { ScanIff(entries, f.concept.value.localName, Label(c), metric); }
    assert ParseFact(f, entries).Admitted? ==> f.concept.Some?;
    assert Taken(f) ==> f.concept.Some?;
    hide ParseFact, Taken, ClassifyContext, InSheet, MapsTo, Scan, KindOf, OffsetOf, Label, SheetLabel;
  }

  /** What one fact comes to: nil and unitless facts aside, a foreign unit is an error; an admitted fact keeps its value
      and full name and is mapped exactly when the taxonomy lists its name for its context. */
  lemma OutcomeFromText(f: ModelFact, entries: seq<Entry>)
    ensures var o := ParseFact(f, entries);
            && (o.Admitted? <==> Taken(f))
            && (o.Rejected? <==> !f.isNil && f.unit.Some? && !UnitTaken(f.unit.value))
            && (o.Rejected? ==> Some(o.unit) == f.unit)
            && (o.Admitted? ==>
                  var q, c := f.concept.value, o.fact.contextType;
                  && f.value == Some(o.fact.value)
                  && o.fact.rawConcept == FullName(q)
                  && (c != Other ==> InSheet(f.contextId, KindOf(c), OffsetOf(c)))
                  && (c == Other ==>
                        forall kind, offset :: IsSheet(kind, offset) ==> !InSheet(f.contextId, kind, offset))
                  && var tag := if c == Other then "other" else SheetLabel(KindOf(c), OffsetOf(c));
                     if o.fact.isMapped then MapsTo(entries, q.localName, tag, o.fact.metric)
                     else o.fact.metric == q.localName && forall metric :: !MapsTo(entries, q.localName, tag, metric))
  {
    AdmittedIff(f, entries);
    if f.unit.Some? { UnitIff(f.unit.value); }
    if Taken(f) {
      var c := ClassifyContext(f.contextId);
      if c == Other {
        forall kind, offset | IsSheet(kind, offset) ensures !InSheet(f.contextId, kind, offset) {
          SheetContext(kind, offset);
          ContextIff(f.contextId, ContextOf(kind, offset));
        }
      } else {
        ContextIff(f.contextId, c);
        LabelIff(c);
      }
      forall metric
        ensures Scan(entries, f.concept.value.localName, Label(c)) == Some(metric)
          <==> MapsTo(entries, f.concept.value.localName, Label(c), metric)
      {
        ScanIff(entries, f.concept.value.localName, Label(c), metric);
      }
    }
    hide InSheet, ClassifyContext, Scan, IsForeign, UnitTaken, MapsTo, KindOf, OffsetOf, SheetLabel, IsSheet, ContextOf;
  }

  // ---------------------------------------------------------------- statements

  // The quarter and the last day of the period; prior statements are of no quarter.
  predicate Dated(s: Statement, filing: Filing, offset: int) {
    && (filing.period == "TW1" ==> s.periodEnd.1 == "03-31" && (offset == 0 ==> s.quarter == Some(1)))
    && (filing.period == "TW2" ==> s.periodEnd.1 == "06-30" && (offset == 0 ==> s.quarter == Some(2)))
    && (filing.period == "TW3" ==> s.periodEnd.1 == "09-30" && (offset == 0 ==> s.quarter == Some(3)))
    && (filing.period == "Tahunan" ==> s.periodEnd.1 == "12-31" && s.quarter == None)
    && s.periodEnd.0 == filing.year + offset && (offset == -1 ==> s.quarter == None)
  }

  predicate IsPeriod(period: string) { period == "TW1" || period == "TW2" || period == "TW3" || period == "Tahunan" }

  // The statement of a sheet.
  predicate OfSheet(s: Statement, filing: Filing, kind: string, offset: int) {
    s.symbol == filing.symbol && s.kind == kind && s.fiscalYear == filing.year + offset && Dated(s, filing, offset)
  }

  ghost predicate FirstToGive(model: seq<ModelFact>, entries: seq<Entry>, kind: string, offset: int, metric: string,
                              i: nat)
    requires i < |model|
  {
    && Gives(model[i], entries, kind, offset, metric)
    && forall j :: 0 <= j < i ==> !Gives(model[j], entries, kind, offset, metric)
  }

  // The value of the first fact that reports the metric on the sheet.
  ghost predicate FirstValue(model: seq<ModelFact>, entries: seq<Entry>, kind: string, offset: int, metric: string,
                             value: real)
  {
    exists i :: 0 <= i < |model| && model[i].value == Some(value)
                && FirstToGive(model, entries, kind, offset, metric, i)
  }

  ghost predicate SomeGives(model: seq<ModelFact>, entries: seq<Entry>, kind: string, offset: int, metric: string) {
    exists i :: 0 <= i < |model| && Gives(model[i], entries, kind, offset, metric)
  }

  ghost predicate Holds(statements: seq<Statement>, filing: Filing, kind: string, offset: int, metric: string) {
    exists s :: s in statements && OfSheet(s, filing, kind, offset) && metric in s.metrics
  }

  // The statements of a filing: on each sheet the metrics its facts report, at the first value reported.
  ghost predicate Reports(statements: seq<Statement>, model: seq<ModelFact>, entries: seq<Entry>, filing: Filing) {
    && (forall s :: s in statements ==>
          s.metrics != map[] && exists kind, offset :: IsSheet(kind, offset) && OfSheet(s, filing, kind, offset))
    && (forall kind, offset, metric :: IsSheet(kind, offset) ==>
          (Holds(statements, filing, kind, offset, metric) <==> SomeGives(model, entries, kind, offset, metric)))
    && (forall s, kind, offset, metric ::
          s in statements && IsSheet(kind, offset) && OfSheet(s, filing, kind, offset) && metric in s.metrics ==>
          FirstValue(model, entries, kind, offset, metric, s.metrics[metric]))
  }

  function ContextOf(kind: string, offset: int): ContextType {
    if kind == "income" then if offset == 0 then IncomeCurrent else IncomePrior
    else if offset == 0 then BalanceCurrent else BalancePrior
  }

  lemma SheetContext(kind: string, offset: int)
    requires IsSheet(kind, offset)
    ensures var c := ContextOf(kind, offset); c != Other && KindOf(c) == kind && OffsetOf(c) == offset
  {
    KindsDiffer();
  }

  lemma Emitted(filing: Filing, mapped: Sheets, s: Statement)
    requires filing.period in PERIODS && s in Statements(filing, mapped)
    ensures s.metrics != map[]
    ensures exists kind, offset :: IsSheet(kind, offset) && OfSheet(s, filing, kind, offset)
  {
    var a, b := Emit(filing, "income", 0, mapped.incomeCurrent), Emit(filing, "income", -1, mapped.incomePrior);
    var d, e := Emit(filing, "balance", 0, mapped.balanceCurrent), Emit(filing, "balance", -1, mapped.balancePrior);
    assert Statements(filing, mapped) == a + b + d + e;
    EmittedDated(filing, "income", 0, mapped.incomeCurrent);
    EmittedDated(filing, "income", -1, mapped.incomePrior);
    EmittedDated(filing, "balance", 0, mapped.balanceCurrent);
    EmittedDated(filing, "balance", -1, mapped.balancePrior);
    hide Emit, Statements, OfSheet;
    assert IsSheet("income", 0) && IsSheet("income", -1) && IsSheet("balance", 0) && IsSheet("balance", -1);
    assert s in a || s in b || s in d || s in e;
  }

  lemma EmittedDated(filing: Filing, kind: string, offset: int, metrics: Metrics)
    requires filing.period in PERIODS && (offset == 0 || offset == -1)
    ensures forall s :: s in Emit(filing, kind, offset, metrics) ==>
      s.metrics != map[] && OfSheet(s, filing, kind, offset)
  {
    PeriodTable();
  }

  lemma PeriodTable()
    ensures forall p :: p in PERIODS <==> IsPeriod(p)
    ensures PERIODS["TW1"] == (Some(1), "03-31") && PERIODS["TW2"] == (Some(2), "06-30")
    ensures PERIODS["TW3"] == (Some(3), "09-30") && PERIODS["Tahunan"] == (None, "12-31")
    ensures "TW1" != "TW2" && "TW1" != "TW3" && "TW2" != "TW3"
  {
    assert "TW1"[2] == '1' && "TW2"[2] == '2' && "TW3"[2] == '3';
    assert |"TW1"| == 3 && |"TW2"| == 3 && |"TW3"| == 3 && |"Tahunan"| == 7;
  }

  lemma SheetOfStatement(filing: Filing, mapped: Sheets, s: Statement, kind: string, offset: int)
    requires filing.period in PERIODS && s in Statements(filing, mapped) && IsSheet(kind, offset)
    ensures OfSheet(s, filing, kind, offset) <==> IsFor(s, filing, ContextOf(kind, offset))
  {
    SheetContext(kind, offset);
    Emitted(filing, mapped, s);
    hide ContextOf, KindOf, OffsetOf, Statements;
  }

  lemma HeldOnSheet(model: seq<ModelFact>, entries: seq<Entry>, filing: Filing, mapped: Sheets, kind: string,
                    offset: int, metric: string)
    requires HoldsMapped(mapped, AdmittedFacts(model, entries)) && filing.period in PERIODS && IsSheet(kind, offset)
    ensures Holds(Statements(filing, mapped), filing, kind, offset, metric)
      <==> SomeGives(model, entries, kind, offset, metric)
    ensures forall s :: s in Statements(filing, mapped) && OfSheet(s, filing, kind, offset) && metric in s.metrics ==>
      FirstValue(model, entries, kind, offset, metric, s.metrics[metric])
  {
    var c, all := ContextOf(kind, offset), Statements(filing, mapped);
    SheetContext(kind, offset);
    var i := StatementMetric(model, entries, filing, mapped, c, metric);
    forall j | 0 <= j < |model|
      ensures Supplies(model[j], entries, c, metric) <==> Gives(model[j], entries, kind, offset, metric)
    {
      SuppliesIff(model[j], entries, c, metric);
    }
    forall s | s in all ensures OfSheet(s, filing, kind, offset) <==> IsFor(s, filing, c) {
      SheetOfStatement(filing, mapped, s, kind, offset);
    }
    if i < |model| { SuppliedHasValue(model[i], entries, c, metric); }
    hide Supplies, Gives, OfSheet, IsFor, HoldsMapped, AdmittedFacts, Statements, ContextOf;
    assert i < |model| ==> FirstToGive(model, entries, kind, offset, metric, i);
    assert SomeGives(model, entries, kind, offset, metric) <==> i < |model|;
  }

  /** End to end: the statements emitted for a filing, from the text of its facts. */
  lemma StatementsFromText(model: seq<ModelFact>, entries: seq<Entry>, filing: Filing, mapped: Sheets)
    requires HoldsMapped(mapped, AdmittedFacts(model, entries)) && filing.period in PERIODS
    ensures Reports(Statements(filing, mapped), model, entries, filing)
  {
    var all := Statements(filing, mapped);
    forall s | s in all
      ensures s.metrics != map[] && exists kind, offset :: IsSheet(kind, offset) && OfSheet(s, filing, kind, offset)
    {
      Emitted(filing, mapped, s);
    }
    hide Statements, OfSheet, IsSheet, Holds, SomeGives, FirstValue, HoldsMapped, AdmittedFacts;
    forall kind, offset, metric | IsSheet(kind, offset)
      ensures Holds(all, filing, kind, offset, metric) <==> SomeGives(model, entries, kind, offset, metric)
    {
      HeldOnSheet(model, entries, filing, mapped, kind, offset, metric);
    }
    forall s, kind, offset, metric
      | s in all && IsSheet(kind, offset) && OfSheet(s, filing, kind, offset) && metric in s.metrics
      ensures FirstValue(model, entries, kind, offset, metric, s.metrics[metric])
    {
      HeldOnSheet(model, entries, filing, mapped, kind, offset, metric);
    }
  }

  // ---------------------------------------------------------------- raw facts

  // The part after the last colon, or the whole text when it has none.
  ghost predicate EndsIn(text: string, name: string) {
    ':' !in name && (text == name || exists before :: text == Joined(before, ":", name))
  }

  lemma {:induction false} LastSegmentIff(text: string, name: string)
    ensures LastSegment(text) == name <==> EndsIn(text, name)
  {
    var before := SegmentSplit(text);
    if EndsIn(text, name) && text != name {
      var b :| text == Joined(b, ":", name);
      SegmentAfter(b, name);
    } else if EndsIn(text, name) {
      SegmentAfter("", name);
    }
    if LastSegment(text) != text { assert text == Joined(before, ":", LastSegment(text)); }
    LastSegmentHasNoColon(text);
  }

  lemma {:induction false} SegmentSplit(text: string) returns (before: string)
    ensures text == LastSegment(text) || text == before + ":" + LastSegment(text)
  {
    before := "";
    if text != "" {
      var init, last := text[..|text| - 1], text[|text| - 1];
      assert text == init + [last];
      if last == ':' {
        before := init;
        assert text == before + ":" + "";
      } else {
        before := SegmentSplit(init);
        if init != LastSegment(init) { assert text == before + ":" + (LastSegment(init) + [last]); }
      }
    }
  }

  // The fact is on the sheet under this name: its concept, with the namespace before a colon, ends in it.
  ghost predicate Named(f: ModelFact, kind: string, offset: int, name: string) {
    && Taken(f) && InSheet(f.contextId, kind, offset)
    && EndsIn(FullName(f.concept.value), name)
  }

  ghost predicate FirstToName(model: seq<ModelFact>, kind: string, offset: int, name: string, i: nat)
    requires i < |model|
  {
    Named(model[i], kind, offset, name) && forall j :: 0 <= j < i ==> !Named(model[j], kind, offset, name)
  }

  // The value of the first fact on the sheet under the name, if there is one.
  ghost predicate NamedValue(model: seq<ModelFact>, kind: string, offset: int, name: string, value: Option<real>) {
    if value.None? then forall j :: 0 <= j < |model| ==> !Named(model[j], kind, offset, name)
    else exists i :: 0 <= i < |model| && model[i].value == value && FirstToName(model, kind, offset, name, i)
  }

  lemma ParsedNameIff(f: ModelFact, entries: seq<Entry>, kind: string, offset: int, name: string)
    requires IsSheet(kind, offset)
    ensures var o := ParseFact(f, entries);
            && (o.Admitted? ==> f.value == Some(o.fact.value))
            && (o.Admitted? && o.fact.contextType == ContextOf(kind, offset) && LastSegment(o.fact.rawConcept) == name
                <==> Named(f, kind, offset, name))
  {
    SheetContext(kind, offset);
    AdmittedIff(f, entries);
    ContextIff(f.contextId, ContextOf(kind, offset));
    if f.concept.Some? { LastSegmentIff(RawConcept(f.concept.value), name); }
    hide Taken, InSheet, ClassifyContext, Scan, IsForeign, LastSegment, EndsIn, ContextOf, KindOf, OffsetOf, Label;
    assert Taken(f) ==> f.concept.Some? by { TakenHasConcept(f); }
  }

  lemma TakenHasConcept(f: ModelFact)
    ensures Taken(f) ==> f.concept.Some?
  {
    hide UnitTaken;
  }

  lemma {:induction false} FirstNamedIff(model: seq<ModelFact>, entries: seq<Entry>, kind: string, offset: int,
                                         name: string)
    requires IsSheet(kind, offset)
    ensures NamedValue(model, kind, offset, name,
                       FirstNamed(AdmittedFacts(model, entries), ContextOf(kind, offset), name))
  {
    hide ParseFact, LastSegment, Named, ContextOf, IsSheet;
    if model != [] {
      var init, last := model[..|model| - 1], model[|model| - 1];
      FirstNamedIff(init, entries, kind, offset, name);
      ParsedNameIff(last, entries, kind, offset, name);
      var facts, o := AdmittedFacts(init, entries), ParseFact(last, entries);
      if o.Admitted? {
        assert (facts + [o.fact])[..|facts|] == facts;
      } else {
        assert facts + [] == facts;
      }
      var earlier := FirstNamed(facts, ContextOf(kind, offset), name);
      if earlier.Some? {
        var i :| 0 <= i < |init| && init[i].value == earlier && FirstToName(init, kind, offset, name, i);
        assert forall j :: 0 <= j <= i ==> model[j] == init[j];
        assert FirstToName(model, kind, offset, name, i);
      } else if Named(last, kind, offset, name) {
        assert forall j :: 0 <= j < |init| ==> model[j] == init[j];
        assert FirstToName(model, kind, offset, name, |init|);
      }
    }
  }

  // The raw facts of a filing: on each sheet the names its facts carry, at the first value reported.
  ghost predicate RawReports(raw: Sheets, model: seq<ModelFact>) {
    && (forall name :: NamedValue(model, "income", 0, name, Find(raw.incomeCurrent, name)))
    && (forall name :: NamedValue(model, "income", -1, name, Find(raw.incomePrior, name)))
    && (forall name :: NamedValue(model, "balance", 0, name, Find(raw.balanceCurrent, name)))
    && (forall name :: NamedValue(model, "balance", -1, name, Find(raw.balancePrior, name)))
  }

  lemma RawSheet(model: seq<ModelFact>, entries: seq<Entry>, raw: Sheets, kind: string, offset: int, name: string)
    requires HoldsNamed(raw, AdmittedFacts(model, entries)) && IsSheet(kind, offset)
    ensures NamedValue(model, kind, offset, name, Find(raw.Of(ContextOf(kind, offset)), name))
  {
    SheetContext(kind, offset);
    FirstNamedIff(model, entries, kind, offset, name);
    hide NamedValue, AdmittedFacts, FirstNamed, Find, ContextOf;
  }

  lemma RawFromText(model: seq<ModelFact>, entries: seq<Entry>, raw: Sheets)
    requires HoldsNamed(raw, AdmittedFacts(model, entries))
    ensures RawReports(raw, model)
  {
    hide NamedValue, HoldsNamed, AdmittedFacts, Find;
    KindsDiffer();
    forall name
      ensures NamedValue(model, "income", 0, name, Find(raw.incomeCurrent, name))
      ensures NamedValue(model, "income", -1, name, Find(raw.incomePrior, name))
      ensures NamedValue(model, "balance", 0, name, Find(raw.balanceCurrent, name))
      ensures NamedValue(model, "balance", -1, name, Find(raw.balancePrior, name))
    {
      RawSheet(model, entries, raw, "income", 0, name);
      RawSheet(model, entries, raw, "income", -1, name);
      RawSheet(model, entries, raw, "balance", 0, name);
      RawSheet(model, entries, raw, "balance", -1, name);
    }
  }

  // ---------------------------------------------------------------- banking filings

  predicate IsBankingName(name: string) {
    || name == "InterestIncome" || name == "TotalLoansGross" || name == "TotalLoansNet" || name == "CurrentAccounts"
    || name == "SavingsDeposits" || name == "NetInterestIncome" || name == "SubtotalInterestIncome"
    || name == "TemporarySyirkahFunds"
  }

  ghost predicate BankingFact(f: ModelFact) {
    Taken(f) && exists name :: IsBankingName(name) && EndsIn(FullName(f.concept.value), name)
  }

  lemma {:induction false} AdmittedIn(model: seq<ModelFact>, entries: seq<Entry>, f: ParsedFact)
    ensures f in AdmittedFacts(model, entries)
      <==> exists i :: 0 <= i < |model| && ParseFact(model[i], entries) == Admitted(f)
  {
    hide ParseFact;
    if model != [] {
      var init, last := model[..|model| - 1], model[|model| - 1];
      AdmittedIn(init, entries, f);
      assert forall i :: 0 <= i < |init| ==> model[i] == init[i];
    }
  }

  lemma BankingIff(f: ModelFact, entries: seq<Entry>)
    ensures BankingFact(f) <==>
      ParseFact(f, entries).Admitted? && LastSegment(ParseFact(f, entries).fact.rawConcept) in BANKING_NAMES
  {
    OutcomeFromText(f, entries);
    if Taken(f) {
      var text := FullName(f.concept.value);
      assert LastSegment(text) in BANKING_NAMES <==> IsBankingName(LastSegment(text));
      forall name ensures EndsIn(text, name) <==> LastSegment(text) == name { LastSegmentIff(text, name); }
    }
    hide ParseFact, Taken, EndsIn, LastSegment, IsBankingName, InSheet, MapsTo;
  }

  /** A filing counts as a bank's exactly when one of its admitted facts has one of the eight banking names. */
  lemma BankingFromText(model: seq<ModelFact>, entries: seq<Entry>)
    ensures HasBankingFact(AdmittedFacts(model, entries)) <==> exists i :: 0 <= i < |model| && BankingFact(model[i])
  {
    var facts := AdmittedFacts(model, entries);
    forall f ensures f in facts <==> exists i :: 0 <= i < |model| && ParseFact(model[i], entries) == Admitted(f) {
      AdmittedIn(model, entries, f);
    }
    forall i | 0 <= i < |model|
      ensures BankingFact(model[i]) <==>
        && ParseFact(model[i], entries).Admitted?
        && LastSegment(ParseFact(model[i], entries).fact.rawConcept) in BANKING_NAMES
    {
      BankingIff(model[i], entries);
    }
    hide ParseFact, BankingFact, LastSegment, AdmittedFacts;
    if i :| 0 <= i < |model| && BankingFact(model[i]) {
      assert ParseFact(model[i], entries).fact in facts;
    }
  }

  /** From the facts of a filing to its statements and raw facts; None for an unknown period code. */
  method ProcessFiling(parser: Parser, model: seq<ModelFact>, filing: Filing)
    returns (result: Option<(seq<Statement>, Sheets)>)
    requires parser.taxonomyMap.Valid()
    ensures result.Some? <==> IsPeriod(filing.period)
    ensures result.Some? ==> Reports(result.value.0, model, parser.taxonomyMap.entries, filing)
    ensures result.Some? ==> RawReports(result.value.1, model)
  {
    PeriodTable();
    hide *;
    if filing.period !in PERIODS { return None; }
    var parsed := parser.ParseModel(model);
    ghost var mapped;
    result, mapped := AdaptParseResult(parsed.facts, filing);
    StatementsFromText(model, parser.taxonomyMap.entries, filing, mapped);
    RawFromText(model, parser.taxonomyMap.entries, result.value.1);
  }
}
