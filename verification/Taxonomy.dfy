/** From XBRL facts to statement metrics: the indexed taxonomy map, the pass over the facts of a filing, and the fold
    into statements.

    The direct specification is a linear scan of the taxonomy entries and the first fact that hits; the class and the
    methods, which work through an index and in-place dictionaries, are proved equal to it. */
module Taxonomy {
  import opened Wrappers

  datatype Entry = Entry(metric: string, localnames: seq<string>, contexts: seq<string>)

  datatype ContextType = IncomeCurrent | IncomePrior | BalanceCurrent | BalancePrior | Other

  function Label(c: ContextType): string {
    match c
    case IncomeCurrent => "income_current"
    case IncomePrior => "income_prior"
    case BalanceCurrent => "balance_current"
    case BalancePrior => "balance_prior"
    case Other => "other"
  }

  // ---------------------------------------------------------------- the map

  predicate Applies(e: Entry, context: string) { "*" in e.contexts || context in e.contexts }

  // The first entry of the taxonomy that lists the name and admits the context.
  function Scan(entries: seq<Entry>, localname: string, context: string): Option<string> {
    if entries == [] then None
    else if localname in entries[0].localnames && Applies(entries[0], context) then Some(entries[0].metric)
    else Scan(entries[1..], localname, context)
  }

  function Occurrences(names: seq<string>, name: string): nat {
    if names == [] then 0
    else Occurrences(names[..|names| - 1], name) + if names[|names| - 1] == name then 1 else 0
  }

  function Repeat<T>(x: T, n: nat): seq<T> { seq(n, _ => x) }

  // What the index should hold under a name: its entries in order, once per listing.
  function EntriesFor(entries: seq<Entry>, localname: string): seq<Entry> {
    if entries == [] then []
    else
      var last := entries[|entries| - 1];
      EntriesFor(entries[..|entries| - 1], localname) + Repeat(last, Occurrences(last.localnames, localname))
  }

  function At<K, V>(m: map<K, seq<V>>, k: K): seq<V> { if k in m then m[k] else [] }

  function FirstApplying(candidates: seq<Entry>, context: string): Option<string> {
    if candidates == [] then None
    else if Applies(candidates[0], context) then Some(candidates[0].metric)
    else FirstApplying(candidates[1..], context)
  }

  // The index holds the entries done and the next one under those of its names treated so far.
  ghost predicate Indexes(index: map<string, seq<Entry>>, done: seq<Entry>, entry: Entry, names: seq<string>) {
    forall name :: At(index, name) == EntriesFor(done, name) + Repeat(entry, Occurrences(names, name))
  }

  lemma IndexesOneMore(index: map<string, seq<Entry>>, done: seq<Entry>, entry: Entry, names: seq<string>, next: string)
    requires Indexes(index, done, entry, names)
    ensures Indexes(index[next := At(index, next) + [entry]], done, entry, names + [next])
  {
    hide EntriesFor;
    var index' := index[next := At(index, next) + [entry]];
    assert (names + [next])[..|names|] == names;
    forall name
      ensures At(index', name) == EntriesFor(done, name) + Repeat(entry, Occurrences(names + [next], name))
    {
      var n := Occurrences(names, name);
      assert At(index, name) == EntriesFor(done, name) + Repeat(entry, n);
      if name == next { assert Repeat(entry, n + 1) == Repeat(entry, n) + [entry]; }
    }
  }

  class TaxonomyMap {
    const entries: seq<Entry>
    var byLocalname: map<string, seq<Entry>>

    ghost predicate Valid()
      reads this
    {
      forall name :: At(byLocalname, name) == EntriesFor(entries, name)
    }

    constructor (entries: seq<Entry>)
      ensures Valid() && this.entries == entries
    {
      this.entries := entries;
      byLocalname := map[];
      new;
      for i := 0 to |entries|
        invariant this.entries == entries
        invariant forall name :: At(byLocalname, name) == EntriesFor(entries[..i], name)
      {
        assert forall name :: EntriesFor(entries[..i], name) + Repeat(entries[i], 0) == EntriesFor(entries[..i], name);
        IndexEntry(entries[i], entries[..i]);
        assert entries[..i + 1][..i] == entries[..i];
      }
      assert entries[..|entries|] == entries;
    }

    // The inner loop: list one entry under each of its names.
    method IndexEntry(entry: Entry, ghost done: seq<Entry>)
      requires Indexes(byLocalname, done, entry, [])
      modifies this`byLocalname
      ensures Indexes(byLocalname, done, entry, entry.localnames)
    {
      hide Indexes;
      var names := entry.localnames;
      assert names[..0] == [];
      for j := 0 to |names|
        invariant Indexes(byLocalname, done, entry, names[..j])
      {
        IndexesOneMore(byLocalname, done, entry, names[..j], names[j]);
        assert names[..j + 1] == names[..j] + [names[j]];
        byLocalname := byLocalname[names[j] := At(byLocalname, names[j]) + [entry]];
      }
      assert names[..|names|] == names;
    }

    /** The metric of a fact: the index lookup returns what scanning all entries would. */
    method Resolve(localname: string, context: string) returns (metric: Option<string>)
      requires Valid()
      ensures metric == Scan(entries, localname, context)
    {
      var candidates := At(byLocalname, localname);
      IndexAgreesWithScan(entries, localname, context);
      for i := 0 to |candidates|
        invariant FirstApplying(candidates, context) == FirstApplying(candidates[i..], context)
      {
        if Applies(candidates[i], context) { return Some(candidates[i].metric); }
      }
      return None;
    }
  }

  lemma {:induction false} FirstApplyingConcat(a: seq<Entry>, b: seq<Entry>, context: string)
    ensures FirstApplying(a + b, context)
         == if FirstApplying(a, context).Some? then FirstApplying(a, context) else FirstApplying(b, context)
  {
    if a == [] {
      assert a + b == b;
    } else {
      assert (a + b)[1..] == a[1..] + b;
      FirstApplyingConcat(a[1..], b, context);
    }
  }

  lemma {:induction false} FirstApplyingRepeat(e: Entry, n: nat, context: string)
    ensures FirstApplying(Repeat(e, n), context) == if n > 0 && Applies(e, context) then Some(e.metric) else None
  {
    if n > 0 {
      assert Repeat(e, n)[1..] == Repeat(e, n - 1);
      FirstApplyingRepeat(e, n - 1, context);
    }
  }

  lemma {:induction false} OccursIffListed(names: seq<string>, name: string)
    ensures Occurrences(names, name) > 0 <==> name in names
  {
    if names != [] {
      OccursIffListed(names[..|names| - 1], name);
      assert names == names[..|names| - 1] + [names[|names| - 1]];
    }
  }

  lemma {:induction false} ScanConcat(a: seq<Entry>, b: seq<Entry>, localname: string, context: string)
    ensures Scan(a + b, localname, context)
         == if Scan(a, localname, context).Some? then Scan(a, localname, context) else Scan(b, localname, context)
  {
    if a == [] {
      assert a + b == b;
    } else {
      assert (a + b)[1..] == a[1..] + b;
      ScanConcat(a[1..], b, localname, context);
    }
  }

  /** Grouping the entries by name loses nothing: the first applicable entry of the group is the first match of a
      linear scan, whatever names an entry repeats. */
  lemma {:induction false} IndexAgreesWithScan(entries: seq<Entry>, localname: string, context: string)
    ensures FirstApplying(EntriesFor(entries, localname), context) == Scan(entries, localname, context)
  {
    if entries != [] {
      var init, last := entries[..|entries| - 1], entries[|entries| - 1];
      IndexAgreesWithScan(init, localname, context);
      assert entries == init + [last];
      ScanConcat(init, [last], localname, context);
      FirstApplyingConcat(EntriesFor(init, localname), Repeat(last, Occurrences(last.localnames, localname)), context);
      FirstApplyingRepeat(last, Occurrences(last.localnames, localname), context);
      OccursIffListed(last.localnames, localname);
      hide Applies, FirstApplying, Occurrences;
    }
  }

  /** What a scan finds: the metric of the entry before which none matches, and nothing exactly when none matches. */
  lemma {:induction false} ScanFindsFirst(entries: seq<Entry>, localname: string, context: string) returns (i: nat)
    ensures i <= |entries|
    ensures forall j :: 0 <= j < i ==> !(localname in entries[j].localnames && Applies(entries[j], context))
    ensures i < |entries| ==> localname in entries[i].localnames && Applies(entries[i], context)
    ensures Scan(entries, localname, context) == if i < |entries| then Some(entries[i].metric) else None
  {
    if entries == [] || (localname in entries[0].localnames && Applies(entries[0], context)) {
      i := 0;
    } else {
      var k := ScanFindsFirst(entries[1..], localname, context);
      i := k + 1;
      assert forall j :: 1 <= j <= i && j < |entries| ==> entries[j] == entries[1..][j - 1];
    }
  }

  // ---------------------------------------------------------------- facts

  // The empty namespace stands for none.
  datatype QName = QName(namespace: string, localName: string)

  /** A fact as loaded. The unit is its rendering, the value None when it is empty or not a number. */
  datatype ModelFact = ModelFact(isNil: bool, unit: Option<string>, value: Option<real>, concept: Option<QName>,
                                 hasContext: bool, contextId: string)

  datatype ParsedFact = ParsedFact(contextType: ContextType, metric: string, value: real, rawConcept: string,
                                   isMapped: bool)

  datatype FactOutcome = Admitted(fact: ParsedFact) | Ignored | Rejected(unit: string)

  datatype ParseResult = ParseResult(facts: seq<ParsedFact>, factCount: nat, mappedCount: nat,
                                     unmappedConcepts: set<string>, banking: bool, errors: seq<string>)

  predicate OccursAt(s: string, part: string, i: nat) { i + |part| <= |s| && s[i..i + |part|] == part }

  predicate Contains(s: string, part: string) { exists i :: 0 <= i <= |s| && OccursAt(s, part, i) }

  function LowerChar(c: char): char { if 'A' <= c <= 'Z' then c - 'A' + 'a' else c }

  function Lower(s: string): string { seq(|s|, i requires 0 <= i < |s| => LowerChar(s[i])) }

  // A monetary unit that is not the rupiah.
  predicate IsForeign(unit: string) {
    && !Contains(unit, "IDR") && !Contains(unit, "Rupiah") && !Contains(unit, "iso4217:IDR")
    && !Contains(Lower(unit), "pure") && !Contains(Lower(unit), "shares")
    && !Contains(Lower(unit), "pureitemtype") && !Contains(Lower(unit), "xbrli:pure")
    && Contains(Lower(unit), "iso4217")
  }

  function ClassifyContext(id: string): ContextType {
    var hasCurrent := Contains(id, "CurrentYear");
    var hasPrior := Contains(id, "PriorYear") || Contains(id, "PriorEndYear");
    if hasCurrent && Contains(id, "Duration") then IncomeCurrent
    else if hasPrior && Contains(id, "Duration") then IncomePrior
    else if hasCurrent && Contains(id, "Instant") then BalanceCurrent
    else if hasPrior && Contains(id, "Instant") then BalancePrior
    else Other
  }

  function RawConcept(q: QName): string { if q.namespace != "" then q.namespace + ":" + q.localName else q.localName }

  // The part of a raw concept after its last colon.
  function LastSegment(s: string): string {
    if s == "" || s[|s| - 1] == ':' then "" else LastSegment(s[..|s| - 1]) + [s[|s| - 1]]
  }

  function ParsedAs(q: QName, contextId: string, value: real, metric: Option<string>): ParsedFact {
    ParsedFact(ClassifyContext(contextId), if metric.Some? then metric.value else q.localName, value, RawConcept(q),
               metric.Some?)
  }

  function ParseFact(f: ModelFact, entries: seq<Entry>): FactOutcome {
    if f.isNil || f.unit.None? then Ignored
    else if IsForeign(f.unit.value) then Rejected(f.unit.value)
    else if f.value.None? || f.concept.None? || !f.hasContext then Ignored
    else
      var q := f.concept.value;
      Admitted(ParsedAs(q, f.contextId, f.value.value, Scan(entries, q.localName, Label(ClassifyContext(f.contextId)))))
  }

  function AdmittedFacts(model: seq<ModelFact>, entries: seq<Entry>): seq<ParsedFact> {
    if model == [] then []
    else
      var o := ParseFact(model[|model| - 1], entries);
      AdmittedFacts(model[..|model| - 1], entries) + if o.Admitted? then [o.fact] else []
  }

  function RejectedUnits(model: seq<ModelFact>, entries: seq<Entry>): seq<string> {
    if model == [] then []
    else
      var o := ParseFact(model[|model| - 1], entries);
      RejectedUnits(model[..|model| - 1], entries) + if o.Rejected? then [o.unit] else []
  }

  function CountMapped(facts: seq<ParsedFact>): nat {
    if facts == [] then 0
    else CountMapped(facts[..|facts| - 1]) + if facts[|facts| - 1].isMapped then 1 else 0
  }

  const BANKING_NAMES := {"InterestIncome", "TotalLoansGross", "TotalLoansNet", "CurrentAccounts", "SavingsDeposits",
                          "NetInterestIncome", "SubtotalInterestIncome", "TemporarySyirkahFunds"}

  function Unmapped(facts: seq<ParsedFact>): set<string> { set f | f in facts && !f.isMapped :: f.rawConcept }

  ghost predicate HasBankingFact(facts: seq<ParsedFact>) {
    exists f :: f in facts && LastSegment(f.rawConcept) in BANKING_NAMES
  }

  // The counters and flags of a result describe its facts.
  ghost predicate Tallied(r: ParseResult) {
    && r.factCount == |r.facts| && r.mappedCount == CountMapped(r.facts)
    && r.unmappedConcepts == Unmapped(r.facts) && (r.banking <==> HasBankingFact(r.facts))
  }

  class Parser {
    const taxonomyMap: TaxonomyMap

    constructor (taxonomyMap: TaxonomyMap)
      ensures this.taxonomyMap == taxonomyMap
    {
      this.taxonomyMap := taxonomyMap;
    }

    method ParseOne(f: ModelFact) returns (outcome: FactOutcome)
      requires taxonomyMap.Valid()
      ensures outcome == ParseFact(f, taxonomyMap.entries)
    {
      if f.isNil || f.unit.None? { return Ignored; }
      if IsForeign(f.unit.value) { return Rejected(f.unit.value); }
      if f.value.None? || f.concept.None? || !f.hasContext { return Ignored; }
      var metric := taxonomyMap.Resolve(f.concept.value.localName, Label(ClassifyContext(f.contextId)));
      return Admitted(ParsedAs(f.concept.value, f.contextId, f.value.value, metric));
    }

    /** One pass over the facts of a filing. */
    method ParseModel(model: seq<ModelFact>) returns (r: ParseResult)
      requires taxonomyMap.Valid()
      ensures r.facts == AdmittedFacts(model, taxonomyMap.entries)
      ensures r.errors == RejectedUnits(model, taxonomyMap.entries)
      ensures Tallied(r)
    {
      hide ParseFact, Tallied;
      r := ParseResult([], 0, 0, {}, false, []);
      NothingTallied(r);
      for i := 0 to |model|
        invariant r.facts == AdmittedFacts(model[..i], taxonomyMap.entries)
        invariant r.errors == RejectedUnits(model[..i], taxonomyMap.entries)
        invariant Tallied(r)
      {
        assert model[..i + 1][..i] == model[..i];
        var outcome := ParseOne(model[i]);
        match outcome
        case Rejected(unit) =>
          TalliesIgnoreErrors(r, r.errors + [unit]);
          r := r.(errors := r.errors + [unit]);
        case Admitted(parsed) => r := Tally(r, parsed);
        case Ignored =>
      }
      assert model[..|model|] == model;
    }

    method Tally(result: ParseResult, parsed: ParsedFact) returns (r: ParseResult)
      requires Tallied(result)
      ensures Tallied(r) && r.facts == result.facts + [parsed] && r.errors == result.errors
    {
      OneMoreFact(result.facts, parsed);
      hide LastSegment, Unmapped, HasBankingFact;
      r := result.(facts := result.facts + [parsed], factCount := result.factCount + 1);
      assert r.facts[..|r.facts| - 1] == result.facts;
      if parsed.isMapped {
        r := r.(mappedCount := r.mappedCount + 1);
      } else {
        r := r.(unmappedConcepts := r.unmappedConcepts + {parsed.rawConcept});
      }
      if LastSegment(parsed.rawConcept) in BANKING_NAMES { r := r.(banking := true); }
    }
  }

  lemma NothingTallied(r: ParseResult)
    requires r == ParseResult([], 0, 0, {}, false, [])
    ensures Tallied(r)
  {
  }

  lemma TalliesIgnoreErrors(r: ParseResult, errors: seq<string>)
    ensures Tallied(r.(errors := errors)) == Tallied(r)
  {
  }

  lemma OneMoreFact(facts: seq<ParsedFact>, f: ParsedFact)
    ensures Unmapped(facts + [f]) == Unmapped(facts) + if f.isMapped then {} else {f.rawConcept}
    ensures HasBankingFact(facts + [f]) <==> HasBankingFact(facts) || LastSegment(f.rawConcept) in BANKING_NAMES
  {
    hide LastSegment;
    assert forall g :: g in facts + [f] <==> g in facts || g == f;
  }

  // ---------------------------------------------------------------- names

  lemma {:induction false} LastSegmentHasNoColon(s: string)
    ensures ':' !in LastSegment(s)
  {
    if s != "" && s[|s| - 1] != ':' { LastSegmentHasNoColon(s[..|s| - 1]); }
  }

  lemma {:induction false} SegmentAfter(before: string, name: string)
    ensures ':' !in name ==> LastSegment(before + ":" + name) == name && (LastSegment(name) == name)
  {
    var whole := before + ":" + name;
    if name == "" {
      assert whole[|whole| - 1] == ':';
    } else {
      var init := name[..|name| - 1];
      SegmentAfter(before, init);
      assert whole[..|whole| - 1] == before + ":" + init;
      assert name == init + [name[|name| - 1]];
      assert name[|name| - 1] in name;
    }
  }

  /** The raw concept gives the local name back exactly when the name has no colon, as XML names do. */
  lemma NameRoundTrip(q: QName)
    ensures LastSegment(RawConcept(q)) == q.localName <==> ':' !in q.localName
  {
    LastSegmentHasNoColon(RawConcept(q));
    SegmentAfter(q.namespace, q.localName);
    hide LastSegment;
  }

  // ---------------------------------------------------------------- contexts

  lemma ContainsPart(before: string, part: string, after: string)
    ensures Contains(before + part + after, part)
  {
    var s := before + part + after;
    assert s[|before|..|before| + |part|] == part;
    assert OccursAt(s, part, |before|);
  }

  lemma PrimaryParts(before: string, year: string, middle: string, kind: string, after: string)
    ensures var id := before + year + middle + kind + after; Contains(id, year) && Contains(id, kind)
  {
    hide Contains;
    var id := before + year + middle + kind + after;
    ContainsPart(before + year + middle, kind, after);
    ContainsPart(before, year, middle + kind + after);
    assert before + year + (middle + kind + after) == id;
  }

  // A prior balance sheet, unless the id also has the words of another context.
  predicate PriorInstant(id: string) {
    ClassifyContext(id)
    == if Contains(id, "Duration") then if Contains(id, "CurrentYear") then IncomeCurrent else IncomePrior
       else if Contains(id, "CurrentYear") then BalanceCurrent else BalancePrior
  }

  /** Contexts are told apart by substrings only: wherever a dimension or a segment is put into a primary context id,
      before, within or after it, the fact stays in a primary context, never in Other, where the documentation puts
      it. */
  lemma DimensionalContextsAreKept(before: string, middle: string, after: string)
    ensures ClassifyContext(before + "CurrentYear" + middle + "Duration" + after) == IncomeCurrent
    ensures var id := before + "CurrentYear" + middle + "Instant" + after;
            ClassifyContext(id) != Other && (ClassifyContext(id) == BalanceCurrent <==> !Contains(id, "Duration"))
    ensures var id := before + "PriorYear" + middle + "Duration" + after;
            ClassifyContext(id) == if Contains(id, "CurrentYear") then IncomeCurrent else IncomePrior
    ensures PriorInstant(before + "PriorYear" + middle + "Instant" + after)
    ensures PriorInstant(before + "PriorEndYear" + middle + "Instant" + after)
  {
    hide Contains;
    PrimaryParts(before, "CurrentYear", middle, "Duration", after);
    PrimaryParts(before, "CurrentYear", middle, "Instant", after);
    PrimaryParts(before, "PriorYear", middle, "Duration", after);
    PrimaryParts(before, "PriorYear", middle, "Instant", after);
    PrimaryParts(before, "PriorEndYear", middle, "Instant", after);
  }

  // ---------------------------------------------------------------- the fold into statements

  // The value the first fact of a context gives a metric.
  function FirstMapped(facts: seq<ParsedFact>, c: ContextType, metric: string): Option<real> {
    if facts == [] then None
    else
      var earlier, f := FirstMapped(facts[..|facts| - 1], c, metric), facts[|facts| - 1];
      if earlier.Some? then earlier
      else if f.contextType == c && f.isMapped && f.metric == metric then Some(f.value)
      else None
  }

  // The value the first fact of a context gives a name.
  function FirstNamed(facts: seq<ParsedFact>, c: ContextType, name: string): Option<real> {
    if facts == [] then None
    else
      var earlier, f := FirstNamed(facts[..|facts| - 1], c, name), facts[|facts| - 1];
      if earlier.Some? then earlier
      else if f.contextType == c && LastSegment(f.rawConcept) == name then Some(f.value)
      else None
  }

  function Find<K, V>(m: map<K, V>, k: K): Option<V> { if k in m then Some(m[k]) else None }

  type Metrics = map<string, real>

  // One dictionary per primary context.
  datatype Sheets = Sheets(incomeCurrent: Metrics, incomePrior: Metrics, balanceCurrent: Metrics,
                           balancePrior: Metrics) {
    function Of(c: ContextType): Metrics {
      match c
      case IncomeCurrent => incomeCurrent
      case IncomePrior => incomePrior
      case BalanceCurrent => balanceCurrent
      case BalancePrior => balancePrior
      case Other => map[]
    }

    function With(c: ContextType, m: Metrics): Sheets {
      match c
      case IncomeCurrent => this.(incomeCurrent := m)
      case IncomePrior => this.(incomePrior := m)
      case BalanceCurrent => this.(balanceCurrent := m)
      case BalancePrior => this.(balancePrior := m)
      case Other => this
    }
  }

  const EMPTY := Sheets(map[], map[], map[], map[])

  // dict.setdefault: the first value stays.
  function SetDefault<K, V>(m: map<K, V>, k: K, v: V): map<K, V> { if k in m then m else m[k := v] }

  ghost predicate HoldsMapped(s: Sheets, facts: seq<ParsedFact>) {
    forall c, metric :: c != Other ==> Find(s.Of(c), metric) == FirstMapped(facts, c, metric)
  }

  ghost predicate HoldsNamed(s: Sheets, facts: seq<ParsedFact>) {
    forall c, name :: c != Other ==> Find(s.Of(c), name) == FirstNamed(facts, c, name)
  }

  // setdefault on the sheet of one context.
  function Put(s: Sheets, c: ContextType, key: string, value: real): Sheets {
    s.With(c, SetDefault(s.Of(c), key, value))
  }

  lemma PutFinds(s: Sheets, c: ContextType, key: string, value: real, d: ContextType, name: string)
    requires c != Other
    ensures Find(Put(s, c, key, value).Of(d), name)
         == if Find(s.Of(d), name).None? && d == c && name == key then Some(value) else Find(s.Of(d), name)
  {
  }

  lemma MappedOneMore(s: Sheets, facts: seq<ParsedFact>, f: ParsedFact)
    requires HoldsMapped(s, facts)
    ensures HoldsMapped(if f.contextType != Other && f.isMapped then Put(s, f.contextType, f.metric, f.value) else s,
                        facts + [f])
  {
    var s' := if f.contextType != Other && f.isMapped then Put(s, f.contextType, f.metric, f.value) else s;
    assert (facts + [f])[..|facts|] == facts;
    forall c, metric | c != Other ensures Find(s'.Of(c), metric) == FirstMapped(facts + [f], c, metric) {
      assert Find(s.Of(c), metric) == FirstMapped(facts, c, metric);
      hide Put, Find, Sheets.Of;
      if s' != s { PutFinds(s, f.contextType, f.metric, f.value, c, metric); }
    }
  }

  lemma NamedOneMore(s: Sheets, facts: seq<ParsedFact>, f: ParsedFact)
    requires HoldsNamed(s, facts)
    ensures HoldsNamed(if f.contextType != Other then Put(s, f.contextType, LastSegment(f.rawConcept), f.value) else s,
                       facts + [f])
  {
    hide LastSegment;
    var s' := if f.contextType != Other then Put(s, f.contextType, LastSegment(f.rawConcept), f.value) else s;
    assert (facts + [f])[..|facts|] == facts;
    forall c, name | c != Other ensures Find(s'.Of(c), name) == FirstNamed(facts + [f], c, name) {
      assert Find(s.Of(c), name) == FirstNamed(facts, c, name);
      hide Put, Find, Sheets.Of;
      if f.contextType != Other { PutFinds(s, f.contextType, LastSegment(f.rawConcept), f.value, c, name); }
    }
  }

  method CollectFacts(facts: seq<ParsedFact>) returns (mapped: Sheets, raw: Sheets)
    ensures HoldsMapped(mapped, facts) && HoldsNamed(raw, facts)
  {
    mapped, raw := EMPTY, EMPTY;
    hide LastSegment;
    for i := 0 to |facts|
      invariant HoldsMapped(mapped, facts[..i]) && HoldsNamed(raw, facts[..i])
    {
      var f := facts[i];
      assert facts[..i + 1] == facts[..i] + [f];
      MappedOneMore(mapped, facts[..i], f);
      NamedOneMore(raw, facts[..i], f);
      hide HoldsMapped, HoldsNamed, Put;
      if f.contextType == Other { continue; }
      raw := Put(raw, f.contextType, LastSegment(f.rawConcept), f.value);
      if f.isMapped {
        mapped := Put(mapped, f.contextType, f.metric, f.value);
      }
    }
    assert facts[..|facts|] == facts;
  }

  /** A filing's period is one of TW1, TW2, TW3 and Tahunan; dates are a year with a month and day. */
  datatype Filing = Filing(symbol: string, year: int, period: string)

  datatype Statement = Statement(symbol: string, fiscalYear: int, quarter: Option<nat>, periodEnd: (int, string),
                                 kind: string, metrics: Metrics)

  const PERIODS: map<string, (Option<nat>, string)> :=
    map["TW1" := (Some(1), "03-31"), "TW2" := (Some(2), "06-30"), "TW3" := (Some(3), "09-30"),
        "Tahunan" := (None, "12-31")]

  // At most one statement per context, none without metrics.
  function Emit(filing: Filing, kind: string, offset: int, metrics: Metrics): seq<Statement>
    requires filing.period in PERIODS
  {
    if metrics == map[] then []
    else
      var (quarter, monthDay) := PERIODS[filing.period];
      [Statement(filing.symbol, filing.year + offset, if offset == 0 then quarter else None,
                 (filing.year + offset, monthDay), kind, metrics)]
  }

  function Statements(filing: Filing, s: Sheets): seq<Statement>
    requires filing.period in PERIODS
  {
    Emit(filing, "income", 0, s.incomeCurrent) + Emit(filing, "income", -1, s.incomePrior)
    + Emit(filing, "balance", 0, s.balanceCurrent) + Emit(filing, "balance", -1, s.balancePrior)
  }

  /** The statements and raw facts of a filing; None for a period that is not in the table. */
  method AdaptParseResult(facts: seq<ParsedFact>, filing: Filing)
    returns (result: Option<(seq<Statement>, Sheets)>, ghost mapped: Sheets)
    ensures result.Some? <==> filing.period in PERIODS
    ensures HoldsMapped(mapped, facts)
    ensures result.Some? ==> HoldsNamed(result.value.1, facts) && result.value.0 == Statements(filing, mapped)
  {
    hide HoldsMapped, HoldsNamed;
    var sheets, raw := CollectFacts(facts);
    mapped := sheets;
    if filing.period !in PERIODS { return None, mapped; }
    var statements: seq<Statement> := [];
    statements := AppendStatement(statements, filing, "income", 0, sheets.incomeCurrent);
    statements := AppendStatement(statements, filing, "income", -1, sheets.incomePrior);
    statements := AppendStatement(statements, filing, "balance", 0, sheets.balanceCurrent);
    statements := AppendStatement(statements, filing, "balance", -1, sheets.balancePrior);
    return Some((statements, raw)), mapped;
  }

  method AppendStatement(statements: seq<Statement>, filing: Filing, kind: string, offset: int, metrics: Metrics)
    returns (r: seq<Statement>)
    requires filing.period in PERIODS
    ensures r == statements + Emit(filing, kind, offset, metrics)
  {
    if |metrics| == 0 {
      assert metrics == map[];
      return statements;
    }
    var (quarter, monthDay) := PERIODS[filing.period];
    var fiscalYear := filing.year + offset;
    var statement := Statement(filing.symbol, fiscalYear, if offset == 0 then quarter else None,
                               (fiscalYear, monthDay), kind, metrics);
    r := statements + [statement];
  }

  // ---------------------------------------------------------------- the direct specification

  // A fact that supplies the metric in the context, by a linear scan of the taxonomy.
  predicate Supplies(f: ModelFact, entries: seq<Entry>, c: ContextType, metric: string) {
    && ParseFact(f, entries).Admitted? && ClassifyContext(f.contextId) == c
    && Scan(entries, f.concept.value.localName, Label(c)) == Some(metric)
  }

  /** The sheets hold, for each context and metric, the value of the first fact of the filing that supplies it, and
      nothing when no fact does. */
  lemma {:induction false} FirstFactWins(model: seq<ModelFact>, entries: seq<Entry>, c: ContextType, metric: string)
    returns (i: nat)
    ensures i <= |model|
    ensures forall j :: 0 <= j < i ==> !Supplies(model[j], entries, c, metric)
    ensures i < |model| ==> Supplies(model[i], entries, c, metric)
    ensures FirstMapped(AdmittedFacts(model, entries), c, metric)
         == if i < |model| then Some(model[i].value.value) else None
  {
    hide ClassifyContext, Scan, IsForeign, Label, RawConcept;
    if model == [] {
      i := 0;
    } else {
      var init, last := model[..|model| - 1], model[|model| - 1];
      var k := FirstFactWins(init, entries, c, metric);
      var facts, o := AdmittedFacts(init, entries), ParseFact(last, entries);
      if o.Admitted? {
        assert (facts + [o.fact])[..|facts|] == facts;
      } else {
        assert facts + [] == facts;
      }
      i := if k < |init| then k else if Supplies(last, entries, c, metric) then k else |model|;
      assert forall j :: 0 <= j < |init| ==> init[j] == model[j];
    }
  }

  lemma {:induction false} SheetMetric(model: seq<ModelFact>, entries: seq<Entry>, mapped: Sheets, c: ContextType,
                                       metric: string)
    returns (i: nat)
    requires HoldsMapped(mapped, AdmittedFacts(model, entries)) && c != Other
    ensures i <= |model|
    ensures forall j :: 0 <= j < i ==> !Supplies(model[j], entries, c, metric)
    ensures metric in mapped.Of(c) <==> i < |model|
    ensures i < |model| ==> Supplies(model[i], entries, c, metric) && mapped.Of(c)[metric] == model[i].value.value
  {
    i := FirstFactWins(model, entries, c, metric);
    hide AdmittedFacts, FirstMapped, Supplies;
    assert Find(mapped.Of(c), metric) == FirstMapped(AdmittedFacts(model, entries), c, metric);
  }

  // ---------------------------------------------------------------- emitted statements

  function KindOf(c: ContextType): string { if c.IncomeCurrent? || c.IncomePrior? then "income" else "balance" }

  function OffsetOf(c: ContextType): int { if c.IncomePrior? || c.BalancePrior? then -1 else 0 }

  // The statement is about the context: its kind and its year.
  predicate IsFor(s: Statement, filing: Filing, c: ContextType) {
    s.kind == KindOf(c) && s.fiscalYear == filing.year + OffsetOf(c)
  }

  lemma KindsDiffer()
    ensures "income" != "balance"
  {
    assert |"income"| == 6 && |"balance"| == 7;
  }

  /** Every emitted statement is the non-empty sheet of one context, and every such sheet is emitted. */
  lemma EmittedIff(filing: Filing, mapped: Sheets, c: ContextType, s: Statement)
    requires filing.period in PERIODS && c != Other
    ensures s in Statements(filing, mapped) && IsFor(s, filing, c)
      <==> mapped.Of(c) != map[] && Emit(filing, KindOf(c), OffsetOf(c), mapped.Of(c)) == [s]
    ensures s in Statements(filing, mapped) && IsFor(s, filing, c) ==> s.metrics == mapped.Of(c) != map[]
  {
    KindsDiffer();
    var a, b := Emit(filing, "income", 0, mapped.incomeCurrent), Emit(filing, "income", -1, mapped.incomePrior);
    var d, e := Emit(filing, "balance", 0, mapped.balanceCurrent), Emit(filing, "balance", -1, mapped.balancePrior);
    assert Statements(filing, mapped) == a + b + d + e;
    hide Statements;
    assert s in a + b + d + e <==> s in a || s in b || s in d || s in e;
    assert |a| <= 1 && |b| <= 1 && |d| <= 1 && |e| <= 1;
  }

  /** At most four statements, none without metrics, each for a context of its own. */
  lemma StatementsDistinct(filing: Filing, mapped: Sheets)
    requires filing.period in PERIODS
    ensures var all := Statements(filing, mapped);
            && |all| <= 4
            && (forall i :: 0 <= i < |all| ==> all[i].metrics != map[])
            && (forall i, j :: 0 <= i < j < |all| ==>
                  all[i].kind != all[j].kind || all[i].fiscalYear != all[j].fiscalYear)
  {
    KindsDiffer();
    EmitShape(filing, "income", 0, mapped.incomeCurrent);
    EmitShape(filing, "income", -1, mapped.incomePrior);
    EmitShape(filing, "balance", 0, mapped.balanceCurrent);
    EmitShape(filing, "balance", -1, mapped.balancePrior);
    hide Emit;
  }

  lemma EmitShape(filing: Filing, kind: string, offset: int, metrics: Metrics)
    requires filing.period in PERIODS
    ensures var all := Emit(filing, kind, offset, metrics);
            && |all| <= 1
            && (|all| == 1 ==>
                  all[0].kind == kind && all[0].fiscalYear == filing.year + offset && all[0].metrics != map[])
  {
  }

  lemma SuppliedHasValue(f: ModelFact, entries: seq<Entry>, c: ContextType, metric: string)
    requires Supplies(f, entries, c, metric)
    ensures f.value.Some?
  {
    hide IsForeign, ClassifyContext, Scan, Label;
  }

  /** End to end: an emitted statement of a context has a metric exactly when some fact of the filing supplies it by a
      linear scan of the taxonomy, and its value is that of the first such fact. */
  lemma StatementMetric(model: seq<ModelFact>, entries: seq<Entry>, filing: Filing, mapped: Sheets, c: ContextType,
                        metric: string)
    returns (i: nat)
    requires HoldsMapped(mapped, AdmittedFacts(model, entries)) && filing.period in PERIODS && c != Other
    ensures i <= |model|
    ensures forall j :: 0 <= j < i ==> !Supplies(model[j], entries, c, metric)
    ensures i < |model| ==> Supplies(model[i], entries, c, metric)
    ensures (exists s :: s in Statements(filing, mapped) && IsFor(s, filing, c) && metric in s.metrics) <==> i < |model|
    ensures forall s :: s in Statements(filing, mapped) && IsFor(s, filing, c) && metric in s.metrics ==>
      i < |model| && model[i].value == Some(s.metrics[metric])
  {
    i := SheetMetric(model, entries, mapped, c, metric);
    if i < |model| { SuppliedHasValue(model[i], entries, c, metric); }
    hide Supplies, HoldsMapped, AdmittedFacts, Statements, IsFor;
    forall s | s in Statements(filing, mapped) && IsFor(s, filing, c) ensures s.metrics == mapped.Of(c) {
      EmittedIff(filing, mapped, c, s);
    }
    if i < |model| {
      var s := EmittedStatement(filing, mapped, c);
      assert metric in s.metrics;
    }
  }

  lemma EmittedStatement(filing: Filing, mapped: Sheets, c: ContextType) returns (s: Statement)
    requires filing.period in PERIODS && c != Other && mapped.Of(c) != map[]
    ensures s in Statements(filing, mapped) && IsFor(s, filing, c) && s.metrics == mapped.Of(c)
  {
    s := Emit(filing, KindOf(c), OffsetOf(c), mapped.Of(c))[0];
    EmittedIff(filing, mapped, c, s);
  }

  /** A context has a statement exactly when some fact of the filing is mapped in it. */
  lemma StatementsExact(model: seq<ModelFact>, entries: seq<Entry>, filing: Filing, mapped: Sheets, c: ContextType)
    requires HoldsMapped(mapped, AdmittedFacts(model, entries)) && filing.period in PERIODS && c != Other
    ensures (exists s :: s in Statements(filing, mapped) && IsFor(s, filing, c))
      <==> exists i, metric :: 0 <= i < |model| && Supplies(model[i], entries, c, metric)
  {
    hide AdmittedFacts, HoldsMapped, Supplies, Statements, IsFor;
    if s :| s in Statements(filing, mapped) && IsFor(s, filing, c) {
      EmittedIff(filing, mapped, c, s);
      var metric :| metric in mapped.Of(c);
      var i := SheetMetric(model, entries, mapped, c, metric);
      assert Supplies(model[i], entries, c, metric);
    }
    if i: int, metric: string :| 0 <= i < |model| && Supplies(model[i], entries, c, metric) {
      var j := SheetMetric(model, entries, mapped, c, metric);
      assert metric in mapped.Of(c);
      var s := EmittedStatement(filing, mapped, c);
    }
  }

  /** The prior balance sheet is the one at the end of the prior year, but it is dated like the filing's own quarter;
      the date is right exactly for annual filings. */
  lemma PriorBalanceDate(filing: Filing, mapped: Sheets)
    requires filing.period in PERIODS && mapped.balancePrior != map[]
    ensures var all := Statements(filing, mapped);
            && |all| > 0 && all[|all| - 1].metrics == mapped.balancePrior
            && (all[|all| - 1].periodEnd == (filing.year - 1, "12-31") <==> filing.period == "Tahunan")
  {
    var last := Emit(filing, "balance", -1, mapped.balancePrior);
    assert |last| == 1;
    assert "12-31"[0] == '1' && "03-31"[0] == '0' && "06-30"[0] == '0' && "09-30"[0] == '0';
  }

  /** The first-quarter filing of 2024 dates the balance sheet at the end of 2023 as of March 2023. */
  lemma QuarterlyPriorBalance()
    ensures var facts := [ParsedFact(BalancePrior, "total_equity", 1.0, "Equity", true)];
            var mapped := EMPTY.(balancePrior := map["total_equity" := 1.0]);
            && HoldsMapped(mapped, facts)
            && Statements(Filing("A", 2024, "TW1"), mapped)
               == [Statement("A", 2023, None, (2023, "03-31"), "balance", mapped.balancePrior)]
  {
    var fact := ParsedFact(BalancePrior, "total_equity", 1.0, "Equity", true);
    assert HoldsMapped(EMPTY, []);
    MappedOneMore(EMPTY, [], fact);
    assert [] + [fact] == [fact];
  }

  /** Where the facts before it that supply the metric report other values, a fact's own value reaches the sheet
      exactly when there are none. */
  lemma TotalSurvivesIff(model: seq<ModelFact>, entries: seq<Entry>, mapped: Sheets, c: ContextType, metric: string,
                         total: nat)
    requires HoldsMapped(mapped, AdmittedFacts(model, entries)) && c != Other
    requires total < |model| && Supplies(model[total], entries, c, metric)
    requires forall j :: 0 <= j < total && Supplies(model[j], entries, c, metric) ==>
      model[j].value != model[total].value
    ensures metric in mapped.Of(c)
    ensures mapped.Of(c)[metric] == model[total].value.value
      <==> forall j :: 0 <= j < total ==> !Supplies(model[j], entries, c, metric)
  {
    var i := SheetMetric(model, entries, mapped, c, metric);
    hide AdmittedFacts, HoldsMapped;
    assert model[i].value.Some? && model[total].value.Some?;
  }

  /** So a dimensional fact takes the place of a total of another value that comes after it, wherever the dimension
      stands in its context id. */
  lemma DimensionDisplacesTotal(model: seq<ModelFact>, entries: seq<Entry>, mapped: Sheets, metric: string, part: nat,
                                total: nat, before: string, middle: string, after: string)
    requires HoldsMapped(mapped, AdmittedFacts(model, entries))
    requires part < total < |model| && Supplies(model[total], entries, BalanceCurrent, metric)
    requires model[part].contextId == before + "CurrentYear" + middle + "Instant" + after
             && !Contains(model[part].contextId, "Duration")
    requires ParseFact(model[part], entries).Admitted? && model[part].concept == model[total].concept
    requires forall j :: 0 <= j < total && Supplies(model[j], entries, BalanceCurrent, metric) ==>
      model[j].value != model[total].value
    ensures metric in mapped.balanceCurrent && mapped.balanceCurrent[metric] != model[total].value.value
  {
    hide Contains, AdmittedFacts, HoldsMapped, Scan, Label;
    DimensionalContextsAreKept(before, middle, after);
    assert Supplies(model[part], entries, BalanceCurrent, metric);
    TotalSurvivesIff(model, entries, mapped, BalanceCurrent, metric, total);
  }
}
