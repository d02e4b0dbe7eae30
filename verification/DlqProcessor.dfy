/** The dead-letter processor: re-validate, re-queue with a counter, or bury.

    `Step` is one message of the consumer loop on values; the class mutates its topics the same way. The main result
    is that draining the queue, in any order, does to each letter what `Destiny` says about it alone. */
module DlqProcessor {
  import opened Wrappers
  import opened Messages

  const MAX_RETRIES := 3

  // The fields of a record the validator gets to see.
  datatype Candidate = Candidate(symbol: Value, date: Value, open: Value, high: Value, low: Value, close: Value,
                                 adjustedClose: Value, volume: Value, prevClose: Value)

  // A row of the table of permanently failed records.
  datatype PermanentRow = PermanentRow(letter: DeadLetter, retryCount: int)

  datatype Disposition = Resolved | Retried | Permanent

  /** What the processor is connected to, and the validator (which also stands for the conversions that can raise
      ValueError). */
  datatype Setup = Setup(hasSession: bool, hasProducer: bool, validator: Candidate -> bool)

  /** `queue` holds the letters not consumed yet, over all three topics. */
  datatype State = State(queue: seq<DeadLetter>, validated: seq<Record>, permanent: seq<PermanentRow>)

  function Original(d: DeadLetter): Record { if d.original.Some? then d.original.value else d.body }

  // A count that cannot be compared with MAX_RETRIES would raise in the loop.
  predicate Counted(d: DeadLetter) { Get(d.body, "retry_count", Int(0)).Int? }

  function RetryCount(d: DeadLetter): int
    requires Counted(d)
  {
    Get(d.body, "retry_count", Int(0)).i
  }

  function WithCount(r: Record, count: int): Record { r["retry_count" := Int(count)] }

  function Requeued(d: DeadLetter, count: int): DeadLetter { d.(body := WithCount(d.body, count)) }

  // None when a field is missing.
  function Parse(r: Record): Option<Candidate> {
    if HasBarFields(r) && "date" in r then
      Some(Candidate(r["symbol"], r["date"], r["open"], r["high"], r["low"], r["close"],
                     Get(r, "adjusted_close", r["close"]), Get(r, "volume", Int(0)), Get(r, "prev_close", Null)))
    else None
  }

  // Only letters on the EOD topic are re-validated.
  predicate Revalidates(d: DeadLetter, setup: Setup) {
    d.topic.DlqEodOhlcv? && Parse(Original(d)).Some? && setup.validator(Parse(Original(d)).value)
  }

  predicate IsRetried(d: DeadLetter, setup: Setup)
    requires Counted(d)
  {
    RetryCount(d) < MAX_RETRIES && setup.hasProducer && !Revalidates(d, setup)
  }

  function Process(s: State, d: DeadLetter, count: int, setup: Setup): State {
    if count >= MAX_RETRIES then
      if setup.hasSession then s.(permanent := s.permanent + [PermanentRow(d, count)]) else s
    else if !setup.hasProducer then s
    else if Revalidates(d, setup) then s.(validated := s.validated + [WithCount(Original(d), count + 1)])
    else s.(queue := s.queue + [Requeued(d, count + 1)])
  }

  // The letters of three topics are consumed in some interleaving: any letter of the queue may be next.
  function Step(s: State, i: nat, setup: Setup): State
    requires i < |s.queue| && Counted(s.queue[i])
  {
    Process(s.(queue := Without(s.queue, i)), s.queue[i], RetryCount(s.queue[i]), setup)
  }

  function Without<T>(s: seq<T>, i: nat): seq<T>
    requires i < |s|
  {
    s[..i] + s[i + 1..]
  }

  ghost predicate AllCounted(queue: seq<DeadLetter>) { forall i :: 0 <= i < |queue| ==> Counted(queue[i]) }

  // ---------------------------------------------------------------- one letter, field by field

  // What the validator is shown: the record's own fields.
  predicate Shows(c: Candidate, r: Record) {
    && "symbol" in r && c.symbol == r["symbol"] && "date" in r && c.date == r["date"]
    && "open" in r && c.open == r["open"] && "high" in r && c.high == r["high"]
    && "low" in r && c.low == r["low"] && "close" in r && c.close == r["close"]
    && FieldOr(c.adjustedClose, r, "adjusted_close", r["close"]) && FieldOr(c.volume, r, "volume", Int(0))
    && FieldOr(c.prevClose, r, "prev_close", Null)
  }

  // The letter's own record, if it is one: the record it wraps, or else its own fields.
  predicate Carries(d: DeadLetter, r: Record) { if d.original.Some? then d.original.value == r else d.body == r }

  // The same fields, with this count.
  predicate Recounted(r: Record, before: Record, count: int) {
    && r.Keys == before.Keys + {"retry_count"} && r["retry_count"] == Int(count)
    && forall key :: key in before && key != "retry_count" ==> r[key] == before[key]
  }

  ghost predicate Passes(d: DeadLetter, setup: Setup) {
    d.topic == DlqEodOhlcv && exists r, c :: Carries(d, r) && Shows(c, r) && setup.validator(c)
  }

  // One letter handled: buried at three tries, dropped without a producer, sent on when valid, else queued again.
  ghost predicate Handled(before: State, after: State, d: DeadLetter, count: int, setup: Setup) {
    if count >= 3 then
      && after.queue == before.queue && after.validated == before.validated
      && after.permanent == before.permanent + if setup.hasSession then [PermanentRow(d, count)] else []
    else
      && after.permanent == before.permanent
      && if !setup.hasProducer then after == before
         else if Passes(d, setup) then
           && after.queue == before.queue
           && exists own, r :: Carries(d, own) && Recounted(r, own, count + 1)
                               && after.validated == before.validated + [r]
         else
           && after.validated == before.validated
           && exists again: DeadLetter ::
                && again.topic == d.topic && again.original == d.original
                && Recounted(again.body, d.body, count + 1) && after.queue == before.queue + [again]
  }

  lemma ParseIff(r: Record, c: Candidate)
    ensures Parse(r) == Some(c) <==> Shows(c, r)
  {
  }

  lemma PassesIff(d: DeadLetter, setup: Setup)
    ensures Revalidates(d, setup) <==> Passes(d, setup)
  {
    hide Parse, Shows;
    var own := Original(d);
    assert forall r :: Carries(d, r) <==> r == own;
    forall c ensures Parse(own) == Some(c) <==> Shows(c, own) { ParseIff(own, c); }
    hide Carries, Original;
  }

  lemma RecountedIff(r: Record, before: Record, count: int)
    ensures Recounted(r, before, count) <==> r == WithCount(before, count)
  {
    if Recounted(r, before, count) {
      assert r.Keys == WithCount(before, count).Keys;
      assert forall key :: key in r ==> r[key] == WithCount(before, count)[key];
    }
  }

  /** What handling a letter does, said of its own fields. */
  lemma ProcessFromFields(s: State, d: DeadLetter, count: int, setup: Setup)
    ensures Handled(s, Process(s, d, count, setup), d, count, setup)
  {
    PassesIff(d, setup);
    var own, again := Original(d), Requeued(d, count + 1);
    assert Carries(d, own);
    RecountedIff(WithCount(own, count + 1), own, count + 1);
    RecountedIff(again.body, d.body, count + 1);
    hide Revalidates, Passes, Carries, Recounted, WithCount, Original;
  }

  // ---------------------------------------------------------------- the fate of one letter

  /** What has been sent, buried and consumed. */
  datatype Tally = Tally(validated: multiset<Record>, permanent: multiset<PermanentRow>, consumed: nat) {
    function Plus(other: Tally): Tally {
      Tally(validated + other.validated, permanent + other.permanent, consumed + other.consumed)
    }
  }

  const NOTHING := Tally(multiset{}, multiset{}, 0)

  lemma PlusSwap(a: Tally, b: Tally, c: Tally)
    ensures a.Plus(b).Plus(c) == a.Plus(c).Plus(b)
    ensures a.Plus(b).Plus(c) == a.Plus(b.Plus(c))
  {
  }

  /** Everything that ever happens because of one letter, without following its retries. */
  function Destiny(d: DeadLetter, setup: Setup): Tally
    requires Counted(d)
  {
    var buried := if !setup.hasSession then multiset{}
                  else if RetryCount(d) >= MAX_RETRIES then multiset{PermanentRow(d, RetryCount(d))}
                  else multiset{PermanentRow(Requeued(d, MAX_RETRIES), MAX_RETRIES)};
    if RetryCount(d) >= MAX_RETRIES then Tally(multiset{}, buried, 1)
    else if !setup.hasProducer then Tally(multiset{}, multiset{}, 1)
    else if Revalidates(d, setup) then Tally(multiset{WithCount(Original(d), RetryCount(d) + 1)}, multiset{}, 1)
    else Tally(multiset{}, buried, MAX_RETRIES + 1 - RetryCount(d))
  }

  function Destinies(queue: seq<DeadLetter>, setup: Setup): Tally
    requires AllCounted(queue)
  {
    if queue == [] then NOTHING
    else Destinies(queue[..|queue| - 1], setup).Plus(Destiny(queue[|queue| - 1], setup))
  }

  function Done(s: State, consumed: nat): Tally {
    Tally(multiset(s.validated), multiset(s.permanent), consumed)
  }

  lemma DestiniesOneMore(queue: seq<DeadLetter>, d: DeadLetter, setup: Setup)
    requires AllCounted(queue) && Counted(d)
    ensures AllCounted(queue + [d]) && Destinies(queue + [d], setup) == Destinies(queue, setup).Plus(Destiny(d, setup))
  {
    assert (queue + [d])[..|queue|] == queue;
  }

  lemma ConsumedOneMore(queue: seq<DeadLetter>, d: DeadLetter, setup: Setup)
    requires AllCounted(queue) && Counted(d)
    ensures AllCounted(queue + [d])
    ensures Destinies(queue + [d], setup).consumed == Destinies(queue, setup).consumed + Destiny(d, setup).consumed
  {
    DestiniesOneMore(queue, d, setup);
    hide Destinies, Destiny;
  }

  lemma {:induction false} DestiniesWithout(queue: seq<DeadLetter>, i: nat, setup: Setup)
    requires i < |queue| && AllCounted(queue)
    ensures AllCounted(Without(queue, i))
    ensures Destinies(queue, setup) == Destinies(Without(queue, i), setup).Plus(Destiny(queue[i], setup))
  {
    hide Destiny, Counted, Tally.Plus;
    var last := |queue| - 1;
    if i == last {
      assert Without(queue, i) == queue[..last];
    } else {
      DestiniesWithout(queue[..last], i, setup);
      assert Without(queue, i) == Without(queue[..last], i) + [queue[last]];
      assert queue[..last][i] == queue[i];
      DestiniesOneMore(Without(queue[..last], i), queue[last], setup);
      PlusSwap(Destinies(Without(queue[..last], i), setup), Destiny(queue[i], setup), Destiny(queue[last], setup));
    }
  }

  // Validation never reads the counter, so a letter validates now exactly when it would after a retry.
  lemma RevalidatesIgnoresCount(d: DeadLetter, count: int, setup: Setup)
    ensures Revalidates(Requeued(d, count), setup) == Revalidates(d, setup)
  {
    var r := WithCount(d.body, count);
    assert forall key :: key != "retry_count" ==> (key in r <==> key in d.body);
    assert forall key :: key != "retry_count" && key in r ==> r[key] == d.body[key];
    assert Parse(r) == Parse(d.body) by { ParseIgnoresCount(d.body, count); }
  }

  lemma ParseIgnoresCount(r: Record, count: int)
    ensures Parse(WithCount(r, count)) == Parse(r)
  {
    var c := "retry_count";
    assert "symbol" != c && "date" != c && "open" != c && "high" != c && "low" != c && "close" != c by {
      assert c[0] == 'r';
      assert "symbol"[0] == 's' && "date"[0] == 'd' && "open"[0] == 'o' && "high"[0] == 'h' && "low"[0] == 'l'
             && "close"[0] == 'c';
    }
    assert "adjusted_close" != c && "volume" != c && "prev_close" != c by {
      assert c[0] == 'r' && "adjusted_close"[0] == 'a' && "volume"[0] == 'v' && "prev_close"[0] == 'p';
    }
  }

  // A retry postpones a letter's destiny by one consumption and changes nothing else about it.
  lemma RetryKeepsDestiny(d: DeadLetter, setup: Setup)
    requires Counted(d) && IsRetried(d, setup)
    ensures var d' := Requeued(d, RetryCount(d) + 1);
            && Counted(d') && RetryCount(d') == RetryCount(d) + 1
            && Destiny(d, setup) == Destiny(d', setup).(consumed := Destiny(d', setup).consumed + 1)
  {
    var d' := Requeued(d, RetryCount(d) + 1);
    RevalidatesIgnoresCount(d, RetryCount(d) + 1, setup);
    hide Revalidates;
    assert Requeued(d', MAX_RETRIES) == Requeued(d, MAX_RETRIES) by {
      assert d'.body["retry_count" := Int(MAX_RETRIES)] == d.body["retry_count" := Int(MAX_RETRIES)];
    }
    if RetryCount(d') == MAX_RETRIES { assert Requeued(d', MAX_RETRIES) == d'; }
  }

  // Consuming a letter exchanges its destiny for what it does now and the destiny of its retry.
  lemma ProcessConserves(s: State, d: DeadLetter, consumed: nat, setup: Setup)
    requires AllCounted(s.queue) && Counted(d)
    ensures var s' := Process(s, d, RetryCount(d), setup);
            && AllCounted(s'.queue)
            && Done(s', consumed + 1).Plus(Destinies(s'.queue, setup))
               == Done(s, consumed).Plus(Destinies(s.queue, setup)).Plus(Destiny(d, setup))
  {
    hide *;
    var t, q, e := Done(s, consumed), Destinies(s.queue, setup), Destiny(d, setup);
    if IsRetried(d, setup) {
      LetterRetried(s, d, consumed, setup);
      var d' := Requeued(d, RetryCount(d) + 1);
      DestiniesOneMore(s.queue, d', setup);
      PlusExchange(t, ONCE, q, Destiny(d', setup));
    } else {
      LetterEnds(s, d, consumed, setup);
      PlusSwap(t, e, q);
    }
  }

  const ONCE := Tally(multiset{}, multiset{}, 1)

  lemma ConsumedOnceMore(s: State, consumed: nat)
    ensures Done(s, consumed + 1) == Done(s, consumed).Plus(ONCE)
  {
  }

  lemma OnceMore(t: Tally)
    ensures t.(consumed := t.consumed + 1) == ONCE.Plus(t)
  {
  }

  lemma PlusExchange(a: Tally, b: Tally, c: Tally, d: Tally)
    ensures a.Plus(b).Plus(c.Plus(d)) == a.Plus(c).Plus(b.Plus(d))
  {
  }

  lemma LetterRetried(s: State, d: DeadLetter, consumed: nat, setup: Setup)
    requires Counted(d) && IsRetried(d, setup)
    ensures var s', d' := Process(s, d, RetryCount(d), setup), Requeued(d, RetryCount(d) + 1);
            && s'.queue == s.queue + [d'] && Counted(d') && Destiny(d, setup) == ONCE.Plus(Destiny(d', setup))
            && Done(s', consumed + 1) == Done(s, consumed).Plus(ONCE)
  {
    RetryKeepsDestiny(d, setup);
    ConsumedOnceMore(s, consumed);
    OnceMore(Destiny(Requeued(d, RetryCount(d) + 1), setup));
    hide Destiny, Revalidates, Requeued, Tally.Plus;
  }

  // A letter that is not retried has its whole destiny carried out at once.
  lemma LetterEnds(s: State, d: DeadLetter, consumed: nat, setup: Setup)
    requires Counted(d) && !IsRetried(d, setup)
    ensures var s' := Process(s, d, RetryCount(d), setup);
            s'.queue == s.queue && Done(s', consumed + 1) == Done(s, consumed).Plus(Destiny(d, setup))
  {
    hide Process, Destiny, Done, Revalidates, Counted, Tally.Plus;
    if RetryCount(d) >= MAX_RETRIES {
      if setup.hasSession { LetterBuried(s, d, consumed, setup); } else { LetterDropped(s, d, consumed, setup); }
    } else if setup.hasProducer {
      LetterSent(s, d, consumed, setup);
    } else {
      LetterDropped(s, d, consumed, setup);
    }
  }

  lemma LetterBuried(s: State, d: DeadLetter, consumed: nat, setup: Setup)
    requires Counted(d) && RetryCount(d) >= MAX_RETRIES && setup.hasSession
    ensures var s' := Process(s, d, RetryCount(d), setup);
            s'.queue == s.queue && Done(s', consumed + 1) == Done(s, consumed).Plus(Destiny(d, setup))
  {
    var row := PermanentRow(d, RetryCount(d));
    assert Process(s, d, RetryCount(d), setup) == s.(permanent := s.permanent + [row]);
    assert Destiny(d, setup) == Tally(multiset{}, multiset{row}, 1);
    hide Process, Destiny;
    BagNothing(multiset(s.validated));
    BagOneMore(s.permanent, row);
  }

  lemma LetterSent(s: State, d: DeadLetter, consumed: nat, setup: Setup)
    requires Counted(d) && RetryCount(d) < MAX_RETRIES && setup.hasProducer && Revalidates(d, setup)
    ensures var s' := Process(s, d, RetryCount(d), setup);
            s'.queue == s.queue && Done(s', consumed + 1) == Done(s, consumed).Plus(Destiny(d, setup))
  {
    hide Revalidates;
    var record := WithCount(Original(d), RetryCount(d) + 1);
    assert Process(s, d, RetryCount(d), setup) == s.(validated := s.validated + [record]);
    assert Destiny(d, setup) == Tally(multiset{record}, multiset{}, 1);
    hide Process, Destiny, WithCount, Original;
    BagNothing(multiset(s.permanent));
    BagOneMore(s.validated, record);
  }

  lemma LetterDropped(s: State, d: DeadLetter, consumed: nat, setup: Setup)
    requires Counted(d) && if RetryCount(d) >= MAX_RETRIES then !setup.hasSession else !setup.hasProducer
    ensures var s' := Process(s, d, RetryCount(d), setup);
            s'.queue == s.queue && Done(s', consumed + 1) == Done(s, consumed).Plus(Destiny(d, setup))
  {
    hide Revalidates;
    assert Process(s, d, RetryCount(d), setup) == s && Destiny(d, setup) == ONCE;
    hide Process, Destiny;
    ConsumedOnceMore(s, consumed);
  }

  lemma BagOneMore<T>(s: seq<T>, x: T)
    ensures multiset(s + [x]) == multiset(s) + multiset{x}
  {
  }

  lemma BagNothing<T>(b: multiset<T>)
    ensures b + multiset{} == b
  {
  }

  /** Conservation: what is done plus what is destined never changes, whichever letter is consumed next. */
  lemma StepConserves(s: State, i: nat, consumed: nat, setup: Setup)
    requires i < |s.queue| && AllCounted(s.queue)
    ensures var s' := Step(s, i, setup);
            && AllCounted(s'.queue)
            && Done(s', consumed + 1).Plus(Destinies(s'.queue, setup))
               == Done(s, consumed).Plus(Destinies(s.queue, setup))
  {
    var d, rest := s.queue[i], s.(queue := Without(s.queue, i));
    DestiniesWithout(s.queue, i, setup);
    PlusSwap(Done(s, consumed), Destinies(rest.queue, setup), Destiny(d, setup));
    hide *;
    ProcessConserves(rest, d, consumed, setup);
    StepIsProcess(s, i, setup);
    DoneIgnoresQueue(s, rest.queue, consumed);
  }

  lemma StepIsProcess(s: State, i: nat, setup: Setup)
    requires i < |s.queue| && Counted(s.queue[i])
    ensures Step(s, i, setup) == Process(s.(queue := Without(s.queue, i)), s.queue[i], RetryCount(s.queue[i]), setup)
  {
  }

  lemma DoneIgnoresQueue(s: State, queue: seq<DeadLetter>, consumed: nat)
    ensures Done(s.(queue := queue), consumed) == Done(s, consumed)
  {
  }

  // ---------------------------------------------------------------- draining

  // The state after consuming the letters at these indices in turn.
  function Run(s: State, choices: seq<nat>, setup: Setup): Option<State> {
    if choices == [] then Some(s)
    else
      var before, i := Run(s, choices[..|choices| - 1], setup), choices[|choices| - 1];
      if before.Some? && i < |before.value.queue| && Counted(before.value.queue[i])
      then Some(Step(before.value, i, setup)) else None
  }

  lemma {:induction false} RunConserves(s: State, choices: seq<nat>, setup: Setup)
    requires AllCounted(s.queue) && Run(s, choices, setup).Some?
    ensures var s' := Run(s, choices, setup).value;
            && AllCounted(s'.queue)
            && Done(s', |choices|).Plus(Destinies(s'.queue, setup)) == Done(s, 0).Plus(Destinies(s.queue, setup))
  {
    hide Step, Done, Destinies, Destiny;
    if choices != [] {
      var init := choices[..|choices| - 1];
      RunConserves(s, init, setup);
      StepConserves(Run(s, init, setup).value, choices[|choices| - 1], |init|, setup);
    }
  }

  /** Whatever the interleaving, a run that empties the queue has sent and buried exactly the destinies of the initial
      letters, and consumed exactly the sum of their costs. */
  lemma DrainIsDestiny(s: State, choices: seq<nat>, setup: Setup)
    requires AllCounted(s.queue) && Run(s, choices, setup).Some? && Run(s, choices, setup).value.queue == []
    ensures var s', all := Run(s, choices, setup).value, Destinies(s.queue, setup);
            && multiset(s'.validated) == multiset(s.validated) + all.validated
            && multiset(s'.permanent) == multiset(s.permanent) + all.permanent
            && |choices| == all.consumed
  {
    RunConserves(s, choices, setup);
  }

  lemma {:induction false} DestiniesBound(queue: seq<DeadLetter>, setup: Setup)
    requires AllCounted(queue)
    ensures |queue| <= Destinies(queue, setup).consumed
    ensures (forall i :: 0 <= i < |queue| ==> RetryCount(queue[i]) >= 0) ==>
      Destinies(queue, setup).consumed <= (MAX_RETRIES + 1) * |queue|
  {
    hide Revalidates;
    if queue != [] { DestiniesBound(queue[..|queue| - 1], setup); }
  }

  /** No run is longer than the consumptions destined for the initial letters, at most four each when the counters
      start at 0 or more, and a run that has not emptied the queue is strictly shorter. */
  lemma RunsAreBounded(s: State, choices: seq<nat>, setup: Setup)
    requires AllCounted(s.queue) && Run(s, choices, setup).Some?
    ensures |choices| <= Destinies(s.queue, setup).consumed
    ensures Run(s, choices, setup).value.queue != [] ==> |choices| < Destinies(s.queue, setup).consumed
    ensures (forall i :: 0 <= i < |s.queue| ==> RetryCount(s.queue[i]) >= 0) ==> |choices| <= 4 * |s.queue|
  {
    RunConserves(s, choices, setup);
    DestiniesBound(s.queue, setup);
    DestiniesBound(Run(s, choices, setup).value.queue, setup);
  }

  // A letter survives if whatever it needs is connected.
  predicate Kept(d: DeadLetter, setup: Setup)
    requires Counted(d)
  {
    if RetryCount(d) >= MAX_RETRIES then setup.hasSession
    else setup.hasProducer && (Revalidates(d, setup) || setup.hasSession)
  }

  // How many letters ended somewhere.
  function Ended(t: Tally): nat { |t.validated| + |t.permanent| }

  lemma EndedPlus(a: Tally, b: Tally)
    ensures Ended(a.Plus(b)) == Ended(a) + Ended(b)
  {
  }

  ghost predicate AllKept(queue: seq<DeadLetter>, setup: Setup)
    requires AllCounted(queue)
  {
    forall i :: 0 <= i < |queue| ==> Kept(queue[i], setup)
  }

  lemma {:induction false} DestiniesCount(queue: seq<DeadLetter>, setup: Setup)
    requires AllCounted(queue)
    ensures Ended(Destinies(queue, setup)) <= |queue|
    ensures Ended(Destinies(queue, setup)) == |queue| <==> AllKept(queue, setup)
  {
    hide Destiny, Kept, Counted, Tally.Plus, Ended;
    if queue == [] {
      NothingEnded();
    } else {
      var init, last := queue[..|queue| - 1], queue[|queue| - 1];
      DestiniesCount(init, setup);
      DestinyCount(last, setup);
      EndedPlus(Destinies(init, setup), Destiny(last, setup));
      assert queue == init + [last];
      assert AllKept(queue, setup) <==> AllKept(init, setup) && Kept(last, setup);
    }
  }

  lemma NothingEnded()
    ensures Ended(NOTHING) == 0
  {
  }

  lemma DestinyCount(d: DeadLetter, setup: Setup)
    requires Counted(d)
    ensures Ended(Destiny(d, setup)) == if Kept(d, setup) then 1 else 0
  {
    hide Revalidates;
  }

  /** Each letter ends in one place, and none is lost, exactly when everything needed was connected: an unset producer
      drops every letter still to be retried although it reports "retried", an unset session every letter to be
      buried although it reports "permanent". */
  lemma NothingLostIff(s: State, choices: seq<nat>, setup: Setup)
    requires AllCounted(s.queue) && Run(s, choices, setup).Some? && Run(s, choices, setup).value.queue == []
    ensures var s' := Run(s, choices, setup).value;
            |s'.validated| + |s'.permanent| == |s.validated| + |s.permanent| + |s.queue| <==> AllKept(s.queue, setup)
  {
    hide Kept;
    DrainIsDestiny(s, choices, setup);
    DestiniesCount(s.queue, setup);
    var s', all := Run(s, choices, setup).value, Destinies(s.queue, setup);
    assert |multiset(s'.validated)| == |multiset(s.validated)| + |all.validated|;
    assert |multiset(s'.permanent)| == |multiset(s.permanent)| + |all.permanent|;
  }

  /** Without a producer a fresh letter is gone after one consumption. */
  lemma LetterWithoutProducer(d: DeadLetter, setup: Setup)
    requires "retry_count" !in d.body && !setup.hasProducer
    ensures Run(State([d], [], []), [0], setup) == Some(State([], [], []))
  {
    assert [0][..0] == [];
    assert Run(State([d], [], []), [], setup) == Some(State([d], [], []));
    assert Without([d], 0) == [];
  }

  /** A fresh letter that never validates is consumed four times and buried once, with the count at three. */
  lemma FreshLetterFate(d: DeadLetter, setup: Setup) returns (buried: DeadLetter)
    requires "retry_count" !in d.body && setup.hasProducer && setup.hasSession && !Passes(d, setup)
    ensures buried.topic == d.topic && buried.original == d.original && Recounted(buried.body, d.body, 3)
    ensures Counted(d) && Destiny(d, setup) == Tally(multiset{}, multiset{PermanentRow(buried, 3)}, 4)
  {
    PassesIff(d, setup);
    buried := Requeued(d, MAX_RETRIES);
    RecountedIff(buried.body, d.body, 3);
    hide Revalidates, Passes;
  }

  // ---------------------------------------------------------------- the processor

  class Processor {
    const setup: Setup
    var queue: seq<DeadLetter>
    var validated: seq<Record>
    var permanent: seq<PermanentRow>
    ghost var consumed: nat

    ghost function Current(): State
      reads this
    {
      State(queue, validated, permanent)
    }

    constructor (setup: Setup, queue: seq<DeadLetter>)
      ensures Current() == State(queue, [], []) && this.setup == setup && consumed == 0
    {
      this.setup, this.queue, validated, permanent, consumed := setup, queue, [], [], 0;
    }

    /** Handle one letter already taken off its topic. */
    method ProcessRecord(record: DeadLetter, retryCount: int) returns (disposition: Disposition, newCount: int)
      modifies this
      ensures Current() == Process(old(Current()), record, retryCount, setup) && consumed == old(consumed)
      ensures disposition == Permanent <==> retryCount >= MAX_RETRIES
      ensures disposition == Resolved <==> retryCount < MAX_RETRIES && setup.hasProducer && Revalidates(record, setup)
      ensures newCount == if disposition == Permanent then retryCount else retryCount + 1
      ensures Handled(old(Current()), Current(), record, retryCount, setup)
    {
      ProcessFromFields(Current(), record, retryCount, setup);
      hide Handled;
      if retryCount >= MAX_RETRIES {
        WritePermanent(record, retryCount);
        return Permanent, retryCount;
      }
      var original := Original(record);
      if record.topic == DlqEodOhlcv && HasBarFields(original) && "date" in original {
        if setup.validator(Parse(original).value) && setup.hasProducer {
          validated := validated + [WithCount(original, retryCount + 1)];
          return Resolved, retryCount + 1;
        }
      }
      if setup.hasProducer {
        queue := queue + [Requeued(record, retryCount + 1)];
      }
      return Retried, retryCount + 1;
    }

    method WritePermanent(record: DeadLetter, retryCount: int)
      modifies this`permanent
      ensures permanent == old(permanent) + if setup.hasSession then [PermanentRow(record, retryCount)] else []
    {
      if setup.hasSession {
        permanent := permanent + [PermanentRow(record, retryCount)];
      }
    }

    /** The consumer loop until nothing is left: it ends, with every letter's destiny carried out. */
    method Drain()
      requires AllCounted(queue)
      modifies this
      ensures queue == []
      ensures Done(Current(), consumed) == old(Done(Current(), consumed).Plus(Destinies(queue, setup)))
    {
      hide Process, Destiny, Done, Destinies;
      while queue != []
        invariant AllCounted(queue)
        invariant Done(Current(), consumed).Plus(Destinies(queue, setup))
               == old(Done(Current(), consumed).Plus(Destinies(queue, setup)))
        decreases Destinies(queue, setup).consumed
      {
        var i :| 0 <= i < |queue|;
        StepConserves(Current(), i, consumed, setup);
        LessToDo(Current(), i, consumed, setup);
        var record := queue[i];
        queue := Without(queue, i);
        var _, _ := ProcessRecord(record, RetryCount(record));
        consumed := consumed + 1;
      }
      PlusNothing(Done(Current(), consumed), setup);
    }
  }

  lemma LessToDo(s: State, i: nat, consumed: nat, setup: Setup)
    requires i < |s.queue| && AllCounted(s.queue)
    ensures AllCounted(Step(s, i, setup).queue)
    ensures Destinies(Step(s, i, setup).queue, setup).consumed < Destinies(s.queue, setup).consumed
  {
    StepConserves(s, i, consumed, setup);
    hide Step, Destinies;
  }

  lemma PlusNothing(t: Tally, setup: Setup)
    ensures t.Plus(Destinies([], setup)) == t
  {
  }
}
