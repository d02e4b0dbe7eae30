/** The closed loop: validated topics, writer, dead letters, processor, and back to the validated EOD topic.

    Two results over whole runs: nothing disappears (a conservation law for records up to their retry counter), and
    with finitely many failed flushes the loop comes to rest, whereas with endless failures it need not. */
module Pipeline {
  import opened Wrappers
  import opened Messages
  import W = TimescaleWriter
  import D = DlqProcessor

  /** What the run has seen, in order: records produced from outside, records in committed transactions, records
      dropped for good, and records that came back although they were already dealt with. */
  datatype Ledger = Ledger(produced: seq<Record>, written: seq<W.Message>, lost: seq<Record>,
                           duplicated: seq<Record>)

  /** `pending` holds the dead letters not consumed yet. */
  datatype State = State(writer: W.State, pending: seq<DeadLetter>, buried: seq<D.PermanentRow>, ledger: Ledger)

  const INITIAL := State(W.INITIAL, [], [], Ledger([], [], [], []))

  datatype Event =
    | Produce(topic: Topic, record: Record)
    | Write(topic: Topic, timedOut: bool, fault: W.Fault, handling: W.Handling)
    | Crash
    | Retry(index: nat)

  // ---------------------------------------------------------------- records up to their retry counter

  function Strip(r: Record): Record { r - {"retry_count"} }

  // How many of the records are r but for the retry counter.
  function Copies(records: seq<Record>, r: Record): nat {
    if records == [] then 0
    else Copies(records[..|records| - 1], r) + if Strip(records[|records| - 1]) == Strip(r) then 1 else 0
  }

  function Payloads(batch: seq<W.Message>): seq<Record> { seq(|batch|, i requires 0 <= i < |batch| => batch[i].record) }

  function Originals(letters: seq<DeadLetter>): seq<Record> {
    seq(|letters|, i requires 0 <= i < |letters| => D.Original(letters[i]))
  }

  function Buried(rows: seq<D.PermanentRow>): seq<Record> {
    seq(|rows|, i requires 0 <= i < |rows| => D.Original(rows[i].letter))
  }

  // The records whose dead-letter send fails, among the first n of a batch.
  function Unsent(batch: seq<W.Message>, n: nat, handling: W.Handling): seq<Record>
    requires n <= |batch|
  {
    if n == 0 then []
    else Unsent(batch, n - 1, handling) + if n - 1 in handling.failedSends then [batch[n - 1].record] else []
  }

  function Slice(s: seq<Record>, lo: int, hi: int): seq<Record> { if 0 <= lo <= hi <= |s| then s[lo..hi] else [] }

  function UnreadOf(w: W.State, t: Topic): seq<Record> {
    Slice(w.logs.At(t), w.position.At(t), |w.logs.At(t)|)
  }

  function Unread(w: W.State): seq<Record> {
    UnreadOf(w, EodOhlcv) + UnreadOf(w, Fundamentals) + UnreadOf(w, IntradayBars)
  }

  // What a restart makes the writer read again although it has left the batch.
  function RereadOf(w: W.State, t: Topic): seq<Record> {
    Slice(w.logs.At(t), w.committed.At(t), W.Processed(w, t))
  }

  function Reread(w: W.State): seq<Record> {
    RereadOf(w, EodOhlcv) + RereadOf(w, Fundamentals) + RereadOf(w, IntradayBars)
  }

  // Everything still on its way.
  function Outstanding(s: State): seq<Record> {
    Unread(s.writer) + Payloads(s.writer.batch) + Originals(s.pending)
  }

  // ---------------------------------------------------------------- steps

  // w is the writer at the moment of the flush.
  function FlushLedger(l: Ledger, w: W.State, fault: W.Fault, handling: W.Handling): Ledger {
    var batch, unsent := Payloads(w.batch), Unsent(w.batch, |w.batch|, handling);
    if fault.CrashBeforeDb? then l.(duplicated := l.duplicated + Reread(w))
    else if fault.DbFault? || !W.AllInsertable(w.batch) then l.(lost := l.lost + unsent)
    else
      var l' := l.(written := l.written + w.batch);
      match fault
      case CrashAfterDb => l'.(duplicated := l'.duplicated + Reread(w) + batch)
      case OffsetFault => l'.(duplicated := l'.duplicated + batch, lost := l'.lost + unsent)
      case _ => l'
  }

  predicate Flushes(s: State, e: Event)
    requires e.Write? && Enabled(s, e)
  {
    |s.writer.batch| + 1 >= W.BATCH_SIZE || e.timedOut
  }

  predicate Enabled(s: State, e: Event) {
    match e
    case Write(t, _, _, _) => s.writer.position.At(t) < |s.writer.logs.At(t)|
    case Retry(i) => i < |s.pending| && D.Counted(s.pending[i])
    case _ => true
  }

  function Append(w: W.State, t: Topic, records: seq<Record>): W.State {
    w.(logs := w.logs.With(t, w.logs.At(t) + records))
  }

  // What the processor does with one letter: the records it sends go to the validated EOD topic.
  function Consume(s: State, i: nat, setup: D.Setup): State
    requires i < |s.pending| && D.Counted(s.pending[i])
  {
    var d := D.Step(D.State(s.pending, [], s.buried), i, setup);
    s.(writer := Append(s.writer, EodOhlcv, d.validated), pending := d.queue, buried := d.permanent,
       ledger := s.ledger.(lost := s.ledger.lost
                                   + if Dropped(s.pending[i], setup) then [D.Original(s.pending[i])] else []))
  }

  // The processor loses a letter when what it needs next is not connected.
  predicate Dropped(d: DeadLetter, setup: D.Setup)
    requires D.Counted(d)
  {
    if D.RetryCount(d) >= D.MAX_RETRIES then !setup.hasSession else !setup.hasProducer
  }

  // The dead letters a step of the writer adds.
  function NewLetters(w: W.State, w': W.State): seq<DeadLetter> {
    if |w.dlq| <= |w'.dlq| then w'.dlq[|w.dlq|..] else []
  }

  function Receive(s: State, e: Event): State
    requires e.Write? && Enabled(s, e)
  {
    var w := W.Apply(s.writer, W.Receive(e.topic, e.timedOut, e.fault, e.handling));
    s.(writer := w, pending := s.pending + NewLetters(s.writer, w),
       ledger := if Flushes(s, e) then FlushLedger(s.ledger, W.Deliver(s.writer, e.topic), e.fault, e.handling)
                 else s.ledger)
  }

  function Apply(s: State, e: Event, setup: D.Setup): State
    requires Enabled(s, e)
  {
    match e
    case Produce(t, r) =>
      s.(writer := Append(s.writer, t, [r]),
         ledger := s.ledger.(produced := s.ledger.produced + [r]))
    case Write(_, _, _, _) => Receive(s, e)
    case Crash =>
      s.(writer := W.Restart(s.writer),
         ledger := s.ledger.(duplicated := s.ledger.duplicated + Reread(s.writer)))
    case Retry(i) => Consume(s, i, setup)
  }

  function Run(s: State, events: seq<Event>, setup: D.Setup): Option<State> {
    if events == [] then Some(s)
    else
      var before, e := Run(s, events[..|events| - 1], setup), events[|events| - 1];
      if before.Some? && Enabled(before.value, e) then Some(Apply(before.value, e, setup)) else None
  }

  // ---------------------------------------------------------------- conservation

  /** Produced or duplicated, a record is still on its way, or written, or buried, or lost; r stands for all records
      that differ from it in the retry counter only. */
  ghost predicate Balanced(s: State, r: Record) {
    Copies(s.ledger.produced, r) + Copies(s.ledger.duplicated, r)
    == Copies(Outstanding(s), r) + Copies(Payloads(s.ledger.written), r) + Copies(Buried(s.buried), r)
       + Copies(s.ledger.lost, r)
  }

  lemma {:induction false} CopiesConcat(a: seq<Record>, b: seq<Record>, r: Record)
    ensures Copies(a + b, r) == Copies(a, r) + Copies(b, r)
  {
    if b == [] {
      assert a + b == a;
    } else {
      assert (a + b)[..|a + b| - 1] == a + b[..|b| - 1];
      CopiesConcat(a, b[..|b| - 1], r);
    }
  }

  lemma CopiesOfOne(x: Record, r: Record)
    ensures Copies([x], r) == if Strip(x) == Strip(r) then 1 else 0
  {
    assert [x][..0] == [];
  }

  lemma StripIgnoresCount(x: Record, count: int)
    ensures Strip(D.WithCount(x, count)) == Strip(x)
  {
  }

  lemma UnreadCopies(w: W.State, r: Record)
    ensures Copies(Unread(w), r)
         == Copies(UnreadOf(w, EodOhlcv), r) + Copies(UnreadOf(w, Fundamentals), r)
            + Copies(UnreadOf(w, IntradayBars), r)
  {
    var e, f, i := UnreadOf(w, EodOhlcv), UnreadOf(w, Fundamentals), UnreadOf(w, IntradayBars);
    CopiesConcat(e + f, i, r);
    CopiesConcat(e, f, r);
    hide Copies, UnreadOf;
  }

  lemma RereadCopies(w: W.State, r: Record)
    ensures Copies(Reread(w), r)
         == Copies(RereadOf(w, EodOhlcv), r) + Copies(RereadOf(w, Fundamentals), r)
            + Copies(RereadOf(w, IntradayBars), r)
  {
    var e, f, i := RereadOf(w, EodOhlcv), RereadOf(w, Fundamentals), RereadOf(w, IntradayBars);
    CopiesConcat(e + f, i, r);
    CopiesConcat(e, f, r);
    hide Copies, RereadOf;
  }

  lemma OutstandingCopies(s: State, r: Record)
    ensures Copies(Outstanding(s), r)
         == Copies(Unread(s.writer), r) + Copies(Payloads(s.writer.batch), r) + Copies(Originals(s.pending), r)
  {
    CopiesConcat(Unread(s.writer) + Payloads(s.writer.batch), Originals(s.pending), r);
    CopiesConcat(Unread(s.writer), Payloads(s.writer.batch), r);
    hide Copies, Unread, Payloads, Originals;
  }

  ghost predicate InBounds(w: W.State) { forall t: Topic :: w.position.At(t) <= |w.logs.At(t)| }

  lemma AppendedUnread(w: W.State, t: Topic, records: seq<Record>, u: Topic)
    requires InBounds(w)
    ensures UnreadOf(Append(w, t, records), u) == UnreadOf(w, u) + if u == t then records else []
  {
    assert w.position.At(u) <= |w.logs.At(u)|;
  }

  lemma AppendedUnreadCopies(w: W.State, t: Topic, records: seq<Record>, u: Topic, r: Record)
    requires InBounds(w)
    ensures Copies(UnreadOf(Append(w, t, records), u), r)
         == Copies(UnreadOf(w, u), r) + if u == t then Copies(records, r) else 0
  {
    AppendedUnread(w, t, records, u);
    CopiesConcat(UnreadOf(w, u), records, r);
    hide UnreadOf, Copies;
    assert UnreadOf(w, u) + [] == UnreadOf(w, u);
  }

  lemma AppendedInBounds(w: W.State, t: Topic, records: seq<Record>)
    requires InBounds(w)
    ensures InBounds(Append(w, t, records))
  {
    var w' := Append(w, t, records);
    forall u: Topic ensures w'.position.At(u) <= |w'.logs.At(u)| { assert w.position.At(u) <= |w.logs.At(u)|; }
  }

  // A longer log has more to read.
  lemma AppendedCopies(w: W.State, t: Topic, records: seq<Record>, r: Record)
    requires InBounds(w)
    ensures InBounds(Append(w, t, records))
    ensures Copies(Unread(Append(w, t, records)), r) == Copies(Unread(w), r) + Copies(records, r)
  {
    hide Unread, UnreadOf, Copies, Append, InBounds;
    UnreadCopies(w, r);
    UnreadCopies(Append(w, t, records), r);
    AppendedInBounds(w, t, records);
    AppendedUnreadCopies(w, t, records, EodOhlcv, r);
    AppendedUnreadCopies(w, t, records, Fundamentals, r);
    AppendedUnreadCopies(w, t, records, IntradayBars, r);
  }

  lemma DeliveredUnread(w: W.State, t: Topic, u: Topic)
    requires InBounds(w) && w.position.At(t) < |w.logs.At(t)|
    ensures UnreadOf(w, u)
         == (if u == t then [w.logs.At(t)[w.position.At(t)]] else []) + UnreadOf(W.Deliver(w, t), u)
  {
    assert w.position.At(u) <= |w.logs.At(u)|;
  }

  lemma PayloadsOneMore(batch: seq<W.Message>, m: W.Message, r: Record)
    ensures Payloads(batch + [m]) == Payloads(batch) + [m.record]
    ensures Copies(Payloads(batch + [m]), r) == Copies(Payloads(batch), r) + Copies([m.record], r)
  {
    assert Payloads(batch + [m]) == Payloads(batch) + [m.record];
    CopiesConcat(Payloads(batch), [m.record], r);
  }

  lemma DeliveredBatch(w: W.State, t: Topic, r: Record)
    requires w.position.At(t) < |w.logs.At(t)|
    ensures Copies(Payloads(W.Deliver(w, t).batch), r)
         == Copies(Payloads(w.batch), r) + Copies([w.logs.At(t)[w.position.At(t)]], r)
  {
    PayloadsOneMore(w.batch, W.Message(t, w.position.At(t), w.logs.At(t)[w.position.At(t)]), r);
    hide Copies, Payloads;
  }

  lemma DeliveredInBounds(w: W.State, t: Topic)
    requires InBounds(w) && w.position.At(t) < |w.logs.At(t)|
    ensures InBounds(W.Deliver(w, t))
  {
    var w' := W.Deliver(w, t);
    forall u: Topic ensures w'.position.At(u) <= |w'.logs.At(u)| { assert w.position.At(u) <= |w.logs.At(u)|; }
  }

  // Reading a message moves it from the log to the batch.
  lemma DeliveredCopies(w: W.State, t: Topic, r: Record)
    requires InBounds(w) && w.position.At(t) < |w.logs.At(t)|
    ensures var w' := W.Deliver(w, t);
            && InBounds(w')
            && Copies(Unread(w'), r) + Copies(Payloads(w'.batch), r)
               == Copies(Unread(w), r) + Copies(Payloads(w.batch), r)
  {
    hide Unread, UnreadOf, Copies, Payloads, W.Deliver, InBounds;
    UnreadCopies(w, r);
    UnreadCopies(W.Deliver(w, t), r);
    DeliveredBatch(w, t, r);
    DeliveredInBounds(w, t);
    DeliveredUnreadCopies(w, t, EodOhlcv, r);
    DeliveredUnreadCopies(w, t, Fundamentals, r);
    DeliveredUnreadCopies(w, t, IntradayBars, r);
  }

  lemma DeliveredUnreadCopies(w: W.State, t: Topic, u: Topic, r: Record)
    requires InBounds(w) && w.position.At(t) < |w.logs.At(t)|
    ensures Copies(UnreadOf(w, u), r)
         == Copies(UnreadOf(W.Deliver(w, t), u), r) + if u == t then Copies([w.logs.At(t)[w.position.At(t)]], r) else 0
  {
    var x, rest := w.logs.At(t)[w.position.At(t)], UnreadOf(W.Deliver(w, t), u);
    DeliveredUnread(w, t, u);
    CopiesConcat([x], rest, r);
    assert [] + rest == rest;
  }

  // The records of a batch, regrouped by topic.
  lemma {:induction false} BatchByTopic(batch: seq<W.Message>, r: Record)
    ensures Copies(Payloads(batch), r)
         == Copies(W.Select(batch, EodOhlcv), r) + Copies(W.Select(batch, Fundamentals), r)
            + Copies(W.Select(batch, IntradayBars), r)
  {
    if batch != [] {
      var init, m := batch[..|batch| - 1], batch[|batch| - 1];
      assert batch == init + [m];
      BatchByTopic(init, r);
      PayloadsOneMore(init, m, r);
      SelectedCopies(init, m, EodOhlcv, r);
      SelectedCopies(init, m, Fundamentals, r);
      SelectedCopies(init, m, IntradayBars, r);
      hide Copies, W.Select, Payloads;
    }
  }

  lemma SelectedCopies(batch: seq<W.Message>, m: W.Message, t: Topic, r: Record)
    ensures Copies(W.Select(batch + [m], t), r)
         == Copies(W.Select(batch, t), r) + if m.topic == t then Copies([m.record], r) else 0
  {
    W.SelectOneMore(batch, m, t);
    hide W.Select;
    CopiesConcat(W.Select(batch, t), [m.record], r);
    assert W.Select(batch, t) + [] == W.Select(batch, t);
  }

  // A restart puts back the batch and everything read since the last commit.
  lemma RestartedCopies(w: W.State, r: Record)
    requires W.Inv(w)
    ensures InBounds(W.Restart(w))
    ensures Copies(Unread(W.Restart(w)), r)
         == Copies(Unread(w), r) + Copies(Payloads(w.batch), r) + Copies(Reread(w), r)
  {
    var w' := W.Restart(w);
    UnreadCopies(w, r);
    UnreadCopies(w', r);
    RereadCopies(w, r);
    BatchByTopic(w.batch, r);
    forall t: Topic
      ensures w'.position.At(t) <= |w'.logs.At(t)|
      ensures Copies(UnreadOf(w', t), r)
           == Copies(RereadOf(w, t), r) + Copies(W.Select(w.batch, t), r) + Copies(UnreadOf(w, t), r)
    {
      RestartedTopic(w, t, r);
    }
    hide Copies, UnreadOf, RereadOf, Unread, Reread, Payloads, W.Select, W.Inv, W.Restart;
  }

  lemma SplitInThree<T>(s: seq<T>, from: nat, mid: nat, to: nat)
    requires from <= mid <= to <= |s|
    ensures s[from..] == s[from..mid] + s[mid..to] + s[to..]
  {
  }

  lemma RestartedTopic(w: W.State, t: Topic, r: Record)
    requires W.Inv(w)
    ensures W.Restart(w).position.At(t) <= |w.logs.At(t)|
    ensures Copies(UnreadOf(W.Restart(w), t), r)
         == Copies(RereadOf(w, t), r) + Copies(W.Select(w.batch, t), r) + Copies(UnreadOf(w, t), r)
  {
    assert W.BatchInOrder(w, t);
    hide W.Inv, Copies, W.Select;
    var a, b, c := RereadOf(w, t), W.Select(w.batch, t), UnreadOf(w, t);
    var log, from, mid, to := w.logs.At(t), w.committed.At(t), W.Processed(w, t), w.position.At(t);
    assert a == log[from..mid] && b == log[mid..to] && c == log[to..];
    assert UnreadOf(W.Restart(w), t) == log[from..];
    SplitInThree(log, from, mid, to);
    CopiesConcat(a + b, c, r);
    CopiesConcat(a, b, r);
  }

  // A failed batch becomes dead letters, save what could not be sent.
  lemma {:induction false} LettersCopies(batch: seq<W.Message>, n: nat, handling: W.Handling, r: Record)
    requires n <= |batch|
    ensures Copies(Originals(W.Letters(batch, n, handling)), r) + Copies(Unsent(batch, n, handling), r)
         == Copies(Payloads(batch[..n]), r)
  {
    hide *;
    if n == 0 {
      NoLetters(batch, handling, r);
    } else {
      var init, m, letters := batch[..n - 1], batch[n - 1], W.Letters(batch, n - 1, handling);
      LettersCopies(batch, n - 1, handling, r);
      LastLetter(batch, n, handling);
      assert batch[..n] == init + [m];
      PayloadsOneMore(init, m, r);
      if n - 1 in handling.failedSends {
        CopiesConcat(Unsent(batch, n - 1, handling), [m.record], r);
      } else {
        WrapperCopies(letters, m.record, handling.reason, r);
      }
    }
  }

  lemma NoLetters(batch: seq<W.Message>, handling: W.Handling, r: Record)
    ensures Copies(Originals(W.Letters(batch, 0, handling)), r) == 0
    ensures Copies(Unsent(batch, 0, handling), r) == 0 && Copies(Payloads(batch[..0]), r) == 0
  {
  }

  // The last of n messages is wrapped or remains unsent.
  lemma LastLetter(batch: seq<W.Message>, n: nat, handling: W.Handling)
    requires 0 < n <= |batch|
    ensures var x, failed := batch[n - 1].record, n - 1 in handling.failedSends;
            && W.Letters(batch, n, handling)
               == (if failed then W.Letters(batch, n - 1, handling)
                   else W.Letters(batch, n - 1, handling) + [W.Wrapper(x, handling.reason)])
            && Unsent(batch, n, handling)
               == if failed then Unsent(batch, n - 1, handling) + [x] else Unsent(batch, n - 1, handling)
  {
  }

  lemma WrapperCopies(letters: seq<DeadLetter>, x: Record, reason: string, r: Record)
    ensures Copies(Originals(letters + [W.Wrapper(x, reason)]), r) == Copies(Originals(letters), r) + Copies([x], r)
  {
    assert Originals(letters + [W.Wrapper(x, reason)]) == Originals(letters) + [x];
    CopiesConcat(Originals(letters), [x], r);
  }

  lemma SameUnread(a: W.State, b: W.State)
    requires a.logs == b.logs && a.position == b.position
    ensures Unread(a) == Unread(b) && (InBounds(a) ==> InBounds(b))
  {
  }

  // What a flush moves where: the two sides of the books stay equal.
  ghost predicate FlushBalanced(w: W.State, l: Ledger, w': W.State, sent: seq<DeadLetter>, l': Ledger, r: Record) {
    && l'.produced == l.produced
    && Copies(Unread(w'), r) + Copies(Payloads(w'.batch), r) + Copies(Originals(sent), r)
       + Copies(Payloads(l'.written), r) + Copies(l'.lost, r) + Copies(l.duplicated, r)
       == Copies(Unread(w), r) + Copies(Payloads(w.batch), r)
          + Copies(Payloads(l.written), r) + Copies(l.lost, r) + Copies(l'.duplicated, r)
  }

  lemma RestartBalanced(w: W.State, l: Ledger, r: Record)
    requires W.Inv(w)
    ensures FlushBalanced(w, l, W.Restart(w), NewLetters(w, W.Restart(w)),
                          l.(duplicated := l.duplicated + Reread(w)), r)
  {
    RestartedCopies(w, r);
    CopiesConcat(l.duplicated, Reread(w), r);
    assert Payloads(W.Restart(w).batch) == [] && Originals(NewLetters(w, W.Restart(w))) == [];
    hide W.Inv, Unread, Reread, Payloads, Originals;
  }

  // Both failures of a flush end in the exception handler.
  lemma HandlerBalanced(w: W.State, v: W.State, l: Ledger, handling: W.Handling, r: Record)
    requires v.logs == w.logs && v.position == w.position && v.batch == w.batch && v.dlq == w.dlq
    ensures var w' := W.SendBatchToDlq(v, handling);
            FlushBalanced(w, l, w', NewLetters(w, w'),
                          l.(lost := l.lost + Unsent(w.batch, |w.batch|, handling)), r)
  {
    hide *;
    var w' := W.SendBatchToDlq(v, handling);
    HandlerOutcome(w, v, handling);
    SameUnread(w, w');
    NothingLeft(w', r);
    LettersCopies(w.batch, |w.batch|, handling, r);
    assert w.batch[..|w.batch|] == w.batch;
    CopiesConcat(l.lost, Unsent(w.batch, |w.batch|, handling), r);
    FlushBalancedIs(w, l, w', NewLetters(w, w'), l.(lost := l.lost + Unsent(w.batch, |w.batch|, handling)), r);
  }

  lemma HandlerOutcome(w: W.State, v: W.State, handling: W.Handling)
    requires v.logs == w.logs && v.position == w.position && v.batch == w.batch && v.dlq == w.dlq
    ensures var w' := W.SendBatchToDlq(v, handling);
            && w'.logs == w.logs && w'.position == w.position && w'.batch == []
            && NewLetters(w, w') == W.Letters(w.batch, |w.batch|, handling)
  {
    hide W.Letters, W.FailedOffsets;
  }

  lemma FlushBalancedIs(w: W.State, l: Ledger, w': W.State, sent: seq<DeadLetter>, l': Ledger, r: Record)
    ensures FlushBalanced(w, l, w', sent, l', r) <==>
      && l'.produced == l.produced
      && Copies(Unread(w'), r) + Copies(Payloads(w'.batch), r) + Copies(Originals(sent), r)
         + Copies(Payloads(l'.written), r) + Copies(l'.lost, r) + Copies(l.duplicated, r)
         == Copies(Unread(w), r) + Copies(Payloads(w.batch), r)
            + Copies(Payloads(l.written), r) + Copies(l.lost, r) + Copies(l'.duplicated, r)
  {
    hide Copies, Unread, Payloads, Originals;
  }

  lemma FlushKeepsBalance(w: W.State, l: Ledger, fault: W.Fault, handling: W.Handling, r: Record)
    requires W.Inv(w)
    ensures var w' := W.Flush(w, fault, handling);
            FlushBalanced(w, l, w', NewLetters(w, w'), FlushLedger(l, w, fault, handling), r)
  {
    if fault.CrashBeforeDb? {
      RestartBalanced(w, l, r);
    } else if fault.DbFault? || !W.AllInsertable(w.batch) {
      hide W.AllInsertable, W.Offsets, FlushBalanced, Unsent;
      HandlerBalanced(w, w.(skipped := w.skipped + W.Offsets(w.batch), dbFaults := w.dbFaults + 1), l, handling, r);
    } else {
      hide W.AllInsertable;
      CommitBalanced(w, w.(table := W.WriteBatch(w.batch, w.table)), l, fault, handling, r);
    }
  }

  lemma CommitBalanced(w: W.State, v: W.State, l: Ledger, fault: W.Fault, handling: W.Handling, r: Record)
    requires W.Inv(w) && v == w.(table := v.table) && W.AllInsertable(w.batch)
    requires fault.NoFault? || fault.OffsetFault? || fault.CrashAfterDb?
    ensures var w' := W.AfterCommit(v, fault, handling);
            FlushBalanced(w, l, w', NewLetters(w, w'), FlushLedger(l, w, fault, handling), r)
  {
    var l1 := l.(written := l.written + w.batch);
    var l2 := l1.(duplicated := l1.duplicated + Payloads(w.batch));
    var w' := W.AfterCommit(v, fault, handling);
    WrittenCopies(l.written, w.batch, r);
    CopiesConcat(l.duplicated, Payloads(w.batch), r);
    hide W.AllInsertable, Copies, Unsent, Reread, Unread, W.Inv, Payloads, Originals;
    match fault
    case CrashAfterDb =>
      RestartBalanced(w, l1, r);
      CopiesConcat(l.duplicated + Reread(w), Payloads(w.batch), r);
      CopiesConcat(l.duplicated, Reread(w), r);
      SameUnread(W.Restart(w), w');
    case OffsetFault =>
      HandlerBalanced(w, v.(flushed := w'.flushed), l2, handling, r);
    case NoFault =>
      SameUnread(w, w');
      NothingLeft(w', r);
      assert NewLetters(w, w') == [];
      NoCopies(r);
  }

  lemma WrittenCopies(written: seq<W.Message>, batch: seq<W.Message>, r: Record)
    ensures Copies(Payloads(written + batch), r) == Copies(Payloads(written), r) + Copies(Payloads(batch), r)
  {
    assert Payloads(written + batch) == Payloads(written) + Payloads(batch);
    CopiesConcat(Payloads(written), Payloads(batch), r);
  }

  lemma NothingLeft(w: W.State, r: Record)
    requires w.batch == []
    ensures Copies(Payloads(w.batch), r) == 0
  {
  }

  lemma NoCopies(r: Record)
    ensures Copies(Originals([]), r) == 0
  {
  }

  // ---------------------------------------------------------------- over a run

  ghost predicate Sound(s: State) {
    W.Inv(s.writer) && D.AllCounted(s.pending)
  }

  lemma InvBounds(w: W.State)
    requires W.Inv(w)
    ensures InBounds(w)
  {
    forall t: Topic ensures w.position.At(t) <= |w.logs.At(t)| { assert W.BatchInOrder(w, t); }
  }

  lemma PendingCopies(a: seq<DeadLetter>, b: seq<DeadLetter>, r: Record)
    ensures Copies(Originals(a + b), r) == Copies(Originals(a), r) + Copies(Originals(b), r)
  {
    assert Originals(a + b) == Originals(a) + Originals(b);
    CopiesConcat(Originals(a), Originals(b), r);
  }

  lemma ReceiveBalanced(s: State, e: Event, r: Record)
    requires Sound(s) && e.Write? && Enabled(s, e) && Balanced(s, r)
    ensures Balanced(Receive(s, e), r)
  {
    var w, s' := W.Deliver(s.writer, e.topic), Receive(s, e);
    InvBounds(s.writer);
    DeliveredCopies(s.writer, e.topic, r);
    W.DeliverKeepsInv(s.writer, e.topic);
    OutstandingCopies(s, r);
    OutstandingCopies(s', r);
    var sent := NewLetters(s.writer, s'.writer);
    PendingCopies(s.pending, sent, r);
    hide Outstanding, Copies, Unread, Payloads, Originals, FlushLedger, W.Inv;
    if Flushes(s, e) {
      FlushKeepsBalance(w, s.ledger, e.fault, e.handling, r);
      hide W.Flush;
    } else {
      NoCopies(r);
      assert sent == [];
    }
  }

  // A letter taken off the queue, and what the processor made of it.
  lemma ConsumeBalanced(s: State, i: nat, setup: D.Setup, r: Record)
    requires Sound(s) && i < |s.pending| && Balanced(s, r)
    ensures Balanced(Consume(s, i, setup), r)
  {
    hide *;
    CountedAt(s, i);
    var s', d, rest := Consume(s, i, setup), s.pending[i], D.Without(s.pending, i);
    var done := D.Process(D.State(rest, [], s.buried), d, D.RetryCount(d), setup);
    ConsumeIs(s, i, setup);
    TakenCopies(s.pending, i, r);
    LetterCopies(rest, s.buried, d, setup, r);
    SoundInBounds(s);
    AppendedCopies(s.writer, EodOhlcv, done.validated, r);
    CopiesConcat(s.ledger.lost, if Dropped(d, setup) then [D.Original(d)] else [], r);
    NothingMore(r);
    OutstandingCopies(s, r);
    OutstandingCopies(s', r);
    BalancedIs(s, r);
    BalancedIs(s', r);
    AppendKeepsBatch(s.writer, EodOhlcv, done.validated);
  }

  lemma CountedAt(s: State, i: nat)
    requires Sound(s) && i < |s.pending|
    ensures D.Counted(s.pending[i])
  {
  }

  lemma SoundInBounds(s: State)
    requires Sound(s)
    ensures InBounds(s.writer)
  {
    InvBounds(s.writer);
  }

  lemma AppendKeepsBatch(w: W.State, t: Topic, records: seq<Record>)
    ensures Append(w, t, records).batch == w.batch
  {
  }

  lemma ConsumeIs(s: State, i: nat, setup: D.Setup)
    requires i < |s.pending| && D.Counted(s.pending[i])
    ensures var d := s.pending[i];
            var done := D.Process(D.State(D.Without(s.pending, i), [], s.buried), d, D.RetryCount(d), setup);
            && Consume(s, i, setup).writer == Append(s.writer, EodOhlcv, done.validated)
            && Consume(s, i, setup).pending == done.queue && Consume(s, i, setup).buried == done.permanent
            && Consume(s, i, setup).ledger
               == s.ledger.(lost := s.ledger.lost + if Dropped(d, setup) then [D.Original(d)] else [])
  {
    hide D.Process, Append, Dropped, D.Counted, D.Original;
  }

  lemma NothingMore(r: Record)
    ensures Copies([], r) == 0
  {
  }

  lemma TakenCopies(queue: seq<DeadLetter>, i: nat, r: Record)
    requires i < |queue|
    ensures Copies(Originals(queue), r) == Copies(Originals(D.Without(queue, i)), r) + Copies([D.Original(queue[i])], r)
  {
    PendingCopies(queue[..i], [queue[i]] + queue[i + 1..], r);
    PendingCopies([queue[i]], queue[i + 1..], r);
    PendingCopies(queue[..i], queue[i + 1..], r);
    assert queue == queue[..i] + ([queue[i]] + queue[i + 1..]);
    assert Originals([queue[i]]) == [D.Original(queue[i])];
    hide Copies, Originals;
  }

  lemma LetterCopies(rest: seq<DeadLetter>, buried: seq<D.PermanentRow>, d: DeadLetter, setup: D.Setup, r: Record)
    requires D.Counted(d)
    ensures var s' := D.Process(D.State(rest, [], buried), d, D.RetryCount(d), setup);
            Copies(Originals(s'.queue), r) + Copies(s'.validated, r) + Copies(Buried(s'.permanent), r)
            + (if Dropped(d, setup) then Copies([D.Original(d)], r) else 0)
            == Copies(Originals(rest), r) + Copies(Buried(buried), r) + Copies([D.Original(d)], r)
  {
    var count := D.RetryCount(d);
    NothingMore(r);
    BuriedCopies(buried, D.PermanentRow(d, count), r);
    RequeuedCopies(rest, d, count + 1, r);
    hide Copies, Originals, Buried, D.Revalidates, D.Original, D.Requeued, D.WithCount, D.Counted, D.RetryCount;
    var s' := D.Process(D.State(rest, [], buried), d, count, setup);
    if count < D.MAX_RETRIES && setup.hasProducer && D.Revalidates(d, setup) {
      assert s'.validated == [D.WithCount(D.Original(d), count + 1)];
    }
  }

  lemma RequeuedCopies(rest: seq<DeadLetter>, d: DeadLetter, count: int, r: Record)
    ensures Copies([D.WithCount(D.Original(d), count)], r) == Copies([D.Original(d)], r)
    ensures Copies(Originals(rest + [D.Requeued(d, count)]), r)
         == Copies(Originals(rest), r) + Copies([D.Original(d)], r)
  {
    var next := D.Requeued(d, count);
    PendingCopies(rest, [next], r);
    SameOriginal(d, count, r);
    assert Originals([next]) == [D.Original(next)];
    hide Copies, Originals, D.Original, D.Requeued, D.WithCount;
  }

  lemma BuriedCopies(buried: seq<D.PermanentRow>, row: D.PermanentRow, r: Record)
    ensures Copies(Buried(buried + [row]), r) == Copies(Buried(buried), r) + Copies([D.Original(row.letter)], r)
  {
    assert Buried(buried + [row]) == Buried(buried) + [D.Original(row.letter)];
    CopiesConcat(Buried(buried), [D.Original(row.letter)], r);
  }

  lemma SameOriginal(d: DeadLetter, count: int, r: Record)
    ensures Copies([D.Original(D.Requeued(d, count))], r) == Copies([D.Original(d)], r)
    ensures Copies([D.WithCount(D.Original(d), count)], r) == Copies([D.Original(d)], r)
  {
    CopiesOfOne(D.Original(D.Requeued(d, count)), r);
    CopiesOfOne(D.WithCount(D.Original(d), count), r);
    CopiesOfOne(D.Original(d), r);
    StripIgnoresCount(D.Original(d), count);
    hide Copies, Strip;
  }

  lemma CrashBalanced(s: State, r: Record)
    requires Sound(s) && Balanced(s, r)
    ensures Balanced(s.(writer := W.Restart(s.writer),
                        ledger := s.ledger.(duplicated := s.ledger.duplicated + Reread(s.writer))), r)
  {
    var s' := s.(writer := W.Restart(s.writer),
                 ledger := s.ledger.(duplicated := s.ledger.duplicated + Reread(s.writer)));
    RestartBalanced(s.writer, s.ledger, r);
    NoCopies(r);
    OutstandingCopies(s, r);
    OutstandingCopies(s', r);
    assert NewLetters(s.writer, s'.writer) == [];
    hide Outstanding, Copies, Unread, Payloads, Originals, W.Inv;
  }

  lemma ProduceBalanced(s: State, t: Topic, x: Record, r: Record)
    requires Sound(s) && Balanced(s, r)
    ensures Balanced(s.(writer := Append(s.writer, t, [x]),
                        ledger := s.ledger.(produced := s.ledger.produced + [x])), r)
  {
    var s' := s.(writer := Append(s.writer, t, [x]), ledger := s.ledger.(produced := s.ledger.produced + [x]));
    InvBounds(s.writer);
    AppendedCopies(s.writer, t, [x], r);
    CopiesConcat(s.ledger.produced, [x], r);
    OutstandingCopies(s, r);
    OutstandingCopies(s', r);
    hide Outstanding, Copies, Unread, Payloads, Originals, W.Inv;
  }

  lemma StepBalanced(s: State, e: Event, setup: D.Setup, r: Record)
    requires Sound(s) && Enabled(s, e) && Balanced(s, r)
    ensures Balanced(Apply(s, e, setup), r)
  {
    hide Balanced, Sound, Consume, Receive, Reread, Append;
    match e
    case Produce(t, x) => ProduceBalanced(s, t, x, r);
    case Write(_, _, _, _) => ReceiveBalanced(s, e, r);
    case Crash => CrashBalanced(s, r);
    case Retry(i) => ConsumeBalanced(s, i, setup, r);
  }

  // ---------------------------------------------------------------- the loop keeps the writer's invariant

  // One record appended to a log is a step of the writer; none is no step.
  lemma AppendKeepsInv(w: W.State, t: Topic, records: seq<Record>)
    requires W.Inv(w) && |records| <= 1
    ensures W.Inv(Append(w, t, records))
  {
    if |records| == 1 {
      assert records == [records[0]];
      assert Append(w, t, records) == W.Apply(w, W.Produce(t, records[0]));
      W.InvStep(w, W.Produce(t, records[0]));
    } else {
      assert w.logs.At(t) + records == w.logs.At(t);
      assert Append(w, t, records) == w;
    }
  }

  lemma {:induction false} LettersCounted(batch: seq<W.Message>, n: nat, handling: W.Handling)
    requires n <= |batch|
    ensures D.AllCounted(W.Letters(batch, n, handling))
    ensures |W.Letters(batch, n, handling)| <= n
    ensures forall i :: 0 <= i < |W.Letters(batch, n, handling)| ==>
      exists x :: W.Letters(batch, n, handling)[i] == W.Wrapper(x, handling.reason)
  {
    if n > 0 {
      LettersCounted(batch, n - 1, handling);
      WrapperCounted(batch[n - 1].record, handling.reason);
      hide D.Counted, W.Wrapper;
    }
  }

  lemma WrapperCounted(x: Record, reason: string)
    ensures D.Counted(W.Wrapper(x, reason)) && D.RetryCount(W.Wrapper(x, reason)) == 0
  {
    assert |"retry_count"| == 11 && |"failure_reason"| == 14 && |"source_topic"| == 12;
    assert "retry_count" !in W.Wrapper(x, reason).body;
  }

  lemma NewLettersShape(s: State, e: Event)
    requires e.Write? && Enabled(s, e)
    ensures var sent := NewLetters(s.writer, Receive(s, e).writer);
            && D.AllCounted(sent)
            && |sent| <= |s.writer.batch| + 1
            && (forall i :: 0 <= i < |sent| ==> exists x :: sent[i] == W.Wrapper(x, e.handling.reason))
            && (!FlushFails(s, e) ==> sent == [])
  {
    var w := W.Deliver(s.writer, e.topic);
    LettersCounted(w.batch, |w.batch|, e.handling);
    hide W.Letters, W.AllInsertable, W.WriteBatch, W.Offsets, W.FailedOffsets, D.Counted, W.Wrapper;
    var sent := NewLetters(s.writer, Receive(s, e).writer);
    assert sent == [] || sent == W.Letters(w.batch, |w.batch|, e.handling);
  }

  lemma SoundStep(s: State, e: Event, setup: D.Setup)
    requires Sound(s) && Enabled(s, e)
    ensures Sound(Apply(s, e, setup))
  {
    hide W.Inv, D.Counted, D.AllCounted;
    match e
    case Produce(t, x) => AppendKeepsInv(s.writer, t, [x]);
    case Write(t, timedOut, fault, handling) =>
      W.InvStep(s.writer, W.Receive(t, timedOut, fault, handling));
      NewLettersShape(s, e);
      CountedConcat(s.pending, NewLetters(s.writer, Receive(s, e).writer));
    case Crash => W.RestartKeepsInv(s.writer);
    case Retry(i) =>
      var d := D.State(s.pending, [], s.buried);
      D.StepConserves(d, i, 0, setup);
      SendsAtMostOne(d, i, setup);
      AppendKeepsInv(s.writer, EodOhlcv, D.Step(d, i, setup).validated);
  }

  lemma CountedConcat(a: seq<DeadLetter>, b: seq<DeadLetter>)
    requires D.AllCounted(a) && D.AllCounted(b)
    ensures D.AllCounted(a + b)
  {
    hide D.Counted;
  }

  lemma SendsAtMostOne(d: D.State, i: nat, setup: D.Setup)
    requires i < |d.queue| && D.Counted(d.queue[i]) && d.validated == []
    ensures |D.Step(d, i, setup).validated| <= 1
  {
  }

  lemma {:induction false} SoundAlways(events: seq<Event>, s: State, setup: D.Setup)
    requires Run(INITIAL, events, setup) == Some(s)
    ensures Sound(s)
  {
    if events == [] {
      W.InvAlways([], W.INITIAL);
    } else {
      hide Apply, Enabled, Sound;
      var init := events[..|events| - 1];
      SoundAlways(init, Run(INITIAL, init, setup).value, setup);
      SoundStep(Run(INITIAL, init, setup).value, events[|events| - 1], setup);
    }
  }

  /** Nothing disappears: in every run, with faults and crashes of the writer anywhere, each record produced is still
      on its way, or was written, or buried, or lost in a failed send, up to copies that a lost offset commit or a
      restart brought back. Records count as the same when they differ in the retry counter only. */
  lemma {:induction false} NothingDisappears(events: seq<Event>, s: State, setup: D.Setup, r: Record)
    requires Run(INITIAL, events, setup) == Some(s)
    ensures Copies(s.ledger.produced, r) + Copies(s.ledger.duplicated, r)
         == Copies(Outstanding(s), r) + Copies(Payloads(s.ledger.written), r) + Copies(Buried(s.buried), r)
            + Copies(s.ledger.lost, r)
  {
    if events == [] {
      assert Outstanding(INITIAL) == [];
    } else {
      hide Apply, Enabled, Balanced, Sound;
      var init := events[..|events| - 1];
      var before := Run(INITIAL, init, setup).value;
      NothingDisappears(init, before, setup, r);
      BalancedIs(before, r);
      SoundAlways(init, before, setup);
      StepBalanced(before, events[|events| - 1], setup, r);
      BalancedIs(s, r);
    }
  }

  lemma BalancedIs(s: State, r: Record)
    ensures Balanced(s, r) <==>
      Copies(s.ledger.produced, r) + Copies(s.ledger.duplicated, r)
      == Copies(Outstanding(s), r) + Copies(Payloads(s.ledger.written), r) + Copies(Buried(s.buried), r)
         + Copies(s.ledger.lost, r)
  {
  }

  // ---------------------------------------------------------------- written means stored

  // The record's row, as a record of its own topic, is in the table.
  ghost predicate Landed(table: Table, m: W.Message) {
    EntryOf(m.topic, m.record).Some? && EntryOf(m.topic, m.record).value.key in table
  }

  ghost predicate AllLanded(table: Table, messages: seq<W.Message>) {
    forall i :: 0 <= i < |messages| ==> Landed(table, messages[i])
  }

  lemma LandedKept(a: Table, b: Table, messages: seq<W.Message>)
    requires AllLanded(a, messages) && forall k :: k in a ==> k in b
    ensures AllLanded(b, messages)
  {
    hide EntryOf;
  }

  lemma BatchLands(batch: seq<W.Message>, table: Table)
    requires W.AllInsertable(batch)
    ensures AllLanded(W.WriteBatch(batch, table), batch)
  {
    W.WriteBatchStores(batch, table);
    hide EntryOf, W.WriteBatch;
    forall i | 0 <= i < |batch| ensures Landed(W.WriteBatch(batch, table), batch[i]) {
      assert EntryOf(batch[i].topic, batch[i].record).Some?;
    }
  }

  lemma ReceiveLands(s: State, e: Event)
    requires e.Write? && Enabled(s, e) && AllLanded(s.writer.table, s.ledger.written)
    ensures AllLanded(Receive(s, e).writer.table, Receive(s, e).ledger.written)
  {
    var w, s' := W.Deliver(s.writer, e.topic), Receive(s, e);
    W.RowsKeptByStep(s.writer, W.Receive(e.topic, e.timedOut, e.fault, e.handling));
    LandedKept(s.writer.table, s'.writer.table, s.ledger.written);
    if W.AllInsertable(w.batch) { BatchLands(w.batch, w.table); }
    hide AllLanded, W.AllInsertable, W.WriteBatch, W.Letters, W.Offsets, W.FailedOffsets, Unsent, Reread, Payloads;
    if s'.ledger.written != s.ledger.written {
      assert s'.writer.table == W.WriteBatch(w.batch, w.table);
      LandedConcat(s'.writer.table, s.ledger.written, w.batch);
    }
  }

  lemma LandedConcat(table: Table, a: seq<W.Message>, b: seq<W.Message>)
    requires AllLanded(table, a) && AllLanded(table, b)
    ensures AllLanded(table, a + b)
  {
    hide Landed;
  }

  /** Every record the books count as written has a row under its own topic's key. */
  lemma {:induction false} WrittenIsStored(events: seq<Event>, s: State, setup: D.Setup)
    requires Run(INITIAL, events, setup) == Some(s)
    ensures AllLanded(s.writer.table, s.ledger.written)
  {
    hide Enabled, AllLanded, Receive, D.Step, Reread, Append, Landed;
    if events == [] {
      NoneLanded();
    } else {
      var init, e := events[..|events| - 1], events[|events| - 1];
      var before := Run(INITIAL, init, setup).value;
      WrittenIsStored(init, before, setup);
      if e.Write? { ReceiveLands(before, e); } else { OthersWriteNothing(before, e, setup); }
    }
  }

  lemma NoneLanded()
    ensures AllLanded(map[], [])
  {
  }

  lemma OthersWriteNothing(s: State, e: Event, setup: D.Setup)
    requires Enabled(s, e) && !e.Write?
    ensures Apply(s, e, setup).writer.table == s.writer.table && Apply(s, e, setup).ledger.written == s.ledger.written
  {
    hide D.Process, Reread;
  }

  // ---------------------------------------------------------------- coming to rest

  /** A flush that sends its batch to the dead letters: a failed transaction, a failed offset commit, or a record the
      database rejects. */
  predicate FlushFails(s: State, e: Event)
    requires Enabled(s, e)
  {
    e.Write? && Flushes(s, e) && (!e.fault.NoFault? || !W.AllInsertable(W.Deliver(s.writer, e.topic).batch))
  }

  // Steps of the loop itself: no input from outside and no crash of the writer.
  predicate IsInternal(e: Event) {
    e.Retry? || (e.Write? && (e.fault.NoFault? || e.fault.DbFault? || e.fault.OffsetFault?))
  }

  predicate Closed(events: seq<Event>) { forall i :: 0 <= i < |events| ==> IsInternal(events[i]) }

  function Failures(s: State, events: seq<Event>, setup: D.Setup): nat {
    if events == [] then 0
    else
      var before, e := Run(s, events[..|events| - 1], setup), events[|events| - 1];
      Failures(s, events[..|events| - 1], setup)
      + if before.Some? && Enabled(before.value, e) && FlushFails(before.value, e) then 1 else 0
  }

  ghost predicate Reachable(s: State, setup: D.Setup) { exists past :: Run(INITIAL, past, setup) == Some(s) }

  lemma ReachableIsSound(s: State, setup: D.Setup)
    requires Reachable(s, setup)
    ensures Sound(s)
  {
    hide Run, Sound;
    var past :| Run(INITIAL, past, setup) == Some(s);
    SoundAlways(past, s, setup);
  }

  // Unread records weigh 2, buffered ones 1, a dead letter 2 more than the consumptions still destined for it.
  ghost function Weight(s: State, setup: D.Setup): nat
    requires Sound(s)
  {
    2 * |Unread(s.writer)| + |s.writer.batch| + LettersWeight(s.pending, setup)
  }

  ghost function LettersWeight(letters: seq<DeadLetter>, setup: D.Setup): nat
    requires D.AllCounted(letters)
  {
    2 * |letters| + D.Destinies(letters, setup).consumed
  }

  lemma DeliveredLength(w: W.State, t: Topic)
    requires InBounds(w) && w.position.At(t) < |w.logs.At(t)|
    ensures |Unread(W.Deliver(w, t))| == |Unread(w)| - 1
  {
    hide Unread;
    UnreadLength(w);
    UnreadLength(W.Deliver(w, t));
    forall u: Topic ensures |UnreadOf(W.Deliver(w, t), u)| == |UnreadOf(w, u)| - if u == t then 1 else 0 {
      DeliveredUnread(w, t, u);
    }
    hide UnreadOf, W.Deliver;
  }

  lemma UnreadLength(w: W.State)
    ensures |Unread(w)| == |UnreadOf(w, EodOhlcv)| + |UnreadOf(w, Fundamentals)| + |UnreadOf(w, IntradayBars)|
  {
    hide UnreadOf;
  }

  lemma AppendedLength(w: W.State, t: Topic, records: seq<Record>)
    requires InBounds(w)
    ensures |Unread(Append(w, t, records))| == |Unread(w)| + |records|
  {
    hide Unread;
    UnreadLength(w);
    UnreadLength(Append(w, t, records));
    forall u: Topic ensures |UnreadOf(Append(w, t, records), u)| == |UnreadOf(w, u)| + if u == t then |records| else 0 {
      AppendedUnread(w, t, records, u);
    }
    hide UnreadOf, Append;
  }

  lemma {:induction false} DestiniesConcat(a: seq<DeadLetter>, b: seq<DeadLetter>, setup: D.Setup)
    requires D.AllCounted(a) && D.AllCounted(b)
    ensures D.AllCounted(a + b)
    ensures D.Destinies(a + b, setup).consumed == D.Destinies(a, setup).consumed + D.Destinies(b, setup).consumed
  {
    hide D.Counted, D.Destiny, D.Tally.Plus;
    if b == [] {
      assert a + b == a;
    } else {
      var init := b[..|b| - 1];
      DestiniesConcat(a, init, setup);
      hide D.Destinies;
      var last := b[|b| - 1];
      D.ConsumedOneMore(a + init, last, setup);
      D.ConsumedOneMore(init, last, setup);
      assert a + b == (a + init) + [last] && b == init + [last];
    }
  }

  // A fresh dead letter starts its counter at 0.
  lemma {:induction false} WrappersWeigh(letters: seq<DeadLetter>, reason: string, setup: D.Setup)
    requires forall i :: 0 <= i < |letters| ==> exists x :: letters[i] == W.Wrapper(x, reason)
    ensures D.AllCounted(letters) && D.Destinies(letters, setup).consumed <= 4 * |letters|
  {
    forall i | 0 <= i < |letters| ensures D.Counted(letters[i]) && D.RetryCount(letters[i]) == 0 {
      var x :| letters[i] == W.Wrapper(x, reason);
      WrapperCounted(x, reason);
    }
    D.DestiniesBound(letters, setup);
  }

  lemma ConsumeWeighsLess(s: State, i: nat, setup: D.Setup)
    requires Sound(s) && i < |s.pending|
    ensures Sound(Consume(s, i, setup)) && Weight(Consume(s, i, setup), setup) < Weight(s, setup)
  {
    hide *;
    CountedAt(s, i);
    var d := D.State(s.pending, [], s.buried);
    var done := D.Step(d, i, setup);
    SoundInBounds(s);
    SoundRetry(s, i, setup);
    StepSizes(d, i, setup);
    AppendedLength(s.writer, EodOhlcv, done.validated);
    AppendKeepsBatch(s.writer, EodOhlcv, done.validated);
    ConsumeIsStep(s, i, setup);
    WeightIs(s, setup);
    WeightIs(Consume(s, i, setup), setup);
  }

  lemma SoundRetry(s: State, i: nat, setup: D.Setup)
    requires Sound(s) && i < |s.pending| && D.Counted(s.pending[i])
    ensures Sound(Consume(s, i, setup)) && D.AllCounted(s.pending)
    ensures var d := D.State(s.pending, [], s.buried);
            && D.AllCounted(D.Step(d, i, setup).queue)
            && D.Destinies(D.Step(d, i, setup).queue, setup).consumed < D.Destinies(s.pending, setup).consumed
  {
    SoundStep(s, Retry(i), setup);
    D.LessToDo(D.State(s.pending, [], s.buried), i, 0, setup);
    hide D.Destinies, D.Step, W.Inv;
  }

  lemma StepSizes(d: D.State, i: nat, setup: D.Setup)
    requires i < |d.queue| && D.Counted(d.queue[i]) && d.validated == []
    ensures |D.Step(d, i, setup).queue| + |D.Step(d, i, setup).validated| <= |d.queue|
  {
  }

  lemma ConsumeIsStep(s: State, i: nat, setup: D.Setup)
    requires i < |s.pending| && D.Counted(s.pending[i])
    ensures var done := D.Step(D.State(s.pending, [], s.buried), i, setup);
            && Consume(s, i, setup).writer == Append(s.writer, EodOhlcv, done.validated)
            && Consume(s, i, setup).pending == done.queue
  {
    hide D.Step, Append, Dropped;
  }

  lemma WeightIs(s: State, setup: D.Setup)
    requires Sound(s)
    ensures Weight(s, setup) == 2 * |Unread(s.writer)| + |s.writer.batch| + LettersWeight(s.pending, setup)
    ensures LettersWeight(s.pending, setup) == 2 * |s.pending| + D.Destinies(s.pending, setup).consumed
  {
  }

  // What a flush adds to the dead letters: at most 6 for each record of the batch.
  lemma ReceivedLetters(s: State, e: Event, setup: D.Setup)
    requires Sound(s) && e.Write? && Enabled(s, e) && Sound(Receive(s, e))
    ensures LettersWeight(Receive(s, e).pending, setup)
         <= LettersWeight(s.pending, setup) + if FlushFails(s, e) then 6 * (|s.writer.batch| + 1) else 0
  {
    var s', sent := Receive(s, e), NewLetters(s.writer, Receive(s, e).writer);
    NewLettersShape(s, e);
    WrappersWeigh(sent, e.handling.reason, setup);
    DestiniesConcat(s.pending, sent, setup);
    assert s'.pending == s.pending + sent;
    hide D.Destinies, W.Inv, Receive, W.AllInsertable, NewLetters, W.Deliver;
    if !FlushFails(s, e) { assert s.pending + sent == s.pending; }
  }

  lemma ReceivedRecords(s: State, e: Event)
    requires Sound(s) && e.Write? && IsInternal(e) && Enabled(s, e)
    ensures |Unread(Receive(s, e).writer)| == |Unread(s.writer)| - 1
    ensures |Receive(s, e).writer.batch| == if Flushes(s, e) then 0 else |s.writer.batch| + 1
  {
    InvBounds(s.writer);
    DeliveredLength(s.writer, e.topic);
    SameUnread(W.Deliver(s.writer, e.topic), Receive(s, e).writer);
    hide Unread, W.AllInsertable, W.WriteBatch, W.Letters, W.Offsets, W.FailedOffsets, W.Inv;
  }

  lemma ReceiveWeighs(s: State, e: Event, setup: D.Setup)
    requires Sound(s) && e.Write? && IsInternal(e) && Enabled(s, e)
    ensures Sound(Receive(s, e))
    ensures !FlushFails(s, e) ==> Weight(Receive(s, e), setup) < Weight(s, setup)
    ensures FlushFails(s, e) ==> Weight(Receive(s, e), setup) <= 6 * (Weight(s, setup) - 1)
  {
    SoundStep(s, e, setup);
    ReceivedRecords(s, e);
    ReceivedLetters(s, e, setup);
    hide Sound, Unread, Receive, LettersWeight, W.AllInsertable, W.Deliver;
  }

  function Power6(n: nat): nat { if n == 0 then 1 else 6 * Power6(n - 1) }

  lemma PowerPositive(n: nat)
    ensures Power6(n) >= 1
  {
  }

  /** The steps still to come if the writer fails k times more. */
  function Allowance(weight: nat, k: nat): nat { weight * Power6(k) }

  lemma StepWeighs(s: State, e: Event, setup: D.Setup)
    requires Sound(s) && IsInternal(e) && Enabled(s, e)
    ensures Sound(Apply(s, e, setup))
    ensures !FlushFails(s, e) ==> Weight(Apply(s, e, setup), setup) < Weight(s, setup)
    ensures FlushFails(s, e) ==> Weight(Apply(s, e, setup), setup) <= 6 * (Weight(s, setup) - 1)
  {
    hide Sound, Weight, Consume, Receive, Append, Reread;
    if e.Retry? { ConsumeWeighsLess(s, e.index, setup); } else { ReceiveWeighs(s, e, setup); }
  }

  // One more failure may multiply the weight by 6, any other step lowers it.
  lemma ScaledStep(before: nat, after: nat, fails: bool, k: nat)
    requires !fails ==> after < before
    requires fails ==> after <= 6 * (before - 1)
    ensures Allowance(after, k) + 1 <= Allowance(before, if fails then k + 1 else k)
  {
    PowerPositive(k);
    var p := Power6(k);
    if fails {
      assert Power6(k + 1) == 6 * p;
      hide Power6;
      assert after * p <= (6 * (before - 1)) * p;
      assert (6 * (before - 1)) * p + 6 * p == before * (6 * p);
    } else {
      hide Power6;
      assert after * p <= (before - 1) * p;
      assert (before - 1) * p + p == before * p;
    }
  }

  lemma {:induction false} WeightOverRun(s: State, events: seq<Event>, setup: D.Setup, more: nat)
    requires Sound(s) && Closed(events) && Run(s, events, setup).Some?
    ensures Sound(Run(s, events, setup).value)
    ensures |events| + Allowance(Weight(Run(s, events, setup).value, setup), more)
         <= Allowance(Weight(s, setup), more + Failures(s, events, setup))
  {
    hide Apply, Enabled, Sound, Weight, IsInternal, FlushFails, Allowance;
    if events != [] {
      var init, e := events[..|events| - 1], events[|events| - 1];
      assert Closed(init) && IsInternal(e);
      var before := Run(s, init, setup).value;
      var fails := FlushFails(before, e);
      var next := if fails then more + 1 else more;
      WeightOverRun(s, init, setup, next);
      StepWeighs(before, e, setup);
      ScaledStep(Weight(before, setup), Weight(Apply(before, e, setup), setup), fails, more);
      assert next + Failures(s, init, setup) == more + Failures(s, events, setup);
    }
  }

  /** The closed loop comes to rest when the writer fails finitely often: from any reachable state, a run without new
      input or crashes that contains f failed flushes has at most Weight * 6^f steps. */
  lemma LoopIsBounded(s: State, events: seq<Event>, setup: D.Setup)
    requires Reachable(s, setup) && Closed(events) && Run(s, events, setup).Some?
    ensures Sound(s)
    ensures |events| <= Allowance(Weight(s, setup), Failures(s, events, setup))
  {
    hide *;
    ReachableIsSound(s, setup);
    WeightOverRun(s, events, setup, 0);
  }

  // Neither the writer nor the processor has anything to take.
  ghost predicate AtRest(s: State) { forall e :: IsInternal(e) ==> !Enabled(s, e) }

  lemma RestLeavesTheBatch(s: State)
    requires Sound(s) && AtRest(s)
    ensures Unread(s.writer) == [] && s.pending == []
  {
    InvBounds(s.writer);
    forall t: Topic ensures UnreadOf(s.writer, t) == [] {
      assert s.writer.position.At(t) <= |s.writer.logs.At(t)|;
      assert IsInternal(Write(t, false, W.NoFault, W.NO_TROUBLE));
      assert !Enabled(s, Write(t, false, W.NoFault, W.NO_TROUBLE));
    }
    assert IsInternal(Retry(0)) && !Enabled(s, Retry(0));
    hide UnreadOf, W.Inv;
  }

  /** What rest looks like: the books balance with nothing unread and no dead letter waiting. The only records still
      on their way are those of an unfinished batch, which is written when a later message arrives, not before. */
  lemma BooksAtRest(events: seq<Event>, s: State, setup: D.Setup, r: Record)
    requires Run(INITIAL, events, setup) == Some(s) && AtRest(s)
    ensures Copies(s.ledger.produced, r) + Copies(s.ledger.duplicated, r)
         == Copies(Payloads(s.writer.batch), r) + Copies(Payloads(s.ledger.written), r) + Copies(Buried(s.buried), r)
            + Copies(s.ledger.lost, r)
    ensures AllLanded(s.writer.table, s.ledger.written)
  {
    NothingDisappears(events, s, setup, r);
    WrittenIsStored(events, s, setup);
    SoundAlways(events, s, setup);
    hide Run, Landed, Sound;
    RestLeavesTheBatch(s);
    assert Outstanding(s) == Payloads(s.writer.batch);
  }
}
