/** The writer between the validated topics and the database: batches in memory, one transaction per batch, and
    the offset commit after it.

    `State` and `Apply` are the protocol over topic logs, offsets and the table, with failures and crashes at every
    point; the class does the same by mutating its fields. The lemmas hold over every run of events. */
module TimescaleWriter {
  import opened Wrappers
  import opened Messages

  const BATCH_SIZE := 1000

  // A delivered record with the offset it was read at.
  datatype Message = Message(topic: Topic, offset: nat, record: Record)

  /** `flushed`, `skipped`, `unsent` and `dbFaults` record history: how far each log has ever been written, the
      offsets below the read position whose batch was rolled back, those whose dead-letter send failed, and the
      number of rollbacks. */
  datatype State = State(logs: Feeds<seq<Record>>, position: Feeds<nat>, committed: Feeds<nat>, batch: seq<Message>,
                         table: Table, dlq: seq<DeadLetter>,
                         flushed: Feeds<nat>, skipped: set<(Topic, nat)>, unsent: set<(Topic, nat)>, dbFaults: nat)

  const ORIGIN := Feeds(0, 0, 0)
  const INITIAL := State(Feeds([], [], []), ORIGIN, ORIGIN, [], map[], [], ORIGIN, {}, {}, 0)

  // Where a batch goes wrong, if anywhere. A raising record is a database fault whatever the label.
  datatype Fault = NoFault | DbFault | OffsetFault | CrashBeforeDb | CrashAfterDb

  datatype Event =
    | Produce(topic: Topic, record: Record)
    | Receive(topic: Topic, timedOut: bool, fault: Fault, handling: Handling)
    | Crash

  function Select(batch: seq<Message>, t: Topic): seq<Record> {
    if batch == [] then []
    else
      Select(batch[..|batch| - 1], t)
      + if batch[|batch| - 1].topic == t then [batch[|batch| - 1].record] else []
  }

  predicate AllInsertable(batch: seq<Message>) {
    forall i :: 0 <= i < |batch| ==> EntryOf(batch[i].topic, batch[i].record).Some?
  }

  // The transaction of a batch: regrouped by topic, in this order.
  function WriteBatch(batch: seq<Message>, table: Table): Table {
    var afterEod := InsertAll(EodOhlcv, Select(batch, EodOhlcv), table);
    var afterFundamentals := InsertAll(Fundamentals, Select(batch, Fundamentals), afterEod);
    InsertAll(IntradayBars, Select(batch, IntradayBars), afterFundamentals)
  }

  // What the exception handler meets: the error message, and the sends that fail, by place in the batch.
  datatype Handling = Handling(failedSends: set<nat>, reason: string)

  const NO_TROUBLE := Handling({}, "")

  function Wrapper(r: Record, reason: string): DeadLetter {
    DeadLetter(DlqEodOhlcv, map["failure_reason" := Str(reason), "source_topic" := Str("batch_write_failure")], Some(r))
  }

  // Dead letters for the first n messages, except those whose send fails.
  function Letters(batch: seq<Message>, n: nat, handling: Handling): seq<DeadLetter>
    requires n <= |batch|
  {
    if n == 0 then []
    else
      Letters(batch, n - 1, handling)
      + if n - 1 in handling.failedSends then [] else [Wrapper(batch[n - 1].record, handling.reason)]
  }

  function Offsets(batch: seq<Message>): set<(Topic, nat)> {
    set i | 0 <= i < |batch| :: (batch[i].topic, batch[i].offset)
  }

  function FailedOffsets(batch: seq<Message>, handling: Handling): set<(Topic, nat)> {
    set i | 0 <= i < |batch| && i in handling.failedSends :: (batch[i].topic, batch[i].offset)
  }

  function MaxOf(a: nat, b: nat): nat { if a >= b then a else b }

  function Restart(s: State): State {
    s.(batch := [], position := s.committed,
       skipped := set x | x in s.skipped && x.1 < s.committed.At(x.0))
  }

  // The exception handler: every record of the batch goes to the dead-letter topic, and the batch is dropped.
  function SendBatchToDlq(s: State, handling: Handling): State {
    s.(batch := [], dlq := s.dlq + Letters(s.batch, |s.batch|, handling),
       unsent := s.unsent + FailedOffsets(s.batch, handling))
  }

  // The transaction raised: every offset of the batch is skipped.
  function RolledBack(s: State, handling: Handling): State {
    SendBatchToDlq(s.(skipped := s.skipped + Offsets(s.batch), dbFaults := s.dbFaults + 1), handling)
  }

  // The transaction is in; the offset commit may still fail, or the process die before it.
  function AfterCommit(s: State, fault: Fault, handling: Handling): State {
    var f, q := s.flushed, s.position;
    var s' := s.(flushed := Feeds(MaxOf(f.eod, q.eod), MaxOf(f.fundamentals, q.fundamentals),
                                  MaxOf(f.intraday, q.intraday)));
    match fault
    case CrashAfterDb => Restart(s')
    case OffsetFault => SendBatchToDlq(s', handling)
    case _ => s'.(committed := s'.position, batch := [])
  }

  function Flush(s: State, fault: Fault, handling: Handling): State {
    if fault.CrashBeforeDb? then Restart(s)
    else if fault.DbFault? || !AllInsertable(s.batch) then RolledBack(s, handling)
    else AfterCommit(s.(table := WriteBatch(s.batch, s.table)), fault, handling)
  }

  function Deliver(s: State, t: Topic): State
    requires s.position.At(t) < |s.logs.At(t)|
  {
    var q := s.position.At(t);
    s.(position := s.position.With(t, q + 1), batch := s.batch + [Message(t, q, s.logs.At(t)[q])])
  }

  predicate Enabled(s: State, e: Event) {
    e.Receive? ==> s.position.At(e.topic) < |s.logs.At(e.topic)|
  }

  function Apply(s: State, e: Event): State
    requires Enabled(s, e)
  {
    match e
    case Produce(t, r) => s.(logs := s.logs.With(t, s.logs.At(t) + [r]))
    case Receive(t, timedOut, fault, handling) =>
      var s' := Deliver(s, t);
      if |s'.batch| >= BATCH_SIZE || timedOut then Flush(s', fault, handling) else s'
    case Crash => Restart(s)
  }

  // The state after a run of events; None when one of them is not enabled in its turn.
  function Run(events: seq<Event>): Option<State> {
    if events == [] then Some(INITIAL)
    else
      var before, e := Run(events[..|events| - 1]), events[|events| - 1];
      if before.Some? && Enabled(before.value, e) then Some(Apply(before.value, e)) else None
  }

  // ---------------------------------------------------------------- the invariant behind delivery

  // Offsets below this have left the in-memory batch.
  function Processed(s: State, t: Topic): int { s.position.At(t) - |Select(s.batch, t)| }

  ghost predicate Stored(s: State, t: Topic, o: nat)
    requires o < |s.logs.At(t)|
  {
    EntryOf(t, s.logs.At(t)[o]).Some? && EntryOf(t, s.logs.At(t)[o]).value.key in s.table
  }

  ghost predicate Wraps(letters: seq<DeadLetter>, r: Record) {
    exists j :: 0 <= j < |letters| && letters[j].original == Some(r)
  }

  ghost predicate DeadLettered(s: State, t: Topic, o: nat)
    requires o < |s.logs.At(t)|
  {
    Wraps(s.dlq, s.logs.At(t)[o])
  }

  // The batch holds, per topic, the consecutive records between the processed offset and the position.
  ghost predicate BatchInOrder(s: State, t: Topic) {
    && 0 <= s.committed.At(t) <= Processed(s, t)
    && s.position.At(t) <= |s.logs.At(t)|
    && Select(s.batch, t) == s.logs.At(t)[Processed(s, t)..s.position.At(t)]
    && (forall i :: 0 <= i < |s.batch| && s.batch[i].topic == t ==>
          && Processed(s, t) <= s.batch[i].offset < s.position.At(t)
          && s.batch[i].record == s.logs.At(t)[s.batch[i].offset])
    && (forall o :: Processed(s, t) <= o < s.position.At(t) ==> (t, o) in Offsets(s.batch))
  }

  // Every processed record is stored, or its batch was rolled back and it was dead-lettered or lost in sending.
  ghost predicate Accounted(s: State, t: Topic)
    requires BatchInOrder(s, t)
  {
    && (forall o :: (t, o) in s.skipped ==> o < Processed(s, t))
    && (forall o :: 0 <= o < Processed(s, t) && (t, o) !in s.skipped ==> Stored(s, t, o))
    && (forall o :: 0 <= o < Processed(s, t) && (t, o) in s.skipped ==> DeadLettered(s, t, o) || (t, o) in s.unsent)
  }

  ghost predicate Inv(s: State) { forall t :: BatchInOrder(s, t) && Accounted(s, t) }

  lemma SelectOneMore(batch: seq<Message>, m: Message, t: Topic)
    ensures Select(batch + [m], t) == Select(batch, t) + if m.topic == t then [m.record] else []
  {
    assert (batch + [m])[..|batch|] == batch;
  }

  lemma OffsetsOneMore(batch: seq<Message>, m: Message)
    ensures Offsets(batch + [m]) == Offsets(batch) + {(m.topic, m.offset)}
  {
    var more := batch + [m];
    assert more[|batch|] == m && forall i :: 0 <= i < |batch| ==> more[i] == batch[i];
    forall x | x in Offsets(batch) + {(m.topic, m.offset)} ensures x in Offsets(more) {
      if x in Offsets(batch) {
        var i :| 0 <= i < |batch| && x == (batch[i].topic, batch[i].offset);
        assert x == (more[i].topic, more[i].offset);
      } else {
        assert x == (more[|batch|].topic, more[|batch|].offset);
      }
    }
  }

  // Reading another topic leaves topic u's share of the batch alone.
  lemma DeliverKeepsOthers(s: State, t: Topic, u: Topic)
    requires BatchInOrder(s, u) && s.position.At(t) < |s.logs.At(t)| && u != t
    ensures BatchInOrder(Deliver(s, t), u) && Processed(Deliver(s, t), u) == Processed(s, u)
  {
    var m := Message(t, s.position.At(t), s.logs.At(t)[s.position.At(t)]);
    SelectOneMore(s.batch, m, u);
    OffsetsOneMore(s.batch, m);
    hide Select, Offsets;
  }

  lemma DeliverExtendsOwn(s: State, t: Topic)
    requires BatchInOrder(s, t) && s.position.At(t) < |s.logs.At(t)|
    ensures BatchInOrder(Deliver(s, t), t) && Processed(Deliver(s, t), t) == Processed(s, t)
  {
    var p, q, s' := Processed(s, t), s.position.At(t), Deliver(s, t);
    var m := Message(t, q, s.logs.At(t)[q]);
    SelectOneMore(s.batch, m, t);
    OffsetsOneMore(s.batch, m);
    hide Select, Offsets;
    assert s'.batch == s.batch + [m] && s'.logs == s.logs && s'.committed == s.committed && s'.position.At(t) == q + 1;
    hide Deliver;
    assert s.logs.At(t)[p..q + 1] == s.logs.At(t)[p..q] + [s.logs.At(t)[q]];
    forall o | p <= o < q + 1 ensures (t, o) in Offsets(s'.batch) {
      if o < q { assert (t, o) in Offsets(s.batch); }
    }
  }

  lemma DeliverKeepsOrder(s: State, t: Topic, u: Topic)
    requires BatchInOrder(s, u) && s.position.At(t) < |s.logs.At(t)|
    ensures BatchInOrder(Deliver(s, t), u) && Processed(Deliver(s, t), u) == Processed(s, u)
  {
    hide BatchInOrder, Deliver, Processed;
    if u == t { DeliverExtendsOwn(s, t); } else { DeliverKeepsOthers(s, t, u); }
  }

  lemma DeliverKeepsInv(s: State, t: Topic)
    requires Inv(s) && s.position.At(t) < |s.logs.At(t)|
    ensures Inv(Deliver(s, t))
  {
    var s' := Deliver(s, t);
    hide EntryOf, Select, Offsets;
    forall u ensures BatchInOrder(s', u) && Accounted(s', u) {
      assert BatchInOrder(s, u) && Accounted(s, u);
      DeliverKeepsOrder(s, t, u);
      assert s'.logs == s.logs && s'.dlq == s.dlq && s'.table == s.table && s'.skipped == s.skipped;
      hide BatchInOrder;
    }
  }

  lemma ProduceKeepsInv(s: State, t: Topic, r: Record)
    requires Inv(s)
    ensures Inv(Apply(s, Produce(t, r)))
  {
    var s' := Apply(s, Produce(t, r));
    hide Select, EntryOf, Offsets;
    forall u ensures BatchInOrder(s', u) && Accounted(s', u) {
      assert BatchInOrder(s, u) && Accounted(s, u);
      var q := s.position.At(u);
      assert s'.logs.At(u)[..|s.logs.At(u)|] == s.logs.At(u);
      assert forall o :: 0 <= o < |s.logs.At(u)| ==> s'.logs.At(u)[o] == s.logs.At(u)[o];
      assert s'.logs.At(u)[Processed(s, u)..q] == s.logs.At(u)[Processed(s, u)..q];
    }
  }

  lemma RestartKeepsInv(s: State)
    requires Inv(s)
    ensures Inv(Restart(s))
  {
    hide EntryOf;
    var s' := Restart(s);
    forall u ensures BatchInOrder(s', u) && Accounted(s', u) {
      assert BatchInOrder(s, u) && Accounted(s, u);
    }
  }

  // The state once the batch's outcome is decided: everything delivered counts as processed.
  ghost predicate Resolved(s: State, s': State) {
    && s'.batch == [] && s'.logs == s.logs && s'.position == s.position
    && (s'.committed == s.committed || s'.committed == s.position)
    && s'.unsent >= s.unsent && s.dlq <= s'.dlq
    && (forall k :: k in s.table ==> k in s'.table)
    && (forall t, o :: (t, o) in s'.skipped ==> (t, o) in s.skipped || (t, o) in Offsets(s.batch))
    && s.skipped <= s'.skipped
    && (forall i :: 0 <= i < |s.batch| ==>
          var m := s.batch[i];
          && ((m.topic, m.offset) !in s'.skipped ==>
                EntryOf(m.topic, m.record).Some? && EntryOf(m.topic, m.record).value.key in s'.table)
          && ((m.topic, m.offset) in s'.skipped ==>
                Wraps(s'.dlq, m.record) || (m.topic, m.offset) in s'.unsent))
  }

  lemma ResolvedKeepsInv(s: State, s': State)
    requires Inv(s) && Resolved(s, s')
    ensures Inv(s')
  {
    hide EntryOf;
    forall t ensures BatchInOrder(s', t) && Accounted(s', t) {
      assert BatchInOrder(s, t) && Accounted(s, t);
      forall o: nat | o < Processed(s', t)
        ensures (t, o) !in s'.skipped ==> Stored(s', t, o)
        ensures (t, o) in s'.skipped ==> DeadLettered(s', t, o) || (t, o) in s'.unsent
      {
        if o < Processed(s, t) {
          if (t, o) in s.skipped && DeadLettered(s, t, o) {
            WrapsMore(s.dlq, s'.dlq[|s.dlq|..], s.logs.At(t)[o]);
            assert s'.dlq == s.dlq + s'.dlq[|s.dlq|..];
          }
        } else {
          assert (t, o) in Offsets(s.batch);
          var i :| 0 <= i < |s.batch| && (s.batch[i].topic, s.batch[i].offset) == (t, o);
          assert s.batch[i].record == s.logs.At(t)[o];
        }
      }
    }
  }

  lemma WrapsMore(a: seq<DeadLetter>, b: seq<DeadLetter>, r: Record)
    requires Wraps(a, r) || Wraps(b, r)
    ensures Wraps(a + b, r)
  {
    if Wraps(a, r) {
      var j :| 0 <= j < |a| && a[j].original == Some(r);
      assert (a + b)[j] == a[j];
    } else {
      var j :| 0 <= j < |b| && b[j].original == Some(r);
      assert (a + b)[|a| + j] == b[j];
    }
  }

  // Each record of a failed batch whose send succeeds is dead-lettered.
  lemma {:induction false} LettersCover(batch: seq<Message>, n: nat, handling: Handling, i: nat)
    requires i < n <= |batch| && i !in handling.failedSends
    ensures Wraps(Letters(batch, n, handling), batch[i].record)
  {
    var before := Letters(batch, n - 1, handling);
    if i < n - 1 {
      LettersCover(batch, n - 1, handling, i);
    } else {
      assert [Wrapper(batch[i].record, handling.reason)][0].original == Some(batch[i].record);
    }
    var last := if n - 1 in handling.failedSends then [] else [Wrapper(batch[n - 1].record, handling.reason)];
    WrapsMore(before, last, batch[i].record);
  }

  // How many of the first n sends succeed.
  ghost function Sent(n: nat, failedSends: set<nat>): nat {
    if n == 0 then 0 else Sent(n - 1, failedSends) + if n - 1 in failedSends then 0 else 1
  }

  // One letter per send that succeeds, in order, around the message's own record.
  ghost predicate LettersAdded(batch: seq<Message>, handling: Handling, before: seq<DeadLetter>,
                               after: seq<DeadLetter>)
  {
    && before <= after && |after| == |before| + Sent(|batch|, handling.failedSends)
    && forall i :: 0 <= i < |batch| && i !in handling.failedSends ==>
         && Sent(i, handling.failedSends) < Sent(|batch|, handling.failedSends)
         && var letter := after[|before| + Sent(i, handling.failedSends)];
            && letter.original == Some(batch[i].record) && letter.topic == DlqEodOhlcv
            && letter.body == map["failure_reason" := Str(handling.reason),
                                  "source_topic" := Str("batch_write_failure")]
  }

  lemma {:induction false} LetterAt(batch: seq<Message>, n: nat, handling: Handling, i: nat)
    requires i < n <= |batch| && i !in handling.failedSends
    ensures |Letters(batch, n, handling)| == Sent(n, handling.failedSends) > Sent(i, handling.failedSends)
    ensures Letters(batch, n, handling)[Sent(i, handling.failedSends)]
         == DeadLetter(DlqEodOhlcv, map["failure_reason" := Str(handling.reason),
                                        "source_topic" := Str("batch_write_failure")], Some(batch[i].record))
  {
    LettersCounted(batch, n, handling);
    LettersCounted(batch, n - 1, handling);
    if i < n - 1 { LetterAt(batch, n - 1, handling, i); }
  }

  lemma {:induction false} LettersCounted(batch: seq<Message>, n: nat, handling: Handling)
    requires n <= |batch|
    ensures |Letters(batch, n, handling)| == Sent(n, handling.failedSends)
  {
    if n > 0 { LettersCounted(batch, n - 1, handling); }
  }

  lemma AddedLetters(batch: seq<Message>, handling: Handling, before: seq<DeadLetter>)
    ensures LettersAdded(batch, handling, before, before + Letters(batch, |batch|, handling))
  {
    LettersCounted(batch, |batch|, handling);
    forall i | 0 <= i < |batch| && i !in handling.failedSends
      ensures |Letters(batch, |batch|, handling)| > Sent(i, handling.failedSends)
      ensures Letters(batch, |batch|, handling)[Sent(i, handling.failedSends)]
           == DeadLetter(DlqEodOhlcv, map["failure_reason" := Str(handling.reason),
                                          "source_topic" := Str("batch_write_failure")], Some(batch[i].record))
    {
      LetterAt(batch, |batch|, handling, i);
    }
    hide Letters, Sent;
  }

  lemma RolledBackIsResolved(s: State, handling: Handling)
    ensures Resolved(s, RolledBack(s, handling))
  {
    var s' := RolledBack(s, handling);
    var letters := Letters(s.batch, |s.batch|, handling);
    hide EntryOf, Letters;
    forall i | 0 <= i < |s.batch|
      ensures var m := s.batch[i];
              && (m.topic, m.offset) in s'.skipped
              && (Wraps(s'.dlq, m.record) || (m.topic, m.offset) in s'.unsent)
    {
      if i !in handling.failedSends {
        LettersCover(s.batch, |s.batch|, handling, i);
        WrapsMore(s.dlq, letters, s.batch[i].record);
      }
    }
  }

  lemma {:induction false} SelectedIn(batch: seq<Message>, i: nat)
    requires i < |batch|
    ensures exists j :: 0 <= j < |Select(batch, batch[i].topic)| && Select(batch, batch[i].topic)[j] == batch[i].record
  {
    var init, t := batch[..|batch| - 1], batch[i].topic;
    if i < |init| {
      SelectedIn(init, i);
      var j :| 0 <= j < |Select(init, t)| && Select(init, t)[j] == batch[i].record;
      assert Select(batch, t)[j] == batch[i].record;
    } else {
      assert Select(batch, t)[|Select(init, t)|] == batch[i].record;
    }
  }

  lemma WriteBatchStores(batch: seq<Message>, table: Table)
    ensures forall k :: k in table ==> k in WriteBatch(batch, table) && WriteBatch(batch, table)[k] == table[k]
    ensures forall i :: 0 <= i < |batch| && EntryOf(batch[i].topic, batch[i].record).Some? ==>
      EntryOf(batch[i].topic, batch[i].record).value.key in WriteBatch(batch, table)
  {
    var eod := InsertAll(EodOhlcv, Select(batch, EodOhlcv), table);
    var both := InsertAll(Fundamentals, Select(batch, Fundamentals), eod);
    InsertAllKeeps(EodOhlcv, Select(batch, EodOhlcv), table);
    InsertAllKeeps(Fundamentals, Select(batch, Fundamentals), eod);
    InsertAllKeeps(IntradayBars, Select(batch, IntradayBars), both);
    hide EntryOf, InsertAll, Select;
    forall i | 0 <= i < |batch| && EntryOf(batch[i].topic, batch[i].record).Some?
      ensures EntryOf(batch[i].topic, batch[i].record).value.key in WriteBatch(batch, table)
    {
      SelectedIn(batch, i);
      var t, r := batch[i].topic, batch[i].record;
      var j :| 0 <= j < |Select(batch, t)| && Select(batch, t)[j] == r;
      match t
      case EodOhlcv => assert EntryOf(t, r).value.key in eod;
      case Fundamentals => assert EntryOf(t, r).value.key in both;
      case IntradayBars =>
    }
  }

  // A written batch leaves nothing new skipped, provided none of its offsets was skipped before.
  lemma WrittenIsResolved(s: State, s': State)
    requires Inv(s) && AllInsertable(s.batch)
    requires s'.batch == [] && s'.logs == s.logs && s'.position == s.position && s'.skipped == s.skipped
    requires s'.committed == s.committed || s'.committed == s.position
    requires s'.unsent >= s.unsent && s.dlq <= s'.dlq && s'.table == WriteBatch(s.batch, s.table)
    ensures Resolved(s, s')
  {
    WriteBatchStores(s.batch, s.table);
    hide EntryOf, WriteBatch, Select;
    forall i | 0 <= i < |s.batch| ensures (s.batch[i].topic, s.batch[i].offset) !in s.skipped {
      var t := s.batch[i].topic;
      assert BatchInOrder(s, t) && Accounted(s, t);
    }
  }

  lemma FlushKeepsInv(s: State, fault: Fault, handling: Handling)
    requires Inv(s)
    ensures Inv(Flush(s, fault, handling))
  {
    hide Inv, WriteBatch, AllInsertable, Resolved, Letters, Offsets, FailedOffsets;
    if fault.CrashBeforeDb? {
      RestartKeepsInv(s);
    } else if fault.DbFault? || !AllInsertable(s.batch) {
      RolledBackIsResolved(s, handling);
      ResolvedKeepsInv(s, Flush(s, fault, handling));
    } else if fault.CrashAfterDb? {
      // A crash after the transaction keeps what a lost offset commit would keep, and restarts.
      var s' := s.(batch := [], table := WriteBatch(s.batch, s.table), flushed := Flush(s, fault, handling).flushed);
      WrittenIsResolved(s, s');
      ResolvedKeepsInv(s, s');
      RestartKeepsInv(s');
      assert Flush(s, fault, handling) == Restart(s');
    } else {
      WrittenIsResolved(s, Flush(s, fault, handling));
      ResolvedKeepsInv(s, Flush(s, fault, handling));
    }
  }

  lemma InvStep(s: State, e: Event)
    requires Inv(s) && Enabled(s, e)
    ensures Inv(Apply(s, e))
  {
    hide Inv, Flush, Restart;
    match e
    case Produce(t, r) => ProduceKeepsInv(s, t, r);
    case Crash => RestartKeepsInv(s);
    case Receive(t, timedOut, fault, handling) =>
      DeliverKeepsInv(s, t);
      FlushKeepsInv(Deliver(s, t), fault, handling);
  }

  lemma {:induction false} InvAlways(events: seq<Event>, s: State)
    requires Run(events) == Some(s)
    ensures Inv(s)
  {
    hide Apply, Enabled;
    if events != [] {
      var before := Run(events[..|events| - 1]).value;
      InvAlways(events[..|events| - 1], before);
      hide Inv;
      InvStep(before, events[|events| - 1]);
    }
  }

  // ---------------------------------------------------------------- what every run guarantees

  /** No silent loss: in every run, with faults and crashes anywhere, a record below the committed offset is in the
      table, or in the dead-letter log, or its own dead-letter send failed. Offsets are never committed past a
      buffered record. */
  lemma NoSilentLoss(events: seq<Event>, s: State, t: Topic, o: nat)
    requires Run(events) == Some(s) && o < s.committed.At(t)
    ensures s.committed.At(t) <= Processed(s, t) <= s.position.At(t) <= |s.logs.At(t)|
    ensures Stored(s, t, o) || DeadLettered(s, t, o) || (t, o) in s.unsent
  {
    InvAlways(events, s);
    hide Run;
    assert BatchInOrder(s, t) && Accounted(s, t);
  }

  lemma RowsKeptByStep(s: State, e: Event)
    requires Enabled(s, e)
    ensures forall k :: k in s.table ==> k in Apply(s, e).table && Apply(s, e).table[k] == s.table[k]
  {
    if e.Receive? { WriteBatchStores(Deliver(s, e.topic).batch, s.table); }
    hide WriteBatch;
  }

  /** A row once written never changes. */
  lemma {:induction false} RowsNeverChange(events: seq<Event>, k: nat, early: State, late: State)
    requires k <= |events| && Run(events[..k]) == Some(early) && Run(events) == Some(late)
    ensures forall key :: key in early.table ==> key in late.table && late.table[key] == early.table[key]
    decreases |events|
  {
    hide Apply, Enabled;
    if k < |events| {
      var init := events[..|events| - 1];
      assert init[..k] == events[..k];
      RowsNeverChange(init, k, early, Run(init).value);
      RowsKeptByStep(Run(init).value, events[|events| - 1]);
    } else {
      assert events[..k] == events;
    }
  }

  // Another topic's log has a record with this key.
  ghost predicate SuppliedElsewhere(s: State, t: Topic, k: Key) {
    exists u :: u != t && Supplies(u, s.logs.At(u), k)
  }

  // As long as no transaction failed, each topic's rows are the first-wins fold of its flushed prefix.
  ghost predicate Exact(s: State, t: Topic) {
    s.dbFaults == 0 ==>
      && Processed(s, t) <= s.flushed.At(t) <= |s.logs.At(t)|
      && forall k :: !SuppliedElsewhere(s, t, k) ==>
           Lookup(s.table, k) == Lookup(InsertAll(t, s.logs.At(t)[..s.flushed.At(t)], map[]), k)
  }

  /** Re-inserting a stretch that overlaps the flushed prefix gives the fold of the longer prefix. */
  lemma Refold(t: Topic, log: seq<Record>, p: nat, q: nat, f: nat)
    requires p <= f <= |log| && p <= q <= |log|
    ensures InsertAll(t, log[p..q], InsertAll(t, log[..f], map[])) == InsertAll(t, log[..MaxOf(f, q)], map[])
  {
    var table := InsertAll(t, log[..f], map[]);
    var overlap := if q <= f then log[p..q] else log[p..f];
    OverlapPresent(t, log, p, if q <= f then q else f, f);
    hide EntryOf, InsertAll;
    InsertAllAbsorbed(t, overlap, table);
    if q > f {
      assert log[p..q] == overlap + log[f..q];
      InsertAllConcat(t, overlap, log[f..q], table);
      assert log[..q] == log[..f] + log[f..q];
      InsertAllConcat(t, log[..f], log[f..q], map[]);
    }
  }

  lemma OverlapPresent(t: Topic, log: seq<Record>, p: nat, q: nat, f: nat)
    requires p <= q <= f <= |log|
    ensures forall i :: 0 <= i < q - p && EntryOf(t, log[p..q][i]).Some? ==>
      EntryOf(t, log[p..q][i]).value.key in InsertAll(t, log[..f], map[])
  {
    InsertAllKeeps(t, log[..f], map[]);
    hide EntryOf, InsertAll;
    assert forall i :: 0 <= i < q - p ==> log[p..q][i] == log[..f][p + i];
  }

  lemma SuppliesSlice(t: Topic, log: seq<Record>, p: nat, q: nat, k: Key)
    requires p <= q <= |log| && Supplies(t, log[p..q], k)
    ensures Supplies(t, log, k)
  {
    hide EntryOf;
    var i :| 0 <= i < q - p && EntryOf(t, log[p..q][i]).Some? && EntryOf(t, log[p..q][i]).value.key == k;
    assert log[p + i] == log[p..q][i];
  }

  // Writing the batch acts on a key of topic t as inserting topic t's share of the batch.
  lemma WriteBatchAt(s: State, t: Topic, k: Key, reference: Table)
    requires Inv(s) && !SuppliedElsewhere(s, t, k) && Lookup(s.table, k) == Lookup(reference, k)
    ensures Lookup(WriteBatch(s.batch, s.table), k) == Lookup(InsertAll(t, Select(s.batch, t), reference), k)
  {
    forall u | u != t ensures !Supplies(u, Select(s.batch, u), k) {
      assert BatchInOrder(s, u);
      if Supplies(u, Select(s.batch, u), k) {
        SuppliesSlice(u, s.logs.At(u), Processed(s, u), s.position.At(u), k);
      }
    }
    hide InsertAll, Select, Inv;
    var eod, fundamentals, intraday :=
      Select(s.batch, EodOhlcv), Select(s.batch, Fundamentals), Select(s.batch, IntradayBars);
    var afterEod := InsertAll(EodOhlcv, eod, s.table);
    var afterFundamentals := InsertAll(Fundamentals, fundamentals, afterEod);
    var other := if t == EodOhlcv then InsertAll(t, eod, reference) else reference;
    InsertAllLocal(EodOhlcv, eod, s.table, reference, k);
    assert Lookup(afterEod, k) == Lookup(other, k);
    var other' := if t == Fundamentals then InsertAll(t, fundamentals, reference) else other;
    InsertAllLocal(Fundamentals, fundamentals, afterEod, other, k);
    assert Lookup(afterFundamentals, k) == Lookup(other', k);
    InsertAllLocal(IntradayBars, intraday, afterFundamentals, other', k);
  }

  lemma WrittenIsExact(s: State, t: Topic)
    requires Inv(s) && Exact(s, t) && s.dbFaults == 0
    ensures s.flushed.At(t) <= |s.logs.At(t)| && s.position.At(t) <= |s.logs.At(t)|
    ensures forall k :: !SuppliedElsewhere(s, t, k) ==>
      Lookup(WriteBatch(s.batch, s.table), k)
      == Lookup(InsertAll(t, s.logs.At(t)[..MaxOf(s.flushed.At(t), s.position.At(t))], map[]), k)
  {
    var log, f := s.logs.At(t), s.flushed.At(t);
    assert BatchInOrder(s, t);
    Refold(t, log, Processed(s, t), s.position.At(t), f);
    hide WriteBatch, InsertAll, Inv, Select, SuppliedElsewhere;
    forall k | !SuppliedElsewhere(s, t, k)
      ensures Lookup(WriteBatch(s.batch, s.table), k)
           == Lookup(InsertAll(t, log[..MaxOf(f, s.position.At(t))], map[]), k)
    {
      WriteBatchAt(s, t, k, InsertAll(t, log[..f], map[]));
    }
  }

  lemma FlushKeepsExact(s: State, fault: Fault, handling: Handling, t: Topic)
    requires Inv(s) && Exact(s, t)
    ensures Exact(Flush(s, fault, handling), t)
  {
    assert BatchInOrder(s, t);
    if s.dbFaults == 0 { WrittenIsExact(s, t); }
    hide WriteBatch, InsertAll, Inv, AllInsertable, Letters, FailedOffsets, Offsets, Supplies;
    assert forall k :: SuppliedElsewhere(Flush(s, fault, handling), t, k) == SuppliedElsewhere(s, t, k);
  }

  lemma {:induction false} SuppliesGrows(t: Topic, log: seq<Record>, r: Record, k: Key)
    ensures Supplies(t, log, k) ==> Supplies(t, log + [r], k)
  {
    hide EntryOf;
    if Supplies(t, log, k) {
      var i :| 0 <= i < |log| && EntryOf(t, log[i]).Some? && EntryOf(t, log[i]).value.key == k;
      assert (log + [r])[i] == log[i];
    }
  }

  lemma StepKeepsExact(s: State, e: Event, t: Topic)
    requires Inv(s) && Enabled(s, e) && Exact(s, t)
    ensures Exact(Apply(s, e), t)
  {
    assert BatchInOrder(s, t);
    match e
    case Produce(u, r) =>
      var s' := Apply(s, e);
      hide Supplies, InsertAll, EntryOf, Select;
      assert s'.logs.At(t)[..|s.logs.At(t)|] == s.logs.At(t);
      if s.dbFaults == 0 {
        assert s'.logs.At(t)[..s.flushed.At(t)] == s.logs.At(t)[..s.flushed.At(t)];
        forall k | SuppliedElsewhere(s, t, k) ensures SuppliedElsewhere(s', t, k) {
          var v :| v != t && Supplies(v, s.logs.At(v), k);
          SuppliesGrows(v, s.logs.At(v), r, k);
          assert Supplies(v, s'.logs.At(v), k);
        }
      }
    case Crash =>
      hide InsertAll, Supplies;
      assert forall k :: SuppliedElsewhere(Restart(s), t, k) == SuppliedElsewhere(s, t, k);
    case Receive(u, timedOut, fault, handling) =>
      DeliverKeepsExact(s, u, t);
      DeliverKeepsInv(s, u);
      hide Inv, Flush, Exact, Deliver;
      FlushKeepsExact(Deliver(s, u), fault, handling, t);
  }

  lemma DeliverKeepsExact(s: State, u: Topic, t: Topic)
    requires s.position.At(u) < |s.logs.At(u)| && Exact(s, t)
    ensures Exact(Deliver(s, u), t)
  {
    hide Supplies, InsertAll;
    SelectOneMore(s.batch, Message(u, s.position.At(u), s.logs.At(u)[s.position.At(u)]), t);
    assert Processed(Deliver(s, u), t) == Processed(s, t);
    assert forall k :: SuppliedElsewhere(Deliver(s, u), t, k) == SuppliedElsewhere(s, t, k);
  }

  /** Exactly-once effect: in every run without a failed transaction, whatever the batch boundaries, crashes, lost
      offset commits and redeliveries, the table holds at every key that no other topic supplies exactly what
      inserting the topic's flushed prefix once, first record wins, would put there. */
  lemma {:induction false} ExactlyOnce(events: seq<Event>, s: State, t: Topic)
    requires Run(events) == Some(s)
    ensures Exact(s, t)
    ensures s.dbFaults == 0 ==> s.committed.At(t) <= s.flushed.At(t)
  {
    InvAlways(events, s);
    assert BatchInOrder(s, t);
    hide Inv, BatchInOrder;
    if events == [] {
      assert s.logs.At(t)[..0] == [];
    } else {
      hide Apply, Enabled, Exact;
      var before := Run(events[..|events| - 1]).value;
      InvAlways(events[..|events| - 1], before);
      ExactlyOnce(events[..|events| - 1], before, t);
      StepKeepsExact(before, events[|events| - 1], t);
    }
    assert Exact(s, t);
  }

  // ---------------------------------------------------------------- what the rows are

  // The order of the three statements of a transaction.
  function Turn(t: Topic): nat {
    match t
    case EodOhlcv => 0
    case Fundamentals => 1
    case IntradayBars => 2
  }

  ghost predicate BatchAcceptable(batch: seq<Message>) {
    forall i :: 0 <= i < |batch| ==> Acceptable(batch[i].topic, batch[i].record)
  }

  ghost predicate BatchAsks(batch: seq<Message>, k: Key) {
    exists i :: 0 <= i < |batch| && Asks(batch[i].topic, batch[i].record, k)
  }

  // No message with this key is written before message i.
  ghost predicate FirstInTurn(batch: seq<Message>, k: Key, i: nat)
    requires i < |batch|
  {
    && Asks(batch[i].topic, batch[i].record, k)
    && forall j :: 0 <= j < |batch| && Asks(batch[j].topic, batch[j].record, k) ==>
         Turn(batch[i].topic) < Turn(batch[j].topic) || (batch[i].topic == batch[j].topic && i <= j)
  }

  ghost predicate FirstInTurnHasColumns(batch: seq<Message>, k: Key, row: Row) {
    exists i :: 0 <= i < |batch| && FirstInTurn(batch, k, i) && HasColumns(batch[i].topic, batch[i].record, row)
  }

  // Old rows stay, the keys of the batch are there, and a new row is the first record written under its key.
  ghost predicate WrittenFrom(batch: seq<Message>, before: Table, after: Table) {
    && (forall k :: k in after <==> k in before || BatchAsks(batch, k))
    && (forall k :: k in after ==>
          if k in before then after[k] == before[k] else FirstInTurnHasColumns(batch, k, after[k]))
  }

  lemma InsertableByRecord(batch: seq<Message>)
    ensures AllInsertable(batch) <==> BatchAcceptable(batch)
  {
    forall i | 0 <= i < |batch|
      ensures EntryOf(batch[i].topic, batch[i].record).Some? <==> Acceptable(batch[i].topic, batch[i].record)
    {
      EntryIsTheRecord(batch[i].topic, batch[i].record);
    }
    hide EntryOf, Acceptable;
  }

  // Place j of a topic's share is some place of the batch, and the places keep their order.
  lemma {:induction false} PlaceOf(batch: seq<Message>, t: Topic, j: nat) returns (i: nat)
    requires j < |Select(batch, t)|
    ensures i < |batch| && batch[i].topic == t && batch[i].record == Select(batch, t)[j]
    ensures |Select(batch[..i], t)| == j
  {
    var init, last := batch[..|batch| - 1], |batch| - 1;
    if j < |Select(init, t)| {
      i := PlaceOf(init, t, j);
      assert init[..i] == batch[..i];
    } else {
      i := last;
    }
  }

  lemma {:induction false} SelectPrefix(batch: seq<Message>, t: Topic, i: nat)
    requires i < |batch| && batch[i].topic == t
    ensures |Select(batch[..i], t)| < |Select(batch, t)|
    ensures Select(batch, t)[|Select(batch[..i], t)|] == batch[i].record
  {
    var init := batch[..|batch| - 1];
    if i < |init| {
      SelectPrefix(init, t, i);
      assert init[..i] == batch[..i];
    }
  }

  lemma {:induction false} SharesGrow(batch: seq<Message>, t: Topic, i: nat)
    requires i <= |batch|
    ensures |Select(batch[..i], t)| <= |Select(batch, t)|
  {
    if i < |batch| {
      var init := batch[..|batch| - 1];
      SharesGrow(init, t, i);
      assert init[..i] == batch[..i];
    } else {
      assert batch[..i] == batch;
    }
  }

  // The first of a topic's share to ask for a key is the first of that topic in the batch.
  lemma FirstOfShare(batch: seq<Message>, t: Topic, k: Key, row: Row) returns (i: nat)
    requires FirstHasColumns(t, Select(batch, t), k, row)
    ensures i < |batch| && batch[i].topic == t && Asks(t, batch[i].record, k) && HasColumns(t, batch[i].record, row)
    ensures forall j :: 0 <= j < i && batch[j].topic == t ==> !Asks(t, batch[j].record, k)
  {
    hide Asks, HasColumns, Select;
    var share := Select(batch, t);
    var p :| 0 <= p < |share| && FirstToAsk(t, share, k, p) && HasColumns(t, share[p], row);
    i := PlaceOf(batch, t, p);
    forall j | 0 <= j < i && batch[j].topic == t ensures !Asks(t, batch[j].record, k) {
      SelectPrefix(batch, t, j);
      SelectPrefix(batch[..i], t, j);
      assert batch[..i][..j] == batch[..j];
    }
  }

  lemma ShareAsks(batch: seq<Message>, t: Topic, k: Key)
    ensures SomeAsks(t, Select(batch, t), k)
      <==> exists i :: 0 <= i < |batch| && batch[i].topic == t && Asks(batch[i].topic, batch[i].record, k)
  {
    hide Asks, Select;
    var share := Select(batch, t);
    if j :| 0 <= j < |share| && Asks(t, share[j], k) {
      var i := PlaceOf(batch, t, j);
      assert Asks(batch[i].topic, batch[i].record, k);
    }
    if i :| 0 <= i < |batch| && batch[i].topic == t && Asks(batch[i].topic, batch[i].record, k) {
      SelectPrefix(batch, t, i);
      assert Asks(t, share[|Select(batch[..i], t)|], k);
    }
  }

  // A row new after a topic's turn is the first in turn of the batch when no earlier turn has its key.
  lemma NewInTurn(batch: seq<Message>, t: Topic, k: Key, row: Row)
    requires FirstHasColumns(t, Select(batch, t), k, row)
    requires forall u: Topic :: Turn(u) < Turn(t) ==> !SomeAsks(u, Select(batch, u), k)
    ensures FirstInTurnHasColumns(batch, k, row)
  {
    hide Asks, HasColumns, Select, SomeAsks;
    var i := FirstOfShare(batch, t, k, row);
    forall j | 0 <= j < |batch| && Asks(batch[j].topic, batch[j].record, k)
      ensures Turn(t) < Turn(batch[j].topic) || (t == batch[j].topic && i <= j)
    {
      ShareAsks(batch, batch[j].topic, k);
    }
    assert FirstInTurn(batch, k, i);
  }

  // One key through the three statements.
  lemma WrittenAt(batch: seq<Message>, before: Table, eod: Table, both: Table, after: Table, k: Key)
    requires InsertedFrom(EodOhlcv, Select(batch, EodOhlcv), before, eod)
    requires InsertedFrom(Fundamentals, Select(batch, Fundamentals), eod, both)
    requires InsertedFrom(IntradayBars, Select(batch, IntradayBars), both, after)
    ensures k in after <==> k in before || BatchAsks(batch, k)
    ensures k in after ==>
      if k in before then after[k] == before[k] else FirstInTurnHasColumns(batch, k, after[k])
  {
    hide Select, SomeAsks, FirstHasColumns, FirstInTurnHasColumns, BatchAsks;
    BatchAsksByTopic(batch, k);
    if k in after && k !in before {
      if k in eod {
        NewInTurn(batch, EodOhlcv, k, after[k]);
      } else if k in both {
        NewInTurn(batch, Fundamentals, k, after[k]);
      } else {
        NewInTurn(batch, IntradayBars, k, after[k]);
      }
    }
  }

  /** What a transaction does, said of the records of its batch alone. */
  lemma WriteBatchByRecord(batch: seq<Message>, table: Table)
    ensures WrittenFrom(batch, table, WriteBatch(batch, table))
  {
    var eod := InsertAll(EodOhlcv, Select(batch, EodOhlcv), table);
    var both := InsertAll(Fundamentals, Select(batch, Fundamentals), eod);
    var after := InsertAll(IntradayBars, Select(batch, IntradayBars), both);
    InsertAllByRecord(EodOhlcv, Select(batch, EodOhlcv), table);
    InsertAllByRecord(Fundamentals, Select(batch, Fundamentals), eod);
    InsertAllByRecord(IntradayBars, Select(batch, IntradayBars), both);
    assert after == WriteBatch(batch, table);
    hide WriteBatch, InsertAll, Select, InsertedFrom, FirstInTurnHasColumns, BatchAsks;
    forall k
      ensures k in after <==> k in table || BatchAsks(batch, k)
      ensures k in after ==>
        if k in table then after[k] == table[k] else FirstInTurnHasColumns(batch, k, after[k])
    {
      WrittenAt(batch, table, eod, both, after, k);
    }
  }

  lemma BatchAsksByTopic(batch: seq<Message>, k: Key)
    ensures BatchAsks(batch, k) <==>
      || SomeAsks(EodOhlcv, Select(batch, EodOhlcv), k)
      || SomeAsks(Fundamentals, Select(batch, Fundamentals), k)
      || SomeAsks(IntradayBars, Select(batch, IntradayBars), k)
  {
    hide Asks, Select, SomeAsks;
    ShareAsks(batch, EodOhlcv, k);
    ShareAsks(batch, Fundamentals, k);
    ShareAsks(batch, IntradayBars, k);
    if i :| 0 <= i < |batch| && Asks(batch[i].topic, batch[i].record, k) {
      match batch[i].topic
      case EodOhlcv =>
      case Fundamentals =>
      case IntradayBars =>
    }
  }

  lemma FlushEmptiesBatch(s: State, fault: Fault, handling: Handling)
    ensures Flush(s, fault, handling).batch == []
  {
    hide AllInsertable, WriteBatch, Letters, Offsets, FailedOffsets;
  }

  lemma NothingWritten(table: Table)
    ensures WrittenFrom([], table, table)
  {
  }

  // The transaction of a flush, if it comes to one and it goes through.
  lemma FlushByRecord(s: State, fault: Fault, handling: Handling)
    ensures fault.CrashBeforeDb? || fault.DbFault? || !BatchAcceptable(s.batch) ==>
      Flush(s, fault, handling).table == s.table
    ensures !(fault.CrashBeforeDb? || fault.DbFault? || !BatchAcceptable(s.batch)) ==>
      WrittenFrom(s.batch, s.table, Flush(s, fault, handling).table)
  {
    InsertableByRecord(s.batch);
    WriteBatchByRecord(s.batch, s.table);
    hide AllInsertable, BatchAcceptable, WrittenFrom, WriteBatch, Letters, Offsets, FailedOffsets;
  }

  // The row is that of a record of a log.
  ghost predicate FromLog(s: State, k: Key, row: Row) {
    exists t, o :: 0 <= o < |s.logs.At(t)| && Asks(t, s.logs.At(t)[o], k) && HasColumns(t, s.logs.At(t)[o], row)
  }

  lemma FirstIsFromLog(s: State, k: Key, row: Row)
    requires Inv(s) && FirstInTurnHasColumns(s.batch, k, row)
    ensures FromLog(s, k, row)
  {
    hide Asks, HasColumns, Inv, Select;
    var i :| 0 <= i < |s.batch| && FirstInTurn(s.batch, k, i)
             && HasColumns(s.batch[i].topic, s.batch[i].record, row);
    var t, o := s.batch[i].topic, s.batch[i].offset;
    assert BatchInOrder(s, t) by { ShareInOrder(s, t); }
    assert s.batch[i].record == s.logs.At(t)[o];
  }

  lemma ShareInOrder(s: State, t: Topic)
    requires Inv(s)
    ensures BatchInOrder(s, t)
  {
  }

  lemma FlushFromLog(s: State, fault: Fault, handling: Handling, k: Key)
    requires Inv(s) && k in Flush(s, fault, handling).table && k !in s.table
    ensures FromLog(s, k, Flush(s, fault, handling).table[k])
  {
    FlushByRecord(s, fault, handling);
    hide *;
    assert FirstInTurnHasColumns(s.batch, k, Flush(s, fault, handling).table[k]) by {
      NewRow(s.batch, s.table, Flush(s, fault, handling).table, k);
    }
    FirstIsFromLog(s, k, Flush(s, fault, handling).table[k]);
  }

  lemma NewRow(batch: seq<Message>, before: Table, after: Table, k: Key)
    requires WrittenFrom(batch, before, after) && k in after && k !in before
    ensures FirstInTurnHasColumns(batch, k, after[k])
  {
  }

  lemma SameLogs(s: State, s': State, k: Key, row: Row)
    requires s'.logs == s.logs && FromLog(s, k, row)
    ensures FromLog(s', k, row)
  {
    hide Asks, HasColumns;
  }

  lemma FromLongerLog(s: State, e: Event, k: Key, row: Row)
    requires FromLog(s, k, row) && e.Produce?
    ensures FromLog(Apply(s, e), k, row)
  {
    hide Asks, HasColumns;
    var t, o :| 0 <= o < |s.logs.At(t)| && Asks(t, s.logs.At(t)[o], k) && HasColumns(t, s.logs.At(t)[o], row);
    assert Apply(s, e).logs.At(t)[o] == s.logs.At(t)[o];
  }

  lemma StepFromLog(s: State, e: Event, k: Key)
    requires Inv(s) && Enabled(s, e) && k in Apply(s, e).table
    requires k in s.table ==> FromLog(s, k, s.table[k])
    ensures FromLog(Apply(s, e), k, Apply(s, e).table[k])
  {
    RowsKeptByStep(s, e);
    match e
    case Produce(t, r) =>
      hide FromLog;
      FromLongerLog(s, e, k, s.table[k]);
    case Crash =>
    case Receive(t, timedOut, fault, handling) =>
      DeliverKeepsInv(s, t);
      assert Apply(s, e).logs == s.logs;
      hide Inv, Flush, FromLog;
      if k !in s.table {
        FlushFromLog(Deliver(s, t), fault, handling, k);
        SameLogs(Deliver(s, t), Apply(s, e), k, Apply(s, e).table[k]);
      } else {
        SameLogs(s, Apply(s, e), k, s.table[k]);
      }
  }

  /** In every run each row is, column by column, a record that was produced to a topic, stored under that record's
      own key. */
  lemma {:induction false} RowsComeFromRecords(events: seq<Event>, s: State, k: Key)
    requires Run(events) == Some(s) && k in s.table
    ensures FromLog(s, k, s.table[k])
  {
    hide Apply, Enabled, FromLog;
    if events != [] {
      var init, e := events[..|events| - 1], events[|events| - 1];
      var before := Run(init).value;
      InvAlways(init, before);
      if k in before.table { RowsComeFromRecords(init, before, k); }
      StepFromLog(before, e, k);
    }
  }

  /** In every run without a failed transaction, a key that no other topic asks for is in the table exactly when a
      flushed record asks for it, and its row is the first such record, column by column. */
  lemma FirstRecordIsStored(events: seq<Event>, s: State, t: Topic, k: Key)
    requires Run(events) == Some(s) && s.dbFaults == 0
    requires forall u: Topic :: u != t ==> !SomeAsks(u, s.logs.At(u), k)
    ensures s.committed.At(t) <= s.flushed.At(t) <= |s.logs.At(t)|
    ensures var flushed := s.logs.At(t)[..s.flushed.At(t)];
            && (k in s.table <==> SomeAsks(t, flushed, k))
            && (k in s.table ==> FirstHasColumns(t, flushed, k, s.table[k]))
  {
    ExactlyOnce(events, s, t);
    hide Run, Processed;
    var flushed := s.logs.At(t)[..s.flushed.At(t)];
    hide SomeAsks, FirstHasColumns, InsertAll, Supplies;
    forall u: Topic | u != t ensures !Supplies(u, s.logs.At(u), k) { SuppliesByRecord(u, s.logs.At(u), k); }
    assert !SuppliedElsewhere(s, t, k);
    InsertAllByRecord(t, flushed, map[]);
  }

  // ---------------------------------------------------------------- what the commit after a failure skips

  ghost predicate StoredAt(s: State, t: Topic, o: nat) { o < |s.logs.At(t)| && Stored(s, t, o) }

  ghost predicate CommittedAllStored(s: State) {
    forall t: Topic, o: nat :: o < s.committed.At(t) ==> StoredAt(s, t, o)
  }

  ghost predicate BatchSupplies(batch: seq<Message>, k: Key) {
    exists i :: 0 <= i < |batch| && Gives(batch[i].topic, batch[i].record, k)
  }

  predicate Gives(t: Topic, r: Record, k: Key) { EntryOf(t, r).Some? && EntryOf(t, r).value.key == k }

  /** Every offset rolled back earlier happens to have its key in the table already, or in the batch about to be
      written. */
  ghost predicate SkippedCovered(s: State) {
    forall x :: x in s.skipped ==> x.1 < |s.logs.At(x.0)| && Covered(s, x.0, s.logs.At(x.0)[x.1])
  }

  ghost predicate Covered(s: State, t: Topic, r: Record) {
    EntryOf(t, r).Some? && (EntryOf(t, r).value.key in s.table || BatchSupplies(s.batch, EntryOf(t, r).value.key))
  }

  lemma {:induction false} SelectedFrom(batch: seq<Message>, t: Topic, j: nat)
    requires j < |Select(batch, t)|
    ensures exists i :: 0 <= i < |batch| && batch[i].topic == t && batch[i].record == Select(batch, t)[j]
  {
    var init, last := batch[..|batch| - 1], |batch| - 1;
    if j < |Select(init, t)| {
      SelectedFrom(init, t, j);
      var i :| 0 <= i < |init| && init[i].topic == t && init[i].record == Select(init, t)[j];
      assert batch[i] == init[i];
    } else {
      assert batch[last].topic == t;
    }
  }

  lemma ShareSupplies(batch: seq<Message>, t: Topic, k: Key)
    requires Supplies(t, Select(batch, t), k)
    ensures BatchSupplies(batch, k)
  {
    hide EntryOf, Select;
    var share := Select(batch, t);
    var j :| 0 <= j < |share| && EntryOf(t, share[j]).Some? && EntryOf(t, share[j]).value.key == k;
    SelectedFrom(batch, t, j);
    var i :| 0 <= i < |batch| && batch[i].topic == t && batch[i].record == share[j];
    assert Gives(batch[i].topic, batch[i].record, k);
  }

  /** A transaction adds exactly the keys of its batch. */
  lemma WriteBatchKeys(batch: seq<Message>, table: Table, k: Key)
    ensures k in WriteBatch(batch, table) <==> k in table || BatchSupplies(batch, k)
  {
    WriteBatchStores(batch, table);
    if !BatchSupplies(batch, k) {
      forall t: Topic ensures !Supplies(t, Select(batch, t), k) {
        if Supplies(t, Select(batch, t), k) { ShareSupplies(batch, t, k); }
      }
      hide EntryOf, InsertAll, Select, Supplies;
      var eod := InsertAll(EodOhlcv, Select(batch, EodOhlcv), table);
      var both := InsertAll(Fundamentals, Select(batch, Fundamentals), eod);
      InsertAllLocal(EodOhlcv, Select(batch, EodOhlcv), table, table, k);
      InsertAllLocal(Fundamentals, Select(batch, Fundamentals), eod, eod, k);
      InsertAllLocal(IntradayBars, Select(batch, IntradayBars), both, both, k);
    } else {
      hide EntryOf, WriteBatch;
      var i :| 0 <= i < |batch| && Gives(batch[i].topic, batch[i].record, k);
    }
  }

  lemma CoveredIsStored(s: State, t: Topic, o: nat)
    requires o < |s.logs.At(t)| && AllInsertable(s.batch)
    ensures var s' := Flush(s, NoFault, NO_TROUBLE);
            StoredAt(s', t, o) <==> Covered(s, t, s.logs.At(t)[o])
  {
    var e := EntryOf(t, s.logs.At(t)[o]);
    hide EntryOf, WriteBatch, BatchSupplies;
    if e.Some? { WriteBatchKeys(s.batch, s.table, e.value.key); }
  }

  lemma FlushIsSafeIff(s: State)
    requires Inv(s) && AllInsertable(s.batch)
    ensures CommittedAllStored(Flush(s, NoFault, NO_TROUBLE)) <==> SkippedCovered(s)
  {
    FlushKeepsInv(s, NoFault, NO_TROUBLE);
    var s' := Flush(s, NoFault, NO_TROUBLE);
    assert s'.logs == s.logs && s'.skipped == s.skipped && s'.committed == s.position == s'.position && s'.batch == [];
    hide *;
    InRange(s);
    NotSkippedIsStored(s');
    if CommittedAllStored(s') {
      forall x | x in s.skipped ensures x.1 < |s.logs.At(x.0)| && Covered(s, x.0, s.logs.At(x.0)[x.1]) {
        CoveredIsStored(s, x.0, x.1);
        AllStoredAt(s', x.0, x.1);
      }
      SkippedAreCovered(s);
    }
    if SkippedCovered(s) {
      forall t: Topic, o: nat | o < s'.committed.At(t) ensures StoredAt(s', t, o) {
        if (t, o) in s.skipped {
          CoveredAt(s, t, o);
          CoveredIsStored(s, t, o);
        }
      }
      AllStored(s');
    }
  }

  predicate Flushing(s: State, e: Event) {
    e.Receive? && Enabled(s, e) && (|s.batch| + 1 >= BATCH_SIZE || e.timedOut)
  }

  // The batch at the flush.
  function Flushed(s: State, e: Event): seq<Message>
    requires Flushing(s, e)
  {
    Deliver(s, e.topic).batch
  }

  predicate Commits(s: State, e: Event) { Flushing(s, e) && e.fault.NoFault? && AllInsertable(Flushed(s, e)) }

  lemma CommittingFlush(s: State, e: Event)
    requires Enabled(s, e) && Commits(s, e)
    ensures AllInsertable(Deliver(s, e.topic).batch) && Apply(s, e) == Flush(Deliver(s, e.topic), NoFault, NO_TROUBLE)
  {
    hide AllInsertable, WriteBatch;
  }

  /** A commit, whether the batch is full or timed out, leaves everything below the committed offsets stored exactly
      when, before it, every record of earlier rolled-back batches has its key in the table or in the batch: the commit
      passes these records. */
  lemma CommitIsSafeIff(events: seq<Event>, s: State, e: Event)
    requires Run(events) == Some(s) && Enabled(s, e) && Commits(s, e)
    ensures Apply(s, e).committed == Deliver(s, e.topic).position
    ensures CommittedAllStored(Apply(s, e)) <==> SkippedCovered(Deliver(s, e.topic))
  {
    InvAlways(events, s);
    DeliverKeepsInv(s, e.topic);
    CommittingFlush(s, e);
    hide Run, Inv, Apply, Deliver, CommittedAllStored, SkippedCovered, AllInsertable, WriteBatch;
    FlushIsSafeIff(Deliver(s, e.topic));
  }

  lemma InRange(s: State)
    requires Inv(s)
    ensures forall t: Topic :: s.position.At(t) <= |s.logs.At(t)|
    ensures forall x :: x in s.skipped ==> x.1 < s.position.At(x.0)
  {
    forall t: Topic ensures s.position.At(t) <= |s.logs.At(t)| { assert BatchInOrder(s, t); }
    forall x | x in s.skipped ensures x.1 < s.position.At(x.0) {
      assert BatchInOrder(s, x.0) && Accounted(s, x.0) && (x.0, x.1) in s.skipped;
    }
  }

  // With nothing buffered and everything committed, only skipped offsets can miss.
  lemma NotSkippedIsStored(s: State)
    requires Inv(s) && s.batch == [] && s.committed == s.position
    ensures forall t: Topic, o: nat :: o < s.committed.At(t) && (t, o) !in s.skipped ==> StoredAt(s, t, o)
  {
    hide EntryOf, Stored;
    forall t: Topic, o: nat | o < s.committed.At(t) && (t, o) !in s.skipped ensures StoredAt(s, t, o)
    {
      assert BatchInOrder(s, t) && Accounted(s, t);
    }
  }

  lemma AllStoredAt(s: State, t: Topic, o: nat)
    requires CommittedAllStored(s) && o < s.committed.At(t)
    ensures StoredAt(s, t, o)
  {
  }

  lemma AllStored(s: State)
    requires forall t: Topic, o: nat :: o < s.committed.At(t) ==> StoredAt(s, t, o)
    ensures CommittedAllStored(s)
  {
  }

  lemma SkippedAreCovered(s: State)
    requires forall x :: x in s.skipped ==> x.1 < |s.logs.At(x.0)| && Covered(s, x.0, s.logs.At(x.0)[x.1])
    ensures SkippedCovered(s)
  {
  }

  lemma CoveredAt(s: State, t: Topic, o: nat)
    requires SkippedCovered(s) && (t, o) in s.skipped
    ensures o < |s.logs.At(t)| && Covered(s, t, s.logs.At(t)[o])
  {
    hide Covered;
    assert (t, o).1 < |s.logs.At((t, o).0)| && Covered(s, (t, o).0, s.logs.At((t, o).0)[(t, o).1]);
  }

  const FIRST: Record := map["symbol" := Str("A"), "period_end" := Str("2024-03-31")]
  const SECOND: Record := map["symbol" := Str("B"), "period_end" := Str("2024-03-31")]

  lemma RunOneMore(events: seq<Event>, e: Event, s: State)
    requires Run(events) == Some(s) && Enabled(s, e)
    ensures Run(events + [e]) == Some(Apply(s, e))
  {
    assert (events + [e])[..|events|] == events;
  }

  lemma ProduceOne(s: State, r: Record)
    ensures Enabled(s, Produce(Fundamentals, r))
    ensures var s' := Apply(s, Produce(Fundamentals, r));
            && s'.logs.fundamentals == s.logs.fundamentals + [r] && s'.position == s.position
            && s'.batch == s.batch && s'.table == s.table && s'.dlq == s.dlq
  {
  }

  // The first send fails.
  const LOST := Handling({0}, "connection lost")

  // A batch of one statement whose transaction and dead-letter send both fail.
  lemma FailOne(s: State)
    requires s.batch == [] && s.position.fundamentals < |s.logs.fundamentals|
    ensures Enabled(s, Receive(Fundamentals, true, DbFault, LOST))
    ensures var s' := Apply(s, Receive(Fundamentals, true, DbFault, LOST));
            && s'.batch == [] && s'.table == s.table && s'.dlq == s.dlq && s'.logs == s.logs
            && s'.position.fundamentals == s.position.fundamentals + 1
  {
    var d := Deliver(s, Fundamentals);
    assert |d.batch| == 1;
    assert Letters(d.batch, 0, LOST) == [] && Letters(d.batch, 1, LOST) == [];
  }

  // A batch of one statement written without a fault.
  lemma WriteOne(s: State, r: Record)
    requires s.batch == [] && s.position.fundamentals < |s.logs.fundamentals|
    requires s.logs.fundamentals[s.position.fundamentals] == r && EntryOf(Fundamentals, r).Some?
    ensures var s' := Apply(s, Receive(Fundamentals, true, NoFault, NO_TROUBLE));
            && s'.table == InsertIfAbsent(s.table, EntryOf(Fundamentals, r).value)
            && s'.dlq == s.dlq && s'.logs == s.logs && s'.committed.fundamentals == s.position.fundamentals + 1
  {
    hide EntryOf, WriteBatch;
    var m := Message(Fundamentals, s.position.fundamentals, r);
    assert Deliver(s, Fundamentals).batch == [m];
    WriteSingle(m, s.table);
  }

  lemma WriteSingle(m: Message, table: Table)
    requires m.topic == Fundamentals && EntryOf(Fundamentals, m.record).Some?
    ensures WriteBatch([m], table) == InsertIfAbsent(table, EntryOf(Fundamentals, m.record).value)
  {
    hide EntryOf;
    forall t: Topic ensures Select([m], t) == if t == Fundamentals then [m.record] else [] {
      assert [m] == [] + [m];
      SelectOneMore([], m, t);
    }
    hide Select, InsertIfAbsent;
    InsertOne(Fundamentals, m.record, table);
    assert InsertAll(EodOhlcv, [], table) == table;
  }

  lemma InsertOne(t: Topic, r: Record, table: Table)
    requires EntryOf(t, r).Some?
    ensures InsertAll(t, [r], table) == InsertIfAbsent(table, EntryOf(t, r).value)
  {
    hide EntryOf, InsertIfAbsent;
    assert [r][..0] == [];
    assert InsertAll(t, [], table) == table;
  }

  lemma SampleKeys()
    ensures EntryOf(Fundamentals, FIRST).Some? && EntryOf(Fundamentals, SECOND).Some?
    ensures EntryOf(Fundamentals, FIRST).value.key != EntryOf(Fundamentals, SECOND).value.key
  {
    assert FIRST["symbol"] == Str("A") && SECOND["symbol"] == Str("B");
    assert "A"[0] != "B"[0];
  }

  lemma RunOfNothing()
    ensures Run([]) == Some(INITIAL) && INITIAL.logs.fundamentals == [] && INITIAL.position.fundamentals == 0
    ensures INITIAL.batch == [] && INITIAL.table == map[] && INITIAL.dlq == []
  {
  }

  // The first record's batch fails, and the second record arrives.
  lemma FailThenProduce() returns (events: seq<Event>, s: State)
    ensures Run(events) == Some(s)
    ensures s.logs.fundamentals == [FIRST, SECOND] && s.position.fundamentals == 1
    ensures s.batch == [] && s.table == map[] && s.dlq == []
  {
    RunOfNothing();
    hide *;
    var e0, e1, e2 := Produce(Fundamentals, FIRST), Receive(Fundamentals, true, DbFault, LOST),
                      Produce(Fundamentals, SECOND);
    ProduceOne(INITIAL, FIRST);
    var s1 := Apply(INITIAL, e0);
    RunOneMore([], e0, INITIAL);
    FailOne(s1);
    var s2 := Apply(s1, e1);
    RunOneMore([] + [e0], e1, s1);
    ProduceOne(s2, SECOND);
    s := Apply(s2, e2);
    RunOneMore([] + [e0] + [e1], e2, s2);
    events := [] + [e0] + [e1] + [e2];
  }

  /** The module promises redelivery after a database failure. This run shows otherwise: a failed batch followed by a
      good one commits past the failed record, which is neither stored nor, if its send failed, dead-lettered. */
  lemma FailedBatchIsPassed() returns (events: seq<Event>, s: State)
    ensures Run(events) == Some(s)
    ensures |s.logs.fundamentals| == 2 && s.committed.fundamentals == 2
    ensures !Stored(s, Fundamentals, 0) && Stored(s, Fundamentals, 1) && s.dlq == []
  {
    SampleKeys();
    hide EntryOf, Apply, FIRST, SECOND, NO_TROUBLE, Run;
    var before, s3 := FailThenProduce();
    var e3 := Receive(Fundamentals, true, NoFault, NO_TROUBLE);
    RunOneMore(before, e3, s3);
    WriteOne(s3, SECOND);
    s := Apply(s3, e3);
    events := before + [e3];
  }

  // ---------------------------------------------------------------- the consumer

  // The branches of a flush, one at a time.
  lemma FlushByCases(s: State, fault: Fault, handling: Handling)
    ensures fault == CrashBeforeDb ==> Flush(s, fault, handling) == Restart(s)
    ensures fault != CrashBeforeDb && (fault == DbFault || !AllInsertable(s.batch)) ==>
      Flush(s, fault, handling) == RolledBack(s, handling)
    ensures fault != CrashBeforeDb && fault != DbFault && AllInsertable(s.batch) ==>
      Flush(s, fault, handling) == AfterCommit(s.(table := WriteBatch(s.batch, s.table)), fault, handling)
  {
    hide Restart, RolledBack, AfterCommit, AllInsertable, WriteBatch;
  }

  class Writer {
    // The broker's side.
    var logs: Feeds<seq<Record>>
    var position: Feeds<nat>
    var committed: Feeds<nat>
    var dlq: seq<DeadLetter>
    // The database.
    var table: Table
    // The consumer's own memory.
    var batch: seq<Message>
    // History.
    ghost var flushed: Feeds<nat>
    ghost var skipped: set<(Topic, nat)>
    ghost var unsent: set<(Topic, nat)>
    ghost var dbFaults: nat

    ghost function Current(): State
      reads this
    {
      State(logs, position, committed, batch, table, dlq, flushed, skipped, unsent, dbFaults)
    }

    constructor ()
      ensures Current() == INITIAL
    {
      logs, position, committed, batch, table, dlq := Feeds([], [], []), ORIGIN, ORIGIN, [], map[], [];
      flushed, skipped, unsent, dbFaults := ORIGIN, {}, {}, 0;
    }

    /** One message of the consumer loop. */
    method OnMessage(t: Topic, timedOut: bool, fault: Fault, handling: Handling)
      requires Enabled(Current(), Receive(t, timedOut, fault, handling))
      modifies this
      ensures Current() == Apply(old(Current()), Receive(t, timedOut, fault, handling))
      ensures timedOut || |old(batch)| + 1 >= 1000 ==> batch == []
      ensures !timedOut && |old(batch)| + 1 < 1000 ==>
        && table == old(table) && committed == old(committed)
        && batch == old(batch) + [Message(t, old(position.At(t)), logs.At(t)[old(position.At(t))])]
    {
      hide Flush;
      var q := position.At(t);
      batch := batch + [Message(t, q, logs.At(t)[q])];
      position := position.With(t, q + 1);
      assert Current() == Deliver(old(Current()), t);
      if |batch| >= BATCH_SIZE || timedOut {
        ProcessBatch(fault, handling);
      }
    }

    method ProcessBatch(fault: Fault, handling: Handling)
      modifies this
      ensures old(batch) != [] ==> Current() == Flush(old(Current()), fault, handling)
      ensures old(batch) == [] ==> Current() == old(Current())
      ensures if fault == DbFault || fault == CrashBeforeDb || !BatchAcceptable(old(batch)) then table == old(table)
              else WrittenFrom(old(batch), old(table), table)
      ensures batch == []
    {
      if batch == [] {
        NothingWritten(table);
        return;
      }
      FlushByRecord(Current(), fault, handling);
      hide BatchAcceptable, WrittenFrom;
      FlushEmptiesBatch(Current(), fault, handling);
      if fault == CrashBeforeDb {
        RestartProcess();
        return;
      }
      hide WriteBatch, AllInsertable, RolledBack, AfterCommit, Flush;
      var session, _ := WriteRecords(batch, table);
      if fault == DbFault || session.None? {
        RollBack(handling);
      } else {
        table := session.value;
        CommitOffsets(fault, handling);
      }
      FlushByCases(old(Current()), fault, handling);
    }

    // The database raised: nothing of the batch is stored.
    method RollBack(handling: Handling)
      modifies this
      ensures Current() == RolledBack(old(Current()), handling)
    {
      hide WriteBatch, AllInsertable, Letters, FailedOffsets, Offsets;
      skipped, dbFaults := skipped + Offsets(batch), dbFaults + 1;
      HandleFailure(handling);
    }

    // The transaction is in; what is left can still fail or be cut short.
    method CommitOffsets(fault: Fault, handling: Handling)
      modifies this
      ensures Current() == AfterCommit(old(Current()), fault, handling)
    {
      hide WriteBatch, AllInsertable, Letters, FailedOffsets, Offsets;
      flushed := Feeds(MaxOf(flushed.eod, position.eod), MaxOf(flushed.fundamentals, position.fundamentals),
                       MaxOf(flushed.intraday, position.intraday));
      if fault == CrashAfterDb {
        RestartProcess();
      } else if fault == OffsetFault {
        HandleFailure(handling);
      } else {
        committed := position;
        batch := [];
      }
    }

    method RestartProcess()
      modifies this
      ensures Current() == Restart(old(Current()))
    {
      batch, position := [], committed;
      skipped := set x | x in skipped && x.1 < committed.At(x.0);
    }

    // The handler sends every record of the batch to the dead-letter topic.
    method HandleFailure(handling: Handling)
      modifies this
      ensures Current() == SendBatchToDlq(old(Current()), handling)
      ensures LettersAdded(old(batch), handling, old(dlq), dlq)
    {
      ghost var before := dlq;
      AddedLetters(batch, handling, dlq);
      hide LettersAdded;
      for i := 0 to |batch|
        invariant Current() == old(Current()).(dlq := before + Letters(old(batch), i, handling))
      {
        if i !in handling.failedSends {
          dlq := dlq + [Wrapper(batch[i].record, handling.reason)];
        }
      }
      unsent := unsent + FailedOffsets(batch, handling);
      batch := [];
    }
  }

  // The transaction: the three writers in turn; None when one raises.
  method WriteRecords(batch: seq<Message>, table: Table) returns (session: Option<Table>, written: nat)
    ensures session == if AllInsertable(batch) then Some(WriteBatch(batch, table)) else None
    ensures session.Some? <==> BatchAcceptable(batch)
    ensures session.Some? ==> WrittenFrom(batch, table, session.value)
    ensures session.Some? ==> |table| + written == |session.value|
  {
    InsertableByTopic(batch);
    InsertableByRecord(batch);
    WriteBatchByRecord(batch, table);
    hide InsertAll, Select, AllInsertable, BatchAcceptable, WrittenFrom, InsertedFrom, AllAcceptable;
    var eod, n := WriteBars(EodOhlcv, Select(batch, EodOhlcv), table);
    if eod.None? { return None, 0; }
    var fundamentals, m := WriteFundamentals(Select(batch, Fundamentals), eod.value);
    if fundamentals.None? { return None, 0; }
    var intraday, k := WriteBars(IntradayBars, Select(batch, IntradayBars), fundamentals.value);
    if intraday.None? { return None, 0; }
    return intraday, n + m + k;
  }

  ghost predicate AllHaveEntries(t: Topic, records: seq<Record>) {
    forall i :: 0 <= i < |records| ==> EntryOf(t, records[i]).Some?
  }

  lemma EntriesByRecord(t: Topic, records: seq<Record>)
    ensures AllHaveEntries(t, records) <==> AllAcceptable(t, records)
  {
    forall i | 0 <= i < |records| ensures EntryOf(t, records[i]).Some? <==> Acceptable(t, records[i]) {
      EntryIsTheRecord(t, records[i]);
    }
    hide EntryOf, Acceptable;
  }

  lemma NotInsertable(batch: seq<Message>, i: nat)
    requires i < |batch| && EntryOf(batch[i].topic, batch[i].record).None?
    ensures !AllHaveEntries(batch[i].topic, Select(batch, batch[i].topic))
  {
    hide EntryOf, Select;
    SelectedIn(batch, i);
    var share := Select(batch, batch[i].topic);
    var j :| 0 <= j < |share| && share[j] == batch[i].record;
    assert EntryOf(batch[i].topic, share[j]).None?;
  }

  lemma InsertableByTopic(batch: seq<Message>)
    ensures AllInsertable(batch) <==>
      && AllHaveEntries(EodOhlcv, Select(batch, EodOhlcv))
      && AllHaveEntries(Fundamentals, Select(batch, Fundamentals))
      && AllHaveEntries(IntradayBars, Select(batch, IntradayBars))
  {
    hide EntryOf, Select;
    if AllInsertable(batch) {
      SelectInsertable(batch, EodOhlcv);
      SelectInsertable(batch, Fundamentals);
      SelectInsertable(batch, IntradayBars);
    } else {
      var i :| 0 <= i < |batch| && EntryOf(batch[i].topic, batch[i].record).None?;
      NotInsertable(batch, i);
      match batch[i].topic
      case EodOhlcv =>
      case Fundamentals =>
      case IntradayBars =>
    }
  }

  lemma {:induction false} SelectInsertable(batch: seq<Message>, t: Topic)
    requires AllInsertable(batch)
    ensures AllHaveEntries(t, Select(batch, t))
  {
    hide EntryOf;
    if batch != [] { SelectInsertable(batch[..|batch| - 1], t); }
  }

  // Both bar writers collect the values first, then execute one statement.
  method WriteBars(t: Topic, records: seq<Record>, session: Table) returns (result: Option<Table>, written: nat)
    ensures result == if AllHaveEntries(t, records) then Some(InsertAll(t, records, session)) else None
    ensures result.Some? <==> AllAcceptable(t, records)
    ensures result.Some? ==> InsertedFrom(t, records, session, result.value)
    ensures result.Some? ==> |session| + written == |result.value|
  {
    EntriesByRecord(t, records);
    InsertAllByRecord(t, records, session);
    hide EntryOf, InsertedFrom, AllAcceptable;
    var values: seq<Entry> := [];
    for i := 0 to |records|
      invariant |values| == i
      invariant forall j :: 0 <= j < i ==> EntryOf(t, records[j]) == Some(values[j])
    {
      var e := EntryOf(t, records[i]);
      if e.None? { return None, 0; }
      values := values + [e.value];
    }
    var rows, n := ExecuteInsert(t, records, values, session);
    return Some(rows), n;
  }

  method ExecuteInsert(t: Topic, ghost records: seq<Record>, values: seq<Entry>, session: Table)
    returns (rows: Table, rowcount: nat)
    requires |values| == |records| && forall j :: 0 <= j < |values| ==> EntryOf(t, records[j]) == Some(values[j])
    ensures rows == InsertAll(t, records, session) && |session| + rowcount == |rows|
  {
    hide EntryOf;
    rows, rowcount := session, 0;
    assert records[..0] == [];
    for i := 0 to |values|
      invariant rows == InsertAll(t, records[..i], session)
      invariant |session| + rowcount == |rows|
    {
      assert records[..i + 1][..i] == records[..i];
      if values[i].key !in rows { rowcount := rowcount + 1; }
      rows := InsertIfAbsent(rows, values[i]);
    }
    assert records[..|records|] == records;
  }

  lemma InsertCounts(table: Table, e: Entry)
    ensures |InsertIfAbsent(table, e)| == |table| + if e.key in table then 0 else 1
  {
  }

  // The statements writer executes one insert per record.
  method WriteFundamentals(records: seq<Record>, session: Table) returns (result: Option<Table>, written: nat)
    ensures result
         == if AllHaveEntries(Fundamentals, records) then Some(InsertAll(Fundamentals, records, session)) else None
    ensures result.Some? <==> AllAcceptable(Fundamentals, records)
    ensures result.Some? ==> InsertedFrom(Fundamentals, records, session, result.value)
    ensures result.Some? ==> |session| + written == |result.value|
  {
    EntriesByRecord(Fundamentals, records);
    InsertAllByRecord(Fundamentals, records, session);
    hide EntryOf, InsertedFrom, AllAcceptable, Acceptable, InsertIfAbsent;
    var rows := session;
    written := 0;
    assert records[..0] == [];
    for i := 0 to |records|
      invariant AllHaveEntries(Fundamentals, records[..i])
      invariant rows == InsertAll(Fundamentals, records[..i], session)
      invariant |session| + written == |rows|
    {
      assert records[..i + 1][..i] == records[..i];
      var e := EntryOf(Fundamentals, records[i]);
      if e.None? { return None, 0; }
      InsertCounts(rows, e.value);
      if e.value.key !in rows { written := written + 1; }
      rows := InsertIfAbsent(rows, e.value);
    }
    assert records[..|records|] == records;
    return Some(rows), written;
  }
}
