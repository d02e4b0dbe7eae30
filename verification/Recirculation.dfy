/** When the closed loop of writer and dead-letter processor ends, and when the retry limit is worth nothing.

    The writer wraps a failed record without its retry counter, so a record that validates comes back with a fresh
    counter. Whether runs are bounded is decided by the records on their way, before the run. */
module Recirculation {
  import opened Wrappers
  import opened Messages
  import W = TimescaleWriter
  import D = DlqProcessor
  import opened Pipeline

  // The record would pass re-validation if it were dead-lettered, for whatever reason.
  predicate Returns(x: Record, setup: D.Setup) { D.Revalidates(W.Wrapper(x, ""), setup) }

  // The letter's next consumption sends it back to the validated topic.
  predicate Resolves(d: DeadLetter, setup: D.Setup) {
    D.Counted(d) && D.RetryCount(d) < D.MAX_RETRIES && D.Revalidates(d, setup)
  }

  ghost predicate SomeLetterResolves(letters: seq<DeadLetter>, setup: D.Setup) {
    exists i :: 0 <= i < |letters| && Resolves(letters[i], setup)
  }

  ghost predicate SomeReturns(records: seq<Record>, setup: D.Setup) {
    exists i :: 0 <= i < |records| && Returns(records[i], setup)
  }

  /** A record that validates can still be sent round: by its letter, or because a message is left to read, which lets
      a flush of the batch fail. */
  ghost predicate CanRecirculate(s: State, setup: D.Setup) {
    && setup.hasProducer
    && (|| SomeLetterResolves(s.pending, setup)
        || (Unread(s.writer) != [] && SomeReturns(Unread(s.writer) + Payloads(s.writer.batch), setup)))
  }

  // ---------------------------------------------------------------- a record that validates goes on

  lemma ReturnsAgain(x: Record, count: int, setup: D.Setup)
    ensures Returns(D.WithCount(x, count), setup) == Returns(x, setup)
  {
    D.ParseIgnoresCount(x, count);
  }

  // A letter that resolves leaves a record to read that validates.
  lemma ResolvedGoesOn(s: State, i: nat, setup: D.Setup)
    requires Sound(s) && setup.hasProducer && i < |s.pending| && Resolves(s.pending[i], setup)
    ensures var s' := Apply(s, Retry(i), setup);
            CanRecirculate(s', setup) && s'.buried == s.buried && s'.writer.table == s.writer.table
  {
    hide *;
    CountedAt(s, i);
    var d, s' := s.pending[i], Consume(s, i, setup);
    var record := D.WithCount(D.Original(d), D.RetryCount(d) + 1);
    ResolvedStep(s, i, setup);
    SoundInBounds(s);
    UnreadAppended(s.writer, record);
    LetterReturns(d, D.RetryCount(d) + 1, setup);
    var on := Unread(s'.writer) + Payloads(s'.writer.batch);
    var k :| 0 <= k < |Unread(s'.writer)| && Unread(s'.writer)[k] == record;
    assert on[k] == record;
    GoesOn(s', k, setup);
  }

  lemma ResolvedStep(s: State, i: nat, setup: D.Setup)
    requires setup.hasProducer && i < |s.pending| && Resolves(s.pending[i], setup)
    ensures var d, s' := s.pending[i], Consume(s, i, setup);
            && Apply(s, Retry(i), setup) == s' && s'.buried == s.buried && s'.writer.table == s.writer.table
            && D.Counted(d)
            && s'.writer == Append(s.writer, EodOhlcv, [D.WithCount(D.Original(d), D.RetryCount(d) + 1)])
  {
    hide D.Revalidates, D.WithCount, D.Original, Dropped;
    var record := D.WithCount(D.Original(s.pending[i]), D.RetryCount(s.pending[i]) + 1);
    assert [] + [record] == [record];
  }

  lemma UnreadAppended(w: W.State, record: Record)
    requires InBounds(w)
    ensures var unread := Unread(Append(w, EodOhlcv, [record]));
            exists k :: 0 <= k < |unread| && unread[k] == record
  {
    AppendedUnread(w, EodOhlcv, [record], EodOhlcv);
    var own := UnreadOf(Append(w, EodOhlcv, [record]), EodOhlcv);
    assert own[|own| - 1] == record;
    assert Unread(Append(w, EodOhlcv, [record]))[|own| - 1] == record;
  }

  lemma LetterReturns(d: DeadLetter, count: int, setup: D.Setup)
    requires Resolves(d, setup)
    ensures Returns(D.WithCount(D.Original(d), count), setup)
  {
    ReturnsAgain(D.Original(d), count, setup);
  }

  lemma GoesOn(s: State, k: nat, setup: D.Setup)
    requires setup.hasProducer && Unread(s.writer) != []
    requires k < |Unread(s.writer) + Payloads(s.writer.batch)|
    requires Returns((Unread(s.writer) + Payloads(s.writer.batch))[k], setup)
    ensures CanRecirculate(s, setup)
  {
    hide Unread, Payloads, Returns;
  }

  // A failed transaction of everything buffered, with every dead letter sent.
  function FailAll(t: Topic): Event { Write(t, true, W.DbFault, W.NO_TROUBLE) }

  lemma {:induction false} AllWrapped(batch: seq<W.Message>, n: nat)
    requires n <= |batch|
    ensures |W.Letters(batch, n, W.NO_TROUBLE)| == n
    ensures forall i :: 0 <= i < n ==> W.Letters(batch, n, W.NO_TROUBLE)[i] == W.Wrapper(batch[i].record, "")
  {
    hide W.Wrapper;
    if n > 0 { AllWrapped(batch, n - 1); }
  }

  lemma FailedStep(s: State, t: Topic, setup: D.Setup)
    requires s.writer.position.At(t) < |s.writer.logs.At(t)|
    ensures Enabled(s, FailAll(t))
    ensures var w, s' := W.Deliver(s.writer, t), Apply(s, FailAll(t), setup);
            && s'.pending == s.pending + W.Letters(w.batch, |w.batch|, W.NO_TROUBLE)
            && s'.writer.logs == w.logs && s'.writer.position == w.position && s'.writer.batch == []
            && s'.buried == s.buried && s'.writer.table == s.writer.table
  {
    hide W.Letters, W.Offsets, W.FailedOffsets, W.AllInsertable, Unsent, Payloads, Reread;
    var w := W.Deliver(s.writer, t);
    var w' := W.Apply(s.writer, W.Receive(t, true, W.DbFault, W.NO_TROUBLE));
    assert w'.dlq == s.writer.dlq + W.Letters(w.batch, |w.batch|, W.NO_TROUBLE);
    assert NewLetters(s.writer, w') == W.Letters(w.batch, |w.batch|, W.NO_TROUBLE);
  }

  lemma WrapperResolvesIff(x: Record, reason: string, setup: D.Setup)
    ensures Resolves(W.Wrapper(x, reason), setup) == Returns(x, setup)
  {
    WrapperCounted(x, reason);
  }

  // Reading one message: what was on its way is now unread, or in the batch.
  lemma DeliveredOn(s: State, t: Topic, k: nat)
    requires Sound(s) && s.writer.position.At(t) < |s.writer.logs.At(t)|
    requires k < |Unread(s.writer) + Payloads(s.writer.batch)|
    ensures var x, w := (Unread(s.writer) + Payloads(s.writer.batch))[k], W.Deliver(s.writer, t);
            x in Unread(w) || exists i :: 0 <= i < |w.batch| && w.batch[i].record == x
  {
    var w := W.Deliver(s.writer, t);
    var x := (Unread(s.writer) + Payloads(s.writer.batch))[k];
    SoundInBounds(s);
    hide W.Inv;
    if k < |Unread(s.writer)| {
      assert x in Unread(s.writer);
      var u: Topic :| x in UnreadOf(s.writer, u);
      DeliveredUnread(s.writer, t, u);
      if x in UnreadOf(w, u) {
        assert x in Unread(w);
      } else {
        assert w.batch[|s.writer.batch|].record == x;
      }
    } else {
      var i := k - |Unread(s.writer)|;
      assert w.batch[i] == s.writer.batch[i];
    }
  }

  // A failing flush turns the batch into letters that resolve, or leaves the record to read.
  lemma FailureGoesOn(s: State, t: Topic, setup: D.Setup)
    requires Sound(s) && setup.hasProducer && s.writer.position.At(t) < |s.writer.logs.At(t)|
    requires SomeReturns(Unread(s.writer) + Payloads(s.writer.batch), setup)
    ensures Enabled(s, FailAll(t)) && CanRecirculate(Apply(s, FailAll(t), setup), setup)
  {
    hide *;
    FailedStep(s, t, setup);
    var on, w, s' := Unread(s.writer) + Payloads(s.writer.batch), W.Deliver(s.writer, t), Apply(s, FailAll(t), setup);
    var k := ReturningAt(on, setup);
    DeliveredOn(s, t, k);
    SameUnread(w, s'.writer);
    if on[k] in Unread(w) {
      var i :| 0 <= i < |Unread(w)| && Unread(w)[i] == on[k];
      assert (Unread(s'.writer) + Payloads(s'.writer.batch))[i] == on[k];
      GoesOn(s', i, setup);
    } else {
      var i :| 0 <= i < |w.batch| && w.batch[i].record == on[k];
      AllWrapped(w.batch, |w.batch|);
      WrapperResolvesIff(on[k], "", setup);
      assert s'.pending[|s.pending| + i] == W.Wrapper(on[k], "");
      LetterGoesOn(s', |s.pending| + i, setup);
    }
  }

  lemma ReturningAt(records: seq<Record>, setup: D.Setup) returns (k: nat)
    requires SomeReturns(records, setup)
    ensures k < |records| && Returns(records[k], setup)
  {
    k :| 0 <= k < |records| && Returns(records[k], setup);
  }

  lemma LetterGoesOn(s: State, i: nat, setup: D.Setup)
    requires setup.hasProducer && i < |s.pending| && Resolves(s.pending[i], setup)
    ensures CanRecirculate(s, setup)
  {
    hide Resolves;
  }

  /** From a state that can recirculate there is a step of the loop to another one, which buries and writes nothing. */
  lemma StepGoesOn(s: State, setup: D.Setup) returns (e: Event)
    requires Sound(s) && CanRecirculate(s, setup)
    ensures IsInternal(e) && Enabled(s, e) && CanRecirculate(Apply(s, e, setup), setup)
    ensures var s' := Apply(s, e, setup); s'.buried == s.buried && s'.writer.table == s.writer.table
  {
    if i :| 0 <= i < |s.pending| && Resolves(s.pending[i], setup) {
      e := Retry(i);
      ResolvedGoesOn(s, i, setup);
    } else {
      hide Apply, W.Inv, SomeReturns, Payloads;
      var t := SomethingToRead(s.writer);
      e := FailAll(t);
      FailureGoesOn(s, t, setup);
      FailedStep(s, t, setup);
    }
  }

  lemma SomethingToRead(w: W.State) returns (t: Topic)
    requires Unread(w) != []
    ensures w.position.At(t) < |w.logs.At(t)|
  {
    t := if UnreadOf(w, EodOhlcv) != [] then EodOhlcv
         else if UnreadOf(w, Fundamentals) != [] then Fundamentals else IntradayBars;
  }

  lemma RunOneMore(s: State, events: seq<Event>, e: Event, setup: D.Setup)
    requires Run(s, events, setup).Some? && Enabled(Run(s, events, setup).value, e)
    ensures Run(s, events + [e], setup) == Some(Apply(Run(s, events, setup).value, e, setup))
    ensures Closed(events) && IsInternal(e) ==> Closed(events + [e])
  {
    assert (events + [e])[..|events|] == events;
  }

  /** With a record that validates on its way, the loop has runs of every length that bury nothing: the limit of three
      retries never takes effect. */
  lemma {:induction false} RetriesAreUnlimited(s: State, setup: D.Setup, n: nat) returns (events: seq<Event>)
    requires Sound(s) && CanRecirculate(s, setup)
    ensures |events| == n && Closed(events) && Run(s, events, setup).Some?
    ensures var s' := Run(s, events, setup).value;
            && Sound(s') && CanRecirculate(s', setup)
            && s'.buried == s.buried && s'.writer.table == s.writer.table
  {
    if n == 0 {
      events := [];
    } else {
      hide *;
      var init := RetriesAreUnlimited(s, setup, n - 1);
      var before := Run(s, init, setup).value;
      var e := StepGoesOn(before, setup);
      SoundStep(before, e, setup);
      RunOneMore(s, init, e, setup);
      events := init + [e];
    }
  }

  // ---------------------------------------------------------------- otherwise the loop ends

  // Consuming a letter brings no record back.
  lemma QuietRetry(s: State, i: nat, setup: D.Setup)
    requires Sound(s) && i < |s.pending| && !CanRecirculate(s, setup)
    ensures var s' := Apply(s, Retry(i), setup);
            !CanRecirculate(s', setup) && Unread(s'.writer) == Unread(s.writer)
  {
    var s' := Apply(s, Retry(i), setup);
    CountedAt(s, i);
    QuietLetter(s, i, setup);
    SameUnread(s.writer, s'.writer);
    hide Unread, Returns, Apply, W.Inv, Resolves;
    if setup.hasProducer {
      forall k | 0 <= k < |s'.pending| ensures !Resolves(s'.pending[k], setup) {
      }
    }
  }

  lemma QuietLetter(s: State, i: nat, setup: D.Setup)
    requires i < |s.pending| && D.Counted(s.pending[i]) && !(setup.hasProducer && Resolves(s.pending[i], setup))
    ensures var d, s' := s.pending[i], Apply(s, Retry(i), setup);
            && s'.writer == s.writer
            && (|| s'.pending == D.Without(s.pending, i)
                || (s'.pending == D.Without(s.pending, i) + [D.Requeued(d, D.RetryCount(d) + 1)]
                    && !D.Revalidates(d, setup)))
            && (setup.hasProducer && !D.Revalidates(d, setup) ==>
                  !Resolves(D.Requeued(d, D.RetryCount(d) + 1), setup))
  {
    var d := s.pending[i];
    D.RevalidatesIgnoresCount(d, D.RetryCount(d) + 1, setup);
    hide D.Revalidates, D.Requeued;
    assert s.writer.logs.eod + [] == s.writer.logs.eod;
  }

  lemma {:induction false} LettersFromBatch(batch: seq<W.Message>, n: nat, handling: W.Handling, i: nat)
    requires n <= |batch| && i < |W.Letters(batch, n, handling)|
    ensures exists j :: 0 <= j < n && W.Letters(batch, n, handling)[i] == W.Wrapper(batch[j].record, handling.reason)
  {
    hide W.Wrapper;
    if i < |W.Letters(batch, n - 1, handling)| {
      LettersFromBatch(batch, n - 1, handling, i);
    } else {
      assert W.Letters(batch, n, handling)[i] == W.Wrapper(batch[n - 1].record, handling.reason);
    }
  }

  lemma ReceivedShape(s: State, e: Event)
    requires e.Write? && IsInternal(e) && Enabled(s, e)
    ensures var w, s' := W.Deliver(s.writer, e.topic), Receive(s, e);
            && s'.writer.logs == w.logs && s'.writer.position == w.position
            && (s'.writer.batch == [] || s'.writer.batch == w.batch)
            && (s'.pending == s.pending || s'.pending == s.pending + W.Letters(w.batch, |w.batch|, e.handling))
  {
    hide W.AllInsertable, W.WriteBatch, W.Letters, W.Offsets, W.FailedOffsets;
    var w, w' := W.Deliver(s.writer, e.topic), Receive(s, e).writer;
    assert NewLetters(s.writer, w') == [] || NewLetters(s.writer, w') == W.Letters(w.batch, |w.batch|, e.handling);
  }

  // What is on its way after a delivery was so before.
  lemma DeliveredWasOn(s: State, t: Topic, x: Record)
    requires Sound(s) && s.writer.position.At(t) < |s.writer.logs.At(t)|
    requires var w := W.Deliver(s.writer, t);
             x in Unread(w) || exists i :: 0 <= i < |w.batch| && w.batch[i].record == x
    ensures x in Unread(s.writer) + Payloads(s.writer.batch)
  {
    var w := W.Deliver(s.writer, t);
    SoundInBounds(s);
    hide W.Inv;
    if x in Unread(w) {
      var u: Topic :| x in UnreadOf(w, u);
      DeliveredUnread(s.writer, t, u);
      assert x in UnreadOf(s.writer, u);
    } else {
      var i :| 0 <= i < |w.batch| && w.batch[i].record == x;
      if i < |s.writer.batch| {
        assert Payloads(s.writer.batch)[i] == x;
      } else {
        DeliveredUnread(s.writer, t, t);
        assert x in UnreadOf(s.writer, t);
      }
    }
  }

  // A received message was unread; a failed batch turns into letters that do not validate.
  lemma QuietWrite(s: State, e: Event, setup: D.Setup)
    requires Sound(s) && e.Write? && IsInternal(e) && Enabled(s, e) && !CanRecirculate(s, setup)
    ensures !CanRecirculate(Receive(s, e), setup)
    ensures |Unread(Receive(s, e).writer)| == |Unread(s.writer)| - 1
  {
    ReceivedRecords(s, e);
    if setup.hasProducer {
      NoneReturns(s, setup);
      QuietRecords(s, e, setup);
      QuietLetters(s, e, setup);
      hide *;
      NothingRecirculates(Receive(s, e), setup);
    }
  }

  lemma QuietRecords(s: State, e: Event, setup: D.Setup)
    requires Sound(s) && e.Write? && IsInternal(e) && Enabled(s, e)
    requires !SomeReturns(Unread(s.writer) + Payloads(s.writer.batch), setup)
    ensures !SomeReturns(Unread(Receive(s, e).writer) + Payloads(Receive(s, e).writer.batch), setup)
  {
    var w, w' := W.Deliver(s.writer, e.topic), Receive(s, e).writer;
    ReceivedShape(s, e);
    SameUnread(w, w');
    var on := Unread(w') + Payloads(w'.batch);
    hide W.Inv, Unread, Returns, Receive, W.Deliver;
    forall i | 0 <= i < |on| ensures !Returns(on[i], setup) {
      if i >= |Unread(w')| { assert w.batch[i - |Unread(w')|].record == on[i]; }
      DeliveredWasOn(s, e.topic, on[i]);
    }
  }

  lemma QuietLetters(s: State, e: Event, setup: D.Setup)
    requires Sound(s) && e.Write? && IsInternal(e) && Enabled(s, e)
    requires !SomeReturns(Unread(s.writer) + Payloads(s.writer.batch), setup) && !SomeLetterResolves(s.pending, setup)
    ensures !SomeLetterResolves(Receive(s, e).pending, setup)
  {
    var w, s' := W.Deliver(s.writer, e.topic), Receive(s, e);
    ReceivedShape(s, e);
    hide W.Inv, Unread, Payloads, Returns, Resolves, Receive, W.Deliver, W.Letters;
    forall i | 0 <= i < |s'.pending| ensures !Resolves(s'.pending[i], setup) {
      if i >= |s.pending| {
        LettersFromBatch(w.batch, |w.batch|, e.handling, i - |s.pending|);
        var j :| 0 <= j < |w.batch| && s'.pending[i] == W.Wrapper(w.batch[j].record, e.handling.reason);
        DeliveredWasOn(s, e.topic, w.batch[j].record);
        WrapperResolvesIff(w.batch[j].record, e.handling.reason, setup);
      }
    }
  }

  lemma NoneReturns(s: State, setup: D.Setup)
    requires !CanRecirculate(s, setup) && setup.hasProducer
    ensures !SomeLetterResolves(s.pending, setup)
    ensures Unread(s.writer) != [] ==> !SomeReturns(Unread(s.writer) + Payloads(s.writer.batch), setup)
  {
  }

  lemma NothingRecirculates(s: State, setup: D.Setup)
    requires !SomeLetterResolves(s.pending, setup)
    requires !SomeReturns(Unread(s.writer) + Payloads(s.writer.batch), setup)
    ensures !CanRecirculate(s, setup)
  {
  }

  lemma QuietStep(s: State, e: Event, setup: D.Setup)
    requires Sound(s) && IsInternal(e) && Enabled(s, e) && !CanRecirculate(s, setup)
    ensures Sound(Apply(s, e, setup)) && !CanRecirculate(Apply(s, e, setup), setup)
    ensures |Unread(Apply(s, e, setup).writer)| + (if FlushFails(s, e) then 1 else 0) <= |Unread(s.writer)|
  {
    SoundStep(s, e, setup);
    hide Sound, CanRecirculate, Receive, Consume, Unread, Append, Reread, Flushes;
    if e.Retry? { QuietRetry(s, e.index, setup); } else { QuietWrite(s, e, setup); }
  }

  // Each failed flush uses up a message, and none comes back.
  lemma {:induction false} QuietRun(s: State, events: seq<Event>, setup: D.Setup)
    requires Sound(s) && Closed(events) && Run(s, events, setup).Some? && !CanRecirculate(s, setup)
    ensures var s' := Run(s, events, setup).value;
            && Sound(s') && !CanRecirculate(s', setup)
            && |Unread(s'.writer)| + Failures(s, events, setup) <= |Unread(s.writer)|
  {
    hide Apply, Enabled, Sound, CanRecirculate, Unread, FlushFails, IsInternal;
    if events != [] {
      var init, e := events[..|events| - 1], events[|events| - 1];
      assert Closed(init) && IsInternal(e);
      QuietRun(s, init, setup);
      QuietStep(Run(s, init, setup).value, e, setup);
    }
  }

  lemma {:induction false} AllowanceGrows(weight: nat, k: nat, n: nat)
    requires k <= n
    ensures Allowance(weight, k) <= Allowance(weight, n)
  {
    if k < n {
      AllowanceGrows(weight, k, n - 1);
      PowerPositive(n - 1);
      assert Power6(n) == 6 * Power6(n - 1);
      assert weight * (6 * Power6(n - 1)) == 6 * (weight * Power6(n - 1));
    }
  }

  /** If nothing can recirculate, the number of runs' steps has a bound known beforehand, however often the writer
      fails. */
  lemma QuietIsBounded(s: State, events: seq<Event>, setup: D.Setup)
    requires Sound(s) && Closed(events) && Run(s, events, setup).Some? && !CanRecirculate(s, setup)
    ensures |events| <= Allowance(Weight(s, setup), |Unread(s.writer)|)
  {
    hide *;
    QuietRun(s, events, setup);
    WeightOverRun(s, events, setup, 0);
    AllowanceGrows(Weight(s, setup), Failures(s, events, setup), |Unread(s.writer)|);
  }

  // ---------------------------------------------------------------- the exact condition

  ghost predicate Bounded(s: State, setup: D.Setup) {
    exists n: nat :: BoundedBy(s, setup, n)
  }

  ghost predicate BoundedBy(s: State, setup: D.Setup, n: nat) {
    forall events :: Closed(events) && Run(s, events, setup).Some? ==> |events| <= n
  }

  /** The retry limit bounds the loop, whatever fails, exactly when no record on its way can recirculate: no producer
      is connected, or no waiting letter below the limit validates and no record that validates can still be part of a
      failing flush. */
  lemma RetryLimitWorksIff(s: State, setup: D.Setup)
    requires Reachable(s, setup)
    ensures Bounded(s, setup) <==> !CanRecirculate(s, setup)
  {
    hide *;
    ReachableIsSound(s, setup);
    if CanRecirculate(s, setup) {
      NotBounded(s, setup);
    } else {
      forall events | Closed(events) && Run(s, events, setup).Some?
        ensures |events| <= Allowance(Weight(s, setup), |Unread(s.writer)|)
      {
        QuietIsBounded(s, events, setup);
      }
      IsBounded(s, setup, Allowance(Weight(s, setup), |Unread(s.writer)|));
    }
  }

  lemma IsBounded(s: State, setup: D.Setup, n: nat)
    requires forall events :: Closed(events) && Run(s, events, setup).Some? ==> |events| <= n
    ensures Bounded(s, setup)
  {
    hide Run, Closed;
    assert BoundedBy(s, setup, n);
  }

  lemma NotBounded(s: State, setup: D.Setup)
    requires Sound(s) && CanRecirculate(s, setup)
    ensures !Bounded(s, setup)
  {
    hide Run, Closed, CanRecirculate, Sound;
    if Bounded(s, setup) {
      var n: nat :| BoundedBy(s, setup, n);
      var events := RetriesAreUnlimited(s, setup, n + 1);
      assert false;
    }
  }

  // One message is left to read, on any topic, and nothing else is on its way.
  ghost predicate Alone(s: State, x: Record) {
    Unread(s.writer) == [x] && s.writer.batch == [] && s.pending == []
  }

  /** For a single record: the limit works exactly when the record does not validate or no producer is connected. */
  lemma LoneRecord(s: State, x: Record, setup: D.Setup)
    requires Reachable(s, setup) && Alone(s, x)
    ensures Bounded(s, setup) <==> !(setup.hasProducer && Returns(x, setup))
  {
    RetryLimitWorksIff(s, setup);
    hide Reachable, Bounded, D.Revalidates, Unread;
    assert [x] + [] == [x] && [x][0] == x;
    assert Payloads(s.writer.batch) == [];
  }

  /** Such states exist: any record, just produced on any topic. */
  lemma LoneRecordReachable(t: Topic, x: Record, setup: D.Setup) returns (s: State)
    ensures Reachable(s, setup) && Alone(s, x)
  {
    s := Apply(INITIAL, Produce(t, x), setup);
    ProducedAlone(t, x, setup);
    hide *;
    EmptyRun(setup);
    ProduceEnabled(INITIAL, t, x);
    RunOneMore(INITIAL, [], Produce(t, x), setup);
    ReachedBy([] + [Produce(t, x)], s, setup);
  }

  lemma ProducedAlone(t: Topic, x: Record, setup: D.Setup)
    ensures Alone(Apply(INITIAL, Produce(t, x), setup), x)
  {
    assert Apply(INITIAL, Produce(t, x), setup).writer == Append(W.INITIAL, t, [x]) by { hide Append; }
    ProducedUnread(t, x);
    hide Append, Unread;
  }

  lemma ProducedUnread(t: Topic, x: Record)
    ensures Unread(Append(W.INITIAL, t, [x])) == [x]
    ensures Append(W.INITIAL, t, [x]).batch == []
  {
    NothingUnread();
    forall u: Topic ensures UnreadOf(Append(W.INITIAL, t, [x]), u) == if u == t then [x] else [] {
      AppendedUnread(W.INITIAL, t, [x], u);
    }
    hide UnreadOf;
  }

  lemma NothingUnread()
    ensures InBounds(W.INITIAL) && forall u: Topic :: UnreadOf(W.INITIAL, u) == []
  {
    forall u: Topic ensures W.INITIAL.position.At(u) <= |W.INITIAL.logs.At(u)| && UnreadOf(W.INITIAL, u) == [] {
    }
  }

  lemma EmptyRun(setup: D.Setup)
    ensures Run(INITIAL, [], setup) == Some(INITIAL)
  {
  }

  lemma ProduceEnabled(s: State, t: Topic, x: Record)
    ensures Enabled(s, Produce(t, x))
  {
  }

  lemma ReachedBy(events: seq<Event>, s: State, setup: D.Setup)
    requires Run(INITIAL, events, setup) == Some(s)
    ensures Reachable(s, setup)
  {
    hide Run;
  }
}
