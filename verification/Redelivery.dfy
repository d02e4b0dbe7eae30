/** When a record whose batch was rolled back is read again.

    The writer commits no offset after a failure so that the records are redelivered. They are, on a restart, unless a
    later batch has been committed in the meantime. */
module Redelivery {
  import opened Wrappers
  import opened Messages
  import opened TimescaleWriter

  predicate RollsBack(s: State, e: Event) {
    Flushing(s, e) && !e.fault.CrashBeforeDb? && (e.fault.DbFault? || !AllInsertable(Flushed(s, e)))
  }

  predicate Restarts(s: State, e: Event) {
    e.Crash?
    || (Flushing(s, e) && (e.fault.CrashBeforeDb? || (e.fault.CrashAfterDb? && AllInsertable(Flushed(s, e)))))
  }

  // Some event of `mid`, run after `before`, commits offsets.
  predicate CommitsIn(before: seq<Event>, mid: seq<Event>) {
    mid != []
    && (|| CommitsIn(before, mid[..|mid| - 1])
        || (Run(before + mid[..|mid| - 1]).Some? && Commits(Run(before + mid[..|mid| - 1]).value, mid[|mid| - 1])))
  }

  predicate RestartsIn(before: seq<Event>, mid: seq<Event>) {
    mid != []
    && (|| RestartsIn(before, mid[..|mid| - 1])
        || (Run(before + mid[..|mid| - 1]).Some? && Restarts(Run(before + mid[..|mid| - 1]).value, mid[|mid| - 1])))
  }

  // Some continuation arrives at the offset: the next message read from the topic is the record at it.
  ghost predicate ReadsAgain(events: seq<Event>, t: Topic, o: nat) {
    exists more :: Arrives(events, more, t, o)
  }

  ghost predicate Arrives(events: seq<Event>, more: seq<Event>, t: Topic, o: nat) {
    && Run(events + more).Some?
    && Run(events + more).value.position.At(t) == o < |Run(events + more).value.logs.At(t)|
  }

  // Some event of `more`, run after `events`, delivers the record at the offset.
  predicate DeliversIn(events: seq<Event>, more: seq<Event>, t: Topic, o: nat) {
    more != []
    && (|| DeliversIn(events, more[..|more| - 1], t, o)
        || (Run(events + more[..|more| - 1]).Some?
            && Delivers(Run(events + more[..|more| - 1]).value, more[|more| - 1], t, o)))
  }

  predicate Delivers(s: State, e: Event, t: Topic, o: nat) { e.Receive? && e.topic == t && s.position.At(t) == o }

  /** No continuation gets past the offset without delivering it, unless the process restarts again. */
  ghost predicate MustRead(events: seq<Event>, t: Topic, o: nat) {
    forall more :: Passes(events, more, t, o) ==> DeliversIn(events, more, t, o)
  }

  ghost predicate Passes(events: seq<Event>, more: seq<Event>, t: Topic, o: nat) {
    Run(events + more).Some? && !RestartsIn(events, more) && Run(events + more).value.position.At(t) > o
  }

  // ---------------------------------------------------------------- offsets over one step

  lemma OffsetsAfter(s: State, e: Event)
    requires Enabled(s, e)
    ensures var s' := Apply(s, e);
            && (Commits(s, e) ==> s'.committed == s'.position)
            && (!Commits(s, e) ==> s'.committed == s.committed)
            && (Restarts(s, e) ==> s'.position == s'.committed == s.committed)
            && (!Restarts(s, e) ==>
                  s'.position
                  == if e.Receive? then s.position.With(e.topic, s.position.At(e.topic) + 1) else s.position)
  {
    hide AllInsertable, WriteBatch, Letters, Offsets, FailedOffsets, MaxOf;
  }

  lemma RolledBackOffsets(s: State, e: Event, t: Topic, o: nat)
    requires Inv(s) && RollsBack(s, e) && (t, o) in Offsets(Flushed(s, e))
    ensures var s' := Apply(s, e); s'.committed.At(t) == s.committed.At(t) <= o < s'.position.At(t)
  {
    OffsetsAfter(s, e);
    DeliverKeepsInv(s, e.topic);
    var d := Deliver(s, e.topic);
    assert BatchInOrder(d, t) && d.committed == s.committed;
    hide Inv, AllInsertable, Select, Apply;
    var i :| 0 <= i < |d.batch| && (d.batch[i].topic, d.batch[i].offset) == (t, o);
    assert d.batch[i].topic == t;
  }

  lemma InvStepBounds(s: State, t: Topic)
    requires Inv(s)
    ensures s.committed.At(t) <= s.position.At(t) <= |s.logs.At(t)|
  {
    assert BatchInOrder(s, t);
  }

  // ---------------------------------------------------------------- between the rollback and the restart

  lemma RunPrefix(before: seq<Event>, mid: seq<Event>)
    requires mid != [] && Run(before + mid).Some?
    ensures var init, e := mid[..|mid| - 1], mid[|mid| - 1];
            && Run(before + init).Some? && Enabled(Run(before + init).value, e)
            && Run(before + mid) == Some(Apply(Run(before + init).value, e))
  {
    assert (before + mid)[..|before + mid| - 1] == before + mid[..|mid| - 1];
  }

  lemma {:induction false} Meanwhile(before: seq<Event>, mid: seq<Event>, t: Topic, o: nat)
    requires Run(before).Some? && Run(before + mid).Some? && !RestartsIn(before, mid)
    requires Run(before).value.position.At(t) > o
    ensures Run(before + mid).value.position.At(t) > o
    ensures CommitsIn(before, mid) ==> Run(before + mid).value.committed.At(t) > o
    ensures !CommitsIn(before, mid) ==> Run(before + mid).value.committed == Run(before).value.committed
  {
    hide Run, Commits, Restarts, Apply, Enabled;
    if mid == [] {
      assert before + mid == before;
    } else {
      var init, e := mid[..|mid| - 1], mid[|mid| - 1];
      RunPrefix(before, mid);
      Meanwhile(before, init, t, o);
      OffsetsAfter(Run(before + init).value, e);
    }
  }

  // ---------------------------------------------------------------- after the restart

  lemma {:induction false} CommittedStays(events: seq<Event>, more: seq<Event>, t: Topic)
    requires Run(events).Some? && Run(events + more).Some?
    ensures Run(events).value.committed.At(t) <= Run(events + more).value.committed.At(t)
  {
    hide Run, Apply, Enabled, Commits, Restarts;
    if more == [] {
      assert events + more == events;
    } else {
      var init, e := more[..|more| - 1], more[|more| - 1];
      RunPrefix(events, more);
      CommittedStays(events, init, t);
      var s := Run(events + init).value;
      InvAlways(events + init, s);
      InvAlways(events + more, Run(events + more).value);
      InvStepBounds(s, t);
      OffsetsAfter(s, e);
      if Commits(s, e) { CommitGrows(s, e, t); }
    }
  }

  lemma CommitGrows(s: State, e: Event, t: Topic)
    requires Inv(s) && Enabled(s, e) && Commits(s, e)
    ensures s.committed.At(t) <= Apply(s, e).committed.At(t)
  {
    OffsetsAfter(s, e);
    InvStepBounds(s, t);
    hide Inv, Apply;
  }

  // Reading on from a position arrives at every later offset of the log.
  lemma {:induction false} CatchUp(events: seq<Event>, t: Topic, o: nat) returns (more: seq<Event>)
    requires Run(events).Some? && Run(events).value.position.At(t) <= o < |Run(events).value.logs.At(t)|
    ensures Arrives(events, more, t, o)
    decreases o - Run(events).value.position.At(t)
  {
    var s := Run(events).value;
    if s.position.At(t) == o {
      more := [];
      assert events + more == events;
    } else {
      var e := Receive(t, false, NoFault, NO_TROUBLE);
      RunOneMore(events, e, s);
      OffsetsAfter(s, e);
      LogsKept(s, e, t);
      hide Run, Apply, Restarts, Commits;
      NoRestart(s, t);
      var rest := CatchUp(events + [e], t, o);
      more := [e] + rest;
      assert events + more == events + [e] + rest;
    }
  }

  lemma NoRestart(s: State, t: Topic)
    ensures !Restarts(s, Receive(t, false, NoFault, NO_TROUBLE))
  {
  }

  lemma LogsKept(s: State, e: Event, t: Topic)
    requires Enabled(s, e) && e.Receive?
    ensures Apply(s, e).logs == s.logs
  {
    hide AllInsertable, WriteBatch, Letters, Offsets, FailedOffsets, MaxOf;
  }

  lemma RestartKeepsLogs(s: State, e: Event)
    requires Enabled(s, e) && Restarts(s, e)
    ensures Apply(s, e).logs == s.logs
  {
    if e.Receive? { LogsKept(s, e, e.topic); }
  }

  // The position moves one offset at a time.
  lemma {:induction false} PassingDelivers(events: seq<Event>, more: seq<Event>, t: Topic, o: nat)
    requires Run(events).Some? && Run(events).value.position.At(t) <= o && Passes(events, more, t, o)
    ensures DeliversIn(events, more, t, o)
  {
    hide Run, Apply, Enabled, Commits, Restarts;
    assert more == [] ==> events + more == events;
    if more != [] {
      var init, e := more[..|more| - 1], more[|more| - 1];
      RunPrefix(events, more);
      var s := Run(events + init).value;
      OffsetsAfter(s, e);
      if s.position.At(t) > o { PassingDelivers(events, init, t, o); }
    }
  }

  lemma MustReadIff(events: seq<Event>, t: Topic, o: nat)
    requires Run(events).Some?
    ensures MustRead(events, t, o) <==> Run(events).value.position.At(t) <= o
  {
    hide Run, DeliversIn;
    if Run(events).value.position.At(t) <= o {
      forall more | Passes(events, more, t, o) ensures DeliversIn(events, more, t, o) {
        PassingDelivers(events, more, t, o);
      }
    } else {
      assert events + [] == events;
      NothingHappensIn(events, t, o);
      assert Passes(events, [], t, o);
    }
  }

  lemma NothingHappensIn(events: seq<Event>, t: Topic, o: nat)
    ensures !RestartsIn(events, []) && !DeliversIn(events, [], t, o)
  {
  }

  /** A record of a rolled-back batch can be read again after the next restart, and is read by every run that gets past
      it without one more restart, if and only if no flush between its rollback and that restart has committed, on any
      topic. */
  lemma RedeliveredIff(before: seq<Event>, e: Event, mid: seq<Event>, restart: Event, t: Topic, o: nat)
    requires Run(before).Some? && RollsBack(Run(before).value, e) && (t, o) in Offsets(Flushed(Run(before).value, e))
    requires Run(before + [e] + mid).Some? && !RestartsIn(before + [e], mid)
    requires Run(before + [e] + mid + [restart]).Some? && Restarts(Run(before + [e] + mid).value, restart)
    ensures ReadsAgain(before + [e] + mid + [restart], t, o) <==> !CommitsIn(before + [e], mid)
    ensures MustRead(before + [e] + mid + [restart], t, o) <==> !CommitsIn(before + [e], mid)
  {
    var rolled, ready := before + [e], before + [e] + mid;
    var all := ready + [restart];
    var s0, s2, s3 := Run(before).value, Run(ready).value, Run(all).value;
    FlushingEnabled(s0, e);
    hide Run, RollsBack, Offsets, Flushed, Restarts, Commits, ReadsAgain, Arrives, MustRead;
    RunOneMore(before, e, s0);
    InvAlways(before, s0);
    RolledBackOffsets(s0, e, t, o);
    Meanwhile(rolled, mid, t, o);
    RunPrefix(ready, [restart]);
    assert [restart][..0] == [] && ready + [] == ready;
    OffsetsAfter(s2, restart);
    RestartKeepsLogs(s2, restart);
    InvAlways(ready, s2);
    InvStepBounds(s2, t);
    hide Inv, Apply, Enabled;
    MustReadIff(all, t, o);
    if CommitsIn(rolled, mid) {
      NeverAgain(all, t, o);
    } else {
      var more := CatchUp(all, t, o);
      AgainBy(all, more, t, o);
    }
  }

  lemma FlushingEnabled(s: State, e: Event)
    requires RollsBack(s, e)
    ensures Enabled(s, e)
  {
  }

  lemma NeverAgain(events: seq<Event>, t: Topic, o: nat)
    requires Run(events).Some? && Run(events).value.committed.At(t) > o
    ensures !ReadsAgain(events, t, o)
  {
    hide Run;
    if ReadsAgain(events, t, o) {
      var more :| Arrives(events, more, t, o);
      CommittedStays(events, more, t);
      InvAlways(events + more, Run(events + more).value);
      InvStepBounds(Run(events + more).value, t);
    }
  }

  lemma AgainBy(events: seq<Event>, more: seq<Event>, t: Topic, o: nat)
    requires Arrives(events, more, t, o)
    ensures ReadsAgain(events, t, o)
  {
    hide Arrives;
  }
}
