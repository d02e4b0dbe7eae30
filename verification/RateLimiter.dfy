/** The request limiter of the market-data adapter as a state machine over all interleavings of its calls.

    A call holds one of MAX_RPS permits through spacing, the request itself and any back-off sleep; a lock
    serialises the spacing. An event is one atomic section between two awaits, or the passing of time. */
module RateLimiter {
  import opened Wrappers

  const MAX_RPS := 5
  const MAX_RETRIES := 3
  const MIN_INTERVAL := 0.2

  datatype Response = Ok | Timeout | TransportError | RateLimited | Unauthorized | Missing | ServerError | OtherStatus

  datatype Outcome = Returned | ApiError | RateLimitError | AuthError | NotFoundError

  datatype Pc =
    | Waiting(attempt: nat)                    // for a permit
    | Queued(attempt: nat)                     // holds a permit, wants the lock
    | Spacing(attempt: nat, wakeAt: real)      // holds the lock too
    | InFlight(attempt: nat)
    | BackingOff(attempt: nat, wakeAt: real)   // still holds its permit
    | Done(outcome: Outcome)

  predicate HoldsPermit(pc: Pc) { pc.Queued? || pc.Spacing? || pc.InFlight? || pc.BackingOff? }

  datatype Slot = Slot(task: nat, time: real)

  datatype State = State(now: real, permits: nat, lock: Option<nat>, lastRequest: real, slots: seq<Slot>,
                         tasks: map<nat, Pc>)

  const INITIAL := State(0.0, MAX_RPS, None, 0.0, [], map[])

  datatype Event =
    | Tick(dt: real)
    | Start(task: nat)
    | Acquire(task: nat)
    | Lock(task: nat)
    | Stamp(task: nat)
    | Respond(task: nat, response: Response)
    | Wake(task: nat)

  predicate Retryable(r: Response) { r.Timeout? || r.TransportError? || r.RateLimited? || r.ServerError? }

  function Verdict(r: Response): Outcome {
    match r
    case Ok => Returned
    case RateLimited => RateLimitError
    case Unauthorized => AuthError
    case Missing => NotFoundError
    case _ => ApiError
  }

  // RETRY_BACKOFF_BASE to the power attempt + 1.
  function Backoff(attempt: nat): real { if attempt == 0 then 2.0 else 2.0 * Backoff(attempt - 1) }

  predicate Enabled(s: State, e: Event) {
    match e
    case Tick(dt) => dt >= 0.0
    case Start(t) => t !in s.tasks
    case Acquire(t) => t in s.tasks && s.tasks[t].Waiting? && s.permits > 0
    case Lock(t) => t in s.tasks && s.tasks[t].Queued? && s.lock.None?
    case Stamp(t) => t in s.tasks && s.tasks[t].Spacing? && s.now >= s.tasks[t].wakeAt
    case Respond(t, _) => t in s.tasks && s.tasks[t].InFlight?
    case Wake(t) => t in s.tasks && s.tasks[t].BackingOff? && s.now >= s.tasks[t].wakeAt
  }

  function Apply(s: State, e: Event): State
    requires Enabled(s, e)
  {
    match e
    case Tick(dt) => s.(now := s.now + dt)
    case Start(t) => s.(tasks := s.tasks[t := Waiting(0)])
    case Acquire(t) => s.(permits := s.permits - 1, tasks := s.tasks[t := Queued(s.tasks[t].attempt)])
    case Lock(t) =>
      var elapsed := s.now - s.lastRequest;
      var wakeAt := if elapsed < MIN_INTERVAL then s.now + (MIN_INTERVAL - elapsed) else s.now;
      s.(lock := Some(t), tasks := s.tasks[t := Spacing(s.tasks[t].attempt, wakeAt)])
    case Stamp(t) =>
      s.(lock := None, lastRequest := s.now, slots := s.slots + [Slot(t, s.now)],
         tasks := s.tasks[t := InFlight(s.tasks[t].attempt)])
    case Respond(t, r) =>
      var a := s.tasks[t].attempt;
      if Retryable(r) && a < MAX_RETRIES - 1 then
        s.(tasks := s.tasks[t := BackingOff(a, s.now + Backoff(a))])
      else
        s.(permits := s.permits + 1, tasks := s.tasks[t := Done(Verdict(r))])
    case Wake(t) =>
      var a := s.tasks[t].attempt + 1;
      s.(permits := s.permits + 1,
         tasks := s.tasks[t := if a < MAX_RETRIES then Waiting(a) else Done(ApiError)])
  }

  // The state after the events; None when one of them is not enabled in its turn.
  function Run(events: seq<Event>): Option<State> {
    if events == [] then Some(INITIAL)
    else
      var before, e := Run(events[..|events| - 1]), events[|events| - 1];
      if before.Some? && Enabled(before.value, e) then Some(Apply(before.value, e)) else None
  }

  // ---------------------------------------------------------------- the invariant

  ghost function Holders(s: State): set<nat> { set t | t in s.tasks && HoldsPermit(s.tasks[t]) }

  // Slots taken by a task that has reached this point.
  function SlotsTaken(pc: Pc): nat {
    match pc
    case Waiting(a) => a
    case Queued(a) => a
    case Spacing(a, _) => a
    case InFlight(a) => a + 1
    case BackingOff(a, _) => a + 1
    case Done(_) => MAX_RETRIES
  }

  function CountSlots(slots: seq<Slot>, task: nat): nat {
    if slots == [] then 0
    else CountSlots(slots[..|slots| - 1], task) + if slots[|slots| - 1].task == task then 1 else 0
  }

  ghost predicate PermitsBalance(s: State) { s.permits + |Holders(s)| == MAX_RPS }

  ghost predicate LockOwned(s: State) {
    forall t :: t in s.tasks && s.tasks[t].Spacing? <==> s.lock == Some(t)
  }

  ghost predicate AttemptsBounded(s: State) {
    && (forall t :: t in s.tasks && !s.tasks[t].Done? ==> s.tasks[t].attempt < MAX_RETRIES)
    && (forall t :: t in s.tasks && s.tasks[t].BackingOff? ==> s.tasks[t].attempt < MAX_RETRIES - 1)
  }

  ghost predicate SlotsSpaced(s: State) {
    && s.lastRequest <= s.now
    && s.lastRequest == (if s.slots == [] then 0.0 else s.slots[|s.slots| - 1].time)
    && (forall i :: 0 <= i < |s.slots| ==> s.slots[i].time <= s.lastRequest)
    && (forall i, j :: 0 <= i < j < |s.slots| ==> s.slots[j].time - s.slots[i].time >= MIN_INTERVAL)
    && (forall t :: t in s.tasks && s.tasks[t].Spacing? ==> s.tasks[t].wakeAt >= s.lastRequest + MIN_INTERVAL)
  }

  ghost predicate SlotsCounted(s: State) {
    && (forall t :: t in s.tasks && !s.tasks[t].Done? ==> CountSlots(s.slots, t) == SlotsTaken(s.tasks[t]))
    && (forall t :: CountSlots(s.slots, t) <= MAX_RETRIES)
    && (forall t :: t !in s.tasks ==> CountSlots(s.slots, t) == 0)
  }

  ghost predicate Inv(s: State) {
    PermitsBalance(s) && LockOwned(s) && AttemptsBounded(s) && SlotsSpaced(s) && SlotsCounted(s)
  }

  lemma PermitsStayBalanced(s: State, e: Event)
    requires Enabled(s, e) && PermitsBalance(s)
    ensures PermitsBalance(Apply(s, e))
  {
    var s' := Apply(s, e);
    if e.Tick? {
      assert Holders(s') == Holders(s);
    } else {
      var t := e.task;
      if t in s.tasks && HoldsPermit(s.tasks[t]) {
        if HoldsPermit(s'.tasks[t]) {
          assert Holders(s') == Holders(s);
        } else {
          assert t in Holders(s) && Holders(s') == Holders(s) - {t};
        }
      } else if HoldsPermit(s'.tasks[t]) {
        assert t !in Holders(s) && Holders(s') == Holders(s) + {t};
      } else {
        assert Holders(s') == Holders(s);
      }
    }
  }

  lemma SlotsStaySpaced(s: State, e: Event)
    requires Enabled(s, e) && SlotsSpaced(s) && LockOwned(s)
    ensures SlotsSpaced(Apply(s, e))
  {
    if e.Stamp? {
      // The stamping task owns the lock, so no other task is spacing.
      assert forall t :: t in s.tasks && s.tasks[t].Spacing? ==> t == e.task;
    }
  }

  lemma SlotsStayCounted(s: State, e: Event)
    requires Enabled(s, e) && SlotsCounted(s) && AttemptsBounded(s)
    ensures SlotsCounted(Apply(s, e))
  {
    var s' := Apply(s, e);
    if e.Stamp? {
      assert s'.slots[..|s.slots|] == s.slots;
      assert forall t :: CountSlots(s'.slots, t) == CountSlots(s.slots, t) + if t == e.task then 1 else 0;
    }
  }

  lemma LockStaysOwned(s: State, e: Event)
    requires Enabled(s, e) && LockOwned(s)
    ensures LockOwned(Apply(s, e))
  {
  }

  lemma AttemptsStayBounded(s: State, e: Event)
    requires Enabled(s, e) && AttemptsBounded(s)
    ensures AttemptsBounded(Apply(s, e))
  {
  }

  lemma InvStep(s: State, e: Event)
    requires Inv(s) && Enabled(s, e)
    ensures Inv(Apply(s, e))
  {
    PermitsStayBalanced(s, e);
    SlotsStaySpaced(s, e);
    SlotsStayCounted(s, e);
    LockStaysOwned(s, e);
    AttemptsStayBounded(s, e);
    hide PermitsBalance, SlotsSpaced, SlotsCounted, LockOwned, AttemptsBounded, Apply;
  }

  lemma {:induction false} InvAlways(events: seq<Event>, s: State)
    requires Run(events) == Some(s)
    ensures Inv(s)
  {
    hide Apply, Enabled;
    if events == [] {
      assert Holders(s) == {};
    } else {
      var before := Run(events[..|events| - 1]).value;
      InvAlways(events[..|events| - 1], before);
      InvStep(before, events[|events| - 1]);
    }
  }

  // ---------------------------------------------------------------- what holds in every run

  /** At most five calls are between their permit and its release, and at most one is spacing. */
  lemma AtMostMaxRpsActive(events: seq<Event>, s: State, active: set<nat>)
    requires Run(events) == Some(s)
    requires forall t :: t in active ==> t in s.tasks && (s.tasks[t].InFlight? || s.tasks[t].BackingOff?)
    ensures |active| <= 5
    ensures forall t, u :: t in s.tasks && u in s.tasks && s.tasks[t].Spacing? && s.tasks[u].Spacing? ==> t == u
  {
    InvAlways(events, s);
    hide Run;
    SubsetSize(active, Holders(s));
  }

  lemma {:induction false} SubsetSize(a: set<nat>, b: set<nat>)
    requires a <= b
    ensures |a| <= |b|
  {
    assert b == a + (b - a);
  }

  function SlotsWithin(slots: seq<Slot>, from: real, to: real): nat {
    if slots == [] then 0
    else
      SlotsWithin(slots[..|slots| - 1], from, to)
      + if from <= slots[|slots| - 1].time <= to then 1 else 0
  }

  // With c > 0 slots in the window, one of them lies (c - 1) intervals after its start.
  lemma {:induction false} LateSlot(slots: seq<Slot>, from: real, to: real) returns (i: nat)
    requires forall i, j :: 0 <= i < j < |slots| ==> slots[j].time - slots[i].time >= MIN_INTERVAL
    requires SlotsWithin(slots, from, to) > 0
    ensures i < |slots| && slots[i].time <= to
    ensures slots[i].time >= from + (SlotsWithin(slots, from, to) - 1) as real * MIN_INTERVAL
  {
    var init, n := slots[..|slots| - 1], |slots| - 1;
    if SlotsWithin(init, from, to) == 0 {
      i := n;
    } else {
      i := LateSlot(init, from, to);
      if from <= slots[n].time <= to { i := n; }
    }
  }

  /** In every run, any window of length w sees at most floor(5 w) + 1 requests. */
  lemma WindowBound(events: seq<Event>, s: State, from: real, w: real)
    requires Run(events) == Some(s) && w >= 0.0
    ensures SlotsWithin(s.slots, from, from + w) <= (w * 5.0).Floor + 1
  {
    InvAlways(events, s);
    var c := SlotsWithin(s.slots, from, from + w);
    if c > 0 {
      var i := LateSlot(s.slots, from, from + w);
      assert (c - 1) as real * MIN_INTERVAL <= w;
      assert (c - 1) as real <= w * MAX_RPS as real;
    }
  }

  /** No call takes more than three slots, and the exhausted-loop error after the last attempt never occurs. */
  lemma AttemptsPerCall(events: seq<Event>, s: State, task: nat)
    requires Run(events) == Some(s)
    ensures CountSlots(s.slots, task) <= 3
    ensures Enabled(s, Wake(task)) ==> Apply(s, Wake(task)).tasks[task].Waiting?
  {
    InvAlways(events, s);
    hide Run;
  }

  // ---------------------------------------------------------------- what a call comes to

  // The responses to a call, in order.
  function Answers(events: seq<Event>, task: nat): seq<Response> {
    if events == [] then []
    else
      var last := events[|events| - 1];
      Answers(events[..|events| - 1], task) + if last.Respond? && last.task == task then [last.response] else []
  }

  predicate Temporary(r: Response) { r == Timeout || r == TransportError || r == RateLimited || r == ServerError }

  // The answer that ends a call: the first that is not temporary, or the third.
  ghost predicate Settles(answers: seq<Response>) {
    && 1 <= |answers| <= 3
    && (|answers| == 3 || !Temporary(answers[|answers| - 1]))
    && forall i :: 0 <= i < |answers| - 1 ==> Temporary(answers[i])
  }

  ghost predicate Unsettled(answers: seq<Response>) {
    |answers| <= 2 && forall i :: 0 <= i < |answers| ==> Temporary(answers[i])
  }

  // What the call makes of the answer that ends it.
  ghost predicate Concludes(outcome: Outcome, last: Response) {
    && (outcome == Returned <==> last == Ok) && (outcome == RateLimitError <==> last == RateLimited)
    && (outcome == AuthError <==> last == Unauthorized) && (outcome == NotFoundError <==> last == Missing)
  }

  // Where a call is, as its answers so far determine it.
  ghost predicate Answered(pc: Pc, answers: seq<Response>) {
    if pc.Done? then Settles(answers) && Concludes(pc.outcome, answers[|answers| - 1])
    else Unsettled(answers) && |answers| == if pc.BackingOff? then pc.attempt + 1 else pc.attempt
  }

  lemma AnsweredStep(s: State, e: Event, task: nat, answers: seq<Response>)
    requires Inv(s) && Enabled(s, e)
    requires if task in s.tasks then Answered(s.tasks[task], answers) else answers == []
    ensures var s' := Apply(s, e);
            var now := answers + if e.Respond? && e.task == task then [e.response] else [];
            if task in s'.tasks then Answered(s'.tasks[task], now) else now == []
  {
    hide PermitsBalance, LockOwned, SlotsSpaced, SlotsCounted;
    var now := answers + if e.Respond? && e.task == task then [e.response] else [];
    if e.Respond? && e.task == task {
      assert forall i :: 0 <= i < |answers| ==> now[i] == answers[i];
    } else {
      assert now == answers;
    }
  }

  /** In every run a call is finished exactly when its answers settle it, with the outcome of the last of them: it
      returns if that is a 200, and an unfinished call has had at most two answers, all temporary. */
  lemma {:induction false} OutcomeFromAnswers(events: seq<Event>, s: State, task: nat)
    requires Run(events) == Some(s)
    ensures if task in s.tasks then Answered(s.tasks[task], Answers(events, task)) else Answers(events, task) == []
  {
    hide Apply, Enabled, Answered;
    if events != [] {
      var init := events[..|events| - 1];
      var before := Run(init).value;
      OutcomeFromAnswers(init, before, task);
      InvAlways(init, before);
      hide Inv;
      AnsweredStep(before, events[|events| - 1], task, Answers(init, task));
    }
  }

  /** In every state a call waits two seconds after its first temporary answer and four after its second, and spaces its
      request to a fifth of a second after the last one. */
  lemma WaitsAreTimed(s: State, task: nat, r: Response)
    ensures Enabled(s, Respond(task, r)) && Temporary(r) && s.tasks[task].attempt < 2 ==>
      Apply(s, Respond(task, r)).tasks[task]
      == BackingOff(s.tasks[task].attempt, s.now + if s.tasks[task].attempt == 0 then 2.0 else 4.0)
    ensures Enabled(s, Lock(task)) ==>
      Apply(s, Lock(task)).tasks[task]
      == Spacing(s.tasks[task].attempt, if s.lastRequest + 0.2 > s.now then s.lastRequest + 0.2 else s.now)
  {
    assert Backoff(0) == 2.0 && Backoff(1) == 4.0;
  }

  // ---------------------------------------------------------------- termination and progress

  predicate IsOf(e: Event, task: nat) { !e.Tick? && e.task == task }

  function OwnEvents(events: seq<Event>, task: nat): nat {
    if events == [] then 0
    else OwnEvents(events[..|events| - 1], task) + if IsOf(events[|events| - 1], task) then 1 else 0
  }

  // Steps a call can still take: five per attempt.
  function StepsLeft(s: State, task: nat): int {
    if task !in s.tasks then 5 * MAX_RETRIES + 1
    else
      match s.tasks[task]
      case Waiting(a) => 5 * (MAX_RETRIES - a)
      case Queued(a) => 5 * (MAX_RETRIES - a) - 1
      case Spacing(a, _) => 5 * (MAX_RETRIES - a) - 2
      case InFlight(a) => 5 * (MAX_RETRIES - a) - 3
      case BackingOff(a, _) => 5 * (MAX_RETRIES - a) - 4
      case Done(_) => 0
  }

  /** Every call ends after at most 16 steps of its own, however the others are scheduled. */
  lemma {:induction false} CallsAreBounded(events: seq<Event>, s: State, task: nat)
    requires Run(events) == Some(s)
    ensures OwnEvents(events, task) + StepsLeft(s, task) <= 5 * MAX_RETRIES + 1
    ensures StepsLeft(s, task) >= 0
  {
    InvAlways(events, s);
    if events != [] {
      var e := events[|events| - 1];
      var before := Run(events[..|events| - 1]).value;
      CallsAreBounded(events[..|events| - 1], before, task);
      InvAlways(events[..|events| - 1], before);
      hide Run;
      StepConsumes(before, e, task);
    }
  }

  lemma StepConsumes(s: State, e: Event, task: nat)
    requires Inv(s) && Enabled(s, e)
    ensures StepsLeft(Apply(s, e), task) + (if IsOf(e, task) then 1 else 0) <= StepsLeft(s, task)
  {
  }

  // Some call can move, if need be after waiting for a timer.
  ghost predicate CanProgress(s: State) {
    exists dt: real, e: Event ::
      Enabled(s, Tick(dt)) && !e.Tick? && !e.Start? && Enabled(Apply(s, Tick(dt)), e)
  }

  lemma TimerProgress(s: State, task: nat, wakeAt: real, e: Event)
    requires !e.Tick? && !e.Start?
    requires forall now: real :: now >= wakeAt ==> Enabled(s.(now := now), e)
    ensures CanProgress(s)
  {
    var dt := if wakeAt > s.now then wakeAt - s.now else 0.0;
    assert Enabled(s, Tick(dt));
    assert Enabled(Apply(s, Tick(dt)), e);
  }

  /** There is no deadlock: while some call is unfinished, some call can move. */
  lemma NoDeadlock(events: seq<Event>, s: State, task: nat)
    requires Run(events) == Some(s) && task in s.tasks && !s.tasks[task].Done?
    ensures CanProgress(s)
  {
    InvAlways(events, s);
    hide Run;
    if s.lock.Some? {
      var t := s.lock.value;
      assert t in s.tasks && s.tasks[t].Spacing?;
      TimerProgress(s, t, s.tasks[t].wakeAt, Stamp(t));
    } else if s.permits > 0 && s.tasks[task].Waiting? {
      TimerProgress(s, task, s.now, Acquire(task));
    } else {
      var t := task;
      if s.tasks[task].Waiting? {
        assert |Holders(s)| > 0;
        t :| t in Holders(s);
      }
      match s.tasks[t]
      case Queued(_) => TimerProgress(s, t, s.now, Lock(t));
      case InFlight(_) => TimerProgress(s, t, s.now, Respond(t, Ok));
      case BackingOff(_, w) => TimerProgress(s, t, w, Wake(t));
      case _ => assert false;
    }
  }

  // Steps of calls, the passing of time aside.
  function CallEvents(events: seq<Event>): nat {
    if events == [] then 0
    else CallEvents(events[..|events| - 1]) + if events[|events| - 1].Tick? then 0 else 1
  }

  function EventsOf(events: seq<Event>, tasks: set<nat>): nat {
    if events == [] then 0
    else
      var last := events[|events| - 1];
      EventsOf(events[..|events| - 1], tasks) + if !last.Tick? && last.task in tasks then 1 else 0
  }

  lemma {:induction false} EventsOfOneMore(events: seq<Event>, tasks: set<nat>, task: nat)
    requires task !in tasks
    ensures EventsOf(events, tasks + {task}) == EventsOf(events, tasks) + OwnEvents(events, task)
  {
    if events != [] { EventsOfOneMore(events[..|events| - 1], tasks, task); }
  }

  lemma {:induction false} NoTasksNoEvents(events: seq<Event>)
    ensures EventsOf(events, {}) == 0
  {
    if events != [] { NoTasksNoEvents(events[..|events| - 1]); }
  }

  lemma {:induction false} EventsOfBounded(events: seq<Event>, s: State, tasks: set<nat>)
    requires Run(events) == Some(s)
    ensures EventsOf(events, tasks) <= (5 * MAX_RETRIES + 1) * |tasks|
  {
    hide Run, StepsLeft;
    if tasks == {} {
      NoTasksNoEvents(events);
    } else {
      var task :| task in tasks;
      var rest := tasks - {task};
      assert tasks == rest + {task};
      EventsOfBounded(events, s, rest);
      EventsOfOneMore(events, rest, task);
      CallsAreBounded(events, s, task);
    }
  }

  // Every step belongs to a call that has been started.
  lemma {:induction false} StepsHaveCalls(events: seq<Event>, s: State)
    requires Run(events) == Some(s)
    ensures CallEvents(events) == EventsOf(events, s.tasks.Keys)
  {
    if events != [] {
      var init, e := events[..|events| - 1], events[|events| - 1];
      var before := Run(init).value;
      StepsHaveCalls(init, before);
      assert e.Start? || s.tasks.Keys == before.tasks.Keys;
      hide Apply, Enabled;
      if e.Start? {
        StartsOne(before, e);
        EventsOfOneMore(init, before.tasks.Keys, e.task);
        NotYetStarted(init, before, e.task);
      }
    }
  }

  lemma StartsOne(s: State, e: Event)
    requires e.Start? && Enabled(s, e)
    ensures e.task !in s.tasks && Apply(s, e).tasks.Keys == s.tasks.Keys + {e.task}
  {
  }

  lemma NotYetStarted(events: seq<Event>, s: State, task: nat)
    requires Run(events) == Some(s) && task !in s.tasks
    ensures OwnEvents(events, task) == 0
  {
    CallsAreBounded(events, s, task);
    hide Run;
  }

  /** The whole system: a run of n started calls has at most 16 n steps besides the passing of time. */
  lemma WorkIsBounded(events: seq<Event>, s: State)
    requires Run(events) == Some(s)
    ensures CallEvents(events) <= (5 * MAX_RETRIES + 1) * |s.tasks|
  {
    StepsHaveCalls(events, s);
    EventsOfBounded(events, s, s.tasks.Keys);
    hide Run;
    assert |s.tasks.Keys| == |s.tasks|;
  }

  /** And it ends only when it is finished: no call can move, now or after any time, exactly when all are done. */
  lemma RestsIffAllDone(events: seq<Event>, s: State)
    requires Run(events) == Some(s)
    ensures !CanProgress(s) <==> forall t :: t in s.tasks ==> s.tasks[t].Done?
  {
    if t :| t in s.tasks && !s.tasks[t].Done? { NoDeadlock(events, s, t); }
    hide Run;
  }
}
