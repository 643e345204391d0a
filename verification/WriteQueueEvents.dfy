/** What each event does to the writes: acceptance, and the tally of attempts from which every outcome follows. */
module WriteQueueEvents {
  import opened Runs
  import opened WriteQueues
  import opened WriteQueueRuns
  import opened WriteQueueRetries

  // ----- Acceptance -----

  predicate HasDisposed(run: Run<Event>) {
    run.Then? && (run.event.Dispose? || HasDisposed(run.before))
  }

  /** How many writes have been enqueued before `dispose`. */
  function Accepted(run: Run<Event>): nat {
    match run
    case Start => 0
    case Then(before, e) => Accepted(before) + if e.Enqueue? && !HasDisposed(before) then 1 else 0
  }

  lemma StepAccepts(c: Config, s: State, e: Event)
    ensures Step(c, s, e).disposed <==> s.disposed || e.Dispose?
    ensures Step(c, s, e).nextId == s.nextId + if e.Enqueue? && !s.disposed then 1 else 0
  {
    hide Bump, Pow2, Shift, NextIteration;
    forall t: State ensures NextIteration(t).disposed == t.disposed && NextIteration(t).nextId == t.nextId {
      NextKeeps(t);
    }
    forall t: State, settled ensures Shift(t, settled).disposed == t.disposed && Shift(t, settled).nextId == t.nextId {
      ShiftKeeps(t, settled);
    }
  }

  lemma NextKeeps(s: State)
    ensures var s' := NextIteration(s);
      && s'.disposed == s.disposed && s'.nextId == s.nextId && s'.committed == s.committed && s'.evicted == s.evicted
  {
  }

  lemma ShiftKeeps(s: State, settled: nat)
    ensures var s' := Shift(s, settled);
      && s'.disposed == s.disposed && s'.nextId == s.nextId && s'.committed == s.committed && s'.evicted == s.evicted
  {
  }

  /** Every `enqueue` before `dispose` is accepted and numbered, and none after it. */
  lemma {:induction false} AcceptedIff(c: Config, run: Run<Event>)
    ensures StateAfter(c, run).disposed <==> HasDisposed(run)
    ensures StateAfter(c, run).nextId == Accepted(run)
  {
    if run.Then? {
      hide Step;
      AcceptedIff(c, run.before);
      StepAccepts(c, StateAfter(c, run.before), run.event);
    }
  }

  predicate Full(c: Config, s: State) {
    s.queue != [] && |s.queue| >= c.maxQueueSize
  }

  /**
   Whatever the flush loop is doing, an accepted write goes to the end of the queue with no attempts made; the oldest
   write is evicted exactly when the queue is full, every other write stays where it is, and the
   write is started at once exactly when the queue was empty.  A refused one changes nothing.
   */
  lemma {:induction false} EnqueueAppends(c: Config, run: Run<Event>)
    ensures var s, s' := StateAfter(c, run), StateAfter(c, Then(run, Enqueue));
      if HasDisposed(run) then s' == s
      else
        && s'.queue == (if Full(c, s) then s.queue[1..] else s.queue) + [Item(Accepted(run), 0)]
        && s'.evicted == s.evicted + (if Full(c, s) then {s.queue[0].id} else {})
        && s'.committed == s.committed && s'.failed == s.failed && s'.lost == s.lost
        && s'.phase == if s.queue == [] then Writing(Item(Accepted(run), 0)) else s.phase
  {
    AcceptedIff(c, run);
    FlusherInvariant(c, run);
  }

  // ----- The tally of attempts -----

  /** How often `repo.set` has been rejected for this write. */
  function Failures(c: Config, run: Run<Event>, id: nat): nat {
    match run
    case Start => 0
    case Then(before, e) =>
      Failures(c, before, id) + if e.WriteFails? && InFlightIs(StateAfter(c, before), id) then 1 else 0
  }

  /** The writes for which `repo.set` has succeeded, in order. */
  function Successes(c: Config, run: Run<Event>): seq<nat> {
    match run
    case Start => []
    case Then(before, e) =>
      var s := StateAfter(c, before);
      Successes(c, before) + if e.WriteSucceeds? && s.phase.Writing? then [s.phase.op.id] else []
  }

  /** The heads of the queue that an accepted write found in its way. */
  function Overflows(c: Config, run: Run<Event>): set<nat> {
    match run
    case Start => {}
    case Then(before, e) =>
      var s := StateAfter(c, before);
      Overflows(c, before) + if e.Enqueue? && !HasDisposed(before) && Full(c, s) then {s.queue[0].id} else {}
  }

  /** What `f` rejected attempts mean for a write. */
  predicate Tally(c: Config, s: State, id: nat, f: nat) {
    && (InFlightIs(s, id) ==> s.phase.op.attempts == f)
    && (forall i :: 0 <= i < |s.queue| && s.queue[i].id == id ==> s.queue[i].attempts == f)
    && (id in s.failed <==> f >= Limit(c))
    && Count(s.tries, id) == f + (if id in s.committed then 1 else 0) + (if InFlightIs(s, id) then 1 else 0)
    && Count(s.waited, id) == Backoff(c, if f < Limit(c) then f else Limit(c) - 1)
    && (id >= s.nextId ==> f == 0)
  }

  predicate Sound(c: Config, s: State) {
    Wellformed(s) && Tracked(s) && WithinLimit(c, s)
  }

  lemma NextTally(c: Config, s: State, id: nat, f: nat)
    requires !s.phase.Writing? && Tally(c, s, id, f)
    ensures Tally(c, NextIteration(s), id, f)
  {
  }

  lemma EnqueueTally(c: Config, s: State, id: nat, f: nat)
    requires Sound(c, s) && Tally(c, s, id, f)
    ensures Tally(c, Enqueued(c, s), id, f)
  {
    hide NextIteration, Tracked, WithinLimit, Backoff;
    if !s.disposed {
      var s1 := if |s.queue| >= c.maxQueueSize then DropOldest(s) else s;
      var s2 := s1.(queue := s1.queue + [Item(s1.nextId, 0)], nextId := s1.nextId + 1);
      assert Tally(c, s2, id, f);
      if !s2.flushPromise {
        var s3 := s2.(flushers := s2.flushers + 1);
        NextTally(c, s3, id, f);
        TallyIgnoresPromise(c, NextIteration(s3), id, f);
      }
    }
  }

  lemma TallyIgnoresPromise(c: Config, s: State, id: nat, f: nat)
    requires Tally(c, s, id, f)
    ensures Tally(c, s.(flushPromise := true), id, f)
  {
  }

  /** The state between the end of one write and the start of the next. */
  function Between(s: State): State {
    s.(phase := Idle)
  }

  lemma NextFromBetween(s: State)
    ensures NextIteration(s) == NextIteration(Between(s))
  {
  }

  lemma SucceedTally(c: Config, s: State, id: nat, f: nat)
    requires Sound(c, s) && s.phase.Writing? && Tally(c, s, id, f)
    ensures Tally(c, WriteSucceeded(s), id, f)
  {
    hide NextIteration, Backoff, WithinLimit;
    var s1 := Shift(s.(committed := s.committed + [s.phase.op.id]), s.phase.op.id);
    assert id == s.phase.op.id ==> id !in Committed(s);
    NextFromBetween(s1);
    NextTally(c, Between(s1), id, f);
  }

  lemma RetryTally(c: Config, s: State, id: nat, f: nat)
    requires Sound(c, s) && s.phase.Writing? && s.phase.op.attempts + 1 < c.maxAttempts && Tally(c, s, id, f)
    ensures Tally(c, WriteFailed(c, s), id, f + if s.phase.op.id == id then 1 else 0)
  {
    hide Pow2, Tracked, Contiguous, OneFlusher;
    BackoffStep(c, s.phase.op.attempts);
    hide Backoff;
  }

  lemma GiveUpTally(c: Config, s: State, id: nat, f: nat)
    requires Sound(c, s) && s.phase.Writing? && s.phase.op.attempts + 1 >= c.maxAttempts && Tally(c, s, id, f)
    ensures Tally(c, WriteFailed(c, s), id, f + if s.phase.op.id == id then 1 else 0)
  {
    hide NextIteration, Pow2, Backoff, Bump;
    var op := s.phase.op;
    var f' := f + if op.id == id then 1 else 0;
    var s1 := s.(queue := Bump(s.queue, op.id), phase := Writing(Item(op.id, op.attempts + 1)));
    var s2 := Shift(s1.(failed := s1.failed + {op.id}), op.id);
    NextFromBetween(s2);
    assert Tally(c, Between(s2), id, f');
    hide Tally, Sound;
    NextTally(c, Between(s2), id, f');
  }

  lemma FailTally(c: Config, s: State, id: nat, f: nat)
    requires Sound(c, s) && s.phase.Writing? && Tally(c, s, id, f)
    ensures Tally(c, WriteFailed(c, s), id, f + if s.phase.op.id == id then 1 else 0)
  {
    hide WriteFailed, Tally, Sound;
    if s.phase.op.attempts + 1 >= c.maxAttempts {
      GiveUpTally(c, s, id, f);
    } else {
      RetryTally(c, s, id, f);
    }
  }

  lemma StepTally(c: Config, s: State, e: Event, id: nat, f: nat)
    requires Sound(c, s) && Tally(c, s, id, f)
    ensures Tally(c, Step(c, s, e), id, f + if e.WriteFails? && InFlightIs(s, id) then 1 else 0)
  {
    hide Enqueued, WriteSucceeded, WriteFailed, NextIteration;
    match e
    case Enqueue => EnqueueTally(c, s, id, f);
    case WriteSucceeds => if s.phase.Writing? { SucceedTally(c, s, id, f); }
    case WriteFails => if s.phase.Writing? { FailTally(c, s, id, f); }
    case DelayElapses => if s.phase.Delaying? { NextTally(c, s, id, f); }
    case Dispose =>
  }

  lemma {:induction false} RunTally(c: Config, run: Run<Event>, id: nat)
    ensures Tally(c, StateAfter(c, run), id, Failures(c, run, id))
  {
    if run.Then? {
      hide Step, Tally, Tracked, Wellformed, WithinLimit;
      RunTally(c, run.before, id);
      WhereWritesGo(c, run.before);
      RetryInvariant(c, run.before);
      StepTally(c, StateAfter(c, run.before), run.event, id, Failures(c, run.before, id));
    } else {
      StartTally(c, id);
    }
  }

  lemma StartTally(c: Config, id: nat)
    ensures Tally(c, INITIAL, id, 0)
  {
  }

  lemma StepOutcomes(c: Config, s: State, e: Event)
    ensures var s' := Step(c, s, e);
      && s'.committed == s.committed + (if e.WriteSucceeds? && s.phase.Writing? then [s.phase.op.id] else [])
      && s'.evicted == s.evicted + (if e.Enqueue? && !s.disposed && Full(c, s) then {s.queue[0].id} else {})
  {
    hide Bump, Pow2, Shift, NextIteration;
    forall t: State ensures NextIteration(t).committed == t.committed && NextIteration(t).evicted == t.evicted {
      NextKeeps(t);
    }
    forall t: State, settled ensures Shift(t, settled).committed == t.committed && Shift(t, settled).evicted == t.evicted {
      ShiftKeeps(t, settled);
    }
  }

  /**
   In every run what became of the writes follows from the events.  Committed are, in order, those for which `repo.set`
   succeeded; evicted, those at the head of a full queue when another was accepted.  A write has failed
   exactly when it has been rejected max(1, maxAttempts) times; until then each rejection doubles its
   next delay; and `repo.set` was called once per rejection, success and write in flight.
   */
  lemma {:induction false} OutcomesFromEvents(c: Config, run: Run<Event>, id: nat)
    ensures var s, f := StateAfter(c, run), Failures(c, run, id);
      var limit := if c.maxAttempts > 1 then c.maxAttempts else 1;
      && s.committed == Successes(c, run) && s.evicted == Overflows(c, run)
      && (id in s.failed <==> f >= limit)
      && Count(s.waited, id) == c.backoffBaseMs * (Pow2(if f < limit then f else limit - 1) - 1)
      && Count(s.tries, id) == f + (if id in Successes(c, run) then 1 else 0) + (if InFlightIs(s, id) then 1 else 0)
  {
    hide StateAfter, Pow2;
    RunTally(c, run, id);
    CommittedAndEvicted(c, run);
  }

  lemma {:induction false} CommittedAndEvicted(c: Config, run: Run<Event>)
    ensures StateAfter(c, run).committed == Successes(c, run) && StateAfter(c, run).evicted == Overflows(c, run)
  {
    if run.Then? {
      hide Step;
      CommittedAndEvicted(c, run.before);
      AcceptedIff(c, run.before);
      StepOutcomes(c, StateAfter(c, run.before), run.event);
    }
  }

  /** A rejected write that may be tried again keeps its place: nothing leaves or enters the queue, and the same write is tried next unless it has been evicted. */
  lemma {:induction false} RejectedWriteStays(c: Config, run: Run<Event>)
    requires StateAfter(c, run).phase.Writing? && !Settles(c, StateAfter(c, run), WriteFails)
    ensures var s, s' := StateAfter(c, run), StateAfter(c, Then(run, WriteFails));
      && s'.phase.Delaying? && |s'.queue| == |s.queue| && s'.nextId == s.nextId
      && (forall i :: 0 <= i < |s.queue| ==> s'.queue[i].id == s.queue[i].id)
      && s'.committed == s.committed && s'.failed == s.failed && s'.evicted == s.evicted && s'.lost == s.lost
    ensures var s, s'' := StateAfter(c, run), StateAfter(c, Then(Then(run, WriteFails), DelayElapses));
      s''.phase.Writing? && s''.phase.op.id == s.queue[0].id
  {
    hide Pow2;
    CommitOrder(c, run);
  }
}
