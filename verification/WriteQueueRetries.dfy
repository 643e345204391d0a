/** How often and how long the write queue retries, and that it drains after `dispose`. */
module WriteQueueRetries {
  import opened Runs
  import opened WriteQueues
  import opened WriteQueueRuns

  /** Even with `maxAttempts <= 1` each write is tried once. */
  function Limit(c: Config): nat
    ensures Limit(c) >= 1
  {
    if c.maxAttempts > 1 then c.maxAttempts else 1
  }

  /** The backoff accumulated by `n` failed attempts that were not the last. */
  function Backoff(c: Config, n: nat): int {
    c.backoffBaseMs * (Pow2(n) - 1)
  }

  lemma BackoffStep(c: Config, n: nat)
    ensures Backoff(c, n + 1) == Backoff(c, n) + c.backoffBaseMs * Pow2(n)
  {
    assert Pow2(n + 1) - 1 == (Pow2(n) - 1) + Pow2(n);
  }

  lemma {:induction false} BackoffMonotone(c: Config, m: nat, n: nat)
    requires m <= n
    ensures 0 <= Backoff(c, m) <= Backoff(c, n)
    decreases n - m
  {
    if m < n {
      BackoffStep(c, m);
      BackoffMonotone(c, m + 1, n);
    }
    Pow2Positive(m);
  }

  lemma {:induction false} Pow2Positive(n: nat)
    ensures Pow2(n) >= 1
  {
    if n > 0 {
      Pow2Positive(n - 1);
    }
  }

  // ----- Number of tries -----

  predicate InFlightIs(s: State, id: nat) {
    s.phase.Writing? && s.phase.op.id == id
  }

  predicate WithinLimit(c: Config, s: State) {
    && (forall i :: 0 <= i < |s.queue| ==> s.queue[i].attempts < Limit(c))
    && (s.phase.Writing? ==> s.phase.op.attempts < Limit(c))
  }

  /** `repo.set` has been called once per failed attempt, and once more for the write in flight. */
  predicate TriesCounted(c: Config, s: State) {
    && (forall i :: 0 <= i < |s.queue| ==>
          Count(s.tries, s.queue[i].id) == s.queue[i].attempts + if InFlightIs(s, s.queue[i].id) then 1 else 0)
    && (s.phase.Writing? ==> Count(s.tries, s.phase.op.id) == s.phase.op.attempts + 1)
    && (forall id :: id in s.tries ==> id < s.nextId && s.tries[id] <= Limit(c))
  }

  predicate WaitsCounted(c: Config, s: State) {
    && (forall i :: 0 <= i < |s.queue| ==> Count(s.waited, s.queue[i].id) == Backoff(c, s.queue[i].attempts))
    && (s.phase.Writing? ==> Count(s.waited, s.phase.op.id) == Backoff(c, s.phase.op.attempts))
    && (forall id :: id in s.waited ==> id < s.nextId && s.waited[id] <= Backoff(c, Limit(c) - 1))
  }

  lemma FailWithinLimit(c: Config, s: State)
    requires Wellformed(s) && WithinLimit(c, s) && s.phase.Writing?
    ensures WithinLimit(c, WriteFailed(c, s))
  {
  }

  lemma StepWithinLimit(c: Config, s: State, e: Event)
    requires Wellformed(s) && WithinLimit(c, s)
    ensures WithinLimit(c, Step(c, s, e))
  {
    hide WriteFailed, Wellformed;
    if e.WriteFails? && s.phase.Writing? {
      FailWithinLimit(c, s);
    }
  }

  lemma SucceedTries(c: Config, s: State)
    requires Wellformed(s) && WithinLimit(c, s) && TriesCounted(c, s) && s.phase.Writing?
    ensures TriesCounted(c, WriteSucceeded(s))
  {
  }

  /** Once the failed attempt is counted, every queued write has been tried as often as it has failed. */
  lemma BumpTries(c: Config, s: State)
    requires Wellformed(s) && TriesCounted(c, s) && s.phase.Writing?
    ensures var queue := Bump(s.queue, s.phase.op.id);
      forall i :: 0 <= i < |queue| ==> Count(s.tries, queue[i].id) == queue[i].attempts
  {
    hide Bump, Count, OneFlusher;
  }

  lemma NextTries(c: Config, s: State)
    requires Contiguous(s) && forall i :: 0 <= i < |s.queue| ==> s.queue[i].attempts < Limit(c)
    requires forall i :: 0 <= i < |s.queue| ==> Count(s.tries, s.queue[i].id) == s.queue[i].attempts
    requires forall id :: id in s.tries ==> id < s.nextId && s.tries[id] <= Limit(c)
    ensures TriesCounted(c, NextIteration(s))
  {
  }

  lemma FailTries(c: Config, s: State)
    requires Wellformed(s) && WithinLimit(c, s) && TriesCounted(c, s) && s.phase.Writing?
    ensures TriesCounted(c, WriteFailed(c, s))
  {
    hide Pow2, OneFlusher, Bump, Count, NextIteration;
    BumpTries(c, s);
    var id := s.phase.op.id;
    if s.phase.op.attempts + 1 >= c.maxAttempts {
      var s1 := s.(queue := Bump(s.queue, id), phase := Writing(Item(id, s.phase.op.attempts + 1)), failed := s.failed + {id});
      NextTries(c, Shift(s1, id));
    }
  }

  lemma EnqueueTries(c: Config, s: State)
    requires Wellformed(s) && WithinLimit(c, s) && TriesCounted(c, s)
    ensures TriesCounted(c, Enqueued(c, s))
  {
  }

  lemma DelayTries(c: Config, s: State)
    requires Wellformed(s) && WithinLimit(c, s) && TriesCounted(c, s) && s.phase.Delaying?
    ensures TriesCounted(c, NextIteration(s))
  {
  }

  lemma {:induction false} StepTries(c: Config, s: State, e: Event)
    requires Wellformed(s) && WithinLimit(c, s) && TriesCounted(c, s)
    ensures TriesCounted(c, Step(c, s, e))
  {
    hide Wellformed, WithinLimit, Enqueued, WriteSucceeded, WriteFailed, NextIteration;
    match e
    case Enqueue => EnqueueTries(c, s);
    case WriteSucceeds => if s.phase.Writing? { SucceedTries(c, s); }
    case WriteFails => if s.phase.Writing? { FailTries(c, s); }
    case DelayElapses => if s.phase.Delaying? { DelayTries(c, s); }
    case Dispose =>
  }

  lemma SucceedWaits(c: Config, s: State)
    requires Wellformed(s) && WaitsCounted(c, s) && s.phase.Writing?
    ensures WaitsCounted(c, WriteSucceeded(s))
  {
    hide Backoff;
  }

  lemma GiveUpWaits(c: Config, s: State)
    requires Wellformed(s) && WaitsCounted(c, s) && s.phase.Writing? && s.phase.op.attempts + 1 >= c.maxAttempts
    ensures WaitsCounted(c, WriteFailed(c, s))
  {
    hide Backoff, Bump, OneFlusher, Pow2;
  }

  lemma RetryWaits(c: Config, s: State)
    requires Wellformed(s) && WithinLimit(c, s) && WaitsCounted(c, s) && s.phase.Writing? && s.phase.op.attempts + 1 < c.maxAttempts
    ensures WaitsCounted(c, WriteFailed(c, s))
  {
    hide Backoff, Bump, OneFlusher, Pow2, NextIteration, Shift;
    var n := s.phase.op.attempts;
    BackoffStep(c, n);
    BackoffMonotone(c, n + 1, Limit(c) - 1);
  }

  lemma FailWaits(c: Config, s: State)
    requires Wellformed(s) && WithinLimit(c, s) && WaitsCounted(c, s) && s.phase.Writing?
    ensures WaitsCounted(c, WriteFailed(c, s))
  {
    hide WaitsCounted, WriteFailed, Wellformed, WithinLimit;
    if s.phase.op.attempts + 1 >= c.maxAttempts {
      GiveUpWaits(c, s);
    } else {
      RetryWaits(c, s);
    }
  }

  lemma EnqueueWaits(c: Config, s: State)
    requires Wellformed(s) && WaitsCounted(c, s)
    ensures WaitsCounted(c, Enqueued(c, s))
  {
    assert Backoff(c, 0) == 0;
    hide Backoff;
  }

  lemma StepWaits(c: Config, s: State, e: Event)
    requires Wellformed(s) && WithinLimit(c, s) && WaitsCounted(c, s)
    ensures WaitsCounted(c, Step(c, s, e))
  {
    match e
    case Enqueue => EnqueueWaits(c, s);
    case WriteSucceeds => if s.phase.Writing? { SucceedWaits(c, s); }
    case WriteFails => if s.phase.Writing? { FailWaits(c, s); }
    case DelayElapses => hide Backoff;
    case Dispose =>
  }

  lemma {:induction false} RetryInvariant(c: Config, run: Run<Event>)
    ensures var s := StateAfter(c, run); WithinLimit(c, s) && TriesCounted(c, s) && WaitsCounted(c, s)
  {
    if run.Start? {
      BackoffMonotone(c, 0, Limit(c) - 1);
    } else {
      var s := StateAfter(c, run.before);
      CommitOrder(c, run.before);
      RetryInvariant(c, run.before);
      StepWithinLimit(c, s, run.event);
      StepTries(c, s, run.event);
      StepWaits(c, s, run.event);
    }
  }

  /**
   In every run each write is handed to `repo.set` at most max(1, maxAttempts) times, and its
   backoff delays add up to at most backoffBaseMs * (2^(maxAttempts - 1) - 1).
   */
  lemma {:induction false} RetriesBounded(c: Config, run: Run<Event>, id: nat)
    ensures Count(StateAfter(c, run).tries, id) <= Limit(c)
    ensures Count(StateAfter(c, run).waited, id) <= c.backoffBaseMs * (Pow2(Limit(c) - 1) - 1)
  {
    hide StateAfter, Pow2, Limit, WithinLimit;
    RetryInvariant(c, run);
    BackoffMonotone(c, 0, Limit(c) - 1);
  }

  /** A write fails permanently only when it has used up its attempts. */
  predicate FailedTriedOut(c: Config, s: State) {
    forall id :: id in s.failed ==> Count(s.tries, id) == Limit(c)
  }

  /** A step counts a try only for the write it puts in flight. */
  lemma TriesChange(c: Config, s: State, e: Event, id: nat)
    ensures var s' := Step(c, s, e);
      Count(s'.tries, id) == Count(s.tries, id) || InFlightIs(s', id)
  {
    hide Bump, Pow2, Shift, NextIteration;
    forall t: State ensures Count(NextIteration(t).tries, id) == Count(t.tries, id) || InFlightIs(NextIteration(t), id) {
      NextTriesChange(t, id);
    }
    forall t: State, settled ensures Shift(t, settled).tries == t.tries {
      ShiftTries(t, settled);
    }
  }

  lemma NextTriesChange(s: State, id: nat)
    ensures Count(NextIteration(s).tries, id) == Count(s.tries, id) || InFlightIs(NextIteration(s), id)
  {
  }

  lemma ShiftTries(s: State, settled: nat)
    ensures Shift(s, settled).tries == s.tries
  {
  }

  lemma FailedChange(c: Config, s: State, e: Event, id: nat)
    requires id in Step(c, s, e).failed
    ensures id in s.failed || (Settles(c, s, e) && id == s.phase.op.id && s.phase.op.attempts + 1 >= c.maxAttempts)
  {
    hide Bump, Pow2;
  }

  lemma StepFailedTriedOut(c: Config, s: State, e: Event)
    requires Wellformed(s) && Tracked(s) && WithinLimit(c, s) && TriesCounted(c, s) && FailedTriedOut(c, s)
    ensures FailedTriedOut(c, Step(c, s, e))
  {
    hide Wellformed, Step;
    var s' := Step(c, s, e);
    StepTracked(c, s, e);
    forall id | id in s'.failed ensures Count(s'.tries, id) == Limit(c) {
      assert !InFlightIs(s', id);
      TriesChange(c, s, e, id);
      FailedChange(c, s, e, id);
    }
  }

  lemma {:induction false} FailsOnlyAtLimit(c: Config, run: Run<Event>)
    ensures FailedTriedOut(c, StateAfter(c, run))
  {
    if run.Then? {
      hide Tracked, Wellformed, WithinLimit, TriesCounted, FailedTriedOut, Step;
      FailsOnlyAtLimit(c, run.before);
      WhereWritesGo(c, run.before);
      RetryInvariant(c, run.before);
      StepFailedTriedOut(c, StateAfter(c, run.before), run.event);
    }
  }

  // ----- Draining after dispose -----

  /** The attempts the queued writes have left. */
  function Remaining(c: Config, queue: seq<Item>): int {
    if queue == [] then 0 else Limit(c) - queue[0].attempts + Remaining(c, queue[1..])
  }

  /** The attempts left, counting a write in flight that has been evicted from the queue. */
  function Work(c: Config, s: State): int {
    Remaining(c, s.queue) +
    if s.phase.Writing? && !AtHead(s) then Limit(c) - s.phase.op.attempts else 0
  }

  function Rank(c: Config, s: State): int {
    2 * Work(c, s) + if s.phase.Delaying? then 1 else 0
  }

  lemma {:induction false} RemainingPositive(c: Config, queue: seq<Item>)
    requires forall i :: 0 <= i < |queue| ==> queue[i].attempts < Limit(c)
    ensures Remaining(c, queue) >= |queue|
  {
    if queue != [] {
      RemainingPositive(c, queue[1..]);
    }
  }

  lemma {:induction false} RemainingBumped(c: Config, queue: seq<Item>, id: nat)
    requires forall i, j :: 0 <= i < j < |queue| ==> queue[i].id < queue[j].id
    requires queue != [] && id <= queue[0].id
    ensures Remaining(c, Bump(queue, id)) == Remaining(c, queue) - if queue[0].id == id then 1 else 0
    ensures Bump(queue, id)[1..] == queue[1..]
  {
    assert Bump(queue, id)[1..] == queue[1..];
  }

  /** Each iteration of the flush loop ends in one of these. */
  predicate FlusherStep(s: State, e: Event) {
    match e
    case WriteSucceeds => s.phase.Writing?
    case WriteFails => s.phase.Writing?
    case DelayElapses => s.phase.Delaying?
    case _ => false
  }

  lemma SucceedRank(c: Config, s: State)
    requires Wellformed(s) && WithinLimit(c, s) && s.phase.Writing?
    ensures Work(c, WriteSucceeded(s)) < Work(c, s) && !WriteSucceeded(s).phase.Delaying?
  {
  }

  lemma FailRank(c: Config, s: State)
    requires Wellformed(s) && WithinLimit(c, s) && s.phase.Writing?
    ensures Work(c, WriteFailed(c, s)) < Work(c, s)
  {
    RemainingBumped(c, s.queue, s.phase.op.id);
  }

  lemma DelayRank(c: Config, s: State)
    requires Wellformed(s) && s.phase.Delaying?
    ensures Work(c, NextIteration(s)) == Work(c, s) && !NextIteration(s).phase.Delaying?
  {
  }

  /** After `dispose` every step of the flush loop lowers the rank, and nothing raises it. */
  lemma StepRank(c: Config, s: State, e: Event)
    requires Wellformed(s) && WithinLimit(c, s) && s.disposed
    ensures Step(c, s, e).disposed
    ensures if FlusherStep(s, e) then Rank(c, Step(c, s, e)) < Rank(c, s) else Step(c, s, e) == s
  {
    hide Work, Wellformed, WithinLimit;
    if FlusherStep(s, e) {
      match e
      case WriteSucceeds => SucceedRank(c, s);
      case WriteFails => FailRank(c, s);
      case DelayElapses => DelayRank(c, s);
    }
  }

  lemma RankNonNegative(c: Config, s: State)
    requires Wellformed(s) && WithinLimit(c, s)
    ensures Rank(c, s) >= 0 && (Rank(c, s) == 0 ==> s.queue == [] && s.phase.Idle?)
  {
    RemainingPositive(c, s.queue);
  }

  function FlusherSteps(c: Config, run: Run<Event>, base: Run<Event>): nat
    requires Extends(run, base)
  {
    if run == base then 0
    else FlusherSteps(c, run.before, base) + if FlusherStep(StateAfter(c, run.before), run.event) then 1 else 0
  }

  lemma {:induction false} RankFalls(c: Config, base: Run<Event>, run: Run<Event>)
    requires StateAfter(c, base).disposed && Extends(run, base)
    ensures StateAfter(c, run).disposed
    ensures FlusherSteps(c, run, base) + Rank(c, StateAfter(c, run)) <= Rank(c, StateAfter(c, base))
  {
    if run != base {
      hide Rank, Step;
      RankFalls(c, base, run.before);
      CommitOrder(c, run.before);
      RetryInvariant(c, run.before);
      StepRank(c, StateAfter(c, run.before), run.event);
    }
  }

  /**
   After `dispose` the flush loop takes at most `Rank` more steps whatever the repository answers;
   while anything is queued it has a step to take, and once it has none it has drained the queue.
   */
  lemma {:induction false} DrainsAfterDispose(c: Config, base: Run<Event>, run: Run<Event>)
    requires StateAfter(c, base).disposed && Extends(run, base)
    ensures FlusherSteps(c, run, base) <= Rank(c, StateAfter(c, base))
    ensures FlusherSteps(c, run, base) == Rank(c, StateAfter(c, base)) ==> StateAfter(c, run).queue == []
    ensures (forall e :: !FlusherStep(StateAfter(c, run), e)) <==> StateAfter(c, run).queue == []
  {
    hide Rank;
    var s := StateAfter(c, run);
    RankFalls(c, base, run);
    CommitOrder(c, run);
    RetryInvariant(c, run);
    RankNonNegative(c, s);
    assert s.phase.Writing? ==> FlusherStep(s, WriteSucceeds);
    assert s.phase.Delaying? ==> FlusherStep(s, DelayElapses);
  }

  /**
   The attempts left in the queue alone do not always fall: a write evicted in flight that fails
   with attempts to spare leaves them as they were.  They fall in every other iteration.
   */
  lemma QueueWorkFallsIff(c: Config, s: State, e: Event)
    requires Wellformed(s) && WithinLimit(c, s) && s.phase.Writing? && FlusherStep(s, e)
    ensures Remaining(c, Step(c, s, e).queue) < Remaining(c, s.queue) <==> Settles(c, s, e) || AtHead(s)
  {
    if e.WriteFails? {
      RemainingBumped(c, s.queue, s.phase.op.id);
    }
  }

  /** A run that leaves them unchanged, for every queue size: after `dispose` the first write, evicted in flight, fails with attempts to spare. */
  lemma {:induction false} EvictedFailureLeavesQueueWork(c: Config)
    requires c.maxAttempts >= 2
    ensures var disposed := Then(Enqueues(Capacity(c) + 1), Dispose);
      var s, s' := StateAfter(c, disposed), StateAfter(c, Then(disposed, WriteFails));
      s.disposed && FlusherStep(s, WriteFails) && s'.phase.Delaying? && s'.queue == s.queue != []
  {
    hide Enqueues, Pow2;
    QueueOverflows(c);
    var s := StateAfter(c, Then(Enqueues(Capacity(c) + 1), Dispose));
    assert s == StateAfter(c, Enqueues(Capacity(c) + 1)).(disposed := true);
    assert s.phase == Writing(Item(0, 0));
    assert Bump(s.queue, 0) == s.queue;
  }
}
