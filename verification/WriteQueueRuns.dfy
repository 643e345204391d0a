/** What every run of the write queue keeps: a single flusher, bounded length, commit order, and where each write goes. */
module WriteQueueRuns {
  import opened Runs
  import opened WriteQueues

  datatype Event = Enqueue | WriteSucceeds | WriteFails | DelayElapses | Dispose

  function Step(c: Config, s: State, e: Event): State {
    match e
    case Enqueue => Enqueued(c, s)
    case WriteSucceeds => if s.phase.Writing? then WriteSucceeded(s) else s
    case WriteFails => if s.phase.Writing? then WriteFailed(c, s) else s
    case DelayElapses => if s.phase.Delaying? then NextIteration(s) else s
    case Dispose => s.(disposed := true)
  }

  function StateAfter(c: Config, run: Run<Event>): State {
    match run
    case Start => INITIAL
    case Then(before, e) => Step(c, StateAfter(c, before), e)
  }

  /** A write is settled by `e` when its `repo.set` resolves or it runs out of attempts. */
  predicate Settles(c: Config, s: State, e: Event) {
    s.phase.Writing? &&
    (e.WriteSucceeds? || (e.WriteFails? && s.phase.op.attempts + 1 >= c.maxAttempts))
  }

  // ----- One flusher, bounded length -----

  /** Exactly one flush loop runs while anything is queued, and none otherwise. */
  predicate OneFlusher(s: State) {
    && (s.phase.Idle? <==> s.queue == [])
    && (s.flushPromise <==> !s.phase.Idle?)
    && s.flushers == if s.queue == [] then 0 else 1
  }

  predicate Bounded(c: Config, s: State) {
    |s.queue| <= 1 || |s.queue| <= c.maxQueueSize
  }

  lemma StepOneFlusher(c: Config, s: State, e: Event)
    requires OneFlusher(s) && Bounded(c, s)
    ensures OneFlusher(Step(c, s, e)) && Bounded(c, Step(c, s, e))
  {
  }

  /** At every atomic step a non-empty queue has exactly one active flusher, and its length is at most max(1, maxQueueSize). */
  lemma {:induction false} FlusherInvariant(c: Config, run: Run<Event>)
    ensures OneFlusher(StateAfter(c, run)) && Bounded(c, StateAfter(c, run))
  {
    if run.Then? {
      FlusherInvariant(c, run.before);
      StepOneFlusher(c, StateAfter(c, run.before), run.event);
    }
  }

  // ----- Numbering -----

  /** The queue holds the latest accepted writes without a gap. */
  predicate Contiguous(s: State) {
    |s.queue| <= s.nextId &&
    forall i :: 0 <= i < |s.queue| ==> s.queue[i].id == s.nextId - |s.queue| + i
  }

  /** The number of writes that have left the queue; also the number of the write at its head. */
  function Front(s: State): int {
    s.nextId - |s.queue|
  }

  /** The write in flight is the head of the queue, or was evicted since its `repo.set` began. */
  predicate InFlight(s: State) {
    s.phase.Writing? ==>
      && s.queue != [] && s.phase.op.id <= Front(s)
      && (s.phase.op.id == Front(s) ==> s.phase.op == s.queue[0])
      && (s.phase.op.id < Front(s) ==> s.phase.op.id in s.evicted)
  }

  predicate Wellformed(s: State) {
    OneFlusher(s) && Contiguous(s) && InFlight(s)
  }

  lemma FailContiguous(c: Config, s: State)
    requires Contiguous(s) && s.phase.Writing?
    ensures Contiguous(WriteFailed(c, s)) && Front(s) <= Front(WriteFailed(c, s))
  {
    hide Bump, Pow2;
  }

  lemma StepContiguous(c: Config, s: State, e: Event)
    requires Contiguous(s)
    ensures Contiguous(Step(c, s, e)) && Front(s) <= Front(Step(c, s, e))
  {
    if e.WriteFails? && s.phase.Writing? {
      hide WriteFailed, WriteSucceeded, Enqueued, Contiguous;
      FailContiguous(c, s);
    } else if e.Enqueue? {
      hide WriteFailed, WriteSucceeded;
    } else {
      hide WriteFailed, Enqueued;
    }
  }

  lemma StepInFlight(c: Config, s: State, e: Event)
    requires OneFlusher(s) && Contiguous(s) && InFlight(s)
    ensures InFlight(Step(c, s, e))
  {
    StepContiguous(c, s, e);
    if e.Enqueue? && !s.disposed {
      EnqueueInFlight(c, s);
    } else {
      hide Bump, Pow2, Enqueued;
    }
  }

  /** A write that enters a full queue evicts the head, and with it the write in flight if that is the head. */
  lemma EnqueueInFlight(c: Config, s: State)
    requires OneFlusher(s) && Contiguous(s) && InFlight(s) && !s.disposed
    ensures InFlight(Enqueued(c, s))
  {
    var kept := if |s.queue| >= c.maxQueueSize then DropOldest(s) else s;
    var queue := kept.queue + [Item(s.nextId, 0)];
    assert Enqueued(c, s).queue == queue;
    if s.queue != [] {
      assert kept == s ==> queue[0] == s.queue[0];
      assert kept != s ==> s.queue[0].id == Front(s) && s.queue[0].id in kept.evicted;
    }
  }

  lemma StepWellformed(c: Config, s: State, e: Event)
    requires Wellformed(s) && Bounded(c, s)
    ensures Wellformed(Step(c, s, e)) && Bounded(c, Step(c, s, e)) && Front(s) <= Front(Step(c, s, e))
  {
    hide OneFlusher, Contiguous, InFlight, Step;
    StepOneFlusher(c, s, e);
    StepContiguous(c, s, e);
    StepInFlight(c, s, e);
  }

  // ----- Commit order -----

  /** Everything settled or lost so far is older than this. */
  function Mark(s: State): int {
    if s.phase.Writing? then s.phase.op.id else Front(s)
  }

  predicate Increasing(ids: seq<nat>) {
    forall i, j :: 0 <= i < j < |ids| ==> ids[i] < ids[j]
  }

  predicate Ordered(s: State) {
    && Increasing(s.committed)
    && (forall i :: 0 <= i < |s.committed| ==> s.committed[i] < Mark(s))
  }

  lemma EnqueueOrdered(c: Config, s: State)
    requires Wellformed(s) && Ordered(s)
    ensures Ordered(Enqueued(c, s))
  {
    hide Increasing;
  }

  lemma SucceedOrdered(s: State)
    requires Wellformed(s) && Ordered(s) && s.phase.Writing?
    ensures Ordered(WriteSucceeded(s))
  {
  }

  lemma FailOrdered(c: Config, s: State)
    requires Wellformed(s) && Ordered(s) && s.phase.Writing?
    ensures Ordered(WriteFailed(c, s))
  {
    hide Increasing;
  }

  lemma StepOrdered(c: Config, s: State, e: Event)
    requires Wellformed(s) && Ordered(s)
    ensures Ordered(Step(c, s, e))
  {
    hide Enqueued, WriteSucceeded, WriteFailed, Increasing;
    match e
    case Enqueue => EnqueueOrdered(c, s);
    case WriteSucceeds => if s.phase.Writing? { SucceedOrdered(s); }
    case WriteFails => if s.phase.Writing? { FailOrdered(c, s); }
    case DelayElapses =>
    case Dispose =>
  }

  /**
   In every run, whatever is evicted or retried, writes commit in strictly increasing order of
   acceptance: nothing commits twice and nothing overtakes an earlier accepted write.
   */
  lemma {:induction false} CommitOrder(c: Config, run: Run<Event>)
    ensures Wellformed(StateAfter(c, run)) && Bounded(c, StateAfter(c, run)) && Ordered(StateAfter(c, run))
  {
    if run.Then? {
      CommitOrder(c, run.before);
      StepWellformed(c, StateAfter(c, run.before), run.event);
      StepOrdered(c, StateAfter(c, run.before), run.event);
    }
  }

  // ----- Where each write goes -----

  function Committed(s: State): set<nat> {
    set id | id in s.committed
  }

  function Settled(s: State): set<nat> {
    Committed(s) + s.failed
  }

  /** Writes that were evicted while in flight and then settled all the same. */
  function EvictedAndSettled(s: State): set<nat> {
    Settled(s) * s.evicted
  }

  predicate AllBelow(ids: set<nat>, bound: int) {
    forall id :: id in ids ==> id < bound
  }

  predicate Tracked(s: State) {
    && AllBelow(s.failed, Mark(s)) && AllBelow(s.lost, Mark(s)) && AllBelow(s.evicted, Front(s))
    && AllBelow(Committed(s), Mark(s))
    && (forall id: nat :: id < Front(s) ==> id in Settled(s) || id in s.evicted || id in s.lost)
    && Committed(s) !! s.failed
    && s.lost !! (Settled(s) + s.evicted)
  }

  lemma SucceedTracked(s: State)
    requires Wellformed(s) && Tracked(s) && s.phase.Writing?
    ensures Tracked(WriteSucceeded(s))
  {
    assert Committed(WriteSucceeded(s)) == Committed(s) + {s.phase.op.id};
  }

  lemma FailTracked(c: Config, s: State)
    requires Wellformed(s) && Tracked(s) && s.phase.Writing?
    ensures Tracked(WriteFailed(c, s))
  {
    hide Bump, Increasing, Pow2;
    assert Committed(WriteFailed(c, s)) == Committed(s);
  }

  lemma EnqueueTracked(c: Config, s: State)
    requires Wellformed(s) && Tracked(s)
    ensures Tracked(Enqueued(c, s))
  {
    assert Committed(Enqueued(c, s)) == Committed(s);
  }

  lemma {:induction false} StepTracked(c: Config, s: State, e: Event)
    requires Wellformed(s) && Tracked(s)
    ensures Tracked(Step(c, s, e))
  {
    if e.WriteSucceeds? && s.phase.Writing? {
      SucceedTracked(s);
    } else if e.WriteFails? && s.phase.Writing? {
      FailTracked(c, s);
    } else if e.Enqueue? {
      EnqueueTracked(c, s);
    } else {
      assert Committed(Step(c, s, e)) == Committed(s);
    }
  }

  // ----- Conservation -----

  /** The write in flight is still the head of the queue. */
  predicate AtHead(s: State)
    requires s.phase.Writing?
  {
    s.queue != [] && s.queue[0].id == s.phase.op.id
  }

  /** A settled write that is no longer at the head costs exactly one other write: the one that is. */
  lemma SettleCost(c: Config, s: State, e: Event)
    requires Wellformed(s) && Tracked(s) && Settles(c, s, e)
    ensures var s', id := Step(c, s, e), s.phase.op.id;
      if AtHead(s) then s'.lost == s.lost && EvictedAndSettled(s') == EvictedAndSettled(s)
      else s'.lost == s.lost + {Front(s)} && Front(s) !in s.lost &&
           EvictedAndSettled(s') == EvictedAndSettled(s) + {id} && id !in EvictedAndSettled(s)
  {
    hide Step;
    SettleAdds(c, s, e);
    assert s.phase.op.id !in Settled(s);
  }

  lemma SettleAdds(c: Config, s: State, e: Event)
    requires Wellformed(s) && Settles(c, s, e)
    ensures var s' := Step(c, s, e);
      && Settled(s') == Settled(s) + {s.phase.op.id} && s'.evicted == s.evicted
      && s'.lost == if AtHead(s) then s.lost else s.lost + {Front(s)}
  {
    hide WriteSucceeded, WriteFailed, Wellformed, Settled;
    if e.WriteSucceeds? {
      SuccessAdds(s);
    } else {
      GivingUpAdds(c, s);
    }
  }

  lemma SuccessAdds(s: State)
    requires Wellformed(s) && s.phase.Writing?
    ensures var s' := WriteSucceeded(s);
      && Settled(s') == Settled(s) + {s.phase.op.id} && s'.evicted == s.evicted
      && s'.lost == if AtHead(s) then s.lost else s.lost + {Front(s)}
  {
    assert Committed(WriteSucceeded(s)) == Committed(s) + {s.phase.op.id};
  }

  lemma GivingUpAdds(c: Config, s: State)
    requires Wellformed(s) && s.phase.Writing? && s.phase.op.attempts + 1 >= c.maxAttempts
    ensures var s' := WriteFailed(c, s);
      && Settled(s') == Settled(s) + {s.phase.op.id} && s'.evicted == s.evicted
      && s'.lost == if AtHead(s) then s.lost else s.lost + {Front(s)}
  {
    hide Bump, Pow2;
    assert Committed(WriteFailed(c, s)) == Committed(s);
  }

  lemma NothingSettled(c: Config, s: State, e: Event)
    requires Wellformed(s) && Tracked(s) && !Settles(c, s, e)
    ensures Step(c, s, e).lost == s.lost && EvictedAndSettled(Step(c, s, e)) == EvictedAndSettled(s)
  {
    var s' := Step(c, s, e);
    assert Committed(s') == Committed(s);
    assert Settled(s') == Settled(s);
    assert s'.evicted == s.evicted || s'.evicted == s.evicted + {Front(s)};
    assert Front(s) !in Settled(s);
  }

  lemma EmptyTracked()
    ensures Tracked(INITIAL) && EvictedAndSettled(INITIAL) == {} && INITIAL.lost == {}
  {
  }

  /**
   In every run each accepted write is pending, committed, failed, evicted or lost, and as many
   writes are lost as were evicted in flight and then settled all the same.
   */
  lemma {:induction false} WhereWritesGo(c: Config, run: Run<Event>)
    ensures Wellformed(StateAfter(c, run)) && Tracked(StateAfter(c, run))
    ensures |StateAfter(c, run).lost| == |EvictedAndSettled(StateAfter(c, run))|
  {
    hide Step, Tracked, EvictedAndSettled, Ordered, Bounded, Settles;
    CommitOrder(c, run);
    if run.Start? {
      EmptyTracked();
    } else {
      var s := StateAfter(c, run.before);
      CommitOrder(c, run.before);
      WhereWritesGo(c, run.before);
      StepTracked(c, s, run.event);
      if Settles(c, s, run.event) {
        SettleCost(c, s, run.event);
      } else {
        NothingSettled(c, s, run.event);
      }
    }
  }

  predicate Pending(s: State, id: nat) {
    exists i :: 0 <= i < |s.queue| && s.queue[i].id == id
  }

  /** In how many of the four places the write shows up. */
  function Places(s: State, id: nat): nat {
    (if Pending(s, id) then 1 else 0) + (if id in s.committed then 1 else 0) +
    (if id in s.failed then 1 else 0) + (if id in s.evicted then 1 else 0)
  }

  predicate Conserved(s: State) {
    forall id: nat :: id < s.nextId ==> Places(s, id) == 1
  }

  lemma PendingFromFront(s: State, id: nat)
    requires Contiguous(s)
    ensures Pending(s, id) <==> Front(s) <= id < s.nextId
  {
    if Front(s) <= id < s.nextId {
      assert s.queue[id - Front(s)].id == id;
    }
  }

  lemma ConservedIffNothingLost(s: State)
    requires Contiguous(s) && Tracked(s) && Front(s) >= 0 && Mark(s) <= Front(s)
    requires |s.lost| == |EvictedAndSettled(s)|
    ensures Conserved(s) <==> EvictedAndSettled(s) == {}
  {
    if EvictedAndSettled(s) == {} {
      assert s.lost == {};
      forall id: nat | id < s.nextId ensures Places(s, id) == 1 {
        PendingFromFront(s, id);
        assert id in Committed(s) <==> id in s.committed;
        assert id !in EvictedAndSettled(s);
        assert id !in s.lost;
      }
    } else {
      var id :| id in EvictedAndSettled(s);
      assert id in Committed(s) <==> id in s.committed;
      assert id < s.nextId && Places(s, id) >= 2;
    }
  }

  /** Whenever a write settled in this run, it was still at the head of the queue. */
  predicate SettledAtHead(c: Config, run: Run<Event>) {
    run.Then? ==>
      && SettledAtHead(c, run.before)
      && (Settles(c, StateAfter(c, run.before), run.event) ==> AtHead(StateAfter(c, run.before)))
  }

  lemma {:induction false} LossIffSettledOffHead(c: Config, run: Run<Event>)
    ensures EvictedAndSettled(StateAfter(c, run)) == {} <==> SettledAtHead(c, run)
  {
    if run.Then? {
      var s := StateAfter(c, run.before);
      LossIffSettledOffHead(c, run.before);
      WhereWritesGo(c, run.before);
      if Settles(c, s, run.event) {
        SettleCost(c, s, run.event);
      } else {
        NothingSettled(c, s, run.event);
      }
    }
  }

  /**
   Conservation, with its exact condition: every accepted write is in exactly one of pending,
   committed, failed and evicted if and only if every write that settled was still at the head.
   */
  lemma {:induction false} ConservationIff(c: Config, run: Run<Event>)
    ensures Conserved(StateAfter(c, run)) <==> SettledAtHead(c, run)
  {
    hide StateAfter;
    WhereWritesGo(c, run);
    LossIffSettledOffHead(c, run);
    ConservedIffNothingLost(StateAfter(c, run));
  }

  predicate EvictsInFlight(c: Config, s: State, e: Event) {
    e.Enqueue? && !s.disposed && |s.queue| >= c.maxQueueSize && s.phase.Writing? && AtHead(s)
  }

  /** No enqueue of the run evicted a write whose `repo.set` was awaited. */
  predicate Undisturbed(c: Config, run: Run<Event>) {
    run.Then? ==> Undisturbed(c, run.before) && !EvictsInFlight(c, StateAfter(c, run.before), run.event)
  }

  lemma StepStaysAtHead(c: Config, s: State, e: Event)
    requires Wellformed(s) && (s.phase.Writing? ==> AtHead(s)) && !EvictsInFlight(c, s, e)
    ensures Step(c, s, e).phase.Writing? ==> AtHead(Step(c, s, e))
  {
  }

  lemma {:induction false} UndisturbedSettlesAtHead(c: Config, run: Run<Event>)
    requires Undisturbed(c, run)
    ensures SettledAtHead(c, run)
    ensures StateAfter(c, run).phase.Writing? ==> AtHead(StateAfter(c, run))
  {
    if run.Then? {
      UndisturbedSettlesAtHead(c, run.before);
      WhereWritesGo(c, run.before);
      StepStaysAtHead(c, StateAfter(c, run.before), run.event);
    }
  }

  /** In runs where no eviction hits the write in flight, every accepted write is in exactly one place. */
  lemma {:induction false} UndisturbedConserves(c: Config, run: Run<Event>)
    requires Undisturbed(c, run)
    ensures Conserved(StateAfter(c, run))
  {
    UndisturbedSettlesAtHead(c, run);
    ConservationIff(c, run);
  }

  /** `n` writes arrive while the first one is in flight. */
  function Enqueues(n: nat): Run<Event> {
    if n == 0 then Start else Then(Enqueues(n - 1), Enqueue)
  }

  function Capacity(c: Config): nat {
    if c.maxQueueSize < 1 then 1 else c.maxQueueSize
  }

  /** Writes `from`, ..., `to - 1`, not yet tried. */
  predicate HoldsNew(queue: seq<Item>, from: nat, to: nat) {
    from <= to && |queue| == to - from && forall i :: 0 <= i < |queue| ==> queue[i] == Item(from + i, 0)
  }

  /** Write 0 is in flight, and nothing has settled. */
  predicate FirstInFlight(s: State, accepted: nat) {
    && s.phase == Writing(Item(0, 0)) && s.flushPromise && !s.disposed && s.nextId == accepted
    && s.committed == [] && s.failed == {} && s.lost == {}
  }

  lemma {:induction false} QueueFills(c: Config, n: nat)
    requires 1 <= n <= Capacity(c)
    ensures var s := StateAfter(c, Enqueues(n));
      FirstInFlight(s, n) && HoldsNew(s.queue, 0, n) && s.evicted == {}
  {
    if n > 1 {
      QueueFills(c, n - 1);
    }
  }

  /** One write too many evicts the first, which stays in flight. */
  lemma QueueOverflows(c: Config)
    ensures var n := Capacity(c);
      var s := StateAfter(c, Enqueues(n + 1));
      FirstInFlight(s, n + 1) && HoldsNew(s.queue, 1, n + 1) && s.evicted == {0}
  {
    hide NextIteration;
    QueueFills(c, Capacity(c));
  }

  /**
   The failing run, for every size: one write more than the queue has room for evicts the first
   write in flight, whose commit then discards the second.
   */
  lemma {:induction false} EvictionInFlightLosesSuccessor(c: Config)
    ensures var n := Capacity(c);
      var s := StateAfter(c, Then(Enqueues(n + 1), WriteSucceeds));
      && s.committed == [0] && s.evicted == {0} && s.failed == {} && s.lost == {1}
      && HoldsNew(s.queue, 2, n + 1) && Places(s, 1) == 0 && !Conserved(s)
  {
    hide Enqueues;
    var n := Capacity(c);
    var s, s' := StateAfter(c, Enqueues(n + 1)), StateAfter(c, Then(Enqueues(n + 1), WriteSucceeds));
    QueueOverflows(c);
    assert s' == WriteSucceeded(s);
    assert s'.queue == s.queue[1..];
    assert !Pending(s', 1);
    assert s'.nextId > 1 && Places(s', 1) == 0;
  }
}
