/**
 The durable write queue of memory-plane/src/write-queue.ts.

 JavaScript runs the code between two awaits atomically, so a run is a sequence of atomic steps:
 `enqueue`, the synchronous part of `dispose`, and the three continuations of the flush loop
 (`repo.set` resolved, `repo.set` rejected, the backoff timer fired).  Steps that cannot happen
 in a state leave it unchanged, so every sequence of events is a run.

 Writes are numbered in the order in which `enqueue` accepts them.  `committed`, `failed`,
 `evicted` and `lost` record what became of the writes that left the queue; `lost` are those
 that the unconditional shift after a settled write took out although another one had settled.
 */
module WriteQueues {
  import opened Runs

  datatype Config = Config(maxAttempts: int, backoffBaseMs: nat, maxQueueSize: int)

  datatype Item = Item(id: nat, attempts: nat)

  /** Where the flush loop is suspended. */
  datatype Phase = Idle | Writing(op: Item) | Delaying

  datatype State = State(
    queue: seq<Item>,
    phase: Phase,
    flushPromise: bool,
    flushers: int,
    disposed: bool,
    nextId: nat,
    committed: seq<nat>,
    failed: set<nat>,
    evicted: set<nat>,
    lost: set<nat>,
    tries: map<nat, nat>,
    waited: map<nat, nat>)

  const INITIAL := State([], Idle, false, 0, false, 0, [], {}, {}, {}, map[], map[])

  function Pow2(n: nat): nat {
    if n == 0 then 1 else 2 * Pow2(n - 1)
  }

  function Count(m: map<nat, nat>, id: nat): nat {
    if id in m then m[id] else 0
  }

  /** The loop head: take the oldest write and start `repo.set`, or leave the loop. */
  function NextIteration(s: State): State {
    if (!s.disposed || |s.queue| > 0) && s.queue != [] then
      var op := s.queue[0];
      s.(phase := Writing(op), tries := s.tries[op.id := Count(s.tries, op.id) + 1])
    else
      s.(phase := Idle, flushPromise := false, flushers := s.flushers - 1)
  }

  function DropOldest(s: State): State {
    if s.queue == [] then s
    else s.(queue := s.queue[1..], evicted := s.evicted + {s.queue[0].id})
  }

  function Enqueued(c: Config, s: State): State {
    if s.disposed then s
    else
      var s1 := if |s.queue| >= c.maxQueueSize then DropOldest(s) else s;
      var s2 := s1.(queue := s1.queue + [Item(s1.nextId, 0)], nextId := s1.nextId + 1);
      if s2.flushPromise then s2
      else NextIteration(s2.(flushers := s2.flushers + 1)).(flushPromise := true)
  }

  /** `queue.shift()` after the write `settled` has settled. */
  function Shift(s: State, settled: nat): State {
    if s.queue == [] then s
    else
      var head := s.queue[0].id;
      s.(queue := s.queue[1..], lost := if head == settled then s.lost else s.lost + {head})
  }

  /** The queue after the write with this id, if still queued, has had one more attempt. */
  function Bump(queue: seq<Item>, id: nat): (r: seq<Item>)
    ensures |r| == |queue|
    ensures forall i :: 0 <= i < |queue| ==>
      r[i] == Item(queue[i].id, queue[i].attempts + if queue[i].id == id then 1 else 0)
  {
    seq(|queue|, i requires 0 <= i < |queue| =>
      if queue[i].id == id then queue[i].(attempts := queue[i].attempts + 1) else queue[i])
  }

  function WriteSucceeded(s: State): State
    requires s.phase.Writing?
  {
    NextIteration(Shift(s.(committed := s.committed + [s.phase.op.id]), s.phase.op.id))
  }

  function WriteFailed(c: Config, s: State): State
    requires s.phase.Writing?
  {
    var id, attempts := s.phase.op.id, s.phase.op.attempts + 1;
    var s1 := s.(queue := Bump(s.queue, id), phase := Writing(Item(id, attempts)));
    if attempts >= c.maxAttempts then
      NextIteration(Shift(s1.(failed := s1.failed + {id}), id))
    else
      s1.(phase := Delaying, waited := s1.waited[id := Count(s1.waited, id) + c.backoffBaseMs * Pow2(attempts - 1)])
  }

  // ----- The class -----

  class WriteOp {
    const id: nat
    var attempts: nat

    constructor (id: nat)
      ensures this.id == id && attempts == 0
    {
      this.id := id;
      attempts := 0;
    }

    function Value(): Item
      reads this
    {
      Item(id, attempts)
    }
  }

  class MemoryWriteQueue {
    const config: Config
    var queue: seq<WriteOp>
    var flushPromise: bool
    var disposed: bool
    var nextId: nat
    /** The write whose `repo.set` is awaited, and whether the backoff delay is awaited instead. */
    var inFlight: WriteOp?
    var delaying: bool
    ghost var flushers: int
    ghost var committed: seq<nat>
    ghost var failed: set<nat>
    ghost var evicted: set<nat>
    ghost var lost: set<nat>
    ghost var tries: map<nat, nat>
    ghost var waited: map<nat, nat>

    ghost function Items(ops: seq<WriteOp>): (items: seq<Item>)
      reads ops
      ensures |items| == |ops|
      ensures forall i :: 0 <= i < |ops| ==> items[i] == ops[i].Value()
    {
      seq(|ops|, i requires 0 <= i < |ops| reads ops => ops[i].Value())
    }

    ghost function View(): State
      reads this, queue, inFlight
    {
      State(Items(queue),
            if delaying then Delaying else if inFlight != null then Writing(inFlight.Value()) else Idle,
            flushPromise, flushers, disposed, nextId, committed, failed, evicted, lost, tries, waited)
    }

    /** A queued write and the one in flight are the same object exactly when they have the same number. */
    ghost predicate Valid()
      reads this, queue, inFlight
    {
      && (forall i :: 0 <= i < |queue| ==> queue[i].id < nextId)
      && (inFlight != null ==> inFlight.id < nextId)
      && (inFlight != null ==> forall i :: 0 <= i < |queue| && queue[i].id == inFlight.id ==> queue[i] == inFlight)
      && (forall i, j :: 0 <= i < j < |queue| ==> queue[i].id != queue[j].id)
    }

    constructor (config: Config)
      ensures this.config == config && Valid() && View() == INITIAL
    {
      this.config := config;
      queue, flushPromise, disposed, nextId, inFlight, delaying := [], false, false, 0, null, false;
      flushers, committed, failed, evicted, lost, tries, waited := 0, [], {}, {}, {}, map[], map[];
    }

    method Enqueue() returns (accepted: bool)
      requires Valid()
      modifies this
      ensures Valid() && View() == Enqueued(config, old(View()))
      ensures accepted == !old(disposed)
    {
      hide Valid, NextIteration, Items;
      if disposed {
        return false;
      }
      if |queue| >= config.maxQueueSize {
        DropOldestWrite();
      }
      Push();
      if !flushPromise {
        StartFlush();
      }
      return true;
    }

    /** `this.flushPromise = this.flush()`: the flush runs to its first await before the assignment. */
    method StartFlush()
      requires Valid()
      modifies this`inFlight, this`delaying, this`tries, this`flushPromise, this`flushers
      ensures Valid()
      ensures View() == NextIteration(old(View()).(flushers := old(flushers) + 1)).(flushPromise := true)
    {
      hide Items, NextIteration;
      flushers := flushers + 1;
      RunToAwait();
      flushPromise := true;
    }

    method Push()
      requires Valid()
      modifies this`queue, this`nextId
      ensures Valid()
      ensures View() == old(View()).(queue := old(View()).queue + [Item(old(nextId), 0)], nextId := old(nextId) + 1)
    {
      var op := new WriteOp(nextId);
      queue := queue + [op];
      nextId := nextId + 1;
      assert Items(queue) == old(Items(queue)) + [Item(old(nextId), 0)];
    }

    method DropOldestWrite()
      requires Valid()
      modifies this`queue, this`evicted
      ensures Valid() && View() == DropOldest(old(View()))
    {
      if |queue| > 0 {
        evicted := evicted + {queue[0].id};
        queue := queue[1..];
        assert Items(queue) == old(Items(queue))[1..];
      }
    }

    method ShiftWrite(ghost settled: nat)
      requires Valid()
      modifies this`queue, this`lost
      ensures Valid() && View() == Shift(old(View()), settled)
    {
      if |queue| > 0 {
        lost := if queue[0].id == settled then lost else lost + {queue[0].id};
        queue := queue[1..];
        assert Items(queue) == old(Items(queue))[1..];
      }
    }

    /** From the head of the flush loop to its next await, or to the end of `flush`. */
    method RunToAwait()
      requires Valid()
      modifies this`inFlight, this`delaying, this`tries, this`flushPromise, this`flushers
      ensures Valid() && View() == NextIteration(old(View()))
    {
      hide Items;
      delaying := false;
      if !disposed || |queue| > 0 {
        if queue != [] {
          inFlight := queue[0];
          tries := tries[inFlight.id := Count(tries, inFlight.id) + 1];
          return;
        }
      }
      inFlight := null;
      flushPromise := false;
      flushers := flushers - 1;
    }

    /** `await this.repo.set(...)` has resolved. */
    method OnWriteSucceeded()
      requires Valid() && inFlight != null && !delaying
      modifies this
      ensures Valid() && View() == WriteSucceeded(old(View()))
    {
      var op := inFlight;
      committed := committed + [op.id];
      ShiftWrite(op.id);
      RunToAwait();
    }

    method CountAttempt(op: WriteOp)
      requires Valid() && inFlight == op && !delaying
      modifies op
      ensures Valid() && op.attempts == old(op.attempts) + 1
      ensures View() == old(View()).(queue := Bump(old(View()).queue, op.id), phase := Writing(Item(op.id, old(op.attempts) + 1)))
    {
      op.attempts := op.attempts + 1;
      assert Items(queue) == Bump(old(Items(queue)), op.id);
    }

    /** `await this.repo.set(...)` has rejected. */
    method OnWriteFailed()
      requires Valid() && inFlight != null && !delaying
      modifies this, inFlight
      ensures Valid() && View() == WriteFailed(config, old(View()))
    {
      hide NextIteration, Shift, Bump, Items, Pow2, Count;
      var op := inFlight;
      CountAttempt(op);
      if op.attempts >= config.maxAttempts {
        GiveUp(op.id);
        RunToAwait();
      } else {
        waited := waited[op.id := Count(waited, op.id) + config.backoffBaseMs * Pow2(op.attempts - 1)];
        delaying := true;
      }
    }

    method GiveUp(id: nat)
      requires Valid()
      modifies this`queue, this`lost, this`failed
      ensures Valid() && View() == Shift(old(View()).(failed := old(failed) + {id}), id)
    {
      failed := failed + {id};
      ShiftWrite(id);
    }

    /** `await this.delay(...)` has resolved. */
    method OnDelayElapsed()
      requires Valid() && delaying
      modifies this
      ensures Valid() && View() == NextIteration(old(View()))
    {
      RunToAwait();
    }

    /** The synchronous part of `dispose`; what follows only waits for the flush loop. */
    method Dispose()
      requires Valid()
      modifies this`disposed
      ensures Valid() && View() == old(View()).(disposed := true)
    {
      disposed := true;
    }
  }
}
