/**
 The counting semaphore of packages/shared/src/grpc/async-semaphore.ts.

 Each call of `acquire` gets the next id, so ids are arrival order.  `resolved` records every
 call of a promise's `resolve`, in order; an `acquire` that returns at once counts as resolved
 with `true`.  A run interleaves acquires, timer callbacks and releases in any order.
 */
module AsyncSemaphores {
  import opened Options
  import opened Runs

  datatype Waiter = Waiter(id: nat, timed: bool)
  datatype Resolution = Resolution(id: nat, granted: bool)
  datatype State = State(current: nat, waiters: seq<Waiter>, nextId: nat, resolved: seq<Resolution>)

  /** `timeoutMs && timeoutMs > 0` */
  predicate IsTimed(timeoutMs: Option<int>) {
    timeoutMs.Some? && timeoutMs.value > 0
  }

  /** The position of the waiter with this id, or `|ws|` when it is not waiting. */
  function IndexOf(ws: seq<Waiter>, id: nat): (k: nat)
    ensures k <= |ws|
    ensures k < |ws| ==> ws[k].id == id
    ensures forall i :: 0 <= i < k ==> ws[i].id != id
  {
    if ws == [] || ws[0].id == id then 0 else 1 + IndexOf(ws[1..], id)
  }

  function Acquired(max: int, s: State, timeoutMs: Option<int>): State {
    if s.current < max then
      s.(current := s.current + 1, nextId := s.nextId + 1, resolved := s.resolved + [Resolution(s.nextId, true)])
    else
      s.(waiters := s.waiters + [Waiter(s.nextId, IsTimed(timeoutMs))], nextId := s.nextId + 1)
  }

  function TimedOut(s: State, id: nat): State {
    var k := IndexOf(s.waiters, id);
    if k < |s.waiters| && s.waiters[k].timed then
      s.(waiters := s.waiters[..k] + s.waiters[k + 1..], resolved := s.resolved + [Resolution(id, false)])
    else
      s
  }

  function Released(s: State): State {
    if s.waiters != [] then
      s.(waiters := s.waiters[1..], resolved := s.resolved + [Resolution(s.waiters[0].id, true)])
    else if s.current > 0 then
      s.(current := s.current - 1)
    else
      s
  }

  class AsyncSemaphore {
    const max: int
    var current: nat
    var waiters: seq<Waiter>
    var nextId: nat
    var resolved: seq<Resolution>

    function View(): State
      reads this
    {
      State(current, waiters, nextId, resolved)
    }

    constructor (max: int)
      ensures this.max == max && View() == State(0, [], 0, [])
    {
      this.max := max;
      current, waiters, nextId, resolved := 0, [], 0, [];
    }

    /** The source's constructor throws when `max < 1`; here that is the result `null`. */
    static method Create(max: int) returns (semaphore: AsyncSemaphore?)
      ensures semaphore == null <==> max < 1
      ensures semaphore != null ==> fresh(semaphore) && semaphore.max == max && semaphore.View() == State(0, [], 0, [])
    {
      if max < 1 {
        return null;
      }
      semaphore := new AsyncSemaphore(max);
    }

    method Acquire(timeoutMs: Option<int>)
      modifies this
      ensures View() == Acquired(max, old(View()), timeoutMs)
    {
      var id := nextId;
      nextId := nextId + 1;
      if current < max {
        current := current + 1;
        resolved := resolved + [Resolution(id, true)];
        return;
      }
      var timed := false;
      if timeoutMs.Some? && timeoutMs.value > 0 {
        timed := true;
      }
      waiters := waiters + [Waiter(id, timed)];
    }

    /** The callback of the timer that `Acquire` sets when it is given a positive timeout. */
    method TimerFires(id: nat)
      modifies this
      ensures View() == TimedOut(old(View()), id)
    {
      var idx := IndexOf(waiters, id);
      if idx < |waiters| && waiters[idx].timed {
        waiters := waiters[..idx] + waiters[idx + 1..];
        resolved := resolved + [Resolution(id, false)];
      }
    }

    method Release()
      modifies this
      ensures View() == Released(old(View()))
    {
      if |waiters| > 0 {
        var next := waiters[0];
        waiters := waiters[1..];
        resolved := resolved + [Resolution(next.id, true)];
      } else if current > 0 {
        current := current - 1;
      }
    }
  }

  // ----- Runs -----

  /** `holder` is the acquire whose permit the caller gives back. */
  datatype Event = Acquire(timeoutMs: Option<int>) | Timer(id: nat) | Release(holder: nat)

  function Step(max: int, s: State, e: Event): State {
    match e
    case Acquire(timeoutMs) => Acquired(max, s, timeoutMs)
    case Timer(id) => TimedOut(s, id)
    case Release(_) => Released(s)
  }

  function StateAfter(max: int, run: Run<Event>): State {
    match run
    case Start => State(0, [], 0, [])
    case Then(before, e) => Step(max, StateAfter(max, before), e)
  }

  /** The acquires that hold a permit once `s` has become `s'` through `e`. */
  function HoldersStep(holders: set<nat>, s: State, e: Event, s': State): set<nat> {
    var granted := set i | |s.resolved| <= i < |s'.resolved| && s'.resolved[i].granted :: s'.resolved[i].id;
    (if e.Release? then holders - {e.holder} else holders) + granted
  }

  function Holders(max: int, run: Run<Event>): set<nat> {
    match run
    case Start => {}
    case Then(before, e) => HoldersStep(Holders(max, before), StateAfter(max, before), e, StateAfter(max, run))
  }

  /** Only an acquire that holds a permit gives one back, or somebody releases while nothing is held. */
  predicate Behaved(max: int, run: Run<Event>) {
    run.Then? ==>
      Behaved(max, run.before) &&
      (run.event.Release? ==> run.event.holder in Holders(max, run.before) || Holders(max, run.before) == {})
  }

  /** At every point of the run, `running` is the number of outstanding permits. */
  predicate AlwaysBalanced(max: int, run: Run<Event>) {
    StateAfter(max, run).current == |Holders(max, run)| && (run.Then? ==> AlwaysBalanced(max, run.before))
  }

  // ----- What holds after every behaved run -----

  predicate Waiting(s: State, id: nat) {
    exists i :: 0 <= i < |s.waiters| && s.waiters[i].id == id
  }

  predicate Resolved(s: State, id: nat) {
    exists i :: 0 <= i < |s.resolved| && s.resolved[i].id == id
  }

  /** The queue is in arrival order and nobody waits while a permit is free. */
  predicate Queued(max: int, s: State) {
    && s.current <= max
    && (s.waiters != [] ==> s.current == max)
    && (forall i, j :: 0 <= i < j < |s.waiters| ==> s.waiters[i].id < s.waiters[j].id)
    && (forall i :: 0 <= i < |s.waiters| ==> s.waiters[i].id < s.nextId)
  }

  /** Every promise resolves at most once, and not while it still waits. */
  predicate ResolvedOnce(s: State) {
    && (forall i, j :: 0 <= i < j < |s.resolved| ==> s.resolved[i].id != s.resolved[j].id)
    && (forall i, j :: 0 <= i < |s.resolved| && 0 <= j < |s.waiters| ==> s.resolved[i].id != s.waiters[j].id)
    && (forall i :: 0 <= i < |s.resolved| ==> s.resolved[i].id < s.nextId)
  }

  /** No acquire is lost: each one has resolved or still waits. */
  predicate Accounted(s: State) {
    forall id: nat :: id < s.nextId ==> Waiting(s, id) || Resolved(s, id)
  }

  /** Grants follow arrival order, and nobody is granted past an acquire that still waits. */
  predicate Fifo(s: State) {
    && (forall i, j :: 0 <= i < j < |s.resolved| && s.resolved[i].granted && s.resolved[j].granted ==>
          s.resolved[i].id < s.resolved[j].id)
    && (forall i, j :: 0 <= i < |s.resolved| && 0 <= j < |s.waiters| && s.resolved[i].granted ==>
          s.resolved[i].id < s.waiters[j].id)
  }

  /** `running` is the number of outstanding permits, and permits are held by granted acquires. */
  predicate Balanced(s: State, holders: set<nat>) {
    && s.current == |holders|
    && (forall id :: id in holders ==> Resolved(s, id))
  }

  /** The waiters without the one at position `k`. */
  function Without(ws: seq<Waiter>, k: nat): seq<Waiter>
    requires k < |ws|
  {
    ws[..k] + ws[k + 1..]
  }

  lemma WithoutAt(ws: seq<Waiter>, k: nat)
    requires k < |ws|
    ensures |Without(ws, k)| == |ws| - 1
    ensures forall i :: 0 <= i < |ws| - 1 ==> Without(ws, k)[i] == ws[if i < k then i else i + 1]
  {
  }

  lemma StepQueued(max: int, s: State, e: Event)
    requires Queued(max, s)
    ensures Queued(max, Step(max, s, e))
  {
    hide TimedOut;
    if e.Timer? {
      hide Queued;
      TimerQueued(max, s, e.id);
    }
  }

  lemma TimerQueued(max: int, s: State, id: nat)
    requires Queued(max, s)
    ensures Queued(max, TimedOut(s, id))
  {
    var s', k := TimedOut(s, id), IndexOf(s.waiters, id);
    if s' != s {
      WithoutAt(s.waiters, k);
      assert s'.waiters == Without(s.waiters, k);
      hide TimedOut, Without;
    }
  }

  lemma StepResolvedOnce(max: int, s: State, e: Event)
    requires Queued(max, s) && ResolvedOnce(s)
    ensures ResolvedOnce(Step(max, s, e))
  {
    hide Acquired, TimedOut, Released, ResolvedOnce;
    match e
    case Acquire(timeoutMs) => AcquireResolvedOnce(max, s, timeoutMs);
    case Timer(id) => TimerResolvedOnce(s, id);
    case Release(_) => ReleaseResolvedOnce(max, s);
  }

  lemma AcquireResolvedOnce(max: int, s: State, timeoutMs: Option<int>)
    requires Queued(max, s) && ResolvedOnce(s)
    ensures ResolvedOnce(Acquired(max, s, timeoutMs))
  {
  }

  lemma TimerResolvedOnce(s: State, id: nat)
    requires ResolvedOnce(s) && forall i, j :: 0 <= i < j < |s.waiters| ==> s.waiters[i].id < s.waiters[j].id
    requires forall i :: 0 <= i < |s.waiters| ==> s.waiters[i].id < s.nextId
    ensures ResolvedOnce(TimedOut(s, id))
  {
  }

  lemma ReleaseResolvedOnce(max: int, s: State)
    requires Queued(max, s) && ResolvedOnce(s)
    ensures ResolvedOnce(Released(s))
  {
  }

  lemma StepFifo(max: int, s: State, e: Event)
    requires Queued(max, s) && ResolvedOnce(s) && Fifo(s)
    ensures Fifo(Step(max, s, e))
  {
    hide Acquired, TimedOut, Released, ResolvedOnce, Fifo;
    match e
    case Acquire(timeoutMs) => AcquireFifo(max, s, timeoutMs);
    case Timer(id) => TimerFifo(s, id);
    case Release(_) => ReleaseFifo(max, s);
  }

  lemma AcquireFifo(max: int, s: State, timeoutMs: Option<int>)
    requires Queued(max, s) && ResolvedOnce(s) && Fifo(s)
    ensures Fifo(Acquired(max, s, timeoutMs))
  {
  }

  lemma TimerFifo(s: State, id: nat)
    requires Fifo(s)
    ensures Fifo(TimedOut(s, id))
  {
  }

  lemma ReleaseFifo(max: int, s: State)
    requires Queued(max, s) && Fifo(s)
    ensures Fifo(Released(s))
  {
  }

  lemma StepAccounted(max: int, s: State, e: Event)
    requires Accounted(s)
    ensures Accounted(Step(max, s, e))
  {
    var s' := Step(max, s, e);
    forall id: nat | id < s'.nextId ensures Waiting(s', id) || Resolved(s', id) {
      StepKeepsTrack(max, s, e, id);
    }
  }

  lemma StepKeepsTrack(max: int, s: State, e: Event, id: nat)
    requires id < s.nextId ==> Waiting(s, id) || Resolved(s, id)
    requires id < Step(max, s, e).nextId
    ensures Waiting(Step(max, s, e), id) || Resolved(Step(max, s, e), id)
  {
    var s' := Step(max, s, e);
    if id == s.nextId {
      assert s.current < max ==> s'.resolved[|s.resolved|].id == id;
      assert s.current >= max ==> s'.waiters[|s.waiters|].id == id;
    } else if Resolved(s, id) {
      var i :| 0 <= i < |s.resolved| && s.resolved[i].id == id;
      assert s'.resolved[i].id == id;
    } else {
      var i :| 0 <= i < |s.waiters| && s.waiters[i].id == id;
      var n := |s.resolved|;
      match e
      case Acquire(_) => assert s'.waiters[i].id == id;
      case Release(_) =>
        if i == 0 {
          assert s'.resolved[n].id == id;
        } else {
          assert s'.waiters[i - 1].id == id;
        }
      case Timer(t) =>
        var k := IndexOf(s.waiters, t);
        if s' == s {
        } else if i == k {
          assert s'.resolved[n].id == id;
        } else {
          assert s'.waiters[if i < k then i else i - 1].id == id;
        }
    }
  }

  /** The acquires that `e` grants: at most one. */
  function GrantedBy(max: int, s: State, e: Event): set<nat> {
    match e
    case Acquire(_) => if s.current < max then {s.nextId} else {}
    case Timer(_) => {}
    case Release(_) => if s.waiters != [] then {s.waiters[0].id} else {}
  }

  /** The resolutions that an event adds: at most one. */
  lemma ResolutionsAdded(max: int, s: State, e: Event)
    ensures var s', n := Step(max, s, e), |s.resolved|;
      && |s'.resolved| <= n + 1
      && (|s'.resolved| == n + 1 && s'.resolved[n].granted ==> GrantedBy(max, s, e) == {s'.resolved[n].id})
      && (|s'.resolved| <= n || !s'.resolved[n].granted ==> GrantedBy(max, s, e) == {})
  {
  }

  lemma HoldersChange(max: int, s: State, holders: set<nat>, e: Event)
    ensures HoldersStep(holders, s, e, Step(max, s, e))
         == (if e.Release? then holders - {e.holder} else holders) + GrantedBy(max, s, e)
  {
    hide Step, GrantedBy;
    var s', n := Step(max, s, e), |s.resolved|;
    ResolutionsAdded(max, s, e);
    var granted := set i | n <= i < |s'.resolved| && s'.resolved[i].granted :: s'.resolved[i].id;
    if |s'.resolved| > n {
      assert granted == if s'.resolved[n].granted then {s'.resolved[n].id} else {};
    }
    assert granted == GrantedBy(max, s, e);
  }

  lemma GrantedIsNew(max: int, s: State, holders: set<nat>, e: Event)
    requires Queued(max, s) && ResolvedOnce(s) && Balanced(s, holders)
    ensures holders !! GrantedBy(max, s, e)
  {
    forall id | id in holders ensures id !in GrantedBy(max, s, e) {
      assert Resolved(s, id);
    }
  }

  lemma StaysResolved(max: int, s: State, e: Event, id: nat)
    requires Resolved(s, id) || id in GrantedBy(max, s, e)
    ensures Resolved(Step(max, s, e), id)
  {
    var s' := Step(max, s, e);
    if Resolved(s, id) {
      var i :| 0 <= i < |s.resolved| && s.resolved[i].id == id;
      assert s'.resolved[i].id == id;
    } else {
      assert s'.resolved[|s.resolved|].id == id;
    }
  }

  /** A release keeps `running` equal to the outstanding permits exactly when a holder makes it or nothing is held. */
  lemma StepBalancedIff(max: int, s: State, holders: set<nat>, holder: nat)
    requires max >= 1 && Queued(max, s) && ResolvedOnce(s) && Balanced(s, holders)
    ensures var s' := Step(max, s, Release(holder));
      s'.current == |HoldersStep(holders, s, Release(holder), s')| <==> holder in holders || holders == {}
  {
    HoldersChange(max, s, holders, Release(holder));
    hide HoldersStep, ResolvedOnce;
    GrantedIsNew(max, s, holders, Release(holder));
  }

  lemma StepBalanced(max: int, s: State, holders: set<nat>, e: Event)
    requires max >= 1 && Queued(max, s) && ResolvedOnce(s) && Balanced(s, holders)
    requires e.Release? ==> e.holder in holders || holders == {}
    ensures Balanced(Step(max, s, e), HoldersStep(holders, s, e, Step(max, s, e)))
  {
    hide Queued, ResolvedOnce, HoldersStep;
    var s', holders' := Step(max, s, e), HoldersStep(holders, s, e, Step(max, s, e));
    HoldersChange(max, s, holders, e);
    GrantedIsNew(max, s, holders, e);
    if e.Release? {
      StepBalancedIff(max, s, holders, e.holder);
    } else {
      assert s'.current == s.current + |GrantedBy(max, s, e)|;
    }
    forall id | id in holders' ensures Resolved(s', id) {
      StaysResolved(max, s, e, id);
    }
  }

  /**
   After every behaved run: `running` equals the number of outstanding permits and is at most
   `max`; waiters exist only when `running` is `max`; every acquire has resolved exactly once or
   still waits; grants went in arrival order without barging.
   */
  lemma {:induction false} RunInvariant(max: int, run: Run<Event>)
    requires max >= 1 && Behaved(max, run)
    ensures var s := StateAfter(max, run);
            Queued(max, s) && ResolvedOnce(s) && Accounted(s) && Fifo(s) && Balanced(s, Holders(max, run))
  {
    if run.Then? {
      var s := StateAfter(max, run.before);
      RunInvariant(max, run.before);
      StepQueued(max, s, run.event);
      StepResolvedOnce(max, s, run.event);
      StepAccounted(max, s, run.event);
      StepFifo(max, s, run.event);
      StepBalanced(max, s, Holders(max, run.before), run.event);
    }
  }

  /** `running` is the number of outstanding permits throughout a run exactly when every release is by a holder or made while nothing is held. */
  lemma {:induction false} ReleaseBalancedIff(max: int, run: Run<Event>)
    requires max >= 1
    ensures AlwaysBalanced(max, run) <==> Behaved(max, run)
  {
    hide StateAfter, HoldersStep, Step;
    if run.Then? {
      ReleaseBalancedIff(max, run.before);
      if Behaved(max, run.before) {
        RunInvariant(max, run.before);
        StateAfterStep(max, run);
        if run.event.Release? {
          StepBalancedIff(max, StateAfter(max, run.before), Holders(max, run.before), run.event.holder);
        } else {
          StepBalanced(max, StateAfter(max, run.before), Holders(max, run.before), run.event);
        }
      }
    } else {
      NothingHeld(max);
    }
  }

  lemma StateAfterStep(max: int, run: Run<Event>)
    requires run.Then?
    ensures StateAfter(max, run) == Step(max, StateAfter(max, run.before), run.event)
  {
  }

  lemma NothingHeld(max: int)
    ensures AlwaysBalanced(max, Start)
  {
  }

  /** `n` acquires without a timeout. */
  function Acquires(n: nat): Run<Event> {
    if n == 0 then Start else Then(Acquires(n - 1), Acquire(None))
  }

  lemma {:induction false} AcquiresHold(max: int, n: nat)
    requires n <= max
    ensures var s := StateAfter(max, Acquires(n));
      s.current == n && s.waiters == [] && s.nextId == n && |Holders(max, Acquires(n))| == n
    ensures forall id :: id in Holders(max, Acquires(n)) ==> id < n
  {
    if n > 0 {
      hide HoldersStep;
      AcquiresHold(max, n - 1);
      HoldersChange(max, StateAfter(max, Acquires(n - 1)), Holders(max, Acquires(n - 1)), Acquire(None));
    }
  }

  /** The failing run, for every `max`: a release by a caller that holds nothing lets in one acquire too many. */
  lemma {:induction false} StrangerOversubscribes(max: int)
    requires max >= 1
    ensures var run := Then(Then(Acquires(max), Release(max)), Acquire(None));
      max !in Holders(max, Acquires(max)) && StateAfter(max, run).current == max && |Holders(max, run)| == max + 1
  {
    hide HoldersStep, Acquires;
    var r0 := Acquires(max);
    var r1 := Then(r0, Release(max));
    AcquiresHold(max, max);
    HoldersChange(max, StateAfter(max, r0), Holders(max, r0), Release(max));
    HoldersChange(max, StateAfter(max, r1), Holders(max, r1), Acquire(None));
    assert Holders(max, r1) == Holders(max, r0);
    assert Holders(max, Then(r1, Acquire(None))) == Holders(max, r0) + {max};
  }

  // ----- Timeouts -----

  /** How many acquires the run has made; the next one gets this number. */
  function Arrivals(run: Run<Event>): nat {
    match run
    case Start => 0
    case Then(before, e) => Arrivals(before) + if e.Acquire? then 1 else 0
  }

  /** Acquire number `id` was given a positive timeout. */
  predicate HasTimer(run: Run<Event>, id: nat) {
    run.Then? &&
      var e := run.event;
      || (e.Acquire? && Arrivals(run.before) == id && e.timeoutMs.Some? && e.timeoutMs.value > 0)
      || HasTimer(run.before, id)
  }

  predicate TimerFired(run: Run<Event>, id: nat) {
    run.Then? && (run.event == Timer(id) || TimerFired(run.before, id))
  }

  /** The waiters are distinct and in arrival order, and each has a timer exactly if its acquire was given a positive timeout. */
  predicate WaitersKnown(ws: seq<Waiter>, run: Run<Event>) {
    && (forall i, j :: 0 <= i < j < |ws| ==> ws[i].id < ws[j].id)
    && (forall i :: 0 <= i < |ws| ==> ws[i].id < Arrivals(run) && (ws[i].timed <==> HasTimer(run, ws[i].id)))
  }

  lemma {:induction false} TimersBelow(run: Run<Event>, id: nat)
    requires HasTimer(run, id)
    ensures id < Arrivals(run)
  {
    if HasTimer(run.before, id) {
      TimersBelow(run.before, id);
    }
  }

  /** A later event does not change whether an earlier acquire has a timer. */
  lemma TimerStays(before: Run<Event>, e: Event, id: nat)
    ensures id < Arrivals(before) ==> (HasTimer(Then(before, e), id) <==> HasTimer(before, id))
    ensures e.Acquire? ==> (HasTimer(Then(before, e), Arrivals(before)) <==> e.timeoutMs.Some? && e.timeoutMs.value > 0)
  {
    if HasTimer(before, Arrivals(before)) {
      TimersBelow(before, Arrivals(before));
    }
  }

  lemma KnownLater(ws: seq<Waiter>, before: Run<Event>, e: Event)
    requires WaitersKnown(ws, before)
    ensures WaitersKnown(ws, Then(before, e))
  {
    hide HasTimer;
    forall i | 0 <= i < |ws| ensures HasTimer(Then(before, e), ws[i].id) <==> HasTimer(before, ws[i].id) {
      TimerStays(before, e, ws[i].id);
    }
  }

  lemma KnownNew(ws: seq<Waiter>, before: Run<Event>, timeoutMs: Option<int>)
    requires WaitersKnown(ws, before)
    ensures WaitersKnown(ws + [Waiter(Arrivals(before), IsTimed(timeoutMs))], Then(before, Acquire(timeoutMs)))
  {
    hide HasTimer;
    KnownLater(ws, before, Acquire(timeoutMs));
    TimerStays(before, Acquire(timeoutMs), Arrivals(before));
  }

  lemma KnownWithout(ws: seq<Waiter>, run: Run<Event>, k: nat)
    requires WaitersKnown(ws, run) && k < |ws|
    ensures WaitersKnown(Without(ws, k), run) && Without(ws, 0) == ws[1..]
  {
    hide HasTimer;
    var rest := Without(ws, k);
    assert forall i :: 0 <= i < |rest| ==> rest[i] == ws[if i < k then i else i + 1];
  }

  lemma TimerWaitersKnown(s: State, run: Run<Event>, id: nat)
    requires WaitersKnown(s.waiters, run)
    ensures WaitersKnown(TimedOut(s, id).waiters, run)
  {
    hide WaitersKnown;
    var k := IndexOf(s.waiters, id);
    if k < |s.waiters| {
      KnownWithout(s.waiters, run, k);
      assert Without(s.waiters, k) == s.waiters[..k] + s.waiters[k + 1..];
    }
  }

  lemma ReleaseWaitersKnown(s: State, run: Run<Event>)
    requires WaitersKnown(s.waiters, run)
    ensures WaitersKnown(Released(s).waiters, run)
  {
    hide WaitersKnown;
    if s.waiters != [] {
      KnownWithout(s.waiters, run, 0);
    }
  }

  lemma StepWaitersKnown(max: int, s: State, before: Run<Event>, e: Event)
    requires WaitersKnown(s.waiters, before) && s.nextId == Arrivals(before)
    ensures WaitersKnown(Step(max, s, e).waiters, Then(before, e)) && Step(max, s, e).nextId == Arrivals(Then(before, e))
  {
    hide WaitersKnown, HasTimer, IsTimed;
    KnownLater(s.waiters, before, e);
    match e
    case Acquire(timeoutMs) =>
      hide TimedOut, Released;
      KnownNew(s.waiters, before, timeoutMs);
    case Timer(id) =>
      hide Acquired, Released;
      TimerWaitersKnown(s, Then(before, e), id);
    case Release(_) =>
      hide Acquired, TimedOut;
      ReleaseWaitersKnown(s, Then(before, e));
  }

  lemma {:induction false} RunWaitersKnown(max: int, run: Run<Event>)
    ensures WaitersKnown(StateAfter(max, run).waiters, run) && StateAfter(max, run).nextId == Arrivals(run)
  {
    if run.Then? {
      hide WaitersKnown, Step;
      RunWaitersKnown(max, run.before);
      StepWaitersKnown(max, StateAfter(max, run.before), run.before, run.event);
      assert run == Then(run.before, run.event);
    } else {
      NobodyWaits();
    }
  }

  lemma NobodyWaits()
    ensures WaitersKnown([], Start)
  {
  }

  /**
   After any run, a timer event answers `false` to the acquire it belongs to, and takes it out of the queue, exactly if that
   acquire still waits and was given a positive timeout.  All others keep their order, and `running`
   and the permits stay as they are.  Otherwise the event changes nothing.
   */
  lemma {:induction false} TimerAnswersIff(max: int, run: Run<Event>, id: nat)
    ensures var s, s' := StateAfter(max, run), StateAfter(max, Then(run, Timer(id)));
      if Waiting(s, id) && HasTimer(run, id) then
        && (exists k :: 0 <= k < |s.waiters| && s.waiters[k].id == id && s'.waiters == Without(s.waiters, k))
        && s'.resolved == s.resolved + [Resolution(id, false)]
        && s'.current == s.current && !Waiting(s', id)
      else s' == s
    ensures Holders(max, Then(run, Timer(id))) == Holders(max, run)
  {
    var s, s' := StateAfter(max, run), StateAfter(max, Then(run, Timer(id)));
    RunWaitersKnown(max, run);
    HoldersChange(max, s, Holders(max, run), Timer(id));
    var k := IndexOf(s.waiters, id);
    if Waiting(s, id) && HasTimer(run, id) {
      assert s.waiters[k].id == id && s'.waiters == Without(s.waiters, k);
    }
  }

  /** The acquire has been answered `true`. */
  predicate GrantedTo(s: State, id: nat) {
    Resolution(id, true) in s.resolved
  }

  predicate OnlyTimersFail(s: State, run: Run<Event>) {
    forall i :: 0 <= i < |s.resolved| && !s.resolved[i].granted ==>
      HasTimer(run, s.resolved[i].id) && TimerFired(run, s.resolved[i].id)
  }

  /** An acquire is answered `false` only if it was given a positive timeout and its timer has fired: otherwise it waits as long as it takes. */
  lemma {:induction false} OnlyTimedAcquiresFail(max: int, run: Run<Event>)
    ensures OnlyTimersFail(StateAfter(max, run), run)
  {
    if run.Then? {
      RunWaitersKnown(max, run.before);
      OnlyTimedAcquiresFail(max, run.before);
    }
  }

  // ----- Progress -----

  /** The releases that `run` makes after `base`. */
  function ReleasesSince(run: Run<Event>, base: Run<Event>): nat
    requires Extends(run, base)
  {
    if run == base then 0
    else ReleasesSince(run.before, base) + if run.event.Release? then 1 else 0
  }

  lemma StepMovesUp(max: int, s: State, e: Event, k: nat)
    requires k < |s.waiters|
    ensures var s', id, k' := Step(max, s, e), s.waiters[k].id, if e.Release? then k - 1 else k;
      Resolved(s', id) || exists j :: 0 <= j < |s'.waiters| && j <= k' && s'.waiters[j].id == id
  {
    var s', id := Step(max, s, e), s.waiters[k].id;
    var n := |s.resolved|;
    match e
    case Acquire(_) => assert s'.waiters[k].id == id;
    case Release(_) =>
      if k == 0 {
        assert s'.resolved[n].id == id;
      } else {
        assert s'.waiters[k - 1].id == id;
      }
    case Timer(t) =>
      var i := IndexOf(s.waiters, t);
      if s' == s {
        assert s'.waiters[k].id == id;
      } else if i == k {
        assert s'.resolved[n].id == id;
      } else {
        assert s'.waiters[if k < i then k else k - 1].id == id;
      }
  }

  lemma {:induction false} MovesUp(max: int, base: Run<Event>, run: Run<Event>, k: nat)
    requires Extends(run, base) && k < |StateAfter(max, base).waiters|
    ensures var s, id := StateAfter(max, run), StateAfter(max, base).waiters[k].id;
      Resolved(s, id) ||
      exists j :: 0 <= j < |s.waiters| && j + ReleasesSince(run, base) <= k && s.waiters[j].id == id
  {
    if run != base {
      var s, id := StateAfter(max, run.before), StateAfter(max, base).waiters[k].id;
      MovesUp(max, base, run.before, k);
      if Resolved(s, id) {
        var i :| 0 <= i < |s.resolved| && s.resolved[i].id == id;
        assert StateAfter(max, run).resolved[i].id == id;
      } else {
        var j :| 0 <= j < |s.waiters| && j + ReleasesSince(run.before, base) <= k && s.waiters[j].id == id;
        StepMovesUp(max, s, run.event, j);
      }
    }
  }

  /** Since `base` the timer of this acquire has not fired. */
  predicate NoTimerSince(run: Run<Event>, base: Run<Event>, id: nat)
    requires Extends(run, base)
  {
    run == base || (run.event != Timer(id) && NoTimerSince(run.before, base, id))
  }

  lemma StepGrants(max: int, s: State, e: Event, k: nat)
    requires k < |s.waiters| && e != Timer(s.waiters[k].id)
    ensures var s', id, k' := Step(max, s, e), s.waiters[k].id, if e.Release? then k - 1 else k;
      GrantedTo(s', id) || exists j :: 0 <= j < |s'.waiters| && j <= k' && s'.waiters[j].id == id
  {
    var s', id := Step(max, s, e), s.waiters[k].id;
    match e
    case Acquire(_) => assert s'.waiters[k].id == id;
    case Release(_) =>
      if k == 0 {
        assert s'.resolved[|s.resolved|] == Resolution(id, true);
      } else {
        assert s'.waiters[k - 1].id == id;
      }
    case Timer(t) =>
      var i := IndexOf(s.waiters, t);
      if s' == s {
        assert s'.waiters[k].id == id;
      } else {
        assert s'.waiters[if k < i then k else k - 1].id == id;
      }
  }

  lemma GrantStays(max: int, s: State, e: Event, id: nat)
    requires GrantedTo(s, id)
    ensures GrantedTo(Step(max, s, e), id)
  {
  }

  lemma {:induction false} GrantsMoveUp(max: int, base: Run<Event>, run: Run<Event>, k: nat)
    requires Extends(run, base) && k < |StateAfter(max, base).waiters|
    requires NoTimerSince(run, base, StateAfter(max, base).waiters[k].id)
    ensures var s, id := StateAfter(max, run), StateAfter(max, base).waiters[k].id;
      GrantedTo(s, id) ||
      exists j :: 0 <= j < |s.waiters| && j + ReleasesSince(run, base) <= k && s.waiters[j].id == id
  {
    if run != base {
      hide Step, GrantedTo;
      var s, id := StateAfter(max, run.before), StateAfter(max, base).waiters[k].id;
      GrantsMoveUp(max, base, run.before, k);
      if GrantedTo(s, id) {
        GrantStays(max, s, run.event, id);
      } else {
        var j :| 0 <= j < |s.waiters| && j + ReleasesSince(run.before, base) <= k && s.waiters[j].id == id;
        StepGrants(max, s, run.event, j);
      }
    }
  }

  /**
   The waiter at position `k` has resolved once `k + 1` releases have happened, whoever made them and whatever
   else did; and with `true`, unless its timer has fired.
   */
  lemma {:induction false} WaiterResolvesAfter(max: int, base: Run<Event>, run: Run<Event>, k: nat)
    requires Extends(run, base) && k < |StateAfter(max, base).waiters|
    requires ReleasesSince(run, base) >= k + 1
    ensures Resolved(StateAfter(max, run), StateAfter(max, base).waiters[k].id)
    ensures NoTimerSince(run, base, StateAfter(max, base).waiters[k].id) ==>
      GrantedTo(StateAfter(max, run), StateAfter(max, base).waiters[k].id)
  {
    MovesUp(max, base, run, k);
    if NoTimerSince(run, base, StateAfter(max, base).waiters[k].id) {
      GrantsMoveUp(max, base, run, k);
    }
  }
}
