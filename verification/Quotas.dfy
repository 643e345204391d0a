/**
 The quota counters of packages/shared/src/quotas/enforcer.ts while Redis is reachable.

 One Redis key is shared by any number of clients.  Each Redis command is one atomic step, and
 clients interleave between commands.  Requests are identified by numbers; `admitted` are those
 let through and not yet released, `undoing` those rejected whose DECR is still to come, and
 `deciding` those between the GET and the INCR of the concurrency path.
 */
module Quotas {
  import opened Runs
  import opened Numbers

  datatype State = State(counter: int, admitted: set<nat>, undoing: set<nat>, deciding: set<nat>, seen: set<nat>)

  const INITIAL := State(0, {}, {}, {}, {})

  /** A request that starts now: its number is not in use. */
  function Seen(s: State, id: nat): State {
    s.(seen := s.seen + {id})
  }

  function RateIncr(limit: int, s: State, id: nat): State {
    var current := s.counter + 1;
    if current <= limit then Seen(s, id).(counter := current, admitted := s.admitted + {id})
    else Seen(s, id).(counter := current, undoing := s.undoing + {id})
  }

  function RateDecr(s: State, id: nat): State {
    s.(counter := s.counter - 1, undoing := s.undoing - {id})
  }

  function ConcurrentGet(limit: int, s: State, id: nat): State {
    if s.counter >= limit then Seen(s, id) else Seen(s, id).(deciding := s.deciding + {id})
  }

  function ConcurrentIncr(s: State, id: nat): State {
    s.(counter := s.counter + 1, deciding := s.deciding - {id}, admitted := s.admitted + {id})
  }

  function Released(s: State, id: nat): State {
    s.(counter := s.counter - 1, admitted := s.admitted - {id})
  }

  /** One counter and the clients at work on it; each method is the code around one Redis command. */
  class QuotaCounter {
    const limit: int
    var counter: int
    var admitted: set<nat>
    var undoing: set<nat>
    var deciding: set<nat>
    var seen: set<nat>

    function View(): State
      reads this
    {
      State(counter, admitted, undoing, deciding, seen)
    }

    constructor (limit: int)
      ensures this.limit == limit && View() == INITIAL
    {
      this.limit := limit;
      counter, admitted, undoing, deciding, seen := 0, {}, {}, {}, {};
    }

    method Incr() returns (current: int)
      modifies this`counter
      ensures counter == current == old(counter) + 1
    {
      counter := counter + 1;
      current := counter;
    }

    method Decr()
      modifies this`counter
      ensures counter == old(counter) - 1
    {
      counter := counter - 1;
    }

    /** Rate path: INCR, and the decision on its result. */
    method CheckRate(id: nat) returns (allowed: bool)
      modifies this
      ensures View() == RateIncr(limit, old(View()), id) && (allowed <==> old(counter) < limit)
    {
      seen := seen + {id};
      var current := Incr();
      if current <= limit {
        admitted := admitted + {id};
        return true;
      }
      undoing := undoing + {id};
      return false;
    }

    /** Rate path: DECR after a rejection. */
    method UndoRate(id: nat)
      modifies this
      ensures View() == RateDecr(old(View()), id)
    {
      Decr();
      undoing := undoing - {id};
    }

    /** Concurrency path: GET, and the decision on its result. */
    method CheckConcurrent(id: nat) returns (allowed: bool)
      modifies this
      ensures View() == ConcurrentGet(limit, old(View()), id) && (allowed <==> old(counter) < limit)
    {
      seen := seen + {id};
      var current := counter;
      if current >= limit {
        return false;
      }
      deciding := deciding + {id};
      return true;
    }

    /** Concurrency path: the INCR that follows an admitting GET. */
    method EnterConcurrent(id: nat) returns (newCurrent: int)
      modifies this
      ensures View() == ConcurrentIncr(old(View()), id) && newCurrent == counter
    {
      newCurrent := Incr();
      deciding := deciding - {id};
      admitted := admitted + {id};
    }

    method Release(id: nat)
      modifies this
      ensures View() == Released(old(View()), id)
    {
      Decr();
      admitted := admitted - {id};
    }
  }

  // ----- Runs -----

  /** The next command of the client that serves request `id`. */
  datatype Event = Check(id: nat) | Finish(id: nat) | Release(id: nat)

  /** A request starts once, takes its second command if it has one, and is released if it was admitted. */
  function RateStep(limit: int, s: State, e: Event): State {
    match e
    case Check(id) => if id in s.seen then s else RateIncr(limit, s, id)
    case Finish(id) => if id in s.undoing then RateDecr(s, id) else s
    case Release(id) => if id in s.admitted then Released(s, id) else s
  }

  function ConcurrentStep(limit: int, s: State, e: Event): State {
    match e
    case Check(id) => if id in s.seen then s else ConcurrentGet(limit, s, id)
    case Finish(id) => if id in s.deciding then ConcurrentIncr(s, id) else s
    case Release(id) => if id in s.admitted then Released(s, id) else s
  }

  function AfterRate(limit: int, run: Run<Event>): State {
    match run
    case Start => INITIAL
    case Then(before, e) => RateStep(limit, AfterRate(limit, before), e)
  }

  function AfterConcurrent(limit: int, run: Run<Event>): State {
    match run
    case Start => INITIAL
    case Then(before, e) => ConcurrentStep(limit, AfterConcurrent(limit, before), e)
  }

  predicate Distinct(s: State) {
    && s.admitted <= s.seen && s.undoing <= s.seen && s.deciding <= s.seen
    && s.admitted !! s.undoing && s.admitted !! s.deciding
  }

  // ----- The rate path -----

  predicate RateBalanced(limit: int, s: State) {
    && Distinct(s)
    && s.counter == |s.admitted| + |s.undoing|
    && |s.admitted| <= Max(0, limit)
  }

  lemma RateStepBalanced(limit: int, s: State, e: Event)
    requires RateBalanced(limit, s)
    ensures RateBalanced(limit, RateStep(limit, s, e))
  {
    match e
    case Check(id) => if id !in s.seen { RateCheckBalanced(limit, s, id); }
    case Finish(id) =>
      assert id in s.undoing ==> |s.undoing - {id}| == |s.undoing| - 1;
    case Release(id) =>
      assert id in s.admitted ==> |s.admitted - {id}| == |s.admitted| - 1;
  }

  lemma RateCheckBalanced(limit: int, s: State, id: nat)
    requires RateBalanced(limit, s) && id !in s.seen
    ensures RateBalanced(limit, RateIncr(limit, s, id))
  {
    assert id !in s.admitted && id !in s.undoing;
    assert |s.admitted + {id}| == |s.admitted| + 1 && |s.undoing + {id}| == |s.undoing| + 1;
  }

  /**
   Under every interleaving the rate counter is the number of admitted requests plus the
   rejections not yet undone, and no more than `limit` requests are ever admitted at once.
   */
  lemma {:induction false} RateCounterExact(limit: int, run: Run<Event>)
    ensures RateBalanced(limit, AfterRate(limit, run))
  {
    if run.Then? {
      RateCounterExact(limit, run.before);
      RateStepBalanced(limit, AfterRate(limit, run.before), run.event);
    }
  }

  /** A new request is admitted exactly when admissions and pending undos together leave room: undos in flight cost admissions. */
  lemma {:induction false} RateAdmitsIff(limit: int, run: Run<Event>, id: nat)
    requires id !in AfterRate(limit, run).seen
    ensures var s := AfterRate(limit, run);
      id in AfterRate(limit, Then(run, Check(id))).admitted <==> |s.admitted| + |s.undoing| < limit
  {
    RateCounterExact(limit, run);
  }

  // ----- The concurrency path -----

  /** At no point of the run are more than `n` clients between their GET and their INCR. */
  predicate Overlap(limit: int, run: Run<Event>, n: nat) {
    |AfterConcurrent(limit, run).deciding| <= n && (run.Then? ==> Overlap(limit, run.before, n))
  }

  predicate ConcurrentBounded(limit: int, s: State, n: nat) {
    && Distinct(s) && s.undoing == {}
    && s.counter == |s.admitted|
    && (s.counter + |s.deciding| <= limit + n - 1 || (s.counter == 0 && s.deciding == {}))
  }

  lemma ConcurrentStepBounded(limit: int, s: State, e: Event, n: nat)
    requires ConcurrentBounded(limit, s, n) && |ConcurrentStep(limit, s, e).deciding| <= n
    ensures ConcurrentBounded(limit, ConcurrentStep(limit, s, e), n)
  {
    match e
    case Check(id) => assert id !in s.seen ==> |s.deciding + {id}| == |s.deciding| + 1;
    case Finish(id) =>
      assert id in s.deciding ==> |s.deciding - {id}| == |s.deciding| - 1 && |s.admitted + {id}| == |s.admitted| + 1;
    case Release(id) => assert id in s.admitted ==> |s.admitted - {id}| == |s.admitted| - 1;
  }

  lemma {:induction false} ConcurrentInvariant(limit: int, run: Run<Event>, n: nat)
    requires Overlap(limit, run, n)
    ensures ConcurrentBounded(limit, AfterConcurrent(limit, run), n)
  {
    if run.Then? {
      ConcurrentInvariant(limit, run.before, n);
      ConcurrentStepBounded(limit, AfterConcurrent(limit, run.before), run.event, n);
    }
  }

  /** With at most `n` clients between GET and INCR the counter, which is the number of admitted requests, stays within limit + n - 1. */
  lemma {:induction false} ConcurrentOvershoot(limit: int, run: Run<Event>, n: nat)
    requires Overlap(limit, run, n)
    ensures AfterConcurrent(limit, run).counter == |AfterConcurrent(limit, run).admitted| <= Max(0, limit + n - 1)
  {
    ConcurrentInvariant(limit, run, n);
  }

  /** Requests `from`, ..., `to - 1` take their first command one after the other; then likewise for `Finish`. */
  function Checked(run: Run<Event>, from: nat, to: nat): Run<Event>
    requires from <= to
  {
    if from == to then run else Then(Checked(run, from, to - 1), Check(to - 1))
  }

  function Finished(run: Run<Event>, from: nat, to: nat): Run<Event>
    requires from <= to
  {
    if from == to then run else Then(Finished(run, from, to - 1), Finish(to - 1))
  }

  /** `count` requests that do not overlap at all. */
  function Solo(count: nat): Run<Event> {
    if count == 0 then Start else Then(Then(Solo(count - 1), Check(count - 1)), Finish(count - 1))
  }

  function Ids(from: nat, to: nat): (ids: set<nat>)
    requires from <= to
    ensures |ids| == to - from
    ensures forall i :: i in ids <==> from <= i < to
  {
    if from == to then {} else Ids(from, to - 1) + {to - 1}
  }

  lemma SoloStep(limit: int, k: nat)
    requires k < limit
    ensures var s := State(k, Ids(0, k), {}, {}, Ids(0, k));
      var s' := ConcurrentStep(limit, s, Check(k));
      |s'.deciding| == 1 && ConcurrentStep(limit, s', Finish(k)) == State(k + 1, Ids(0, k + 1), {}, {}, Ids(0, k + 1))
  {
  }

  lemma CheckedStep(limit: int, base: nat, k: nat)
    requires base < limit && base <= k
    ensures ConcurrentStep(limit, State(base, Ids(0, base), {}, Ids(base, k), Ids(0, k)), Check(k))
         == State(base, Ids(0, base), {}, Ids(base, k + 1), Ids(0, k + 1))
  {
  }

  lemma FinishedStep(limit: int, k: nat, all: nat)
    requires k < all
    ensures ConcurrentStep(limit, State(k, Ids(0, k), {}, Ids(k, all), Ids(0, all)), Finish(k))
         == State(k + 1, Ids(0, k + 1), {}, Ids(k + 1, all), Ids(0, all))
  {
    var s := State(k, Ids(0, k), {}, Ids(k, all), Ids(0, all));
    assert ConcurrentStep(limit, s, Finish(k)) == ConcurrentIncr(s, k);
    hide ConcurrentStep;
    assert Ids(k, all) - {k} == Ids(k + 1, all) by {
      IdsFirst(k, all);
    }
  }

  lemma IdsFirst(from: nat, to: nat)
    requires from < to
    ensures Ids(from, to) - {from} == Ids(from + 1, to)
  {
    hide Ids;
  }

  lemma {:induction false} SoloState(limit: int, count: nat, n: nat)
    requires count < limit && n >= 1
    ensures AfterConcurrent(limit, Solo(count)) == State(count, Ids(0, count), {}, {}, Ids(0, count))
    ensures Overlap(limit, Solo(count), n)
  {
    hide ConcurrentStep, Ids;
    if count > 0 {
      SoloState(limit, count - 1, n);
      SoloStep(limit, count - 1);
    } else {
      assert Ids(0, 0) == {};
    }
  }

  lemma {:induction false} CheckedState(limit: int, to: nat, n: nat)
    requires 1 <= limit && limit - 1 <= to <= limit - 1 + n && n >= 1
    ensures var base, run := limit - 1, Checked(Solo(limit - 1), limit - 1, to);
      AfterConcurrent(limit, run) == State(base, Ids(0, base), {}, Ids(base, to), Ids(0, to)) && Overlap(limit, run, n)
  {
    hide ConcurrentStep, Ids, Solo;
    var base := limit - 1;
    if to > base {
      CheckedState(limit, to - 1, n);
      CheckedStep(limit, base, to - 1);
    } else {
      SoloState(limit, base, n);
      assert Ids(base, base) == {};
    }
  }

  lemma {:induction false} FinishedState(limit: int, to: nat, n: nat)
    requires 1 <= limit && limit - 1 <= to <= limit - 1 + n && n >= 1
    ensures var base, all := limit - 1, limit - 1 + n;
      var run := Finished(Checked(Solo(base), base, all), base, to);
      AfterConcurrent(limit, run) == State(to, Ids(0, to), {}, Ids(to, all), Ids(0, all)) && Overlap(limit, run, n)
  {
    hide ConcurrentStep, Ids, Solo, Checked;
    var base, all := limit - 1, limit - 1 + n;
    if to > base {
      FinishedState(limit, to - 1, n);
      FinishedStep(limit, to - 1, all);
    } else {
      CheckedState(limit, all, n);
    }
  }

  /** The bound is attained for every limit and every overlap: all `n` clients read the counter one below the limit, then all increment it. */
  lemma {:induction false} OvershootAttained(limit: int, n: nat)
    requires limit >= 1 && n >= 1
    ensures var run := Finished(Checked(Solo(limit - 1), limit - 1, limit - 1 + n), limit - 1, limit - 1 + n);
      Overlap(limit, run, n) && AfterConcurrent(limit, run).counter == limit + n - 1
  {
    FinishedState(limit, limit - 1 + n, n);
  }

  lemma {:induction false} NothingWithoutLimit(limit: int, run: Run<Event>)
    requires limit <= 0
    ensures var s := AfterConcurrent(limit, run); s.counter == 0 && s.deciding == {} && s.admitted == {}
  {
    if run.Then? {
      NothingWithoutLimit(limit, run.before);
    }
  }

  /** Exactly when the concurrency path keeps its limit in every run: when no two clients may be between GET and INCR at once, or nothing is allowed at all. */
  lemma {:induction false} LimitKeptIff(limit: int, n: nat)
    ensures (forall run :: Overlap(limit, run, n) ==> AfterConcurrent(limit, run).counter <= Max(0, limit))
       <==> n <= 1 || limit <= 0
  {
    hide Overlap, AfterConcurrent, Finished, Checked, Solo;
    if n <= 1 || limit <= 0 {
      forall run | Overlap(limit, run, n) ensures AfterConcurrent(limit, run).counter <= Max(0, limit) {
        if limit <= 0 {
          NothingWithoutLimit(limit, run);
        } else {
          ConcurrentOvershoot(limit, run, n);
        }
      }
    } else {
      OvershootAttained(limit, n);
    }
  }

  // ----- The counter stands for sets of requests -----

  predicate Started(run: Run<Event>, id: nat) {
    run.Then? && (run.event == Check(id) || Started(run.before, id))
  }

  /** The requests that hold quota, and those between their two commands. */
  datatype Sets = Sets(holding: set<nat>, between: set<nat>)

  /** The rate path without a counter: a new request enters if the requests holding quota or still undoing are fewer than the limit. */
  function RateSets(limit: int, run: Run<Event>): Sets {
    match run
    case Start => Sets({}, {})
    case Then(before, Check(id)) =>
      var r := RateSets(limit, before);
      if Started(before, id) then r
      else if |r.holding| + |r.between| < limit then r.(holding := r.holding + {id})
      else r.(between := r.between + {id})
    case Then(before, Finish(id)) => RateSets(limit, before).(between := RateSets(limit, before).between - {id})
    case Then(before, Release(id)) => RateSets(limit, before).(holding := RateSets(limit, before).holding - {id})
  }

  /** The concurrency path without a counter: a new request goes ahead if fewer than the limit hold quota, and holds it from its second command on. */
  function ConcurrentSets(limit: int, run: Run<Event>): Sets {
    match run
    case Start => Sets({}, {})
    case Then(before, Check(id)) =>
      var r := ConcurrentSets(limit, before);
      if !Started(before, id) && |r.holding| < limit then r.(between := r.between + {id}) else r
    case Then(before, Finish(id)) =>
      var r := ConcurrentSets(limit, before);
      if id in r.between then Sets(r.holding + {id}, r.between - {id}) else r
    case Then(before, Release(id)) =>
      var r := ConcurrentSets(limit, before);
      r.(holding := r.holding - {id})
  }

  predicate RateTracks(s: State, r: Sets) {
    s.admitted == r.holding && s.undoing == r.between && s.counter == |r.holding| + |r.between|
  }

  predicate ConcurrentTracks(s: State, r: Sets) {
    s.admitted == r.holding && s.deciding == r.between && s.counter == |r.holding|
  }

  lemma {:induction false} SeenInRate(limit: int, run: Run<Event>, id: nat)
    ensures id in AfterRate(limit, run).seen <==> Started(run, id)
  {
    if run.Then? {
      SeenInRate(limit, run.before, id);
    }
  }

  lemma {:induction false} SeenInConcurrent(limit: int, run: Run<Event>, id: nat)
    ensures id in AfterConcurrent(limit, run).seen <==> Started(run, id)
  {
    if run.Then? {
      SeenInConcurrent(limit, run.before, id);
    }
  }

  /** In every run the rate path admits, undoes and releases exactly the requests that the sets say, and its counter is their number. */
  lemma {:induction false} RateRefinesSets(limit: int, run: Run<Event>)
    ensures RateTracks(AfterRate(limit, run), RateSets(limit, run))
  {
    if run.Then? {
      hide Started;
      var s := AfterRate(limit, run.before);
      RateRefinesSets(limit, run.before);
      RateCounterExact(limit, run.before);
      RateCounterExact(limit, run);
      match run.event
      case Check(id) =>
        SeenInRate(limit, run.before, id);
        assert id !in s.seen ==> id !in s.admitted && id !in s.undoing;
      case Finish(id) =>
        assert id !in s.undoing ==> s.undoing - {id} == s.undoing;
      case Release(id) =>
        assert id !in s.admitted ==> s.admitted - {id} == s.admitted;
    }
  }

  /** Likewise for the concurrency path, whose counter does not see the requests between GET and INCR. */
  lemma {:induction false} ConcurrentRefinesSets(limit: int, run: Run<Event>)
    ensures ConcurrentTracks(AfterConcurrent(limit, run), ConcurrentSets(limit, run))
  {
    if run.Then? {
      hide Started;
      var s := AfterConcurrent(limit, run.before);
      ConcurrentRefinesSets(limit, run.before);
      ConcurrentBooks(limit, run.before);
      ConcurrentBooks(limit, run);
      match run.event
      case Check(id) => SeenInConcurrent(limit, run.before, id);
      case Finish(id) =>
      case Release(id) => assert id !in s.admitted ==> s.admitted - {id} == s.admitted;
    }
  }

  lemma {:induction false} ConcurrentBooks(limit: int, run: Run<Event>)
    ensures var s := AfterConcurrent(limit, run);
      Distinct(s) && s.undoing == {} && s.counter == |s.admitted|
  {
    if run.Then? {
      hide AfterConcurrent;
      ConcurrentBooks(limit, run.before);
      AfterConcurrentThen(limit, run);
      ConcurrentStepBooks(limit, AfterConcurrent(limit, run.before), run.event);
    }
  }

  lemma AfterConcurrentThen(limit: int, run: Run<Event>)
    requires run.Then?
    ensures AfterConcurrent(limit, run) == ConcurrentStep(limit, AfterConcurrent(limit, run.before), run.event)
  {
  }

  lemma ConcurrentStepBooks(limit: int, s: State, e: Event)
    requires Distinct(s) && s.undoing == {} && s.counter == |s.admitted|
    ensures var s' := ConcurrentStep(limit, s, e);
      Distinct(s') && s'.undoing == {} && s'.counter == |s'.admitted|
  {
  }
}
