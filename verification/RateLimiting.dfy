/**
 The sliding-window rate limiter of packages/shared/src/rate-limiter.ts.

 `RateLimiter` is the class; `CheckStep` and `Cleaned` say what its two operations do to the
 buckets.  The theorems are about `StateAfter`, the buckets after an arbitrary sequence of
 `Check` and `Cleanup` events on arbitrary keys.  `Admitted` is the full log of admitted
 times, which the class itself never keeps.
 */
module RateLimiting {
  import opened Runs
  import opened Numbers

  type Buckets = map<string, seq<int>>

  /** With `maxRequests <= 0` the source computes a delay from a missing timestamp: not a number. */
  datatype Retry = Ms(ms: int) | NotANumber

  /** `Allowed` stands for `{ allowed: true, retryAfterMs: 0 }`. */
  datatype Decision = Allowed | Denied(retryAfter: Retry)

  datatype Config = Config(maxRequests: int, windowMs: int)

  /** The timestamps later than `cutoff`, in order. */
  function Prune(ts: seq<int>, cutoff: int): seq<int> {
    if ts == [] then []
    else
      var last := ts[|ts| - 1];
      var kept := Prune(ts[..|ts| - 1], cutoff);
      if last > cutoff then kept + [last] else kept
  }

  function Bucket(b: Buckets, key: string): seq<int> {
    if key in b then b[key] else []
  }

  function RetryAfter(c: Config, active: seq<int>, now: int): Retry {
    if active == [] then NotANumber else Ms(Max(1, active[0] + c.windowMs - now))
  }

  function CheckStep(c: Config, b: Buckets, key: string, now: int): (Buckets, Decision) {
    var active := Prune(Bucket(b, key), now - c.windowMs);
    if |active| >= c.maxRequests then (b[key := active], Denied(RetryAfter(c, active, now)))
    else (b[key := active + [now]], Allowed)
  }

  function Cleaned(b: Buckets, cutoff: int): Buckets {
    map key | key in b && Prune(b[key], cutoff) != [] :: Prune(b[key], cutoff)
  }

  /** The buckets when the cleanup still has the keys in `pending` to go. */
  function PartlyCleaned(b: Buckets, pending: set<string>, cutoff: int): Buckets {
    map key | key in b && (key in pending || Prune(b[key], cutoff) != []) ::
      if key in pending then b[key] else Prune(b[key], cutoff)
  }

  lemma AllPending(b: Buckets, cutoff: int)
    ensures PartlyCleaned(b, b.Keys, cutoff) == b && PartlyCleaned(b, {}, cutoff) == Cleaned(b, cutoff)
  {
    hide Prune;
  }

  lemma NextCleaned(b: Buckets, pending: set<string>, cutoff: int, key: string)
    requires key in pending && pending <= b.Keys
    ensures var partly, active := PartlyCleaned(b, pending, cutoff), Prune(b[key], cutoff);
      && key in partly && partly[key] == b[key]
      && PartlyCleaned(b, pending - {key}, cutoff) == if active == [] then partly - {key} else partly[key := active]
  {
    hide Prune;
  }

  class RateLimiter {
    const config: Config
    var buckets: Buckets

    constructor (config: Config)
      ensures this.config == config && buckets == map[]
    {
      this.config := config;
      buckets := map[];
    }

    method Check(key: string, now: int) returns (decision: Decision)
      modifies this`buckets
      ensures (buckets, decision) == CheckStep(config, old(buckets), key, now)
    {
      var cutoff := now - config.windowMs;
      var timestamps := [];
      if key in buckets {
        timestamps := buckets[key];
      } else {
        buckets := buckets[key := timestamps];
      }
      var active := Prune(timestamps, cutoff);
      buckets := buckets[key := active];
      assert buckets == old(buckets)[key := active];
      if |active| >= config.maxRequests {
        if active == [] {
          return Denied(NotANumber);
        }
        var retryAfterMs := active[0] + config.windowMs - now;
        return Denied(Ms(Max(1, retryAfterMs)));
      }
      active := active + [now];
      buckets := buckets[key := active];
      assert buckets == old(buckets)[key := active];
      return Allowed;
    }

    method Cleanup(now: int)
      modifies this`buckets
      ensures buckets == Cleaned(old(buckets), now - config.windowMs)
    {
      var cutoff := now - config.windowMs;
      var pending := buckets.Keys;
      AllPending(buckets, cutoff);
      while pending != {}
        invariant pending <= old(buckets).Keys && buckets == PartlyCleaned(old(buckets), pending, cutoff)
        decreases |pending|
      {
        hide Prune, PartlyCleaned;
        var key :| key in pending;
        NextCleaned(old(buckets), pending, cutoff, key);
        var active := Prune(buckets[key], cutoff);
        if |active| == 0 {
          buckets := buckets - {key};
        } else {
          buckets := buckets[key := active];
        }
        pending := pending - {key};
      }
    }

    method Dispose()
      modifies this`buckets
      ensures buckets == map[]
    {
      buckets := map[];
    }
  }

  // ----- Runs -----

  datatype Event = Check(key: string, now: int) | Cleanup(now: int)

  /** The clock never goes back, and has not passed `now`. */
  predicate Clocked(run: Run<Event>, now: int) {
    run.Then? ==> run.event.now <= now && Clocked(run.before, run.event.now)
  }

  function Apply(c: Config, b: Buckets, e: Event): Buckets {
    match e
    case Check(key, now) => CheckStep(c, b, key, now).0
    case Cleanup(now) => Cleaned(b, now - c.windowMs)
  }

  function StateAfter(c: Config, run: Run<Event>): Buckets {
    match run
    case Start => map[]
    case Then(before, e) => Apply(c, StateAfter(c, before), e)
  }

  /** What `check(key)` answers at time `now` after the run. */
  function Answer(c: Config, run: Run<Event>, key: string, now: int): Decision {
    CheckStep(c, StateAfter(c, run), key, now).1
  }

  predicate Admits(c: Config, b: Buckets, e: Event, key: string) {
    e.Check? && e.key == key && CheckStep(c, b, key, e.now).1.Allowed?
  }

  /** The times of all checks of `key` that the run answered with `Allowed`, oldest first. */
  function Admitted(c: Config, run: Run<Event>, key: string): seq<int> {
    match run
    case Start => []
    case Then(before, e) =>
      var log := Admitted(c, before, key);
      if Admits(c, StateAfter(c, before), e, key) then log + [e.now] else log
  }

  /** How many of the times lie after `lo` and not after `hi`. */
  function CountIn(ts: seq<int>, lo: int, hi: int): nat {
    if ts == [] then 0
    else
      var last := ts[|ts| - 1];
      CountIn(ts[..|ts| - 1], lo, hi) + if lo < last <= hi then 1 else 0
  }

  predicate Sorted(ts: seq<int>) {
    forall i, j :: 0 <= i < j < |ts| ==> ts[i] <= ts[j]
  }

  predicate UpTo(ts: seq<int>, hi: int) {
    forall i :: 0 <= i < |ts| ==> ts[i] <= hi
  }

  /** The run without its cleanups. */
  function Checks(run: Run<Event>): Run<Event> {
    match run
    case Start => Start
    case Then(before, e) => if e.Check? then Then(Checks(before), e) else Checks(before)
  }

  // ----- Pruning -----

  lemma PrunePush(ts: seq<int>, t: int, cutoff: int)
    ensures Prune(ts + [t], cutoff) == if t > cutoff then Prune(ts, cutoff) + [t] else Prune(ts, cutoff)
  {
    assert (ts + [t])[..|ts|] == ts;
  }

  lemma CountPush(ts: seq<int>, t: int, lo: int, hi: int)
    ensures CountIn(ts + [t], lo, hi) == CountIn(ts, lo, hi) + if lo < t <= hi then 1 else 0
  {
    assert (ts + [t])[..|ts|] == ts;
  }

  lemma {:induction false} PrunePrune(ts: seq<int>, lo: int, hi: int)
    requires lo <= hi
    ensures Prune(Prune(ts, lo), hi) == Prune(ts, hi)
  {
    if ts != [] {
      var init, last := ts[..|ts| - 1], ts[|ts| - 1];
      PrunePrune(init, lo, hi);
      if last > lo {
        PrunePush(Prune(init, lo), last, hi);
      }
    }
  }

  lemma {:induction false} PruneKeepsAll(ts: seq<int>, cutoff: int)
    requires forall i :: 0 <= i < |ts| ==> ts[i] > cutoff
    ensures Prune(ts, cutoff) == ts
  {
    if ts != [] {
      PruneKeepsAll(ts[..|ts| - 1], cutoff);
      assert ts == ts[..|ts| - 1] + [ts[|ts| - 1]];
    }
  }

  lemma {:induction false} PruneSorted(ts: seq<int>, cutoff: int, hi: int)
    requires Sorted(ts) && UpTo(ts, hi)
    ensures Sorted(Prune(ts, cutoff)) && UpTo(Prune(ts, cutoff), hi)
    ensures forall i :: 0 <= i < |Prune(ts, cutoff)| ==> Prune(ts, cutoff)[i] > cutoff
  {
    if ts != [] {
      PruneSorted(ts[..|ts| - 1], cutoff, ts[|ts| - 1]);
    }
  }

  lemma {:induction false} PruneDropsSome(ts: seq<int>, cutoff: int)
    requires ts != [] && ts[0] <= cutoff
    ensures |Prune(ts, cutoff)| < |ts|
  {
    PruneShrinks(ts[..|ts| - 1], cutoff);
    if |ts| > 1 {
      PruneDropsSome(ts[..|ts| - 1], cutoff);
    }
  }

  lemma {:induction false} PruneShrinks(ts: seq<int>, cutoff: int)
    ensures |Prune(ts, cutoff)| <= |ts|
  {
    if ts != [] {
      PruneShrinks(ts[..|ts| - 1], cutoff);
    }
  }

  lemma {:induction false} CountIsPruned(ts: seq<int>, lo: int, hi: int)
    ensures CountIn(ts, lo, hi) <= |Prune(ts, lo)|
    ensures UpTo(ts, hi) ==> CountIn(ts, lo, hi) == |Prune(ts, lo)|
  {
    if ts != [] {
      CountIsPruned(ts[..|ts| - 1], lo, hi);
      assert UpTo(ts, hi) ==> UpTo(ts[..|ts| - 1], hi);
    }
  }

  lemma {:induction false} CountMonotone(ts: seq<int>, lo: int, lo': int, hi: int)
    requires lo' <= lo
    ensures CountIn(ts, lo, hi) <= CountIn(ts, lo', hi)
  {
    if ts != [] {
      CountMonotone(ts[..|ts| - 1], lo, lo', hi);
    }
  }

  // ----- The buckets against the full log -----

  lemma ClockedLater(run: Run<Event>, now: int, later: int)
    requires Clocked(run, now) && now <= later
    ensures Clocked(run, later)
  {
  }

  lemma BucketAfterCheck(c: Config, b: Buckets, key: string, now: int, cutoff: int)
    requires now - c.windowMs <= cutoff
    ensures Prune(Bucket(CheckStep(c, b, key, now).0, key), cutoff) ==
      if CheckStep(c, b, key, now).1.Allowed? && now > cutoff then Prune(Bucket(b, key), cutoff) + [now]
      else Prune(Bucket(b, key), cutoff)
  {
    hide Prune;
    var active := Prune(Bucket(b, key), now - c.windowMs);
    PrunePrune(Bucket(b, key), now - c.windowMs, cutoff);
    PrunePush(active, now, cutoff);
    assert Bucket(CheckStep(c, b, key, now).0, key) ==
      if CheckStep(c, b, key, now).1.Allowed? then active + [now] else active;
  }

  lemma BucketAfter(c: Config, b: Buckets, e: Event, key: string, cutoff: int)
    requires e.now - c.windowMs <= cutoff
    ensures Prune(Bucket(Apply(c, b, e), key), cutoff) ==
      if Admits(c, b, e, key) && e.now > cutoff then Prune(Bucket(b, key), cutoff) + [e.now]
      else Prune(Bucket(b, key), cutoff)
  {
    if e.Cleanup? {
      PrunePrune(Bucket(b, key), e.now - c.windowMs, cutoff);
    } else if e.key == key {
      BucketAfterCheck(c, b, key, e.now, cutoff);
    }
  }

  /** On what is later than `cutoff`, the bucket of the key agrees with the log. */
  predicate Agrees(b: Buckets, key: string, log: seq<int>, cutoff: int) {
    Prune(Bucket(b, key), cutoff) == Prune(log, cutoff)
  }

  function LogAfter(c: Config, b: Buckets, log: seq<int>, e: Event, key: string): seq<int> {
    if Admits(c, b, e, key) then log + [e.now] else log
  }

  lemma StepAgrees(c: Config, b: Buckets, log: seq<int>, e: Event, key: string, cutoff: int)
    requires e.now - c.windowMs <= cutoff && Agrees(b, key, log, cutoff)
    ensures Agrees(Apply(c, b, e), key, LogAfter(c, b, log, e, key), cutoff)
  {
    hide Prune, Bucket, Apply, Admits;
    BucketAfter(c, b, e, key, cutoff);
    PrunePush(log, e.now, cutoff);
  }

  lemma RunStep(c: Config, run: Run<Event>, key: string)
    requires run.Then?
    ensures var b, log := StateAfter(c, run.before), Admitted(c, run.before, key);
      StateAfter(c, run) == Apply(c, b, run.event) && Admitted(c, run, key) == LogAfter(c, b, log, run.event, key)
  {
    hide Apply, Admits;
  }

  lemma {:induction false} RunAgrees(c: Config, run: Run<Event>, key: string, now: int)
    requires Clocked(run, now)
    ensures Agrees(StateAfter(c, run), key, Admitted(c, run, key), now - c.windowMs)
  {
    if run.Then? {
      hide Apply, Agrees, LogAfter, StateAfter, Admitted;
      ClockedLater(run.before, run.event.now, now);
      RunAgrees(c, run.before, key, now);
      RunStep(c, run, key);
      StepAgrees(c, StateAfter(c, run.before), Admitted(c, run.before, key), run.event, key, now - c.windowMs);
    }
  }

  /** Whatever was pruned or cleaned away, a bucket and the full log agree on every window that can still be asked about. */
  lemma BucketIsRecentLog(c: Config, run: Run<Event>, key: string, now: int)
    requires Clocked(run, now)
    ensures Prune(Bucket(StateAfter(c, run), key), now - c.windowMs)
         == Prune(Admitted(c, run, key), now - c.windowMs)
  {
    hide StateAfter, Admitted, Prune, Bucket;
    RunAgrees(c, run, key, now);
  }

  lemma {:induction false} AdmittedSorted(c: Config, run: Run<Event>, key: string, now: int)
    requires Clocked(run, now)
    ensures Sorted(Admitted(c, run, key)) && UpTo(Admitted(c, run, key), now)
  {
    if run.Then? {
      AdmittedSorted(c, run.before, key, run.event.now);
    }
  }

  lemma AnswerFromLog(c: Config, run: Run<Event>, key: string, now: int)
    requires Clocked(run, now)
    ensures Answer(c, run, key, now).Allowed? <==> |Prune(Admitted(c, run, key), now - c.windowMs)| < c.maxRequests
  {
    hide StateAfter;
    BucketIsRecentLog(c, run, key, now);
  }

  /**
   The decision against an independent reference: a check is allowed exactly when fewer than
   `maxRequests` of all the checks of that key ever admitted lie in the window ending now.
   */
  lemma DecisionCountsHistory(c: Config, run: Run<Event>, key: string, now: int)
    requires Clocked(run, now)
    ensures Answer(c, run, key, now).Allowed?
       <==> CountIn(Admitted(c, run, key), now - c.windowMs, now) < c.maxRequests
  {
    hide StateAfter, Admitted, Prune, CountIn, Answer, Sorted, UpTo;
    AnswerFromLog(c, run, key, now);
    AdmittedSorted(c, run, key, now);
    CountIsPruned(Admitted(c, run, key), now - c.windowMs, now);
  }

  lemma AdmittedStep(c: Config, before: Run<Event>, e: Event, key: string)
    ensures Admitted(c, Then(before, e), key) ==
      if e.Check? && e.key == key && Answer(c, before, key, e.now).Allowed? then Admitted(c, before, key) + [e.now]
      else Admitted(c, before, key)
  {
    hide StateAfter, CheckStep;
  }

  /** One more admission, at a time when the window ending then is not full. */
  lemma RoomForOne(c: Config, log: seq<int>, t: int, a: int)
    requires Sorted(log) && UpTo(log, t) && CountIn(log, t - c.windowMs, t) < c.maxRequests
    requires CountIn(log, a, a + c.windowMs) <= c.maxRequests
    ensures CountIn(log + [t], a, a + c.windowMs) <= c.maxRequests
  {
    hide CountIn, Prune, Sorted;
    CountPush(log, t, a, a + c.windowMs);
    if a < t <= a + c.windowMs {
      CountIsPruned(log, a, a + c.windowMs);
      CountIsPruned(log, a, t);
      CountMonotone(log, a, t - c.windowMs, t);
    }
  }

  /** At most `maxRequests` checks of a key are admitted in any interval of one window, wherever it starts. */
  lemma {:induction false} WindowBound(c: Config, run: Run<Event>, key: string, a: int, now: int)
    requires Clocked(run, now) && c.maxRequests >= 0
    ensures CountIn(Admitted(c, run, key), a, a + c.windowMs) <= c.maxRequests
  {
    if run.Then? {
      hide StateAfter, Admitted, Answer, Prune, CountIn, Sorted, UpTo;
      var t := run.event.now;
      AdmittedStep(c, run.before, run.event, key);
      WindowBound(c, run.before, key, a, t);
      DecisionCountsHistory(c, run.before, key, t);
      AdmittedSorted(c, run.before, key, t);
      if Answer(c, run.before, key, t).Allowed? {
        RoomForOne(c, Admitted(c, run.before, key), t, a);
      }
      assert run == Then(run.before, run.event);
    } else {
      NoneAdmitted(c, key, a);
    }
  }

  lemma NoneAdmitted(c: Config, key: string, a: int)
    ensures CountIn(Admitted(c, Start, key), a, a + c.windowMs) == 0
  {
  }

  predicate Shaped(c: Config, b: seq<int>, now: int) {
    Sorted(b) && UpTo(b, now) && |b| <= c.maxRequests
  }

  lemma PrunedShape(c: Config, ts: seq<int>, cutoff: int, t: int, now: int)
    requires t <= now && Shaped(c, ts, t)
    ensures Shaped(c, ts, now) && Shaped(c, Prune(ts, cutoff), now)
    ensures |Prune(ts, cutoff)| < c.maxRequests ==> Shaped(c, Prune(ts, cutoff) + [t], now)
  {
    hide Prune;
    PruneSorted(ts, cutoff, t);
    PruneShrinks(ts, cutoff);
  }

  /** What one event makes of a bucket. */
  lemma BucketCases(c: Config, b: Buckets, e: Event, key: string)
    ensures var active, bucket := Prune(Bucket(b, key), e.now - c.windowMs), Bucket(Apply(c, b, e), key);
      bucket == Bucket(b, key) || bucket == active || (bucket == active + [e.now] && |active| < c.maxRequests)
  {
    hide Prune;
  }

  lemma ShapeKept(c: Config, b: Buckets, e: Event, key: string, now: int)
    requires c.maxRequests >= 0 && e.now <= now && Shaped(c, Bucket(b, key), e.now)
    ensures Shaped(c, Bucket(Apply(c, b, e), key), now)
  {
    hide Prune, Apply, Shaped, Bucket;
    BucketCases(c, b, e, key);
    PrunedShape(c, Bucket(b, key), e.now - c.windowMs, e.now, now);
  }

  /** Buckets stay sorted, hold nothing later than the clock, and never outgrow the limit. */
  lemma {:induction false} BucketShape(c: Config, run: Run<Event>, key: string, now: int)
    requires Clocked(run, now) && c.maxRequests >= 0
    ensures Shaped(c, Bucket(StateAfter(c, run), key), now)
  {
    if run.Then? {
      BucketShape(c, run.before, key, run.event.now);
      ShapeKept(c, StateAfter(c, run.before), run.event, key, now);
    }
  }

  /** A limit below 1 denies everything, and the delay of the denial is not a number. */
  lemma {:induction false} NonPositiveLimitDenies(c: Config, run: Run<Event>, key: string, now: int)
    requires c.maxRequests <= 0
    ensures Answer(c, run, key, now) == Denied(NotANumber)
  {
    NothingInBuckets(c, run, key);
  }

  lemma {:induction false} NothingInBuckets(c: Config, run: Run<Event>, key: string)
    requires c.maxRequests <= 0
    ensures Bucket(StateAfter(c, run), key) == []
  {
    if run.Then? {
      NothingInBuckets(c, run.before, key);
      BucketCases(c, StateAfter(c, run.before), run.event, key);
    }
  }

  // ----- What a cleanup leaves -----

  /** The timestamps from position `k` on are those later than `cutoff`. */
  predicate LiveFrom(ts: seq<int>, cutoff: int, k: nat) {
    k <= |ts| && forall i :: 0 <= i < |ts| ==> (ts[i] > cutoff <==> k <= i)
  }

  lemma {:induction false} PruneIsSuffix(ts: seq<int>, cutoff: int) returns (k: nat)
    requires Sorted(ts)
    ensures LiveFrom(ts, cutoff, k) && Prune(ts, cutoff) == ts[k..]
  {
    if ts == [] {
      k := 0;
    } else {
      var n := |ts| - 1;
      var init := ts[..n];
      k := PruneIsSuffix(init, cutoff);
      assert forall i :: 0 <= i < n ==> init[i] == ts[i];
      if ts[n] > cutoff {
        assert ts[k..] == init[k..] + [ts[n]];
      } else {
        assert forall i :: 0 <= i < n ==> ts[i] <= ts[n];
        assert n > 0 ==> init[n - 1] <= cutoff;
        assert k == n;
        k := n + 1;
      }
    }
  }

  /** After a cleanup at `now` the limiter holds exactly the admissions of each key that can still count, and no entry for a key without any. */
  predicate OnlyLive(c: Config, b: Buckets, b': Buckets, key: string, now: int) {
    if key in b' then
      && b'[key] != []
      && key in b
      && exists k: nat :: k <= |b[key]| && LiveFrom(b[key], now - c.windowMs, k) && b'[key] == b[key][k..]
    else key in b ==> LiveFrom(b[key], now - c.windowMs, |b[key]|)
  }

  lemma LiveFromInRange(ts: seq<int>, cutoff: int, k: nat)
    requires LiveFrom(ts, cutoff, k)
    ensures k <= |ts|
  {
  }

  lemma CleanedBucket(c: Config, run: Run<Event>, key: string, now: int)
    ensures var b, b' := StateAfter(c, run), StateAfter(c, Then(run, Cleanup(now)));
      && (key in b' <==> key in b && Prune(b[key], now - c.windowMs) != [])
      && (key in b' ==> b'[key] == Prune(b[key], now - c.windowMs))
  {
    hide Prune;
  }

  /** In every run a cleanup frees whatever no later check can count, and nothing else: every key keeps just the end of its bucket later than now - windowMs, and a key without one is forgotten. */
  lemma {:induction false} CleanupFrees(c: Config, run: Run<Event>, key: string, now: int)
    requires Clocked(run, now) && c.maxRequests >= 0
    ensures OnlyLive(c, StateAfter(c, run), StateAfter(c, Then(run, Cleanup(now))), key, now)
  {
    hide Prune;
    var b := StateAfter(c, run);
    BucketShape(c, run, key, now);
    CleanedBucket(c, run, key, now);
    if key in b {
      hide LiveFrom, Sorted, UpTo, StateAfter;
      var k := PruneIsSuffix(b[key], now - c.windowMs);
      LiveFromInRange(b[key], now - c.windowMs, k);
    }
  }

  // ----- Cleanups cannot be observed -----

  lemma {:induction false} ChecksClocked(run: Run<Event>, now: int)
    requires Clocked(run, now)
    ensures Clocked(Checks(run), now)
  {
    if run.Then? {
      ChecksClocked(run.before, run.event.now);
      ClockedLater(Checks(run.before), run.event.now, now);
    }
  }

  lemma {:induction false} SameAdmitted(c: Config, run: Run<Event>, key: string, now: int)
    requires Clocked(run, now)
    ensures Admitted(c, run, key) == Admitted(c, Checks(run), key)
    decreases run, 0
  {
    if run.Then? {
      SameAdmitted(c, run.before, key, run.event.now);
      CleanupIsInvisible(c, run.before, key, run.event.now);
    }
  }

  /** Wherever cleanups run, and however often, no later answer (including its delay) changes. */
  lemma {:induction false} CleanupIsInvisible(c: Config, run: Run<Event>, key: string, now: int)
    requires Clocked(run, now)
    ensures Answer(c, run, key, now) == Answer(c, Checks(run), key, now)
    decreases run, 1
  {
    hide StateAfter, Admitted, Checks, Clocked, Prune;
    SameAdmitted(c, run, key, now);
    ChecksClocked(run, now);
    BucketIsRecentLog(c, run, key, now);
    BucketIsRecentLog(c, Checks(run), key, now);
  }

  // ----- The announced delay is exact -----

  /** `run` continues `base` with events that all happen before `deadline`. */
  predicate ContinuesBefore(run: Run<Event>, base: Run<Event>, deadline: int) {
    run == base || (run.Then? && run.event.now < deadline && ContinuesBefore(run.before, base, deadline))
  }

  /** The key is out of quota at time `t` as far as the log is concerned, with the oldest counted admission at `oldest`. */
  predicate Full(c: Config, log: seq<int>, oldest: int, now: int) {
    var active := Prune(log, now - c.windowMs);
    |active| == c.maxRequests && active != [] && active[0] == oldest
  }

  lemma FullWhenDenied(c: Config, run: Run<Event>, key: string, now: int)
    requires c.maxRequests >= 1 && Clocked(run, now) && Answer(c, run, key, now).Denied?
    ensures Answer(c, run, key, now).retryAfter.Ms?
    ensures Full(c, Admitted(c, run, key), now + Answer(c, run, key, now).retryAfter.ms - c.windowMs, now)
  {
    hide StateAfter, Admitted, Prune, CountIn, Sorted, Clocked;
    var log := Admitted(c, run, key);
    BucketIsRecentLog(c, run, key, now);
    AdmittedSorted(c, run, key, now);
    PruneSorted(log, now - c.windowMs, now);
    WindowBound(c, run, key, now - c.windowMs, now);
    CountIsPruned(log, now - c.windowMs, now);
  }

  lemma StillFull(c: Config, log: seq<int>, oldest: int, now: int, t: int)
    requires Sorted(log) && UpTo(log, now) && Full(c, log, oldest, now) && now <= t
    ensures t < oldest + c.windowMs ==> |Prune(log, t - c.windowMs)| == c.maxRequests
    ensures t >= oldest + c.windowMs ==> |Prune(log, t - c.windowMs)| < c.maxRequests
  {
    hide Prune;
    var active := Prune(log, now - c.windowMs);
    PrunePrune(log, now - c.windowMs, t - c.windowMs);
    PruneSorted(log, now - c.windowMs, now);
    if t < oldest + c.windowMs {
      PruneKeepsAll(active, t - c.windowMs);
    } else {
      PruneDropsSome(active, t - c.windowMs);
    }
  }

  lemma {:induction false} NothingRecordedUntil(c: Config, run: Run<Event>, base: Run<Event>, key: string, oldest: int, now: int, t: int)
    requires Clocked(base, now) && Full(c, Admitted(c, base, key), oldest, now)
    requires ContinuesBefore(run, Then(base, Check(key, now)), oldest + c.windowMs) && Clocked(run, t)
    ensures Admitted(c, run, key) == Admitted(c, base, key) && now <= t
  {
    hide StateAfter, Admitted, Answer, Prune, Sorted, UpTo;
    if run == Then(base, Check(key, now)) {
      AnswerFromLog(c, base, key, now);
      AdmittedStep(c, base, Check(key, now), key);
    } else {
      hide Full;
      var e := run.event;
      AdmittedStep(c, run.before, e, key);
      NothingRecordedUntil(c, run.before, base, key, oldest, now, e.now);
      AdmittedSorted(c, base, key, now);
      StillFull(c, Admitted(c, base, key), oldest, now, e.now);
      AnswerFromLog(c, run.before, key, e.now);
    }
  }

  /**
   A denial announces exactly how long it lasts.  Whatever happens in between, on this key or
   any other, every check of the key before `now + ms` is denied, and the first one from then on is allowed.
   */
  lemma {:induction false} RetryAfterIsExact(c: Config, base: Run<Event>, run: Run<Event>, key: string, now: int, t: int)
    requires c.maxRequests >= 1 && Clocked(base, now) && Answer(c, base, key, now).Denied?
    requires Clocked(run, t)
    ensures Answer(c, base, key, now).retryAfter.Ms?
    ensures var ms := Answer(c, base, key, now).retryAfter.ms;
      ContinuesBefore(run, Then(base, Check(key, now)), now + ms) ==>
      (Answer(c, run, key, t).Denied? <==> t < now + ms)
  {
    hide StateAfter, Admitted;
    FullWhenDenied(c, base, key, now);
    var ms := Answer(c, base, key, now).retryAfter.ms;
    if ContinuesBefore(run, Then(base, Check(key, now)), now + ms) {
      var oldest := now + ms - c.windowMs;
      NothingRecordedUntil(c, run, base, key, oldest, now, t);
      AdmittedSorted(c, base, key, now);
      StillFull(c, Admitted(c, base, key), oldest, now, t);
      AnswerFromLog(c, run, key, t);
    }
  }
}
