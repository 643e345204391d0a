/**
 The in-process quota counters of packages/shared/src/quotas/enforcer.ts, used while Redis is
 unreachable.  The source calls the rate-based branch a sliding window; it is a fixed window
 that restarts at the first check after it has expired, and the theorems say what that admits.
 */
module QuotaFallback {
  import opened Options
  import opened Runs
  import opened Numbers

  datatype Entry = Entry(count: int, windowStart: int)
  datatype QuotaResult = QuotaResult(allowed: bool, current: int, limit: int, retryAfterMs: int)

  function CheckConcurrent(entry: Option<Entry>, limit: int, now: int): (Option<Entry>, QuotaResult) {
    var current := if entry.Some? then entry.value.count else 0;
    if current >= limit then (entry, QuotaResult(false, current, limit, 1000))
    else
      var counted := if entry.Some? then entry.value.(count := current + 1) else Entry(1, now);
      (Some(counted), QuotaResult(true, current + 1, limit, 0))
  }

  /** The entry in force at `now`: a fresh one when there is none or its window has expired. */
  function Current(entry: Option<Entry>, windowMs: int, now: int): Entry {
    if entry.None? || entry.value.windowStart < now - windowMs then Entry(0, now) else entry.value
  }

  function CheckRate(entry: Option<Entry>, limit: int, windowMs: int, now: int): (Option<Entry>, QuotaResult) {
    var e := Current(entry, windowMs, now);
    if e.count + 1 <= limit then
      (Some(e.(count := e.count + 1)), QuotaResult(true, e.count + 1, limit, 0))
    else
      var undone := Max(0, e.count);
      (Some(e.(count := undone)), QuotaResult(false, undone, limit, Max(0, e.windowStart + windowMs - now)))
  }

  function Released(entry: Option<Entry>, amount: nat): Option<Entry> {
    if entry.Some? then Some(entry.value.(count := Max(0, entry.value.count - amount))) else None
  }

  function Lookup(counts: map<string, Entry>, key: string): Option<Entry> {
    if key in counts then Some(counts[key]) else None
  }

  function Store(counts: map<string, Entry>, key: string, entry: Option<Entry>): map<string, Entry> {
    if entry.Some? then counts[key := entry.value] else counts
  }

  class FallbackCounters {
    const windowMs: int
    var fallbackCounts: map<string, Entry>

    constructor (windowMs: int)
      ensures this.windowMs == windowMs && fallbackCounts == map[]
    {
      this.windowMs := windowMs;
      fallbackCounts := map[];
    }

    method CheckFallback(key: string, limit: int, isConcurrent: bool, now: int) returns (result: QuotaResult)
      modifies this`fallbackCounts
      ensures var entry := Lookup(old(fallbackCounts), key);
        var (entry', r) := if isConcurrent then CheckConcurrent(entry, limit, now) else CheckRate(entry, limit, windowMs, now);
        result == r && fallbackCounts == Store(old(fallbackCounts), key, entry')
    {
      var entry := Lookup(fallbackCounts, key);
      if isConcurrent {
        var current := if entry.Some? then entry.value.count else 0;
        if current >= limit {
          return QuotaResult(false, current, limit, 1000);
        }
        if entry.None? {
          entry := Some(Entry(0, now));
        }
        var counted := entry.value.(count := entry.value.count + 1);
        fallbackCounts := fallbackCounts[key := counted];
        return QuotaResult(true, counted.count, limit, 0);
      }
      var windowStart := now - windowMs;
      var e := Entry(0, now);
      if entry.Some? && !(entry.value.windowStart < windowStart) {
        e := entry.value;
      }
      e := e.(count := e.count + 1);
      var current := e.count;
      if current <= limit {
        fallbackCounts := fallbackCounts[key := e];
        return QuotaResult(true, current, limit, 0);
      }
      e := e.(count := Max(0, e.count - 1));
      fallbackCounts := fallbackCounts[key := e];
      var retryAfterMs := e.windowStart + windowMs - now;
      return QuotaResult(false, e.count, limit, Max(0, retryAfterMs));
    }

    method Release(key: string, amount: nat)
      modifies this`fallbackCounts
      ensures fallbackCounts == Store(old(fallbackCounts), key, Released(Lookup(old(fallbackCounts), key), amount))
    {
      if key in fallbackCounts {
        var entry := fallbackCounts[key];
        fallbackCounts := fallbackCounts[key := entry.(count := Max(0, entry.count - amount))];
      }
    }

    method Reset(key: string)
      modifies this`fallbackCounts
      ensures fallbackCounts == old(fallbackCounts) - {key}
    {
      fallbackCounts := fallbackCounts - {key};
    }
  }

  // ----- The concurrency branch, on one key -----

  datatype Use = Enter(now: int) | Leave(amount: nat) | Clear

  function InUse(limit: int, run: Run<Use>): Option<Entry> {
    match run
    case Start => None
    case Then(before, Enter(now)) => CheckConcurrent(InUse(limit, before), limit, now).0
    case Then(before, Leave(amount)) => Released(InUse(limit, before), amount)
    case Then(_, Clear) => None
  }

  /** Checks let through since the last reset. */
  function Entered(limit: int, run: Run<Use>): nat {
    match run
    case Start => 0
    case Then(before, Enter(now)) =>
      Entered(limit, before) + if CheckConcurrent(InUse(limit, before), limit, now).1.allowed then 1 else 0
    case Then(before, Leave(_)) => Entered(limit, before)
    case Then(_, Clear) => 0
  }

  function Left(run: Run<Use>): nat {
    match run
    case Start => 0
    case Then(before, Enter(_)) => Left(before)
    case Then(before, Leave(amount)) => Left(before) + amount
    case Then(_, Clear) => 0
  }

  /** The count is never negative or over the limit, and never below the checks let through less what was released. */
  lemma {:induction false} ConcurrentWithinLimit(limit: int, run: Run<Use>)
    ensures var count := if InUse(limit, run).Some? then InUse(limit, run).value.count else 0;
      0 <= count <= Max(0, limit) && Entered(limit, run) - Left(run) <= count <= Entered(limit, run)
  {
    if run.Then? {
      ConcurrentWithinLimit(limit, run.before);
    }
  }

  // ----- The rate branch, on one key -----

  /** The state of a key that has been checked at each time of the run. */
  function RateEntry(limit: int, w: int, run: Run<int>): Option<Entry> {
    match run
    case Start => None
    case Then(before, now) => CheckRate(RateEntry(limit, w, before), limit, w, now).0
  }

  predicate Clocked(run: Run<int>, now: int) {
    run.Then? ==> run.event <= now && Clocked(run.before, run.event)
  }

  predicate Admits(limit: int, w: int, before: Run<int>, now: int) {
    CheckRate(RateEntry(limit, w, before), limit, w, now).1.allowed
  }

  /** How many checks with a time in the half-open interval (lo, hi] were let through. */
  function AdmittedIn(limit: int, w: int, run: Run<int>, lo: int, hi: int): nat {
    match run
    case Start => 0
    case Then(before, now) =>
      AdmittedIn(limit, w, before, lo, hi) + if lo < now <= hi && Admits(limit, w, before, now) then 1 else 0
  }

  /** A check at `now` opens a new window. */
  predicate Opens(entry: Option<Entry>, w: int, now: int) {
    entry.None? || entry.value.windowStart < now - w
  }

  /** Where the window before the current one started, if there was one. */
  function PreviousStart(limit: int, w: int, run: Run<int>): Option<int> {
    match run
    case Start => None
    case Then(before, now) =>
      var entry := RateEntry(limit, w, before);
      if !Opens(entry, w, now) then PreviousStart(limit, w, before)
      else if entry.Some? then Some(entry.value.windowStart)
      else None
  }

  /** What a non-empty run has let through in (lo, hi], by where `lo` lies among the last two window starts. */
  predicate TwoWindows(limit: int, w: int, run: Run<int>, lo: int, hi: int)
    requires run.Then?
  {
    var entry, p, n := RateEntry(limit, w, run), PreviousStart(limit, w, run), AdmittedIn(limit, w, run, lo, hi);
    && entry.Some? && 1 <= entry.value.count <= limit && entry.value.windowStart <= run.event
    && (p.Some? ==> p.value + w < entry.value.windowStart)
    && (lo >= entry.value.windowStart + w ==> n == 0)
    && (lo >= entry.value.windowStart ==> n <= entry.value.count - 1)
    && (p.Some? && lo >= p.value ==> n <= limit - 1 + entry.value.count)
    && (p.None? ==> n <= entry.value.count)
  }

  lemma {:induction false} WindowsInvariant(limit: int, w: int, run: Run<int>, lo: int, hi: int)
    requires limit >= 1 && w >= 0 && run.Then? && Clocked(run, run.event)
    ensures TwoWindows(limit, w, run, lo, hi)
  {
    if run.before.Then? {
      WindowsInvariant(limit, w, run.before, lo, hi);
    }
  }

  lemma {:induction false} NothingWithoutLimit(limit: int, w: int, run: Run<int>, lo: int, hi: int)
    requires limit <= 0
    ensures AdmittedIn(limit, w, run, lo, hi) == 0
    ensures RateEntry(limit, w, run).Some? ==> RateEntry(limit, w, run).value.count == 0
  {
    if run.Then? {
      NothingWithoutLimit(limit, w, run.before, lo, hi);
    }
  }

  /** Any interval of one window length admits at most 2 * limit - 1 checks, not `limit`. */
  lemma {:induction false} FixedWindowBound(limit: int, w: int, run: Run<int>, lo: int, now: int)
    requires Clocked(run, now)
    ensures AdmittedIn(limit, w, run, lo, lo + w) <= Max(0, 2 * limit - 1)
  {
    if limit <= 0 {
      NothingWithoutLimit(limit, w, run, lo, lo + w);
    } else if run.Then? {
      FixedWindowBound(limit, w, run.before, lo, run.event);
      if w >= 0 {
        WindowsInvariant(limit, w, run, lo, lo + w);
      }
    }
  }

  /** `n` further checks at time `t`. */
  function Repeat(run: Run<int>, t: int, n: nat): Run<int> {
    if n == 0 then run else Then(Repeat(run, t, n - 1), t)
  }

  lemma {:induction false} RepeatAdmits(limit: int, w: int, run: Run<int>, t: int, n: nat, lo: int, hi: int)
    requires var e := RateEntry(limit, w, run);
      e.Some? && !Opens(e, w, t) && e.value.count + n <= limit
    ensures RateEntry(limit, w, Repeat(run, t, n)) ==
      Some(Entry(RateEntry(limit, w, run).value.count + n, RateEntry(limit, w, run).value.windowStart))
    ensures AdmittedIn(limit, w, Repeat(run, t, n), lo, hi) ==
      AdmittedIn(limit, w, run, lo, hi) + if lo < t <= hi then n else 0
  {
    if n > 0 {
      RepeatAdmits(limit, w, run, t, n - 1, lo, hi);
    }
  }

  lemma {:induction false} RepeatClocked(run: Run<int>, t: int, n: nat)
    requires Clocked(run, t)
    ensures Clocked(Repeat(run, t, n), t)
  {
    if n > 0 {
      RepeatClocked(run, t, n - 1);
    }
  }

  /** The first check, the rest of the quota as its window ends, and a full quota one millisecond later. */
  function Burst(limit: int, w: int): Run<int>
    requires limit >= 1
  {
    Repeat(Then(Repeat(Then(Start, 0), w, limit - 1), w + 1), w + 1, limit - 1)
  }

  lemma BurstClocked(limit: int, w: int)
    requires limit >= 1 && w >= 0
    ensures Clocked(Burst(limit, w), w + 1)
  {
    var first := Then(Start, 0);
    RepeatClocked(first, w, limit - 1);
    RepeatClocked(Then(Repeat(first, w, limit - 1), w + 1), w + 1, limit - 1);
  }

  /** The bound is attained for every positive limit and every window of at least two milliseconds. */
  lemma FixedWindowBoundAttained(limit: int, w: int)
    requires limit >= 1 && w >= 2
    ensures Clocked(Burst(limit, w), w + 1)
    ensures AdmittedIn(limit, w, Burst(limit, w), 1, 1 + w) == 2 * limit - 1
  {
    BurstClocked(limit, w);
    hide Clocked;
    var first := Then(Start, 0);
    assert RateEntry(limit, w, first) == Some(Entry(1, 0)) && AdmittedIn(limit, w, first, 1, 1 + w) == 0;
    RepeatAdmits(limit, w, first, w, limit - 1, 1, 1 + w);
    hide Repeat;
    var second := Then(Repeat(first, w, limit - 1), w + 1);
    assert RateEntry(limit, w, second) == Some(Entry(1, w + 1));
    assert AdmittedIn(limit, w, second, 1, 1 + w) == limit;
    RepeatAdmits(limit, w, second, w + 1, limit - 1, 1, 1 + w);
  }

  /** With a window of one millisecond an interval of that length is one instant, and its checks share a window. */
  lemma {:induction false} OneInstant(limit: int, run: Run<int>, t: int, now: int)
    requires limit >= 1 && Clocked(run, now)
    ensures AdmittedIn(limit, 1, run, t - 1, t) <= limit
    ensures run.Then? ==> RateEntry(limit, 1, run).Some? && 0 <= RateEntry(limit, 1, run).value.count <= limit
    ensures run.Then? && run.event == t ==> AdmittedIn(limit, 1, run, t - 1, t) <= RateEntry(limit, 1, run).value.count
    ensures run.Then? && run.event == t ==> t - 1 <= RateEntry(limit, 1, run).value.windowStart
    ensures run.Start? || run.event < t ==> AdmittedIn(limit, 1, run, t - 1, t) == 0
  {
    if run.Then? {
      OneInstant(limit, run.before, t, run.event);
    }
  }

  lemma {:induction false} EmptyInterval(limit: int, w: int, run: Run<int>, lo: int, hi: int)
    requires hi <= lo
    ensures AdmittedIn(limit, w, run, lo, hi) == 0
  {
    if run.Then? {
      EmptyInterval(limit, w, run.before, lo, hi);
    }
  }

  /** How many checks were let through in the interval of one window length that starts at `lo`. */
  function AdmittedFrom(limit: int, w: int, run: Run<int>, lo: int): nat {
    AdmittedIn(limit, w, run, lo, lo + w)
  }

  /** Exactly when the branch is the sliding window it is called: `limit` is kept by all intervals of all runs only if it is at most 1, or the window at most a millisecond. */
  lemma {:induction false} SlidingWindowIff(limit: int, w: int)
    ensures (forall run, lo, now :: Clocked(run, now) ==> AdmittedFrom(limit, w, run, lo) <= Max(0, limit))
       <==> limit <= 1 || w <= 1
  {
    hide AdmittedIn, Clocked, Burst;
    if limit <= 1 || w <= 1 {
      forall run, lo, now | Clocked(run, now) ensures AdmittedFrom(limit, w, run, lo) <= Max(0, limit) {
        if limit <= 1 {
          FixedWindowBound(limit, w, run, lo, now);
        } else if w <= 0 {
          EmptyInterval(limit, w, run, lo, lo + w);
        } else {
          OneInstant(limit, run, lo + 1, now);
          assert lo + 1 - 1 == lo;
        }
      }
    } else {
      FixedWindowBoundAttained(limit, w);
      assert Clocked(Burst(limit, w), w + 1) && AdmittedFrom(limit, w, Burst(limit, w), 1) > Max(0, limit);
    }
  }

  /** `run` continues `base` with checks no later than `deadline`. */
  predicate ContinuesUntil(run: Run<int>, base: Run<int>, deadline: int) {
    run == base || (run.Then? && run.event <= deadline && ContinuesUntil(run.before, base, deadline))
  }

  function RetryAfter(limit: int, w: int, run: Run<int>, now: int): int {
    CheckRate(RateEntry(limit, w, run), limit, w, now).1.retryAfterMs
  }

  /** The entry that refuses a check: a full window that has not expired. */
  lemma RefusingEntry(limit: int, w: int, run: Run<int>, now: int)
    requires limit >= 1 && Clocked(run, now) && !Admits(limit, w, run, now)
    ensures w >= 0 && run.Then?
    ensures RateEntry(limit, w, run) == Some(Entry(limit, now + RetryAfter(limit, w, run, now) - w))
    ensures RetryAfter(limit, w, run, now) >= 0
  {
    StartInThePast(limit, w, run, now);
    if run.Then? && w >= 0 {
      WindowsInvariant(limit, w, run, 0, 0);
    }
  }

  lemma {:induction false} StartInThePast(limit: int, w: int, run: Run<int>, now: int)
    requires Clocked(run, now)
    ensures RateEntry(limit, w, run).Some? ==> RateEntry(limit, w, run).value.windowStart <= now
  {
    if run.Then? {
      StartInThePast(limit, w, run.before, run.event);
    }
  }

  /** A full window refuses every check until it expires, and refusals leave it as it is. */
  lemma FullWindowRefuses(limit: int, w: int, start: int, t: int)
    requires limit >= 1
    ensures var (entry, r) := CheckRate(Some(Entry(limit, start)), limit, w, t);
      (r.allowed <==> t > start + w) && (t <= start + w ==> entry == Some(Entry(limit, start)))
  {
  }

  lemma {:induction false} EntryUntil(limit: int, w: int, run: Run<int>, base: Run<int>, start: int)
    requires limit >= 1 && RateEntry(limit, w, base) == Some(Entry(limit, start))
    requires ContinuesUntil(run, base, start + w)
    ensures RateEntry(limit, w, run) == Some(Entry(limit, start))
  {
    if run != base {
      EntryUntil(limit, w, run.before, base, start);
      FullWindowRefuses(limit, w, start, run.event);
    }
  }

  /**
   The announced delay is one millisecond short.  Whatever checks follow a refusal, they are all
   refused up to and including now + retryAfterMs; the first one after that is let through,
   unless the limit lets nothing through at all.
   */
  lemma {:induction false} RetryAfterIsOneShort(limit: int, w: int, base: Run<int>, run: Run<int>, now: int, t: int)
    requires Clocked(base, now) && !Admits(limit, w, base, now)
    requires ContinuesUntil(run, Then(base, now), now + RetryAfter(limit, w, base, now))
    ensures Admits(limit, w, run, t) <==> limit >= 1 && t > now + RetryAfter(limit, w, base, now)
  {
    hide RateEntry;
    if limit >= 1 {
      RefusingEntry(limit, w, base, now);
      var start := now + RetryAfter(limit, w, base, now) - w;
      ContinuesFrom(run, base, now, start + w);
      EntryUntil(limit, w, run, base, start);
      FullWindowRefuses(limit, w, start, t);
    } else {
      NothingWithoutLimit(limit, w, run, 0, 0);
    }
  }

  lemma {:induction false} ContinuesFrom(run: Run<int>, base: Run<int>, now: int, deadline: int)
    requires ContinuesUntil(run, Then(base, now), deadline) && now <= deadline
    ensures ContinuesUntil(run, base, deadline)
  {
    if run != Then(base, now) {
      ContinuesFrom(run.before, base, now, deadline);
    }
  }

  /** A run that shows it, for every limit and window: a full quota at time 0, a refusal that announces w, and another one at time w. */
  lemma RefusedWhenAnnounced(limit: int, w: int)
    requires limit >= 1 && w >= 0
    ensures var full := Repeat(Start, 0, limit);
      var refusal := CheckRate(RateEntry(limit, w, full), limit, w, 0).1;
      !refusal.allowed && refusal.retryAfterMs == w && !Admits(limit, w, Then(full, 0), w) && Admits(limit, w, Then(full, 0), w + 1)
  {
    var first, full := Then(Start, 0), Repeat(Start, 0, limit);
    RepeatAgain(Start, 0, limit - 1);
    RepeatAdmits(limit, w, first, 0, limit - 1, 0, 0);
    assert RateEntry(limit, w, full) == Some(Entry(limit, 0));
    FullWindowRefuses(limit, w, 0, 0);
    FullWindowRefuses(limit, w, 0, w);
    FullWindowRefuses(limit, w, 0, w + 1);
  }

  lemma {:induction false} RepeatAgain(run: Run<int>, t: int, n: nat)
    ensures Repeat(Then(run, t), t, n) == Repeat(run, t, n + 1)
  {
    if n > 0 {
      RepeatAgain(run, t, n - 1);
    }
  }

  // ----- Exactly which checks are let through -----

  /** How much of the quota is in use: a check takes one if fewer than the limit are taken, a release gives back what it names but no more than is taken. */
  function Taken(limit: int, run: Run<Use>): nat {
    match run
    case Start => 0
    case Then(before, Enter(_)) => if Taken(limit, before) < limit then Taken(limit, before) + 1 else Taken(limit, before)
    case Then(before, Leave(amount)) => if amount < Taken(limit, before) then Taken(limit, before) - amount else 0
    case Then(_, Clear) => 0
  }

  /** After any run the concurrency branch lets a check through exactly if fewer than the limit are taken, and says how many are taken then. */
  lemma {:induction false} EnterAllowedIff(limit: int, run: Run<Use>, now: int)
    ensures var r := CheckConcurrent(InUse(limit, run), limit, now).1;
      && (r.allowed <==> Taken(limit, run) < limit)
      && r.current == Taken(limit, Then(run, Enter(now))) && r.limit == limit
      && r.retryAfterMs == if r.allowed then 0 else 1000
    ensures (if InUse(limit, run).Some? then InUse(limit, run).value.count else 0) == Taken(limit, run)
  {
    TakenIsCount(limit, run);
  }

  lemma {:induction false} TakenIsCount(limit: int, run: Run<Use>)
    ensures (if InUse(limit, run).Some? then InUse(limit, run).value.count else 0) == Taken(limit, run)
  {
    if run.Then? {
      TakenIsCount(limit, run.before);
    }
  }

  /** Where the window in force at `now` began, from the times of the checks alone: each window begins with the first check after the one before has expired. */
  function WindowStart(w: int, run: Run<int>, now: int): int {
    match run
    case Start => now
    case Then(before, t) => var start := WindowStart(w, before, t); if start < now - w then now else start
  }

  /** How many checks have been made in the window in force at `now`. */
  function InWindow(w: int, run: Run<int>, now: int): nat {
    match run
    case Start => 0
    case Then(before, t) => if WindowStart(w, before, t) < now - w then 0 else InWindow(w, before, t) + 1
  }

  predicate EntryIs(limit: int, w: int, run: Run<int>)
    requires run.Then?
  {
    var checks := InWindow(w, run.before, run.event) + 1;
    RateEntry(limit, w, run) == Some(Entry(if checks < limit then checks else Max(0, limit), WindowStart(w, run.before, run.event)))
  }

  lemma {:induction false} EntryFromTimes(limit: int, w: int, run: Run<int>)
    requires run.Then? && limit >= 0
    ensures EntryIs(limit, w, run)
  {
    if run.before.Then? {
      EntryFromTimes(limit, w, run.before);
    }
  }

  /** After any run the rate branch lets a check through exactly if fewer than `limit` checks have been made in its window: the first `limit` of each window, whatever the others were told. */
  lemma {:induction false} FirstOfWindowAllowed(limit: int, w: int, run: Run<int>, now: int)
    requires limit >= 0
    ensures Admits(limit, w, run, now) <==> InWindow(w, run, now) < limit
  {
    if run.Then? {
      EntryFromTimes(limit, w, run);
    }
  }
}
