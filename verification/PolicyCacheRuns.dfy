/**
 Which entry the decision cache evicts, over all runs of its operations.  The run is logged: when
 each key last came into the cache, and when it was last used (read with a hit, or set).
 */
module PolicyCacheRuns {
  import opened Options
  import opened Runs
  import opened Numbers
  import opened PolicyCache

  datatype Event = Get(key: string, now: int) | Set(key: string, decision: Decision, now: int) | EvictExpired(now: int)

  function Apply(c: Config, store: seq<Slot>, e: Event): seq<Slot> {
    match e
    case Get(key, now) => Got(store, key, now).0
    case Set(key, decision, now) => SetTo(c, store, key, decision, now)
    case EvictExpired(now) => Live(store, now)
  }

  function StateAfter(c: Config, run: Run<Event>): seq<Slot> {
    match run
    case Start => []
    case Then(before, e) => Apply(c, StateAfter(c, before), e)
  }

  predicate Uses(store: seq<Slot>, e: Event, key: string) {
    (e.Set? && e.key == key) || (e.Get? && e.key == key && Got(store, key, e.now).1.Some?)
  }

  predicate Inserts(c: Config, store: seq<Slot>, e: Event, key: string) {
    e.Set? && e.key == key && !HasKey(Room(c, store), key)
  }

  /** When each key was last used, counted in events. */
  function LastUse(c: Config, run: Run<Event>): map<string, nat> {
    match run
    case Start => map[]
    case Then(before, e) =>
      if !e.EvictExpired? && Uses(StateAfter(c, before), e, e.key) then LastUse(c, before)[e.key := Length(run)]
      else LastUse(c, before)
  }

  /** When each key last entered the cache. */
  function Inserted(c: Config, run: Run<Event>): map<string, nat> {
    match run
    case Start => map[]
    case Then(before, e) =>
      if e.Set? && Inserts(c, StateAfter(c, before), e, e.key) then Inserted(c, before)[e.key := Length(run)]
      else Inserted(c, before)
  }

  /** The key is cached, and no cached key has an earlier time. */
  predicate Earliest(store: seq<Slot>, times: map<string, nat>, key: string) {
    && HasKey(store, key) && key in times
    && forall i :: 0 <= i < |store| ==> store[i].key in times && times[key] <= times[store[i].key]
  }

  /** `set` removes another key from the cache. */
  predicate Evicts(c: Config, store: seq<Slot>, e: Event, key: string) {
    e.Set? && HasKey(store, key) && !HasKey(Apply(c, store, e), key)
  }

  // ----- The store is in order of insertion -----

  predicate Rising(store: seq<Slot>, times: map<string, nat>) {
    && (forall i :: 0 <= i < |store| ==> store[i].key in times)
    && (forall i, j :: 0 <= i < j < |store| ==> times[store[i].key] < times[store[j].key])
  }

  lemma RisingPrepend(slot: Slot, rest: seq<Slot>, times: map<string, nat>)
    requires Rising(rest, times) && slot.key in times
    requires forall x :: x in rest ==> times[slot.key] < times[x.key]
    ensures Rising([slot] + rest, times)
  {
  }

  lemma {:induction false} DeletedRising(store: seq<Slot>, key: string, times: map<string, nat>)
    requires Rising(store, times)
    ensures Rising(Deleted(store, key), times)
  {
    if store != [] {
      DeletedRising(store[1..], key, times);
      var rest := Deleted(store[1..], key);
      forall x | x in rest ensures times[store[0].key] < times[x.key] {
        assert x in store[1..];
      }
      hide Rising;
      RisingPrepend(store[0], rest, times);
    }
  }

  lemma {:induction false} LiveRising(store: seq<Slot>, now: int, times: map<string, nat>)
    requires Rising(store, times)
    ensures Rising(Live(store, now), times)
  {
    if store != [] {
      LiveRising(store[1..], now, times);
      var rest := Live(store[1..], now);
      forall x | x in rest ensures times[store[0].key] < times[x.key] {
        assert x in store[1..];
      }
      hide Rising;
      RisingPrepend(store[0], rest, times);
    }
  }

  predicate Below(times: map<string, nat>, t: nat) {
    forall key :: key in times ==> times[key] < t
  }

  lemma SetRising(c: Config, store: seq<Slot>, e: Event, times: map<string, nat>, t: nat)
    requires e.Set? && Rising(store, times) && Below(times, t)
    ensures Rising(Apply(c, store, e), if Inserts(c, store, e, e.key) then times[e.key := t] else times)
  {
    hide SetTo, Room;
    RoomIs(c, store);
    SetEvictsFirst(c, store, e.key, e.decision, e.now);
  }

  lemma InsertedBelow(c: Config, run: Run<Event>)
    ensures Below(Inserted(c, run), Length(run) + 1) && Below(LastUse(c, run), Length(run) + 1)
  {
  }

  lemma {:induction false} StoreRises(c: Config, run: Run<Event>)
    ensures Rising(StateAfter(c, run), Inserted(c, run))
  {
    if run.Then? {
      hide Rising, Apply, Inserts;
      var store, e, times := StateAfter(c, run.before), run.event, Inserted(c, run.before);
      StoreRises(c, run.before);
      InsertedBelow(c, run.before);
      match e
      case Set(_, _, _) => SetRising(c, store, e, times, Length(run));
      case Get(key, _) => GetRising(c, store, e, times);
      case EvictExpired(now) => ExpireRising(c, store, e, times);
    }
  }

  lemma GetRising(c: Config, store: seq<Slot>, e: Event, times: map<string, nat>)
    requires e.Get? && Rising(store, times)
    ensures Rising(Apply(c, store, e), times)
  {
    hide Rising;
    DeletedRising(store, e.key, times);
  }

  lemma ExpireRising(c: Config, store: seq<Slot>, e: Event, times: map<string, nat>)
    requires e.EvictExpired? && Rising(store, times)
    ensures Rising(Apply(c, store, e), times)
  {
    hide Rising;
    LiveRising(store, e.now, times);
  }

  /** In every run a `set` evicts a key if and only if the cache is full, the key is not the one set, and it is the one inserted earliest. */
  lemma {:induction false} EvictsIff(c: Config, run: Run<Event>, e: Event, key: string)
    requires e.Set?
    ensures var store := StateAfter(c, run);
      Evicts(c, store, e, key) <==> Full(c, store) && key != e.key && Earliest(store, Inserted(c, run), key)
  {
    hide StateAfter, Inserted, SetTo;
    var store := StateAfter(c, run);
    StoreRises(c, run);
    SetEvictsFirst(c, store, e.key, e.decision, e.now);
    SetKeys(c, store, e, key);
    if store != [] && key == store[0].key {
      assert HasKey(store, key);
    }
  }

  /** The keys cached after a `set`. */
  lemma SetKeys(c: Config, store: seq<Slot>, e: Event, key: string)
    requires e.Set? && Distinct(store)
    ensures HasKey(Apply(c, store, e), key) <==> key == e.key || (HasKey(store, key) && !(Full(c, store) && key == store[0].key))
  {
    hide SetTo;
    SetEvictsFirst(c, store, e.key, e.decision, e.now);
    var room, store' := if Full(c, store) then store[1..] else store, Apply(c, store, e);
    if HasKey(room, key) {
      var i :| 0 <= i < |room| && room[i].key == key;
      assert store'[i].key == key;
    }
    if HasKey(store, key) && Full(c, store) {
      var i :| 0 <= i < |store| && store[i].key == key;
      if i > 0 {
        assert room[i - 1].key == key;
      }
    }
    if !HasKey(room, e.key) {
      assert store'[|room|].key == e.key;
    } else {
      var i :| 0 <= i < |room| && room[i].key == e.key;
      assert store'[i].key == e.key;
    }
  }

  // ----- Least recently used -----

  /** In the run, the last use of `j` came after the last use of `k`. */
  predicate UsedSince(c: Config, run: Run<Event>, j: string, k: string) {
    run.Then? &&
      var store := StateAfter(c, run.before);
      Uses(store, run.event, j) || (!Uses(store, run.event, k) && UsedSince(c, run.before, j, k))
  }

  lemma {:induction false} UsedSinceIff(c: Config, run: Run<Event>, j: string, k: string)
    requires j != k && j in LastUse(c, run) && k in LastUse(c, run)
    ensures UsedSince(c, run, j, k) <==> LastUse(c, run)[k] < LastUse(c, run)[j]
    ensures LastUse(c, run)[k] != LastUse(c, run)[j]
  {
    hide StateAfter, Uses;
    var store, e := StateAfter(c, run.before), run.event;
    InsertedBelow(c, run.before);
    assert Uses(store, e, j) ==> !e.EvictExpired? && e.key == j by { UsesItsKey(store, e, j); }
    assert Uses(store, e, k) ==> !e.EvictExpired? && e.key == k by { UsesItsKey(store, e, k); }
    if !Uses(store, e, j) && !Uses(store, e, k) {
      UsedSinceIff(c, run.before, j, k);
    } else if Uses(store, e, j) {
      assert k in LastUse(c, run.before);
    }
  }

  lemma UsesItsKey(store: seq<Slot>, e: Event, key: string)
    ensures Uses(store, e, key) ==> !e.EvictExpired? && e.key == key
  {
  }

  /** Every cached key has been used, at its insertion or later. */
  lemma {:induction false} InsertionIsUse(c: Config, run: Run<Event>, key: string)
    requires key in Inserted(c, run)
    ensures key in LastUse(c, run) && Inserted(c, run)[key] <= LastUse(c, run)[key]
  {
    hide StateAfter, HasKey;
    InsertedBelow(c, run.before);
    if key in Inserted(c, run.before) {
      InsertionIsUse(c, run.before, key);
    }
  }

  /** Two ways to say that a cached key is the least recently used one: by the times of last use, and by who was used since. */
  lemma {:induction false} LeastRecentlyUsed(c: Config, run: Run<Event>, key: string)
    requires HasKey(StateAfter(c, run), key)
    ensures var store := StateAfter(c, run);
      Earliest(store, LastUse(c, run), key) <==>
      forall i :: 0 <= i < |store| && store[i].key != key ==> UsedSince(c, run, store[i].key, key)
  {
    hide StateAfter, Inserted, LastUse, UsedSince;
    var store, used := StateAfter(c, run), LastUse(c, run);
    StoreRises(c, run);
    InsertionIsUse(c, run, key);
    forall i | 0 <= i < |store|
      ensures store[i].key in used
      ensures store[i].key != key ==> (UsedSince(c, run, store[i].key, key) <==> used[key] < used[store[i].key])
      ensures store[i].key != key ==> used[key] != used[store[i].key]
    {
      InsertionIsUse(c, run, store[i].key);
      if store[i].key != key {
        UsedSinceIff(c, run, store[i].key, key);
      }
    }
  }

  /** A key that a `set` evicts and that was never used after its insertion is the least recently used one. */
  lemma UnusedIsLeastRecentlyUsed(c: Config, run: Run<Event>, e: Event, key: string)
    requires Evicts(c, StateAfter(c, run), e, key)
    requires key in Inserted(c, run) && key in LastUse(c, run) ==> LastUse(c, run)[key] == Inserted(c, run)[key]
    ensures Earliest(StateAfter(c, run), LastUse(c, run), key)
  {
    hide StateAfter, Inserted, LastUse, HasKey;
    var store, used, inserted := StateAfter(c, run), LastUse(c, run), Inserted(c, run);
    EvictsIff(c, run, e, key);
    InsertionIsUse(c, run, key);
    forall i | 0 <= i < |store| ensures store[i].key in used && inserted[store[i].key] <= used[store[i].key] {
      InsertionIsUse(c, run, store[i].key);
    }
  }

  // ----- Which caches evict the least recently used entry -----

  lemma StepSound(c: Config, store: seq<Slot>, e: Event)
    requires Sound(c, store)
    ensures Sound(c, Apply(c, store, e))
  {
    match e
    case Get(key, _) => DeletedDistinct(store, key);
    case Set(key, decision, now) => SetSound(c, store, key, decision, now);
    case EvictExpired(now) => LiveDistinct(store, now);
  }

  lemma {:induction false} RunSound(c: Config, run: Run<Event>)
    ensures Sound(c, StateAfter(c, run))
  {
    if run.Then? {
      RunSound(c, run.before);
      StepSound(c, StateAfter(c, run.before), run.event);
    }
  }

  lemma OneEntryIsEarliest(c: Config, run: Run<Event>, e: Event, key: string)
    requires c.maxSize <= 1 && Evicts(c, StateAfter(c, run), e, key)
    ensures Earliest(StateAfter(c, run), LastUse(c, run), key)
  {
    hide StateAfter, Inserted, LastUse;
    RunSound(c, run);
    StoreRises(c, run);
    InsertionIsUse(c, run, key);
  }

  /**
   Exactly when the cache is the LRU cache it is called: every `set` of every run evicts the least recently
   used key if and only if the cache has room for no more than one entry.
   */
  lemma {:induction false} EvictsLeastRecentlyUsedIff(c: Config)
    ensures (forall run, e, key :: Evicts(c, StateAfter(c, run), e, key) ==> Earliest(StateAfter(c, run), LastUse(c, run), key))
       <==> c.maxSize <= 1
  {
    hide StateAfter, LastUse, Evicts, Earliest;
    if c.maxSize <= 1 {
      forall run, e, key | Evicts(c, StateAfter(c, run), e, key) ensures Earliest(StateAfter(c, run), LastUse(c, run), key) {
        OneEntryIsEarliest(c, run, e, key);
      }
    } else {
      var decision := Decision(false, "");
      ReadDoesNotProtect(c, decision);
      var run := Then(Filled(decision, c.maxSize), Get(Key(0), ReadTime(c)));
      assert Evicts(c, StateAfter(c, run), Set(Key(c.maxSize), decision, 0), Key(0));
    }
  }

  // ----- Runs that evict the wrong entry -----

  function Key(i: nat): (key: string)
    ensures |key| == i
  {
    if i == 0 then "" else Key(i - 1) + "k"
  }

  /** Sets `n` different keys. */
  function Filled(decision: Decision, n: nat): Run<Event> {
    if n == 0 then Start else Then(Filled(decision, n - 1), Set(Key(n - 1), decision, 0))
  }

  lemma {:induction false} FilledStore(c: Config, decision: Decision, n: nat)
    requires n <= c.maxSize
    ensures var store := StateAfter(c, Filled(decision, n));
      |store| == n && Distinct(store) && forall i :: 0 <= i < n ==> store[i] == Slot(Key(i), decision, c.ttlMs)
  {
    hide Key, SetTo;
    if n > 0 {
      var store := StateAfter(c, Filled(decision, n - 1));
      FilledStore(c, decision, n - 1);
      SetEvictsFirst(c, store, Key(n - 1), decision, 0);
      forall i | 0 <= i < n - 1 ensures |Key(i)| != |Key(n - 1)| {
      }
    }
  }

  /** The time of the entries, 0, at which a read hits; only a negative `ttlMs` needs a clock that has been set back. */
  function ReadTime(c: Config): int {
    Min(0, c.ttlMs)
  }

  /**
   The failing run: a cache of two or more entries is filled, its first entry is read, and the next
   new key evicts just that entry, although every other entry was used less recently.
   */
  lemma {:induction false} ReadDoesNotProtect(c: Config, decision: Decision)
    requires c.maxSize >= 2
    ensures var run := Then(Filled(decision, c.maxSize), Get(Key(0), ReadTime(c)));
      var store := StateAfter(c, run);
      && Evicts(c, store, Set(Key(c.maxSize), decision, 0), Key(0))
      && !Earliest(store, LastUse(c, run), Key(0))
      && forall i :: 0 <= i < |store| && store[i].key != Key(0) ==> UsedSince(c, run, Key(0), store[i].key)
  {
    hide Filled;
    var filled := Filled(decision, c.maxSize);
    var run, e := Then(filled, Get(Key(0), ReadTime(c))), Set(Key(c.maxSize), decision, 0);
    var store := StateAfter(c, filled);
    FilledStore(c, decision, c.maxSize);
    FindIs(store, store[0]);
    assert StateAfter(c, run) == store && Uses(store, run.event, Key(0));
    SetKeys(c, store, e, Key(0));
    assert HasKey(store, Key(0));
    assert |Key(0)| != |Key(c.maxSize)|;
    assert Evicts(c, store, e, Key(0));
    assert store[1].key == Key(1) != Key(0);
    assert !UsedSince(c, run, store[1].key, Key(0));
    LeastRecentlyUsed(c, run, Key(0));
  }

  /** The other failing run: setting a cached key of a full cache anew evicts the first entry for nothing. */
  lemma {:induction false} OverwriteEvicts(c: Config, decision: Decision, again: Decision)
    requires c.maxSize >= 2
    ensures var store := StateAfter(c, Filled(decision, c.maxSize));
      var e := Set(Key(c.maxSize - 1), again, 0);
      HasKey(store, e.key) && Evicts(c, store, e, Key(0)) && |Apply(c, store, e)| == c.maxSize - 1
  {
    hide Filled, SetTo;
    var store, e := StateAfter(c, Filled(decision, c.maxSize)), Set(Key(c.maxSize - 1), again, 0);
    FilledStore(c, decision, c.maxSize);
    assert store[c.maxSize - 1].key == e.key && store[0].key == Key(0);
    assert |Key(0)| != |e.key|;
    SetKeys(c, store, e, Key(0));
    SetEvictsFirst(c, store, e.key, again, 0);
    assert store[1..][c.maxSize - 2].key == e.key;
  }

  /** Where a key is set again while the cache has room it keeps its old place, so its new decision is gone after two more keys, whatever the size. */
  lemma {:induction false} OverwriteKeepsPlace(c: Config, decision: Decision, again: Decision)
    requires c.maxSize >= 2
    ensures var n := c.maxSize;
      var overwritten := Then(Filled(decision, n - 1), Set(Key(0), again, 0));
      var filled := Then(overwritten, Set(Key(n - 1), decision, 0));
      && Slot(Key(0), again, c.ttlMs) in StateAfter(c, filled)
      && Evicts(c, StateAfter(c, filled), Set(Key(n), decision, 0), Key(0))
  {
    hide Filled, SetTo, Key;
    var n := c.maxSize;
    var r0 := Filled(decision, n - 1);
    var r1 := Then(r0, Set(Key(0), again, 0));
    var r2 := Then(r1, Set(Key(n - 1), decision, 0));
    var slot := Slot(Key(0), again, c.ttlMs);
    FilledStore(c, decision, n - 1);
    assert HasKey(StateAfter(c, r0), Key(0));
    SetEvictsFirst(c, StateAfter(c, r0), Key(0), again, 0);
    assert StateAfter(c, r1)[0] == slot && |StateAfter(c, r1)| == n - 1;
    StoreRises(c, r1);
    SetEvictsFirst(c, StateAfter(c, r1), Key(n - 1), decision, 0);
    NewKeys(c, decision, again, n);
    assert StateAfter(c, r2) == StateAfter(c, r1) + [Slot(Key(n - 1), decision, c.ttlMs)];
    assert StateAfter(c, r2)[0] == slot;
    assert HasKey(StateAfter(c, r2), Key(0));
    StoreRises(c, r2);
    assert |Key(0)| != |Key(n)|;
    SetKeys(c, StateAfter(c, r2), Set(Key(n), decision, 0), Key(0));
  }

  lemma NewKeys(c: Config, decision: Decision, again: Decision, n: nat)
    requires n == c.maxSize >= 2
    ensures !HasKey(StateAfter(c, Then(Filled(decision, n - 1), Set(Key(0), again, 0))), Key(n - 1))
  {
    hide Filled, SetTo, Key;
    var store := StateAfter(c, Filled(decision, n - 1));
    FilledStore(c, decision, n - 1);
    assert HasKey(store, Key(0));
    SetEvictsFirst(c, store, Key(0), again, 0);
    var store' := StateAfter(c, Then(Filled(decision, n - 1), Set(Key(0), again, 0)));
    forall i | 0 <= i < |store'| ensures store'[i].key != Key(n - 1) {
      assert |Key(i)| != |Key(n - 1)|;
    }
  }
}
