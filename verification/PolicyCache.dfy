/**
 The decision cache of policy-plane/src/service.ts.  The JavaScript Map is given by its entries
 in insertion order.  The source calls the class LRUCache, but reads do not reorder entries:
 the entry evicted is the one inserted first.
 */
module PolicyCache {
  import opened Options

  datatype Decision = Decision(allow: bool, reason: string)
  datatype Slot = Slot(key: string, decision: Decision, expiresAt: int)
  datatype Config = Config(maxSize: int, ttlMs: int)

  function Find(store: seq<Slot>, key: string): (r: Option<Slot>)
    ensures r.Some? ==> r.value in store && r.value.key == key
    ensures r.None? ==> forall i :: 0 <= i < |store| ==> store[i].key != key
  {
    if store == [] then None
    else if store[0].key == key then Some(store[0])
    else Find(store[1..], key)
  }

  /** `Map.delete` */
  function Deleted(store: seq<Slot>, key: string): (r: seq<Slot>)
    ensures |r| <= |store|
    ensures forall slot :: slot in r <==> slot in store && slot.key != key
  {
    if store == [] then []
    else if store[0].key == key then Deleted(store[1..], key)
    else [store[0]] + Deleted(store[1..], key)
  }

  /** `Map.set`: an existing key keeps its place. */
  function Put(store: seq<Slot>, slot: Slot): (r: seq<Slot>)
    ensures 1 <= |r| <= |store| + 1
  {
    if store == [] then [slot]
    else if store[0].key == slot.key then [slot] + store[1..]
    else [store[0]] + Put(store[1..], slot)
  }

  predicate Distinct(store: seq<Slot>) {
    forall i, j :: 0 <= i < j < |store| ==> store[i].key != store[j].key
  }

  /** The entries that have not expired, in order. */
  function Live(store: seq<Slot>, now: int): (r: seq<Slot>)
    ensures |r| <= |store|
    ensures forall slot :: slot in r <==> slot in store && now <= slot.expiresAt
  {
    if store == [] then []
    else if now > store[0].expiresAt then Live(store[1..], now)
    else [store[0]] + Live(store[1..], now)
  }

  function Got(store: seq<Slot>, key: string, now: int): (seq<Slot>, Option<Decision>) {
    var entry := Find(store, key);
    if entry.None? then (store, None)
    else if now > entry.value.expiresAt then (Deleted(store, key), None)
    else (store, Some(entry.value.decision))
  }

  /** A full cache loses its first entry, whether or not the key to be set is new. */
  function Room(c: Config, store: seq<Slot>): seq<Slot> {
    if |store| >= c.maxSize && store != [] then Deleted(store, store[0].key) else store
  }

  function SetTo(c: Config, store: seq<Slot>, key: string, decision: Decision, now: int): seq<Slot> {
    Put(Room(c, store), Slot(key, decision, now + c.ttlMs))
  }

  class LRUCache {
    const config: Config
    var store: seq<Slot>

    constructor (config: Config)
      ensures this.config == config && store == []
    {
      this.config := config;
      store := [];
    }

    method Get(key: string, now: int) returns (decision: Option<Decision>)
      modifies this`store
      ensures (store, decision) == Got(old(store), key, now)
    {
      var entry := Find(store, key);
      if entry.None? {
        return None;
      }
      if now > entry.value.expiresAt {
        store := Deleted(store, key);
        return None;
      }
      return Some(entry.value.decision);
    }

    method Set(key: string, decision: Decision, now: int)
      modifies this`store
      ensures store == SetTo(config, old(store), key, decision, now)
    {
      if |store| >= config.maxSize {
        if store != [] {
          store := Deleted(store, store[0].key);
        }
      }
      store := Put(store, Slot(key, decision, now + config.ttlMs));
    }

    method EvictExpired(now: int)
      modifies this`store
      ensures store == Live(old(store), now)
    {
      hide Live;
      var i := 0;
      while i < |store|
        invariant 0 <= i <= |store|
        invariant Live(old(store), now) == store[..i] + Live(store[i..], now)
        decreases |store| - i
      {
        LiveStep(store[i..], now);
        assert store[i..][1..] == store[i + 1..];
        if now > store[i].expiresAt {
          assert (store[..i] + store[i + 1..])[i..] == store[i + 1..];
          store := store[..i] + store[i + 1..];
        } else {
          assert store[..i + 1] == store[..i] + [store[i]];
          i := i + 1;
        }
      }
      LiveOfNone(now);
    }
  }

  lemma LiveStep(store: seq<Slot>, now: int)
    requires store != []
    ensures Live(store, now) == (if now > store[0].expiresAt then [] else [store[0]]) + Live(store[1..], now)
  {
  }

  lemma LiveOfNone(now: int)
    ensures Live([], now) == []
  {
  }

  // ----- What the operations keep -----

  lemma {:induction false} DeletedDistinct(store: seq<Slot>, key: string)
    requires Distinct(store)
    ensures Distinct(Deleted(store, key))
    ensures (exists i :: 0 <= i < |store| && store[i].key == key) ==> |Deleted(store, key)| < |store|
  {
    if store != [] {
      DeletedDistinct(store[1..], key);
      if store[0].key != key && (exists i :: 0 <= i < |store| && store[i].key == key) {
        var i :| 0 <= i < |store| && store[i].key == key;
        assert store[1..][i - 1].key == key;
      }
      var rest := Deleted(store[1..], key);
      forall j | 0 <= j < |rest| ensures rest[j].key != store[0].key {
        assert rest[j] in rest;
      }
    }
  }

  lemma {:induction false} PutOrigin(store: seq<Slot>, slot: Slot, x: Slot)
    requires Distinct(store) && x in Put(store, slot)
    ensures x == slot || (x in store && x.key != slot.key)
  {
    if store != [] && store[0].key != slot.key && x != store[0] {
      PutOrigin(store[1..], slot, x);
    }
  }

  lemma {:induction false} PutDistinct(store: seq<Slot>, slot: Slot)
    requires Distinct(store)
    ensures Distinct(Put(store, slot))
  {
    if store != [] && store[0].key != slot.key {
      PutDistinct(store[1..], slot);
      var rest := Put(store[1..], slot);
      forall j | 0 <= j < |rest| ensures rest[j].key != store[0].key {
        PutOrigin(store[1..], slot, rest[j]);
      }
    }
  }

  lemma {:induction false} LiveDistinct(store: seq<Slot>, now: int)
    requires Distinct(store)
    ensures Distinct(Live(store, now))
  {
    if store != [] {
      LiveDistinct(store[1..], now);
      var rest := Live(store[1..], now);
      forall j | 0 <= j < |rest| ensures rest[j].key != store[0].key {
        assert rest[j] in rest;
      }
    }
  }

  lemma {:induction false} DeletedAbsent(store: seq<Slot>, key: string)
    requires forall i :: 0 <= i < |store| ==> store[i].key != key
    ensures Deleted(store, key) == store
  {
    if store != [] {
      DeletedAbsent(store[1..], key);
    }
  }

  lemma {:induction false} DeletedFirst(store: seq<Slot>)
    requires Distinct(store) && store != []
    ensures Deleted(store, store[0].key) == store[1..]
  {
    DeletedAbsent(store[1..], store[0].key);
  }

  /** The cache holds one entry per key and at most max(1, maxSize) entries. */
  predicate Sound(c: Config, store: seq<Slot>) {
    Distinct(store) && (|store| <= 1 || |store| <= c.maxSize)
  }

  lemma SetSound(c: Config, store: seq<Slot>, key: string, decision: Decision, now: int)
    requires Sound(c, store)
    ensures Sound(c, SetTo(c, store, key, decision, now))
  {
    hide Deleted, Put, Find;
    var room := Room(c, store);
    if store != [] {
      DeletedFirst(store);
    }
    PutDistinct(room, Slot(key, decision, now + c.ttlMs));
  }

  /** After a `set` only the new entry is left under its key, and nothing else is new. */
  lemma SetOrigin(c: Config, store: seq<Slot>, key: string, decision: Decision, now: int, slot: Slot)
    requires Distinct(store) && slot in SetTo(c, store, key, decision, now)
    ensures slot == Slot(key, decision, now + c.ttlMs) || (slot in store && slot.key != key)
  {
    hide Put, Find;
    var room := Room(c, store);
    if store != [] {
      DeletedDistinct(store, store[0].key);
    }
    PutOrigin(room, Slot(key, decision, now + c.ttlMs), slot);
  }

  lemma {:induction false} PutAbsent(store: seq<Slot>, slot: Slot)
    requires forall i :: 0 <= i < |store| ==> store[i].key != slot.key
    ensures Put(store, slot) == store + [slot]
  {
    if store != [] {
      PutAbsent(store[1..], slot);
    }
  }

  lemma {:induction false} FindIs(store: seq<Slot>, slot: Slot)
    requires Distinct(store) && slot in store
    ensures Find(store, slot.key) == Some(slot)
  {
    if store[0] != slot {
      assert slot in store[1..];
      FindIs(store[1..], slot);
    }
  }

  /** A lookup hits exactly when the key is cached and its time is not over. */
  lemma HitIff(store: seq<Slot>, key: string, now: int, decision: Decision)
    requires Distinct(store)
    ensures Got(store, key, now).1 == Some(decision)
       <==> exists slot :: slot in store && slot.key == key && slot.decision == decision && now <= slot.expiresAt
  {
    forall slot | slot in store && slot.key == key ensures Find(store, key) == Some(slot) {
      FindIs(store, slot);
    }
  }

  predicate HasKey(store: seq<Slot>, key: string) {
    exists i :: 0 <= i < |store| && store[i].key == key
  }

  predicate Full(c: Config, store: seq<Slot>) {
    |store| >= c.maxSize && store != []
  }

  lemma {:induction false} PutAt(store: seq<Slot>, slot: Slot, k: nat, i: nat)
    requires Distinct(store) && k < |store| && store[k].key == slot.key && i < |store|
    ensures |Put(store, slot)| == |store| && Put(store, slot)[i] == if i == k then slot else store[i]
  {
    if store[0].key != slot.key {
      PutAt(store[1..], slot, k - 1, if i > 0 then i - 1 else k - 1);
    }
  }

  lemma {:induction false} PutPresent(store: seq<Slot>, slot: Slot)
    requires Distinct(store) && HasKey(store, slot.key)
    ensures |Put(store, slot)| == |store|
    ensures forall i :: 0 <= i < |store| ==> Put(store, slot)[i] == if store[i].key == slot.key then slot else store[i]
  {
    hide Put;
    var k :| 0 <= k < |store| && store[k].key == slot.key;
    PutAt(store, slot, k, k);
    forall i | 0 <= i < |store| ensures Put(store, slot)[i] == if store[i].key == slot.key then slot else store[i] {
      PutAt(store, slot, k, i);
    }
  }

  lemma {:induction false} RoomIs(c: Config, store: seq<Slot>)
    requires Distinct(store)
    ensures Room(c, store) == if Full(c, store) then store[1..] else store
  {
    if store != [] {
      DeletedFirst(store);
    }
  }

  /**
   `set` on a full cache drops the entry at the front, even when the key is cached and no room is
   needed.  Then a key still cached keeps its place under the new entry, and any other goes last.
   */
  lemma {:induction false} SetEvictsFirst(c: Config, store: seq<Slot>, key: string, decision: Decision, now: int)
    requires Distinct(store)
    ensures var slot := Slot(key, decision, now + c.ttlMs);
      var room, store' := if Full(c, store) then store[1..] else store, SetTo(c, store, key, decision, now);
      if HasKey(room, key) then
        |store'| == |room| && forall i :: 0 <= i < |room| ==> store'[i] == if room[i].key == key then slot else room[i]
      else store' == room + [slot]
  {
    hide Put;
    var slot := Slot(key, decision, now + c.ttlMs);
    var room := Room(c, store);
    RoomIs(c, store);
    if HasKey(room, key) {
      PutPresent(room, slot);
    } else {
      PutAbsent(room, slot);
    }
  }
}
