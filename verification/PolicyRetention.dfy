/** How long an answer of OPA stays in the decision cache, over all runs of the service. */
module PolicyRetention {
  import opened Options
  import opened Runs
  import opened Numbers
  import opened PolicyCache
  import opened PolicyService
  import B = PolicyBreaker

  /** The event is OPA's usable answer to a call in flight. */
  predicate Answers(s: State, e: Event) {
    e.Finish? && e.id in s.calls && Usable(e.response)
  }

  predicate AnswersFor(s: State, e: Event, key: string) {
    Answers(s, e) && s.calls[e.id] == key
  }

  /** How many usable answers, for any input, have come since the latest one for this hash. */
  function SinceLatest(c: Settings, run: Run<Event>, key: string): nat {
    match run
    case Start => 0
    case Then(before, e) =>
      var s := StateAfter(c, before);
      if AnswersFor(s, e, key) then 0
      else SinceLatest(c, before, key) + if Answers(s, e) then 1 else 0
  }

  /** How many usable answers have come since the first one for this hash. */
  function SinceFirst(c: Settings, run: Run<Event>, key: string): nat {
    match run
    case Start => 0
    case Then(before, e) =>
      if LastAnswer(c, before, key).None? then 0
      else SinceFirst(c, before, key) + if Answers(StateAfter(c, before), e) then 1 else 0
  }

  function Capacity(c: Settings): int {
    Max(1, c.cache.maxSize)
  }

  // ----- Where the slot stands -----

  /** The slot is at position `p`, with at most `behind` entries behind it. */
  predicate StandsAt(store: seq<Slot>, slot: Slot, p: nat, behind: int) {
    p < |store| && store[p] == slot && |store| - 1 - p <= behind
  }

  predicate Stands(store: seq<Slot>, slot: Slot, behind: int) {
    exists p: nat :: p < |store| && StandsAt(store, slot, p, behind)
  }

  lemma {:induction false} DeletedStands(store: seq<Slot>, key: string, p: nat)
    requires p < |store| && store[p].key != key
    ensures Stands(Deleted(store, key), store[p], |store| - 1 - p)
  {
    var store', slot := Deleted(store, key), store[p];
    if p == 0 {
      assert StandsAt(store', slot, 0, |store| - 1);
    } else {
      var rest := store[1..];
      DeletedStands(rest, key, p - 1);
      var q: nat :| q < |Deleted(rest, key)| && StandsAt(Deleted(rest, key), slot, q, |store| - 1 - p);
      assert StandsAt(store', slot, if store[0].key == key then q else q + 1, |store| - 1 - p);
    }
  }

  lemma {:induction false} LiveStands(store: seq<Slot>, now: int, p: nat)
    requires p < |store| && now <= store[p].expiresAt
    ensures Stands(Live(store, now), store[p], |store| - 1 - p)
  {
    var store', slot := Live(store, now), store[p];
    if p == 0 {
      assert StandsAt(store', slot, 0, |store| - 1);
    } else {
      var rest := store[1..];
      LiveStands(rest, now, p - 1);
      var q: nat :| q < |Live(rest, now)| && StandsAt(Live(rest, now), slot, q, |store| - 1 - p);
      assert StandsAt(store', slot, if now > store[0].expiresAt then q else q + 1, |store| - 1 - p);
    }
  }

  lemma StandsMore(store: seq<Slot>, slot: Slot, behind: int, more: int)
    requires Stands(store, slot, behind) && behind <= more
    ensures Stands(store, slot, more)
  {
    var p: nat :| p < |store| && StandsAt(store, slot, p, behind);
    assert StandsAt(store, slot, p, more);
  }

  /** Reads and sweeps before its time is over leave the slot, with no more behind it than before. */
  lemma ReadStands(store: seq<Slot>, slot: Slot, behind: int, key: string, now: int)
    requires Distinct(store) && Stands(store, slot, behind) && now <= slot.expiresAt
    ensures Stands(Got(store, key, now).0, slot, behind)
  {
    hide Deleted;
    var p: nat :| p < |store| && StandsAt(store, slot, p, behind);
    FindIs(store, slot);
    if slot.key != key {
      DeletedStands(store, key, p);
      StandsMore(Deleted(store, key), slot, |store| - 1 - p, behind);
    }
  }

  lemma SweepStands(store: seq<Slot>, slot: Slot, behind: int, now: int)
    requires Stands(store, slot, behind) && now <= slot.expiresAt
    ensures Stands(Live(store, now), slot, behind)
  {
    hide Live;
    var p: nat :| p < |store| && StandsAt(store, slot, p, behind);
    LiveStands(store, now, p);
    StandsMore(Live(store, now), slot, |store| - 1 - p, behind);
  }

  /** An answer for another hash leaves it as well, unless it is the front of a full cache, and puts at most one entry behind it. */
  lemma OtherSetStands(c: Config, store: seq<Slot>, slot: Slot, behind: int, key: string, decision: Decision, now: int)
    requires Distinct(store) && Stands(store, slot, behind) && slot.key != key
    requires Full(c, store) ==> store[0] != slot
    ensures Stands(SetTo(c, store, key, decision, now), slot, behind + 1)
  {
    hide SetTo;
    var p: nat :| p < |store| && StandsAt(store, slot, p, behind);
    SetEvictsFirst(c, store, key, decision, now);
    assert StandsAt(SetTo(c, store, key, decision, now), slot, if Full(c, store) then p - 1 else p, behind + 1);
  }

  /** An answer for its own hash replaces the slot where it stands, or puts it at the end. */
  lemma OwnSetStands(c: Config, store: seq<Slot>, was: Slot, behind: int, decision: Decision, now: int)
    requires Distinct(store) && Stands(store, was, behind) && behind >= 0
    ensures Stands(SetTo(c, store, was.key, decision, now), Slot(was.key, decision, now + c.ttlMs), behind)
  {
    hide SetTo;
    var slot, store' := Slot(was.key, decision, now + c.ttlMs), SetTo(c, store, was.key, decision, now);
    var p: nat :| p < |store| && StandsAt(store, was, p, behind);
    SetEvictsFirst(c, store, was.key, decision, now);
    var room := if Full(c, store) then store[1..] else store;
    if HasKey(room, was.key) {
      var q: nat := if Full(c, store) then p - 1 else p;
      assert room[q] == was;
      assert StandsAt(store', slot, q, behind);
    } else {
      assert StandsAt(store', slot, |room|, behind);
    }
  }

  /** In any case an answer leaves its own slot in the cache, and unless something is ahead of it there is room for the next. */
  lemma NewSetStands(c: Config, store: seq<Slot>, key: string, decision: Decision, now: int)
    requires Sound(c, store)
    ensures var slot, store' := Slot(key, decision, now + c.ttlMs), SetTo(c, store, key, decision, now);
      && Stands(store', slot, |store'| - 1)
      && (!HasKey(store, key) ==> Stands(store', slot, 0))
      && (c.maxSize >= 2 && store'[0] == slot ==> |store'| < c.maxSize)
  {
    hide SetTo;
    var slot, store' := Slot(key, decision, now + c.ttlMs), SetTo(c, store, key, decision, now);
    SetEvictsFirst(c, store, key, decision, now);
    var room := if Full(c, store) then store[1..] else store;
    if HasKey(room, key) {
      var q: nat :| q < |room| && room[q].key == key;
      assert StandsAt(store', slot, q, |store'| - 1);
    } else {
      assert StandsAt(store', slot, |room|, 0);
      StandsMore(store', slot, 0, |store'| - 1);
    }
  }

  // ----- Runs -----

  function SlotOf(c: Settings, key: string, answer: Answer): Slot {
    Slot(key, answer.decision, answer.time + c.cache.ttlMs)
  }

  predicate StandsIfThere(c: Settings, store: seq<Slot>, key: string, answer: Answer, behind: nat) {
    HasKey(store, key) ==> Stands(store, SlotOf(c, key, answer), behind)
  }

  /** A cached key is cached with the slot of its latest answer. */
  lemma CachedIsLatest(c: Settings, run: Run<Event>, key: string)
    requires HasKey(StateAfter(c, run).store, key)
    ensures LastAnswer(c, run, key).Some? && SlotOf(c, key, LastAnswer(c, run, key).value) in StateAfter(c, run).store
  {
    hide StateAfter, LastAnswer;
    CacheInvariant(c, run);
    var store := StateAfter(c, run).store;
    var i :| 0 <= i < |store| && store[i].key == key;
    assert Current(c, run, store[i]);
  }

  lemma ReadMayStand(store: seq<Slot>, slot: Slot, behind: int, key: string, now: int)
    requires Distinct(store) && Stands(store, slot, behind)
    ensures HasKey(Got(store, key, now).0, slot.key) ==> Stands(Got(store, key, now).0, slot, behind)
  {
    hide Stands;
    if now <= slot.expiresAt {
      ReadStands(store, slot, behind, key, now);
    } else {
      ReadExpired(store, slot, behind, key, now);
    }
  }

  lemma ReadExpired(store: seq<Slot>, slot: Slot, behind: int, key: string, now: int)
    requires Distinct(store) && Stands(store, slot, behind) && now > slot.expiresAt
    ensures HasKey(Got(store, key, now).0, slot.key) ==> Stands(Got(store, key, now).0, slot, behind)
  {
    hide Deleted;
    var p: nat :| p < |store| && StandsAt(store, slot, p, behind);
    FindIs(store, slot);
    if slot.key == key {
      var store' := Deleted(store, key);
      forall i | 0 <= i < |store'| ensures store'[i].key != key {
        assert store'[i] in store';
      }
    } else {
      DeletedStands(store, key, p);
      StandsMore(Deleted(store, key), slot, |store| - 1 - p, behind);
    }
  }

  lemma SweepMayStand(store: seq<Slot>, slot: Slot, behind: int, now: int)
    requires Distinct(store) && Stands(store, slot, behind)
    ensures HasKey(Live(store, now), slot.key) ==> Stands(Live(store, now), slot, behind)
  {
    hide Live;
    if now <= slot.expiresAt {
      SweepStands(store, slot, behind, now);
    } else {
      var store' := Live(store, now);
      FindIs(store, slot);
      forall i | 0 <= i < |store'| ensures store'[i].key != slot.key {
        assert store'[i] in store';
        if store'[i].key == slot.key {
          FindIs(store, store'[i]);
        }
      }
    }
  }

  lemma OtherSetMayStand(c: Config, store: seq<Slot>, slot: Slot, behind: int, key: string, decision: Decision, now: int)
    requires Distinct(store) && Stands(store, slot, behind) && slot.key != key
    ensures var store' := SetTo(c, store, key, decision, now);
      HasKey(store', slot.key) ==> Stands(store', slot, behind + 1)
  {
    hide SetTo;
    if Full(c, store) && store[0] == slot {
      SetEvictsFirst(c, store, key, decision, now);
    } else {
      OtherSetStands(c, store, slot, behind, key, decision, now);
    }
  }

  /** What one event means for the slot of a key that has been answered before. */
  lemma StepMayStand(c: Settings, s: State, e: Event, key: string, answer: Answer, behind: nat)
    requires Sound(c.cache, s.store) && StandsIfThere(c, s.store, key, answer, behind)
    requires !AnswersFor(s, e, key)
    ensures StandsIfThere(c, Step(c, s, e).store, key, answer, behind + if Answers(s, e) then 1 else 0)
  {
    hide Stands, Got, Live, SetTo;
    var slot := SlotOf(c, key, answer);
    if HasKey(s.store, key) {
      match e
      case Begin(_, input, now) => ReadMayStand(s.store, slot, behind, c.hash(input), now);
      case Finish(id, response, _, now) =>
        if Answers(s, e) {
          OtherSetMayStand(c.cache, s.store, slot, behind, s.calls[id], DecisionOf(response.body), now);
        }
      case Sweep(now) => SweepMayStand(s.store, slot, behind, now);
    } else {
      StaysAway(c, s, e, key);
    }
  }

  /** Only an answer for it brings a key into the cache. */
  lemma StaysAway(c: Settings, s: State, e: Event, key: string)
    requires Sound(c.cache, s.store) && !HasKey(s.store, key) && !AnswersFor(s, e, key)
    ensures !HasKey(Step(c, s, e).store, key)
  {
    hide SetTo, Got, Live, Step;
    var store' := Step(c, s, e).store;
    forall i | 0 <= i < |store'| ensures store'[i].key != key {
      SlotFromBefore(c, s, e, store'[i]);
    }
  }

  lemma {:induction false} RunMayStand(c: Settings, run: Run<Event>, key: string)
    requires LastAnswer(c, run, key).Some?
    ensures StandsIfThere(c, StateAfter(c, run).store, key, LastAnswer(c, run, key).value, SinceFirst(c, run, key))
  {
    hide Step, StandsIfThere, SetTo;
    var s, e := StateAfter(c, run.before), run.event;
    CacheInvariant(c, run.before);
    if !AnswersFor(s, e, key) {
      RunMayStand(c, run.before, key);
      StepMayStand(c, s, e, key, LastAnswer(c, run.before, key).value, SinceFirst(c, run.before, key));
    } else if LastAnswer(c, run.before, key).Some? {
      RunMayStand(c, run.before, key);
      AnswerMayStand(c, s, e, key, LastAnswer(c, run.before, key).value, SinceFirst(c, run.before, key));
    } else {
      FirstStands(c, run, key);
    }
  }

  lemma AnswerMayStand(c: Settings, s: State, e: Event, key: string, answer: Answer, behind: nat)
    requires Sound(c.cache, s.store) && AnswersFor(s, e, key)
    requires StandsIfThere(c, s.store, key, answer, behind)
    ensures StandsIfThere(c, Step(c, s, e).store, key, Answer(DecisionOf(e.response.body), e.now), behind + 1)
  {
    hide Stands, SetTo, DecisionOf;
    var slot, store' := SlotOf(c, key, Answer(DecisionOf(e.response.body), e.now)), Step(c, s, e).store;
    if HasKey(s.store, key) {
      OwnSetStands(c.cache, s.store, SlotOf(c, key, answer), behind, DecisionOf(e.response.body), e.now);
      StandsMore(store', slot, behind, behind + 1);
    } else {
      NewSetStands(c.cache, s.store, key, DecisionOf(e.response.body), e.now);
      StandsMore(store', slot, 0, behind + 1);
    }
  }

  lemma FirstStands(c: Settings, run: Run<Event>, key: string)
    requires run.Then? && AnswersFor(StateAfter(c, run.before), run.event, key) && LastAnswer(c, run.before, key).None?
    ensures StandsIfThere(c, StateAfter(c, run).store, key, LastAnswer(c, run, key).value, 0)
  {
    hide Stands, SetTo, DecisionOf;
    var s, e := StateAfter(c, run.before), run.event;
    CacheInvariant(c, run.before);
    if HasKey(s.store, key) {
      CachedIsLatest(c, run.before, key);
    }
    NewSetStands(c.cache, s.store, key, DecisionOf(e.response.body), e.now);
  }

  /** While its time lasts, an event leaves the slot in the cache, unless it is an answer for another hash and the slot the front of a full cache. */
  lemma StepKeeps(c: Settings, s: State, e: Event, slot: Slot)
    requires Sound(c.cache, s.store) && slot in s.store && e.now <= slot.expiresAt && !AnswersFor(s, e, slot.key)
    requires Answers(s, e) && Full(c.cache, s.store) ==> s.store[0] != slot
    ensures slot in Step(c, s, e).store
  {
    hide Got, Live, SetTo;
    var store := s.store;
    var p: nat :| p < |store| && store[p] == slot;
    assert StandsAt(store, slot, p, |store|);
    match e
    case Begin(_, input, now) => ReadStands(store, slot, |store|, c.hash(input), now);
    case Finish(id, response, _, now) =>
      if Answers(s, e) {
        OtherSetStands(c.cache, store, slot, |store|, s.calls[id], DecisionOf(response.body), now);
      }
    case Sweep(now) => SweepStands(store, slot, |store|, now);
  }

  lemma AnswerIsThere(c: Settings, s: State, e: Event, key: string)
    requires Sound(c.cache, s.store) && AnswersFor(s, e, key)
    ensures SlotOf(c, key, Answer(DecisionOf(e.response.body), e.now)) in Step(c, s, e).store
  {
    hide SetTo;
    NewSetStands(c.cache, s.store, key, DecisionOf(e.response.body), e.now);
  }

  /** A slot with few entries behind it is not the front of a full cache. */
  lemma NotInFront(c: Settings, store: seq<Slot>, slot: Slot, behind: int)
    requires Distinct(store) && Stands(store, slot, behind) && behind + 1 < Capacity(c) && Full(c.cache, store)
    ensures store[0] != slot
  {
    var p: nat :| p < |store| && StandsAt(store, slot, p, behind);
    assert p > 0;
  }

  lemma {:induction false} KeptSinceFirst(c: Settings, run: Run<Event>, key: string, now: int)
    requires Clocked(run, now) && LastAnswer(c, run, key).Some?
    requires now <= LastAnswer(c, run, key).value.time + c.cache.ttlMs && SinceFirst(c, run, key) < Capacity(c)
    ensures SlotOf(c, key, LastAnswer(c, run, key).value) in StateAfter(c, run).store
  {
    hide Step, SetTo, Stands;
    var s, e := StateAfter(c, run.before), run.event;
    CacheInvariant(c, run.before);
    if AnswersFor(s, e, key) {
      AnswerIsThere(c, s, e, key);
    } else {
      var answer := LastAnswer(c, run.before, key).value;
      KeptSinceFirst(c, run.before, key, e.now);
      RunMayStand(c, run.before, key);
      var i :| 0 <= i < |s.store| && s.store[i] == SlotOf(c, key, answer);
      assert HasKey(s.store, key);
      if Answers(s, e) && Full(c.cache, s.store) {
        NotInFront(c, s.store, SlotOf(c, key, answer), SinceFirst(c, run.before, key));
      }
      StepKeeps(c, s, e, SlotOf(c, key, answer));
    }
  }

  // ----- The latest answer and the next one -----

  /** The slot is cached, and the next answer will not evict it. */
  predicate Roomy(c: Config, store: seq<Slot>, slot: Slot) {
    slot in store && (store[0] == slot ==> |store| < c.maxSize)
  }

  lemma {:induction false} LiveSame(store: seq<Slot>, now: int)
    requires |Live(store, now)| == |store|
    ensures Live(store, now) == store
  {
    if store != [] {
      LiveSame(store[1..], now);
    }
  }

  lemma ReadRoomy(c: Config, store: seq<Slot>, slot: Slot, key: string, now: int)
    requires Sound(c, store) && c.maxSize >= 2 && Roomy(c, store, slot) && now <= slot.expiresAt
    ensures Roomy(c, Got(store, key, now).0, slot)
  {
    hide Deleted;
    FindIs(store, slot);
    DeletedDistinct(store, key);
    if forall i :: 0 <= i < |store| ==> store[i].key != key {
      DeletedAbsent(store, key);
    }
  }

  lemma SweepRoomy(c: Config, store: seq<Slot>, slot: Slot, now: int)
    requires Sound(c, store) && c.maxSize >= 2 && Roomy(c, store, slot) && now <= slot.expiresAt
    ensures Roomy(c, Live(store, now), slot)
  {
    hide Live;
    if |Live(store, now)| == |store| {
      LiveSame(store, now);
    }
  }

  lemma StepRoomy(c: Settings, s: State, e: Event, slot: Slot)
    requires Sound(c.cache, s.store) && c.cache.maxSize >= 2 && Roomy(c.cache, s.store, slot)
    requires e.now <= slot.expiresAt && !Answers(s, e)
    ensures Roomy(c.cache, Step(c, s, e).store, slot)
  {
    hide Got, Live, SetTo, Roomy;
    match e
    case Begin(_, input, now) => ReadRoomy(c.cache, s.store, slot, c.hash(input), now);
    case Finish(_, _, _, _) =>
    case Sweep(now) => SweepRoomy(c.cache, s.store, slot, now);
  }

  lemma AnswerIsRoomy(c: Settings, s: State, e: Event, key: string)
    requires Sound(c.cache, s.store) && AnswersFor(s, e, key) && c.cache.maxSize >= 2
    ensures Roomy(c.cache, Step(c, s, e).store, SlotOf(c, key, Answer(DecisionOf(e.response.body), e.now)))
  {
    hide SetTo;
    NewSetStands(c.cache, s.store, key, DecisionOf(e.response.body), e.now);
  }

  lemma {:induction false} KeptSinceLatest(c: Settings, run: Run<Event>, key: string, now: int)
    requires Clocked(run, now) && LastAnswer(c, run, key).Some? && c.cache.maxSize >= 2
    requires now <= LastAnswer(c, run, key).value.time + c.cache.ttlMs && SinceLatest(c, run, key) <= 1
    ensures var slot := SlotOf(c, key, LastAnswer(c, run, key).value);
      slot in StateAfter(c, run).store && (SinceLatest(c, run, key) == 0 ==> Roomy(c.cache, StateAfter(c, run).store, slot))
  {
    hide Step, SetTo, Stands, Roomy;
    var s, e := StateAfter(c, run.before), run.event;
    CacheInvariant(c, run.before);
    if AnswersFor(s, e, key) {
      AnswerIsRoomy(c, s, e, key);
      AnswerIsThere(c, s, e, key);
    } else {
      var slot := SlotOf(c, key, LastAnswer(c, run.before, key).value);
      KeptSinceLatest(c, run.before, key, e.now);
      if Answers(s, e) {
        RoomyNotFront(c, s.store, slot);
      } else if SinceLatest(c, run, key) == 0 {
        StepRoomy(c, s, e, slot);
      }
      StepKeeps(c, s, e, slot);
    }
  }

  lemma RoomyNotFront(c: Settings, store: seq<Slot>, slot: Slot)
    requires Roomy(c.cache, store, slot)
    ensures Full(c.cache, store) ==> store[0] != slot
  {
  }

  // ----- Retention -----

  /** The answers that have come since the latest, or since the first, answer for this hash cannot have evicted it. */
  predicate FewSince(c: Settings, run: Run<Event>, key: string) {
    || SinceFirst(c, run, key) < Capacity(c)
    || (SinceLatest(c, run, key) <= 1 && SinceLatest(c, run, key) < Capacity(c))
  }

  /**
   An answer of OPA is used again.  Until `ttlMs` after the latest usable answer for a hash, a call with that
   hash that the breaker does not block returns that decision and begins no request, provided
   that fewer than max(1, maxSize) usable answers have come since the first one for that hash, or at
   most one since the latest (and none, if the cache has room for one entry only).
   Reads, sweeps, blocked and failed calls in between do not matter.
   */
  lemma {:induction false} AnswerIsKept(c: Settings, run: Run<Event>, id: nat, input: string, now: int)
    requires Clocked(run, now) && id !in StateAfter(c, run).calls && !Blocked(c, run, now)
    requires LastAnswer(c, run, c.hash(input)).Some? && FewSince(c, run, c.hash(input))
    requires now <= LastAnswer(c, run, c.hash(input)).value.time + c.cache.ttlMs
    ensures var s, e := StateAfter(c, run), Begin(id, input, now);
      && Reply(c, s, e) == Some(LastAnswer(c, run, c.hash(input)).value.decision)
      && Step(c, s, e).calls == s.calls
  {
    hide StateAfter, BreakerRun, LastAnswer, SinceFirst, SinceLatest;
    var key, store := c.hash(input), StateAfter(c, run).store;
    var slot := SlotOf(c, key, LastAnswer(c, run, key).value);
    if SinceFirst(c, run, key) < Capacity(c) {
      KeptSinceFirst(c, run, key, now);
    } else if c.cache.maxSize >= 2 {
      KeptSinceLatest(c, run, key, now);
    } else {
      JustAnswered(c, run, key, now);
    }
    CacheInvariant(c, run);
    BreakerFollows(c, run);
    ToldClocked(c, run, now);
    B.ExecutesIff(c.breaker, BreakerRun(c, run), now);
    FindIs(store, slot);
  }

  lemma {:induction false} JustAnswered(c: Settings, run: Run<Event>, key: string, now: int)
    requires Clocked(run, now) && LastAnswer(c, run, key).Some? && SinceLatest(c, run, key) == 0
    requires now <= LastAnswer(c, run, key).value.time + c.cache.ttlMs
    ensures SlotOf(c, key, LastAnswer(c, run, key).value) in StateAfter(c, run).store
  {
    hide Step, SetTo;
    var s, e := StateAfter(c, run.before), run.event;
    CacheInvariant(c, run.before);
    if AnswersFor(s, e, key) {
      AnswerIsThere(c, s, e, key);
    } else {
      JustAnswered(c, run.before, key, e.now);
      StepKeeps(c, s, e, SlotOf(c, key, LastAnswer(c, run.before, key).value));
    }
  }
}
