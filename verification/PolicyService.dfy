/**
 `evaluatePolicy` of policy-plane/src/service.ts: a circuit breaker and a decision cache in front
 of OPA.  Each call is two atomic parts, before and after the HTTP request; any number of calls
 interleave.  `hash` stands for `hashInput` and is arbitrary: it need not tell inputs apart.
 */
module PolicyService {
  import opened Options
  import opened Runs
  import opened PolicyCache
  import B = PolicyBreaker

  datatype Settings = Settings(breaker: B.Config, cache: Config, hash: string -> string)

  /** The parsed body: `null`, one without a usable `result`, or one with. */
  datatype ResponseBody = Null | NoResult | Result(allow: bool, reason: Option<string>)

  /** `Failed` is every rejection of the request: an error, a timeout, or an answer that is no JSON. */
  datatype Response = Failed(message: string) | Answered(status: int, body: ResponseBody)

  /** `calls` holds the cache key of every call that awaits OPA. */
  datatype State = State(breaker: B.Breaker, store: seq<Slot>, calls: map<nat, string>)

  const INITIAL := State(B.INITIAL, [], map[])

  const BLOCKED := Decision(false, "Circuit breaker OPEN: OPA unreachable")
  const NO_REASON := "Policy denied by OPA"

  /** OPA answered with a status of 200 to 299 and a body that is not `null`. */
  predicate Usable(r: Response) {
    r.Answered? && 200 <= r.status < 300 && !r.body.Null?
  }

  function DecisionOf(body: ResponseBody): Decision {
    if body.Result? && body.allow then Decision(true, "")
    else Decision(false, if body.Result? && body.reason.Some? then body.reason.value else NO_REASON)
  }

  function FailureOf(message: string): Decision {
    Decision(false, "OPA call failed: " + message)
  }

  /** From the call to the request to OPA, or to the decision that makes it unnecessary. */
  function Begun(c: Settings, s: State, id: nat, input: string, now: int): (State, Option<Decision>) {
    var (breaker, ok) := B.Asked(c.breaker, s.breaker, now);
    if !ok then (s.(breaker := breaker), Some(BLOCKED))
    else
      var key := c.hash(input);
      var (store, cached) := Got(s.store, key, now);
      if cached.Some? then (s.(breaker := breaker, store := store), cached)
      else (State(breaker, store, s.calls[id := key]), None)
  }

  /** From OPA's response to the decision. */
  function Finished(c: Settings, s: State, id: nat, response: Response, message: string, now: int): (State, Decision)
    requires id in s.calls
  {
    if Usable(response) then
      var decision := DecisionOf(response.body);
      (State(B.Succeeded(s.breaker), SetTo(c.cache, s.store, s.calls[id], decision, now), s.calls - {id}), decision)
    else
      (s.(breaker := B.Failed(c.breaker, s.breaker, now), calls := s.calls - {id}), FailureOf(message))
  }

  class PolicyPlaneService {
    const settings: Settings
    const circuitBreaker: B.CircuitBreaker
    const cache: LRUCache
    var calls: map<nat, string>

    function View(): State
      reads this, circuitBreaker, cache
    {
      State(circuitBreaker.View(), cache.store, calls)
    }

    predicate Valid() {
      circuitBreaker.config == settings.breaker && cache.config == settings.cache
    }

    constructor (settings: Settings)
      ensures this.settings == settings && Valid() && fresh(circuitBreaker) && fresh(cache) && View() == INITIAL
    {
      this.settings := settings;
      circuitBreaker := new B.CircuitBreaker(settings.breaker);
      cache := new LRUCache(settings.cache);
      calls := map[];
    }

    method BeginEvaluate(id: nat, input: string, now: int) returns (decision: Option<Decision>)
      requires Valid()
      modifies this, circuitBreaker, cache
      ensures (View(), decision) == Begun(settings, old(View()), id, input, now)
    {
      var ok := circuitBreaker.CanExecute(now);
      if !ok {
        return Some(BLOCKED);
      }
      var cacheKey := settings.hash(input);
      var cached := cache.Get(cacheKey, now);
      if cached.Some? {
        return cached;
      }
      calls := calls[id := cacheKey];
      return None;
    }

    /** `message` is the text of the error that is thrown when the response is not usable. */
    method FinishEvaluate(id: nat, response: Response, message: string, now: int) returns (decision: Decision)
      requires Valid() && id in calls
      modifies this, circuitBreaker, cache
      ensures (View(), decision) == Finished(settings, old(View()), id, response, message, now)
    {
      var cacheKey := calls[id];
      calls := calls - {id};
      if response.Failed? || response.status < 200 || response.status >= 300 || response.body.Null? {
        circuitBreaker.RecordFailure(now);
        return FailureOf(message);
      }
      var allow := response.body.Result? && response.body.allow;
      var reason := "";
      if !allow {
        reason := if response.body.Result? && response.body.reason.Some? then response.body.reason.value else NO_REASON;
      }
      decision := Decision(allow, reason);
      circuitBreaker.RecordSuccess();
      cache.Set(cacheKey, decision, now);
    }
  }

  // ----- Runs -----

  datatype Event =
    | Begin(id: nat, input: string, now: int)
    | Finish(id: nat, response: Response, message: string, now: int)
    | Sweep(now: int)

  function Step(c: Settings, s: State, e: Event): State {
    match e
    case Begin(id, input, now) => if id in s.calls then s else Begun(c, s, id, input, now).0
    case Finish(id, response, message, now) =>
      if id in s.calls then Finished(c, s, id, response, message, now).0 else s
    case Sweep(now) => s.(store := Live(s.store, now))
  }

  function StateAfter(c: Settings, run: Run<Event>): State {
    match run
    case Start => INITIAL
    case Then(before, e) => Step(c, StateAfter(c, before), e)
  }

  /** The decision that this part of a call returns, if it returns. */
  function Reply(c: Settings, s: State, e: Event): Option<Decision> {
    match e
    case Begin(id, input, now) => if id in s.calls then None else Begun(c, s, id, input, now).1
    case Finish(id, response, message, now) =>
      if id in s.calls then Some(Finished(c, s, id, response, message, now).1) else None
    case Sweep(_) => None
  }

  // ----- Where decisions come from -----

  datatype Answer = Answer(decision: Decision, time: int)

  /** OPA's latest usable answer to a call whose input has this hash. */
  function LastAnswer(c: Settings, run: Run<Event>, key: string): Option<Answer> {
    match run
    case Start => None
    case Then(before, e) =>
      var s := StateAfter(c, before);
      if e.Finish? && e.id in s.calls && s.calls[e.id] == key && Usable(e.response) then
        Some(Answer(DecisionOf(e.response.body), e.now))
      else LastAnswer(c, before, key)
  }

  /** The slot holds the latest answer for its key, until `ttlMs` after that answer. */
  predicate Current(c: Settings, run: Run<Event>, slot: Slot) {
    LastAnswer(c, run, slot.key) == Some(Answer(slot.decision, slot.expiresAt - c.cache.ttlMs))
  }

  lemma SlotFromBefore(c: Settings, s: State, e: Event, slot: Slot)
    requires Distinct(s.store) && slot in Step(c, s, e).store
    ensures var answered := e.Finish? && e.id in s.calls && Usable(e.response);
      if answered && slot.key == s.calls[e.id] then
        slot.decision == DecisionOf(e.response.body) && slot.expiresAt == e.now + c.cache.ttlMs
      else slot in s.store
  {
    if e.Finish? && e.id in s.calls && Usable(e.response) {
      hide SetTo, DecisionOf;
      SetOrigin(c.cache, s.store, s.calls[e.id], DecisionOf(e.response.body), e.now, slot);
    }
  }

  lemma StepSound(c: Settings, s: State, e: Event)
    requires Sound(c.cache, s.store)
    ensures Sound(c.cache, Step(c, s, e).store)
  {
    match e
    case Begin(id, input, now) => DeletedDistinct(s.store, c.hash(input));
    case Finish(id, response, _, now) =>
      if id in s.calls && Usable(response) {
        SetSound(c.cache, s.store, s.calls[id], DecisionOf(response.body), now);
      }
    case Sweep(now) => LiveDistinct(s.store, now);
  }

  /** Whatever is evicted, expires or is overwritten: every cached decision is the latest answer for its key. */
  lemma {:induction false} CacheInvariant(c: Settings, run: Run<Event>)
    ensures Sound(c.cache, StateAfter(c, run).store)
    ensures forall slot :: slot in StateAfter(c, run).store ==> Current(c, run, slot)
  {
    if run.Then? {
      var s := StateAfter(c, run.before);
      CacheInvariant(c, run.before);
      StepSound(c, s, run.event);
      forall slot | slot in StateAfter(c, run).store ensures Current(c, run, slot) {
        SlotFromBefore(c, s, run.event, slot);
        assert slot in s.store ==> Current(c, run.before, slot);
      }
    }
  }

  /** The response is a 2xx answer that allows. */
  predicate Allows(r: Response) {
    r.Answered? && 200 <= r.status <= 299 && r.body.Result? && r.body.allow
  }

  /**
   Fail closed.  A decision that allows comes from a usable OPA answer that allows, either in this
   very call, or recorded at most `ttlMs` ago for an input with the same hash and not superseded since.
   */
  lemma {:induction false} AllowOnlyFromOpa(c: Settings, run: Run<Event>, e: Event)
    requires Reply(c, StateAfter(c, run), e).Some? && Reply(c, StateAfter(c, run), e).value.allow
    ensures e.Finish? ==> Allows(e.response)
    ensures e.Begin? ==>
      var last := LastAnswer(c, run, c.hash(e.input));
      last.Some? && last.value.decision.allow && e.now - last.value.time <= c.cache.ttlMs
    ensures !e.Sweep?
  {
    CacheInvariant(c, run);
    if e.Begin? {
      var slot := Find(StateAfter(c, run).store, c.hash(e.input)).value;
      assert Current(c, run, slot);
    }
  }

  /** The reasons given for a denial: OPA's own, a default in their absence, the error of a failed call, or the open breaker. */
  lemma DenialReasons(c: Settings, s: State, e: Event)
    requires Reply(c, s, e).Some? && !Reply(c, s, e).value.allow
    ensures var reason := Reply(c, s, e).value.reason;
      && (e.Begin? && !B.Asked(c.breaker, s.breaker, e.now).1 ==> reason == "Circuit breaker OPEN: OPA unreachable")
      && (e.Finish? && Usable(e.response) && e.response.body.Result? && e.response.body.reason.Some? ==>
            reason == e.response.body.reason.value)
      && (e.Finish? && Usable(e.response) && (e.response.body.NoResult? || e.response.body.reason.None?) ==>
            reason == "Policy denied by OPA")
      && (e.Finish? && !Usable(e.response) ==> reason == "OPA call failed: " + e.message)
  {
  }

  /** A call that OPA answers returns exactly OPA's verdict, and denies on every failure whatever the state. */
  lemma FinishAllowsIff(c: Settings, s: State, e: Event)
    requires e.Finish? && e.id in s.calls
    ensures Reply(c, s, e).Some? && (Reply(c, s, e).value.allow <==> Allows(e.response))
  {
  }

  // ----- The breaker inside the service -----

  /** What the run has told the breaker. */
  function BreakerRun(c: Settings, run: Run<Event>): Run<B.Event> {
    match run
    case Start => Start
    case Then(before, e) =>
      var s, told := StateAfter(c, before), BreakerRun(c, before);
      match e
      case Begin(id, _, now) => if id in s.calls then told else Then(told, B.Ask(now))
      case Finish(id, response, _, now) =>
        if id !in s.calls then told
        else if response.Answered? && 200 <= response.status <= 299 && response.body != Null then Then(told, B.Success(now))
        else Then(told, B.Failure(now))
      case Sweep(_) => told
  }

  predicate Clocked(run: Run<Event>, now: int) {
    run.Then? ==> run.event.now <= now && Clocked(run.before, run.event.now)
  }

  lemma {:induction false} ToldClocked(c: Settings, run: Run<Event>, now: int)
    requires Clocked(run, now)
    ensures B.Clocked(BreakerRun(c, run), now)
  {
    if run.Then? {
      ToldClocked(c, run.before, run.event.now);
      ClockLater(BreakerRun(c, run.before), run.event.now, now);
    }
  }

  lemma ClockLater(run: Run<B.Event>, now: int, later: int)
    requires B.Clocked(run, now) && now <= later
    ensures B.Clocked(run, later)
  {
  }

  lemma {:induction false} BreakerFollows(c: Settings, run: Run<Event>)
    ensures StateAfter(c, run).breaker == B.StateAfter(c.breaker, BreakerRun(c, run))
  {
    if run.Then? {
      BreakerFollows(c, run.before);
    }
  }

  /** The trailing failed calls have reached the threshold, and the recovery time since the last of them is not over. */
  predicate Blocked(c: Settings, run: Run<Event>, now: int) {
    var told := BreakerRun(c, run);
    B.Tripped(c.breaker, told) && now - B.LastFailure(told) < c.breaker.recoveryTimeMs
  }

  /**
   With any calls still in flight: a new evaluation is refused by the breaker exactly when the
   trailing failed calls have reached the threshold and the recovery time since the last of them
   is not over, so no request to OPA begins during that time.
   */
  lemma {:induction false} BlockedIff(c: Settings, run: Run<Event>, id: nat, input: string, now: int)
    requires Clocked(run, now) && id !in StateAfter(c, run).calls
    ensures var s := StateAfter(c, run);
      var blocked := Blocked(c, run, now);
      && (blocked ==> Reply(c, s, Begin(id, input, now)) == Some(BLOCKED))
      && (id in Step(c, s, Begin(id, input, now)).calls <==>
            !blocked && Got(s.store, c.hash(input), now).1.None?)
  {
    hide StateAfter, BreakerRun;
    BreakerFollows(c, run);
    ToldClocked(c, run, now);
    B.ExecutesIff(c.breaker, BreakerRun(c, run), now);
  }

  /** The cache holds an answer that allows, for this key, at most `ttlMs` old. */
  predicate CachedAllow(c: Settings, run: Run<Event>, key: string, now: int) {
    exists slot :: slot in StateAfter(c, run).store && slot.key == key && slot.decision.allow && now <= slot.expiresAt
  }

  /**
   Both directions, for any interleaving: a call without a request to OPA allows exactly when the breaker
   does not block it and an allowing answer is still cached; a call with one, exactly when OPA's usable answer allows.
   */
  lemma {:induction false} AllowsIff(c: Settings, run: Run<Event>, e: Event)
    requires e.Begin? ==> Clocked(run, e.now) && e.id !in StateAfter(c, run).calls
    requires e.Finish? ==> e.id in StateAfter(c, run).calls
    ensures var reply := Reply(c, StateAfter(c, run), e);
      reply.Some? && reply.value.allow <==>
        match e
        case Begin(_, input, now) => !Blocked(c, run, now) && CachedAllow(c, run, c.hash(input), now)
        case Finish(_, response, _, _) => Allows(response)
        case Sweep(_) => false
  {
    hide StateAfter, BreakerRun;
    if e.Finish? {
      FinishAllowsIff(c, StateAfter(c, run), e);
    } else if e.Begin? {
      BreakerFollows(c, run);
      ToldClocked(c, run, e.now);
      B.ExecutesIff(c.breaker, BreakerRun(c, run), e.now);
      BeginAllowsIff(c, run, e);
    }
  }

  lemma BeginAllowsIff(c: Settings, run: Run<Event>, e: Event)
    requires e.Begin? && e.id !in StateAfter(c, run).calls
    ensures var s := StateAfter(c, run);
      var reply := Reply(c, s, e);
      reply.Some? && reply.value.allow <==> B.Asked(c.breaker, s.breaker, e.now).1 && CachedAllow(c, run, c.hash(e.input), e.now)
  {
    hide StateAfter, Got;
    CacheInvariant(c, run);
    var store, key := StateAfter(c, run).store, c.hash(e.input);
    forall decision: Decision | decision.allow
      ensures Got(store, key, e.now).1 == Some(decision) <==>
        exists slot :: slot in store && slot.key == key && slot.decision == decision && e.now <= slot.expiresAt
    {
      HitIff(store, key, e.now, decision);
    }
    if CachedAllow(c, run, key, e.now) {
      var slot :| slot in store && slot.key == key && slot.decision.allow && e.now <= slot.expiresAt;
      assert Got(store, key, e.now).1 == Some(slot.decision);
    }
  }
}
