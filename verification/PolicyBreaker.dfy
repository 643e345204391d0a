/**
 The circuit breaker of policy-plane/src/service.ts.  Time is a parameter of the methods.
 */
module PolicyBreaker {
  import opened Runs

  datatype CircuitState = Closed | Open | HalfOpen
  datatype Config = Config(failureThreshold: int, recoveryTimeMs: int)
  datatype Breaker = Breaker(state: CircuitState, failureCount: nat, lastFailureTime: int)

  const INITIAL := Breaker(Closed, 0, 0)

  function Failed(c: Config, b: Breaker, now: int): Breaker {
    var count := b.failureCount + 1;
    Breaker(if count >= c.failureThreshold then Open else b.state, count, now)
  }

  function Succeeded(b: Breaker): Breaker {
    b.(failureCount := 0, state := Closed)
  }

  /** `canExecute`, which also moves an open breaker whose recovery time is over to half-open. */
  function Asked(c: Config, b: Breaker, now: int): (Breaker, bool) {
    if !b.state.Open? then (b, true)
    else if now - b.lastFailureTime >= c.recoveryTimeMs then (b.(state := HalfOpen), true)
    else (b, false)
  }

  class CircuitBreaker {
    const config: Config
    var state: CircuitState
    var failureCount: nat
    var lastFailureTime: int

    function View(): Breaker
      reads this
    {
      Breaker(state, failureCount, lastFailureTime)
    }

    constructor (config: Config)
      ensures this.config == config && View() == INITIAL
    {
      this.config := config;
      state, failureCount, lastFailureTime := Closed, 0, 0;
    }

    method RecordFailure(now: int)
      modifies this
      ensures View() == Failed(config, old(View()), now)
    {
      failureCount := failureCount + 1;
      lastFailureTime := now;
      if failureCount >= config.failureThreshold {
        state := Open;
      }
    }

    method RecordSuccess()
      modifies this
      ensures View() == Succeeded(old(View()))
    {
      failureCount := 0;
      state := Closed;
    }

    method CanExecute(now: int) returns (ok: bool)
      modifies this
      ensures (View(), ok) == Asked(config, old(View()), now)
    {
      if state == Closed {
        return true;
      }
      if state == HalfOpen {
        return true;
      }
      if now - lastFailureTime >= config.recoveryTimeMs {
        state := HalfOpen;
        return true;
      }
      return false;
    }
  }

  // ----- Runs -----

  datatype Event = Failure(now: int) | Success(now: int) | Ask(now: int)

  function Step(c: Config, b: Breaker, e: Event): Breaker {
    match e
    case Failure(now) => Failed(c, b, now)
    case Success(_) => Succeeded(b)
    case Ask(now) => Asked(c, b, now).0
  }

  function StateAfter(c: Config, run: Run<Event>): Breaker {
    match run
    case Start => INITIAL
    case Then(before, e) => Step(c, StateAfter(c, before), e)
  }

  predicate Clocked(run: Run<Event>, now: int) {
    run.Then? ==> run.event.now <= now && Clocked(run.before, run.event.now)
  }

  /** The failures since the last success. */
  function TrailingFailures(run: Run<Event>): nat {
    match run
    case Start => 0
    case Then(before, Failure(_)) => TrailingFailures(before) + 1
    case Then(before, Success(_)) => 0
    case Then(before, Ask(_)) => TrailingFailures(before)
  }

  function LastFailure(run: Run<Event>): int {
    match run
    case Start => 0
    case Then(before, e) => if e.Failure? then e.now else LastFailure(before)
  }

  /** A threshold below one acts like one. */
  predicate Tripped(c: Config, run: Run<Event>) {
    TrailingFailures(run) >= 1 && TrailingFailures(run) >= c.failureThreshold
  }

  /** Since the last result `canExecute` was asked when the recovery time was over. */
  predicate Probed(c: Config, run: Run<Event>) {
    run.Then? && run.event.Ask? && (run.event.now - LastFailure(run.before) >= c.recoveryTimeMs || Probed(c, run.before))
  }

  /** State and counters are functions of the history of successes and failures. */
  lemma {:induction false} BreakerIsHistory(c: Config, run: Run<Event>, now: int)
    requires Clocked(run, now)
    ensures var b := StateAfter(c, run);
      && b.failureCount == TrailingFailures(run)
      && b.lastFailureTime == LastFailure(run)
      && (b.state.Closed? <==> !Tripped(c, run))
      && (b.state.HalfOpen? <==> Tripped(c, run) && Probed(c, run))
      && (b.state.HalfOpen? ==> now - LastFailure(run) >= c.recoveryTimeMs)
  {
    if run.Then? {
      BreakerIsHistory(c, run.before, run.event.now);
    }
  }

  /**
   The answer of `canExecute` after any run: it refuses exactly when the threshold has been
   reached and less than the recovery time has passed since the last failure.  Which probes were
   asked in between, and which calls are still in flight, makes no difference.
   */
  lemma {:induction false} ExecutesIff(c: Config, run: Run<Event>, now: int)
    requires Clocked(run, now)
    ensures Asked(c, StateAfter(c, run), now).1
       <==> !Tripped(c, run) || now - LastFailure(run) >= c.recoveryTimeMs
  {
    BreakerIsHistory(c, run, now);
  }
}
