/** When the ReAct workflow gets as far as its loop, and when it calls the model. */
module ReactStart {
  import opened Options
  import opened Runs
  import opened ReactWorkflow
  import opened ReactRuns
  import opened ReactTranscript

  /** The agent is admitted and allowed, and none of the first `calls` calls throws. */
  predicate Undisturbed(env: Env, calls: nat) {
    env.admits && env.allows && forall k :: 0 <= k < calls ==> !env.throws(k)
  }

  predicate SameWork(t: Run<Call>, t': Run<Call>) {
    LlmCalls(t) == LlmCalls(t') && ExecutedKeys(t) == ExecutedKeys(t')
  }

  /** No model or tool call has been made. */
  predicate NoWork(t: Run<Call>) {
    LlmCalls(t) == 0 && ExecutedKeys(t) == {}
  }

  /** Where the try block begins if all goes well. */
  function BeforeSandbox(env: Env, input: Input): State {
    var announced := Await(env, Await(env, Initial(env, input), Observe), Observe);
    var admitted := Await(env, Await(env, announced, Admit), Observe);
    Await(env, Await(env, admitted, EvaluatePolicy), Observe)
  }

  lemma ReachesSandbox(env: Env, input: Input)
    requires Undisturbed(env, 6)
    ensures Workflow(env, input) == Sandboxed(env, input, BeforeSandbox(env, input))
    ensures Length(BeforeSandbox(env, input).trace) == 6 && NoWork(BeforeSandbox(env, input).trace)
  {
    hide Sandboxed;
    var s2 := Await(env, Await(env, Initial(env, input), Observe), Observe);
    var s4 := Await(env, Await(env, s2, Admit), Observe);
    var s6 := Await(env, Await(env, s4, EvaluatePolicy), Observe);
    assert Length(s2.trace) == 2 && Length(s4.trace) == 4 && Length(s6.trace) == 6;
    assert Workflow(env, input) == CheckAdmission(env, input, s2);
    assert CheckAdmission(env, input, s2) == CheckPolicy(env, input, s4);
    assert CheckPolicy(env, input, s4) == Sandboxed(env, input, s6);
  }

  /** If both checks pass and the calls before it do not throw, the try block ends as the loop from `FirstHead` does. */
  lemma LoopStartsAtFirstHead(env: Env, input: Input)
    requires Undisturbed(env, 8)
    ensures Workflow(env, input) == Sandboxed(env, input, BeforeSandbox(env, input))
    ensures var (s, flow) := Loop(env, input, FirstHead(env, input));
      Attempt(env, input, BeforeSandbox(env, input)) == (s, env.sandboxId, flow)
  {
    hide Loop, Sandboxed, BeforeSandbox;
    ReachesSandbox(env, input);
    var s := BeforeSandbox(env, input);
    assert FirstHead(env, input) == Await(env, Await(env, s, CreateSandbox), Observe) by { FirstHeadIs(env, input); }
  }

  lemma FirstHeadIs(env: Env, input: Input)
    ensures FirstHead(env, input) == Await(env, Await(env, BeforeSandbox(env, input), CreateSandbox), Observe)
  {
  }

  /** Otherwise no model or tool call is made, and the run throws or ends in ERROR. */
  lemma StopsBeforeLoop(env: Env, input: Input)
    requires !Undisturbed(env, 8)
    ensures var (s, outcome) := Workflow(env, input);
      NoWork(s.trace) && (outcome.Returned? ==> outcome.result.status == Error)
  {
    hide Loop, Sandboxed;
    if Undisturbed(env, 6) {
      hide BeforeSandbox;
      ReachesSandbox(env, input);
      SandboxFails(env, input, BeforeSandbox(env, input));
    } else {
      var s2 := Await(env, Await(env, Initial(env, input), Observe), Observe);
      var s4 := Await(env, Await(env, s2, Admit), Observe);
      var s6 := Await(env, Await(env, s4, EvaluatePolicy), Observe);
      assert Length(s2.trace) == 2 && Length(s4.trace) == 4 && Length(s6.trace) == 6;
      EarlyStop(env, input, s2, s4);
    }
  }

  lemma EarlyStop(env: Env, input: Input, s2: State, s4: State)
    requires !Undisturbed(env, 6)
    requires s2 == Await(env, Await(env, Initial(env, input), Observe), Observe)
    requires s4 == Await(env, Await(env, s2, Admit), Observe)
    ensures var (s, outcome) := Workflow(env, input);
      NoWork(s.trace) && (outcome.Returned? ==> outcome.result.status == Error)
  {
    hide Sandboxed;
    assert Length(s2.trace) == 2 && Length(s4.trace) == 4;
    assert NoWork(s4.trace) && NoWork(s2.trace);
  }

  lemma SandboxFails(env: Env, input: Input, s: State)
    requires Length(s.trace) == 6 && (env.throws(6) || env.throws(7)) && NoWork(s.trace)
    ensures var (s', outcome) := Sandboxed(env, input, s);
      NoWork(s'.trace) && (outcome.Returned? ==> outcome.result.status == Error)
  {
    hide Loop;
    var s1 := Await(env, s, CreateSandbox);
    var s2 := Await(env, s1, Observe);
    var (s3, id, end) := Attempt(env, input, s);
    assert end.Raise? && (s3 == s1 || s3 == s2);
    assert NoWork(s1.trace) && NoWork(s2.trace);
    EndCalls(env, input, s);
  }

  // ----- When the model is called -----

  lemma IterationCalls(env: Env, input: Input, s: State)
    ensures LlmCalls(Iteration(env, input, s).0.trace) == LlmCalls(s.trace) + if Throws(env, s) then 0 else 1
    ensures Throws(env, s) ==> Iteration(env, input, s).1.Raise?
  {
    hide LlmTurn;
    LlmTurnProgress(env, input, Await(env, s.(iteration := s.iteration + 1), Observe));
  }

  /** From a loop head the model is called again if and only if the limit and the signal allow and the announcement does not throw. */
  lemma {:induction false} LoopCalls(env: Env, input: Input, s: State)
    ensures var calls, calls' := LlmCalls(s.trace), LlmCalls(Loop(env, input, s).0.trace);
      calls' >= calls && (calls' > calls <==> s.iteration < IterationLimit(input) && !s.cancelled && !Throws(env, s))
    decreases IterationLimit(input) - s.iteration
  {
    hide Iteration;
    if s.iteration < IterationLimit(input) && !s.cancelled {
      IterationCalls(env, input, s);
      if Iteration(env, input, s).1.Next? {
        LoopCalls(env, input, Iteration(env, input, s).0);
      }
    }
  }

  lemma EndCalls(env: Env, input: Input, s: State)
    ensures SameWork(Sandboxed(env, input, s).0.trace, Attempt(env, input, s).0.trace)
  {
    hide Attempt;
    var (s1, id, end) := Attempt(env, input, s);
    var s2 := Caught(env, s1, end).0;
    var s3 := Finally(env, s2, id);
    assert SameWork(s2.trace, s1.trace);
    assert SameWork(s3.trace, s2.trace);
    assert SameWork(Await(env, s3, ReportOutcome).trace, s3.trace);
  }

  /**
   The model is called if and only if the agent is admitted and allowed, none of the nine calls
   before the first model call throws, the limit allows an iteration, and the cancel signal has not come by the first loop head.
   */
  lemma {:induction false} ModelCalledIff(env: Env, input: Input)
    ensures LlmCalls(Workflow(env, input).0.trace) > 0
       <==> Undisturbed(env, 9) && IterationLimit(input) > 0 && !env.signalledEarly && forall k :: 0 <= k < 8 ==> !env.signal(k)
  {
    hide Workflow, Sandboxed, Attempt, Loop, BeforeSandbox, FirstHead, IterationLimit;
    if Undisturbed(env, 8) {
      var head := FirstHead(env, input);
      LoopStartsAtFirstHead(env, input);
      EndCalls(env, input, BeforeSandbox(env, input));
      LoopCalls(env, input, head);
      FirstHeadFacts(env, input);
    } else {
      StopsBeforeLoop(env, input);
    }
  }

  lemma FirstHeadFacts(env: Env, input: Input)
    ensures var head := FirstHead(env, input);
      && Length(head.trace) == 8 && LlmCalls(head.trace) == 0 && head.iteration == 0
      && (head.cancelled <==> env.signalledEarly || exists k :: 0 <= k < 8 && env.signal(k))
  {
    var s2 := Await(env, Await(env, Initial(env, input), Observe), Observe);
    var s4 := Await(env, Await(env, s2, Admit), Observe);
    var s6 := Await(env, Await(env, s4, EvaluatePolicy), Observe);
    assert Length(s2.trace) == 2 && Length(s4.trace) == 4 && Length(s6.trace) == 6;
    assert s2.cancelled <==> env.signalledEarly || env.signal(0) || env.signal(1);
    assert s4.cancelled <==> s2.cancelled || env.signal(2) || env.signal(3);
    assert s6.cancelled <==> s4.cancelled || env.signal(4) || env.signal(5);
    assert FirstHead(env, input).cancelled <==> s6.cancelled || env.signal(6) || env.signal(7);
  }
}
