/** Exactly when a run of the ReAct workflow fails. */
module ReactFailures {
  import opened Options
  import opened Runs
  import opened ReactWorkflow

  /** An answer to call number `k` that the workflow does not recover from. */
  predicate FatalAnswer(env: Env, k: nat, call: Call) {
    match call
    case Observe => env.throws(k)
    case Admit => env.throws(k) || !env.admits
    case EvaluatePolicy => env.throws(k) || !env.allows
    case CreateSandbox => env.throws(k)
    case CallLlm => env.throws(k)
    case ExecuteTool(_, _) => env.throws(k) && Fatal(env.message(k))
    case Sleep => env.throws(k)
    case Persist => false
    case TerminateSandbox(_) => false
    case ReportOutcome => false
  }

  predicate Broken(env: Env, t: Run<Call>) {
    t.Then? && (Broken(env, t.before) || FatalAnswer(env, Length(t.before), t.event))
  }

  predicate Over(input: Input, s: State) {
    input.costBudget > 0 && s.cost > input.costBudget
  }

  predicate Spoiled(env: Env, input: Input, s: State) {
    Broken(env, s.trace) || Over(input, s)
  }

  predicate Good(flow: Flow) {
    flow.Next? || (flow.Break? && flow.result.status != Error)
  }

  /** A stretch of the workflow that began sound goes well exactly when it ends sound. */
  predicate Exact(env: Env, input: Input, s: State, end: (State, Flow)) {
    !Spoiled(env, input, s) ==> (Good(end.1) <==> !Spoiled(env, input, end.0))
  }

  lemma ObservedExact(env: Env, input: Input, s: State, flow: Flow)
    requires Good(flow)
    ensures Exact(env, input, s, Observed(env, s, flow))
  {
  }

  /** An error result stays one whether or not the observation that announces it throws. */
  lemma ObservedFailure(env: Env, input: Input, s: State, flow: Flow)
    requires !Good(flow) && Spoiled(env, input, s)
    ensures !Good(Observed(env, s, flow).1) && Spoiled(env, input, Observed(env, s, flow).0)
  {
  }

  lemma PauseExact(env: Env, input: Input, s: State)
    ensures Exact(env, input, s, Pause(env, s))
  {
  }

  lemma FinishExact(env: Env, input: Input, s: State, r: LlmResponse)
    ensures Exact(env, input, s, Finish(env, s, r))
  {
    hide Observed;
    var s1 := Await(env, s.(output := r.content), Persist);
    ObservedExact(env, input, s1, Break(ResultNow(s1, Succeeded, r.content)));
  }

  lemma ReportExact(env: Env, input: Input, s: State, r: LlmResponse, succeeded: bool)
    ensures Exact(env, input, s, Report(env, s, r, succeeded))
  {
    hide Pause;
    var s1 := Push(s.(records := s.records + [Record(s.iteration, r.toolName, r.toolArgs, r.toolCallId, succeeded)]), ToolReply(r));
    var s2 := Await(env, s1, Persist);
    ObservedExact(env, input, s2, Next);
    PauseExact(env, input, Observed(env, s2, Next).0);
  }

  lemma ExecuteExact(env: Env, input: Input, s: State, r: LlmResponse)
    ensures Exact(env, input, s, Execute(env, s, r))
  {
    hide Report, Observed, Fatal;
    var s1 := Await(env, s, ExecuteTool(r.toolName, r.toolArgs));
    if Throws(env, s) && Fatal(ErrorText(env, s)) {
      ObservedFailure(env, input, s1, Break(ResultNow(s1, Error, "Tool execution failed: " + ErrorText(env, s))));
    } else {
      ReportExact(env, input, s1, r, !Throws(env, s) && env.toolSucceeds(Length(s.trace)));
    }
  }

  lemma ToolTurnExact(env: Env, input: Input, s: State, r: LlmResponse)
    ensures Exact(env, input, s, ToolTurn(env, s, r))
  {
    hide Execute;
    var s0 := s.(seen := s.seen + {CallKey(r)});
    ObservedExact(env, input, s0, Next);
    ExecuteExact(env, input, Observed(env, s0, Next).0, r);
  }

  /** After an answer that may have exceeded the budget. */
  lemma RespondExact(env: Env, input: Input, s: State, r: LlmResponse)
    requires !Broken(env, s.trace)
    ensures var (s', flow) := Respond(env, input, s, r); Good(flow) <==> !Spoiled(env, input, s')
  {
    hide ToolTurn, Finish, Pause, Observed;
    var s1 := Push(s, AssistantMessage(r));
    if Over(input, s) {
      ObservedFailure(env, input, s, Break(ResultNow(s, Error, "Cost budget exceeded")));
    } else if r.isFinal {
      FinishExact(env, input, s1, r);
    } else if r.toolName != "" {
      ToolTurnExact(env, input, s1, r);
    } else {
      PauseExact(env, input, Push(s1, PROMPT));
    }
  }

  lemma LlmTurnExact(env: Env, input: Input, s: State)
    ensures Exact(env, input, s, LlmTurn(env, input, s))
  {
    hide Respond, Observed;
    var s1, r := Await(env, s, CallLlm), env.llm(Length(s.trace));
    if Throws(env, s) {
      ObservedFailure(env, input, s1, Break(ResultNow(s1, Error, "LLM call failed: " + ErrorText(env, s))));
    } else if !Spoiled(env, input, s) {
      RespondExact(env, input, s1.(cost := s1.cost + r.cost), r);
    }
  }

  lemma IterationExact(env: Env, input: Input, s: State)
    ensures Exact(env, input, s, Iteration(env, input, s))
  {
    hide LlmTurn;
    var s0 := s.(iteration := s.iteration + 1);
    ObservedExact(env, input, s0, Next);
    LlmTurnExact(env, input, Observed(env, s0, Next).0);
  }

  lemma {:induction false} LoopExact(env: Env, input: Input, s: State)
    ensures Exact(env, input, s, Loop(env, input, s)) && !Loop(env, input, s).1.Next?
    decreases IterationLimit(input) - s.iteration
  {
    hide Iteration;
    if s.iteration < IterationLimit(input) && !s.cancelled {
      IterationExact(env, input, s);
      if Iteration(env, input, s).1.Next? {
        LoopExact(env, input, Iteration(env, input, s).0);
      }
    }
  }

  lemma AttemptExact(env: Env, input: Input, s: State)
    ensures var (s', id, flow) := Attempt(env, input, s); Exact(env, input, s, (s', flow)) && !flow.Next?
  {
    hide Loop;
    var s1 := Await(env, s, CreateSandbox);
    ObservedExact(env, input, s1, Next);
    LoopExact(env, input, Observed(env, s1, Next).0);
  }

  predicate Failed(outcome: Outcome) {
    outcome.Threw? || outcome.result.status == Error
  }

  /** The cleanup neither spoils a good run nor repairs a spoiled one. */
  lemma CleanupNeutral(env: Env, input: Input, s: State, id: string)
    ensures Spoiled(env, input, Finally(env, s, id)) <==> Spoiled(env, input, s)
    ensures Spoiled(env, input, Await(env, s, ReportOutcome)) <==> Spoiled(env, input, s)
  {
  }

  lemma CaughtSpoiled(env: Env, input: Input, s: State, flow: Flow)
    requires Good(flow) <==> !Spoiled(env, input, s)
    requires !flow.Next?
    ensures var (s', flow') := Caught(env, s, flow);
      (Good(flow') <==> !Spoiled(env, input, s')) && !flow'.Next?
  {
  }

  lemma SandboxedExact(env: Env, input: Input, s: State)
    requires !Spoiled(env, input, s)
    ensures var (s', outcome) := Sandboxed(env, input, s); Failed(outcome) <==> Spoiled(env, input, s')
  {
    hide Attempt, Caught, Finally, Spoiled;
    var (s1, id, end) := Attempt(env, input, s);
    var s2 := Caught(env, s1, end).0;
    AttemptExact(env, input, s);
    CaughtSpoiled(env, input, s1, end);
    CleanupNeutral(env, input, s2, id);
    CleanupNeutral(env, input, Finally(env, s2, id), "");
  }

  lemma CheckPolicyExact(env: Env, input: Input, s: State)
    requires !Spoiled(env, input, s)
    ensures var (s', outcome) := CheckPolicy(env, input, s); Failed(outcome) <==> Spoiled(env, input, s')
  {
    hide Sandboxed;
    var s1 := Await(env, s, EvaluatePolicy);
    assert Broken(env, s1.trace) <==> Throws(env, s) || !env.allows;
    if !Throws(env, s) && env.allows && !Throws(env, s1) {
      SandboxedExact(env, input, Await(env, s1, Observe));
    }
  }

  lemma CheckAdmissionExact(env: Env, input: Input, s: State)
    requires !Spoiled(env, input, s)
    ensures var (s', outcome) := CheckAdmission(env, input, s); Failed(outcome) <==> Spoiled(env, input, s')
  {
    hide CheckPolicy;
    var s1 := Await(env, s, Admit);
    assert Broken(env, s1.trace) <==> Throws(env, s) || !env.admits;
    if !Throws(env, s) && env.admits && !Throws(env, s1) {
      CheckPolicyExact(env, input, Await(env, s1, Observe));
    }
  }

  /**
   A run throws or ends in ERROR exactly when some call of it got a fatal answer or the total
   exceeds the budget.  Failures of memory persistence, sandbox termination and outcome
   reporting, and tool errors other than violations, never fail a run.
   */
  lemma {:induction false} FailsIff(env: Env, input: Input)
    ensures var (s, outcome) := Workflow(env, input); Failed(outcome) <==> Spoiled(env, input, s)
  {
    hide CheckAdmission;
    var s0 := Initial(env, input);
    var s1 := Await(env, s0, Observe);
    assert Broken(env, s1.trace) <==> Throws(env, s0);
    if !Throws(env, s0) && !Throws(env, s1) {
      CheckAdmissionExact(env, input, Await(env, s1, Observe));
    }
  }

  predicate OccursAt(text: string, i: nat, part: string) {
    i + |part| <= |text| && text[i..i + |part|] == part
  }

  /** The text contains the part somewhere. */
  ghost predicate Contains(text: string, part: string) {
    exists i: nat :: OccursAt(text, i, part)
  }

  lemma OccursInRest(text: string, i: nat, part: string)
    requires text != ""
    ensures OccursAt(text[1..], i, part) <==> OccursAt(text, i + 1, part)
  {
    if i + 1 + |part| <= |text| {
      assert text[1..][i..i + |part|] == text[i + 1..i + 1 + |part|];
    }
  }

  lemma OccursFirst(text: string, part: string)
    ensures OccursAt(text, 0, part) <==> part <= text
  {
  }

  lemma {:induction false} IncludesIff(text: string, part: string)
    ensures Includes(text, part) <==> Contains(text, part)
  {
    hide OccursAt;
    OccursFirst(text, part);
    if text == "" {
      NothingOccurs(part);
    } else {
      var rest := text[1..];
      IncludesIff(rest, part);
      if Contains(rest, part) {
        var i: nat :| OccursAt(rest, i, part);
        OccursInRest(text, i, part);
      }
      if Contains(text, part) {
        var i: nat :| OccursAt(text, i, part);
        if i > 0 {
          OccursInRest(text, i - 1, part);
        }
      }
    }
  }

  lemma NothingOccurs(part: string)
    ensures forall i: nat :: OccursAt("", i, part) ==> i == 0
  {
  }

  /** A tool error is fatal exactly when its message mentions one of the two violations anywhere. */
  lemma ToolErrorFatalIff(env: Env, k: nat, name: string, args: string)
    ensures FatalAnswer(env, k, ExecuteTool(name, args)) <==>
      env.throws(k) && (Contains(env.message(k), "PII_VIOLATION") || Contains(env.message(k), "POLICY_DENIED"))
  {
    IncludesIff(env.message(k), "PII_VIOLATION");
    IncludesIff(env.message(k), "POLICY_DENIED");
  }
}
