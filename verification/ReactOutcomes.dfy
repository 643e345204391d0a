/** When a run of the ReAct workflow throws rather than returns, and what its ERROR results report. */
module ReactOutcomes {
  import opened Options
  import opened Runs
  import opened ReactWorkflow
  import opened ReactStart
  import opened ReactCalls

  /** The last call is one whose error the try block does not handle itself, and it threw. */
  predicate RaisedLast(env: Env, t: Run<Call>) {
    t.Then? && (t.event.Observe? || t.event.Sleep? || t.event.CreateSandbox?) && env.throws(Length(t.before))
  }

  /** What comes before the announcement of a result: the model's final answer and its persistence, or a failed model or tool call. */
  predicate LeadsTo(t: Run<Call>, status: Status) {
    && (status == Succeeded ==> t.Then? && t.event.Persist? && t.before.Then? && t.before.event.CallLlm?)
    && (status == Error ==> t.Then? && (t.event.CallLlm? || t.event.ExecuteTool?))
  }

  /** How the calls of a part of the try block end. */
  predicate Shape(env: Env, s: State, flow: Flow) {
    var t := s.trace;
    t.Then? &&
    match flow
    case Next => !RaisedLast(env, t)
    case Raise(_) => RaisedLast(env, t)
    case Break(r) =>
      && t.event.Observe? && !env.throws(Length(t.before)) && t.before.Then? && !RaisedLast(env, t.before)
      && r == ResultNow(s, r.status, r.output) && LeadsTo(t.before, r.status)
  }

  lemma NextShape(env: Env, s: State)
    requires !RaisedLast(env, s.trace)
    ensures var (s', flow) := Observed(env, s, Next); Shape(env, s', flow)
  {
  }

  lemma BreakShape(env: Env, s: State, status: Status, output: string)
    requires s.trace.Then? && !RaisedLast(env, s.trace) && LeadsTo(s.trace, status)
    ensures var (s', flow) := Observed(env, s, Break(ResultNow(s, status, output))); Shape(env, s', flow)
  {
  }

  lemma PauseShape(env: Env, s: State)
    ensures var (s', flow) := Pause(env, s); Shape(env, s', flow)
  {
  }

  lemma FinishShape(env: Env, s: State, r: LlmResponse)
    requires s.trace.Then? && s.trace.event.CallLlm?
    ensures var (s', flow) := Finish(env, s, r); Shape(env, s', flow)
  {
    hide Shape, Observed;
    BreakShape(env, Await(env, s.(output := r.content), Persist), Succeeded, r.content);
  }

  lemma ReportShape(env: Env, s: State, r: LlmResponse, succeeded: bool)
    ensures var (s', flow) := Report(env, s, r, succeeded); Shape(env, s', flow)
  {
    hide Pause;
    var s1 := Push(s.(records := s.records + [Record(s.iteration, r.toolName, r.toolArgs, r.toolCallId, succeeded)]), ToolReply(r));
    var s2 := Await(env, s1, Persist);
    NextShape(env, s2);
    PauseShape(env, Await(env, s2, Observe));
  }

  lemma ToolTurnShape(env: Env, s: State, r: LlmResponse)
    requires s.trace.Then? && !RaisedLast(env, s.trace)
    ensures var (s', flow) := ToolTurn(env, s, r); Shape(env, s', flow)
  {
    hide Report, Fatal, CallKey;
    var s0 := s.(seen := s.seen + {CallKey(r)});
    var s1 := Await(env, s0, Observe);
    var s2 := Await(env, s1, ExecuteTool(r.toolName, r.toolArgs));
    NextShape(env, s0);
    BreakShape(env, s2, Error, "Tool execution failed: " + ErrorText(env, s1));
    ReportShape(env, s2, r, !Throws(env, s1) && env.toolSucceeds(Length(s1.trace)));
  }

  lemma LlmTurnShape(env: Env, input: Input, s: State)
    ensures var (s', flow) := LlmTurn(env, input, s); Shape(env, s', flow)
  {
    hide ToolTurn, Finish, Pause, Observed;
    var s1, r := Await(env, s, CallLlm), env.llm(Length(s.trace));
    var s2 := s1.(cost := s1.cost + r.cost);
    var s3 := Push(s2, AssistantMessage(r));
    BreakShape(env, s1, Error, "LLM call failed: " + ErrorText(env, s));
    BreakShape(env, s2, Error, "Cost budget exceeded");
    FinishShape(env, s3, r);
    ToolTurnShape(env, s3, r);
    PauseShape(env, Push(s3, PROMPT));
  }

  lemma IterationShape(env: Env, input: Input, s: State)
    requires !RaisedLast(env, s.trace)
    ensures var (s', flow) := Iteration(env, input, s); Shape(env, s', flow)
  {
    hide LlmTurn;
    var s0 := s.(iteration := s.iteration + 1);
    NextShape(env, s0);
    LlmTurnShape(env, input, Await(env, s0, Observe));
  }

  lemma {:induction false} LoopShape(env: Env, input: Input, s: State)
    requires s.trace.Then? && !RaisedLast(env, s.trace)
    ensures var (s', flow) := Loop(env, input, s); Shape(env, s', flow) && !flow.Next?
    decreases IterationLimit(input) - s.iteration
  {
    hide Iteration, Observed, Shape;
    if s.iteration >= IterationLimit(input) {
      BreakShape(env, s, MaxIterationsReached, if s.output != "" then s.output else "Execution stopped");
      ObservedEnds(env, s, Break(ResultNow(s, MaxIterationsReached, if s.output != "" then s.output else "Execution stopped")));
    } else if s.cancelled {
      BreakShape(env, s, Cancelled, "Execution cancelled by user");
      ObservedEnds(env, s, Break(ResultNow(s, Cancelled, "Execution cancelled by user")));
    } else {
      IterationShape(env, input, s);
      if Iteration(env, input, s).1.Next? {
        ShapeOfNext(env, Iteration(env, input, s).0);
        LoopShape(env, input, Iteration(env, input, s).0);
      }
    }
  }

  lemma ObservedEnds(env: Env, s: State, flow: Flow)
    requires !flow.Next?
    ensures !Observed(env, s, flow).1.Next?
  {
  }

  lemma ShapeOfNext(env: Env, s: State)
    requires Shape(env, s, Next)
    ensures s.trace.Then? && !RaisedLast(env, s.trace)
  {
  }

  lemma AttemptShape(env: Env, input: Input, s: State)
    ensures var (s', id, flow) := Attempt(env, input, s); Shape(env, s', flow) && !flow.Next? && s'.trace.Then?
  {
    hide Loop;
    var s1 := Await(env, s, CreateSandbox);
    if !Throws(env, s) {
      NextShape(env, s1);
      var s2 := Await(env, s1, Observe);
      if !Throws(env, s1) {
        LoopShape(env, input, s2);
      }
    }
  }

  /** The calls before the sandbox is terminated and the outcome reported. */
  function BeforeCleanup(t: Run<Call>): Run<Call> {
    if t.Then? && (t.event.ReportOutcome? || t.event.TerminateSandbox?) then BeforeCleanup(t.before) else t
  }

  predicate LastThrew(env: Env, t: Run<Call>) {
    t.Then? && env.throws(Length(t.before))
  }

  /** The try block was left by an error, and the call that announces it did not throw. */
  predicate CaughtError(env: Env, t: Run<Call>) {
    t.Then? && t.event.Observe? && !LastThrew(env, t) && RaisedLast(env, t.before)
  }

  /** After the sandbox was asked for. */
  predicate EndsSandboxed(env: Env, s: State, outcome: Outcome) {
    var t := BeforeCleanup(s.trace);
    && t.Then? && t.event.Observe? && t.before.Then?
    && (outcome.Threw? <==> LastThrew(env, t))
    && (outcome.Threw? ==> RaisedLast(env, t.before))
    && (outcome.Returned? && CaughtError(env, t) ==>
          outcome.result == AgentResult(Error, outcome.result.output, 0, 0, []))
    && (outcome.Returned? && !CaughtError(env, t) ==> LeadsTo(t.before, outcome.result.status))
    && (outcome.Returned? && !CaughtError(env, t) ==>
          outcome.result == AgentResult(outcome.result.status, outcome.result.output, s.cost, s.iteration, s.records))
  }

  lemma CleanupIsStripped(env: Env, s: State, id: string)
    requires s.trace.Then? && s.trace.event.Observe?
    ensures BeforeCleanup(Finally(env, s, id).trace) == s.trace
    ensures BeforeCleanup(Await(env, Finally(env, s, id), ReportOutcome).trace) == s.trace
  {
    var s1 := Finally(env, s, id);
    assert s1 == s || s1.trace == Then(s.trace, TerminateSandbox(id));
  }

  /** What the catch block makes of it. */
  lemma CaughtEnds(env: Env, s: State, end: Flow)
    requires Shape(env, s, end) && !end.Next?
    ensures var (s', flow) := Caught(env, s, end);
      && s'.trace.Then? && s'.trace.event.Observe? && s'.trace.before.Then? && !flow.Next?
      && (flow.Raise? <==> LastThrew(env, s'.trace))
      && (flow.Raise? ==> RaisedLast(env, s'.trace.before))
      && (flow.Break? && CaughtError(env, s'.trace) ==> flow.result == AgentResult(Error, flow.result.output, 0, 0, []))
      && (flow.Break? && !CaughtError(env, s'.trace) ==> LeadsTo(s'.trace.before, flow.result.status))
      && (flow.Break? && !CaughtError(env, s'.trace) ==>
            flow.result == AgentResult(flow.result.status, flow.result.output, s'.cost, s'.iteration, s'.records))
  {
  }

  lemma SandboxedEndsSo(env: Env, input: Input, s: State)
    ensures var (s', outcome) := Sandboxed(env, input, s); EndsSandboxed(env, s', outcome)
  {
    hide Attempt, Finally, BeforeCleanup, Caught, Shape, RaisedLast, LastThrew, CaughtError, LeadsTo;
    AttemptShape(env, input, s);
    var (s1, id, end) := Attempt(env, input, s);
    var (s2, flow) := Caught(env, s1, end);
    CaughtEnds(env, s1, end);
    CleanupIsStripped(env, s2, id);
    FinallyKeeps(env, s2, id);
  }

  lemma FinallyKeeps(env: Env, s: State, id: string)
    ensures var s' := Finally(env, s, id); s'.cost == s.cost && s'.iteration == s.iteration && s'.records == s.records
  {
  }

  /** Before the sandbox was asked for. */
  predicate EndsEarly(env: Env, s: State, outcome: Outcome) {
    && s.trace.Then?
    && (outcome.Threw? <==> LastThrew(env, s.trace))
    && (outcome.Threw? ==> s.trace.event.Observe? || s.trace.event.EvaluatePolicy?)
    && (outcome.Returned? ==> s.trace.event.Observe? && outcome.result == AgentResult(Error, outcome.result.output, 0, 0, []))
  }

  lemma EarlyEnd(env: Env, input: Input)
    requires !Undisturbed(env, 6)
    ensures var (s, outcome) := Workflow(env, input); EndsEarly(env, s, outcome)
  {
    hide Sandboxed;
    var s2 := Await(env, Await(env, Initial(env, input), Observe), Observe);
    var s4 := Await(env, Await(env, s2, Admit), Observe);
    assert Length(s2.trace) == 2 && Length(s4.trace) == 4;
  }

  /**
   How every run ends.  Before a sandbox is asked for, it throws exactly when its last call, an announcement or
   the policy evaluation, threw; a failing admission never does.  Afterwards it throws only if
   the try block was left by an error and the call that announces that one threw as well.  An ERROR
   result made before the sandbox or in the catch block reports no cost, iterations or tool calls; every
   other result reports them as they are.
   */
  lemma {:induction false} EndsKnown(env: Env, input: Input)
    ensures var (s, outcome) := Workflow(env, input);
      if Undisturbed(env, 6) then EndsSandboxed(env, s, outcome) else EndsEarly(env, s, outcome)
  {
    hide Workflow, Sandboxed, BeforeSandbox, EndsSandboxed, EndsEarly;
    if Undisturbed(env, 6) {
      ReachesSandbox(env, input);
      SandboxedEndsSo(env, input, BeforeSandbox(env, input));
    } else {
      EarlyEnd(env, input);
    }
  }
}
