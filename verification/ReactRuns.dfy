/** What every run of the ReAct workflow keeps, whatever its activities answer or throw and whenever it is cancelled. */
module ReactRuns {
  import opened Options
  import opened Runs
  import opened ReactWorkflow

  // ----- What a trace contains -----

  predicate Admitted(env: Env, t: Run<Call>) {
    t.Then? && (Admitted(env, t.before) || (t.event.Admit? && !env.throws(Length(t.before)) && env.admits))
  }

  predicate Allowed(env: Env, t: Run<Call>) {
    t.Then? && (Allowed(env, t.before) || (t.event.EvaluatePolicy? && !env.throws(Length(t.before)) && env.allows))
  }

  /** The agent has been admitted and the policy has allowed the execution. */
  predicate Cleared(env: Env, t: Run<Call>) {
    Admitted(env, t) && Allowed(env, t)
  }

  predicate Restricted(call: Call) {
    call.CreateSandbox? || call.CallLlm? || call.ExecuteTool? || call.TerminateSandbox?
  }

  /** Every sandbox, model or tool call of the trace came after both clearances. */
  predicate Gated(env: Env, t: Run<Call>) {
    t.Then? ==> Gated(env, t.before) && (Restricted(t.event) ==> Cleared(env, t.before))
  }

  /** `createSandbox` has returned. */
  predicate Created(env: Env, t: Run<Call>) {
    t.Then? && (Created(env, t.before) || (t.event.CreateSandbox? && !env.throws(Length(t.before))))
  }

  function Terminations(t: Run<Call>): nat {
    match t
    case Start => 0
    case Then(before, e) => Terminations(before) + if e.TerminateSandbox? then 1 else 0
  }

  predicate TerminatesOnly(t: Run<Call>, id: string) {
    t.Then? ==> TerminatesOnly(t.before, id) && (t.event.TerminateSandbox? ==> t.event.id == id)
  }

  /** No model or tool call follows a termination. */
  predicate NoWorkAfterEnd(t: Run<Call>) {
    t.Then? ==> NoWorkAfterEnd(t.before) && (t.event.CallLlm? || t.event.ExecuteTool? ==> Terminations(t.before) == 0)
  }

  function LlmCalls(t: Run<Call>): nat {
    match t
    case Start => 0
    case Then(before, e) => LlmCalls(before) + if e.CallLlm? then 1 else 0
  }

  /** The cost of all model calls that answered. */
  function Spent(env: Env, t: Run<Call>): int {
    match t
    case Start => 0
    case Then(before, e) =>
      Spent(env, before) + if e.CallLlm? && !env.throws(Length(before)) then env.llm(Length(before)).cost else 0
  }

  /** The last answer of the model. */
  function LastAnswer(env: Env, t: Run<Call>): Option<LlmResponse> {
    match t
    case Start => None
    case Then(before, e) =>
      if e.CallLlm? && !env.throws(Length(before)) then Some(env.llm(Length(before))) else LastAnswer(env, before)
  }

  /** The cancel signal has arrived before or during some call of the trace. */
  predicate Signalled(env: Env, t: Run<Call>) {
    if t.Start? then env.signalledEarly else Signalled(env, t.before) || env.signal(Length(t.before))
  }

  /** The model calls that began after the signal had arrived. */
  function LlmAfterSignal(env: Env, t: Run<Call>): nat {
    match t
    case Start => 0
    case Then(before, e) => LlmAfterSignal(env, before) + if e.CallLlm? && Signalled(env, before) then 1 else 0
  }

  function ToolsAfterSignal(env: Env, t: Run<Call>): nat {
    match t
    case Start => 0
    case Then(before, e) => ToolsAfterSignal(env, before) + if e.ExecuteTool? && Signalled(env, before) then 1 else 0
  }

  lemma {:induction false} NothingAfterNoSignal(env: Env, t: Run<Call>)
    requires !Signalled(env, t)
    ensures LlmAfterSignal(env, t) == 0 && ToolsAfterSignal(env, t) == 0
  {
    if t.Then? {
      NothingAfterNoSignal(env, t.before);
    }
  }

  // ----- One turn of the loop -----

  /** A stretch of the workflow inside the loop, with so many model calls and at most so many tool calls. */
  predicate Progress(env: Env, s: State, s': State, llm: nat, tools: nat) {
    var t, t' := s.trace, s'.trace;
    && Terminations(t') == Terminations(t)
    && (TerminatesOnly(t, env.sandboxId) ==> TerminatesOnly(t', env.sandboxId))
    && (Created(env, t') <==> Created(env, t))
    && (Cleared(env, t) ==> Cleared(env, t'))
    && (Cleared(env, t) && Gated(env, t) ==> Gated(env, t'))
    && (Terminations(t) == 0 && NoWorkAfterEnd(t) ==> NoWorkAfterEnd(t'))
    && s'.cost - Spent(env, t') == s.cost - Spent(env, t)
    && (s.cancelled == Signalled(env, t) ==> s'.cancelled == Signalled(env, t'))
    && LlmCalls(t') == LlmCalls(t) + llm
    && LlmAfterSignal(env, t') <= LlmAfterSignal(env, t) + llm
    && ToolsAfterSignal(env, t') <= ToolsAfterSignal(env, t) + tools
    && s'.iteration == s.iteration
    && (llm == 0 ==> s'.cost == s.cost && LastAnswer(env, t') == LastAnswer(env, t))
  }

  lemma ObservedProgress(env: Env, s: State, flow: Flow)
    ensures Progress(env, s, Observed(env, s, flow).0, 0, 0)
  {
  }

  lemma PauseProgress(env: Env, s: State)
    ensures Progress(env, s, Pause(env, s).0, 0, 0)
  {
  }

  lemma FinishProgress(env: Env, s: State, r: LlmResponse)
    ensures Progress(env, s, Finish(env, s, r).0, 0, 0)
  {
    ObservedProgress(env, Await(env, s.(output := r.content), Persist), Next);
  }

  lemma ReportProgress(env: Env, s: State, r: LlmResponse, succeeded: bool)
    ensures Progress(env, s, Report(env, s, r, succeeded).0, 0, 0)
  {
    hide Pause;
    var s1 := Push(s.(records := s.records + [Record(s.iteration, r.toolName, r.toolArgs, r.toolCallId, succeeded)]), ToolReply(r));
    var s2 := Observed(env, Await(env, s1, Persist), Next).0;
    ObservedProgress(env, Await(env, s1, Persist), Next);
    PauseProgress(env, s2);
  }

  lemma ExecuteProgress(env: Env, s: State, r: LlmResponse)
    ensures Progress(env, s, Execute(env, s, r).0, 0, 1)
  {
    hide Report, Observed, Fatal;
    var s1 := Await(env, s, ExecuteTool(r.toolName, r.toolArgs));
    assert Progress(env, s, s1, 0, 1);
    ReportProgress(env, s1, r, !Throws(env, s) && env.toolSucceeds(Length(s.trace)));
    ObservedProgress(env, s1, Break(ResultNow(s1, Error, "Tool execution failed: " + ErrorText(env, s))));
  }

  lemma ToolTurnProgress(env: Env, s: State, r: LlmResponse)
    ensures Progress(env, s, ToolTurn(env, s, r).0, 0, 1)
  {
    hide Execute, Observed;
    var s0 := s.(seen := s.seen + {CallKey(r)});
    ObservedProgress(env, s0, Next);
    ExecuteProgress(env, Observed(env, s0, Next).0, r);
  }

  lemma RespondProgress(env: Env, input: Input, s: State, r: LlmResponse)
    ensures Progress(env, s, Respond(env, input, s, r).0, 0, 1)
  {
    hide ToolTurn, Finish, Pause, Observed;
    var s1 := Push(s, AssistantMessage(r));
    ObservedProgress(env, s, Break(ResultNow(s, Error, "Cost budget exceeded")));
    FinishProgress(env, s1, r);
    ToolTurnProgress(env, s1, r);
    PauseProgress(env, Push(s1, PROMPT));
  }

  lemma LlmTurnProgress(env: Env, input: Input, s: State)
    ensures Progress(env, s, LlmTurn(env, input, s).0, 1, 1)
  {
    hide Respond, Observed;
    var s1, r := Await(env, s, CallLlm), env.llm(Length(s.trace));
    ObservedProgress(env, s1, Break(ResultNow(s1, Error, "LLM call failed: " + ErrorText(env, s))));
    var s2 := if Throws(env, s) then s1 else s1.(cost := s1.cost + r.cost);
    assert Progress(env, s, s2, 1, 0);
    RespondProgress(env, input, s1.(cost := s1.cost + r.cost), r);
  }

  /** An iteration makes at most one model call and one tool call; none at all if it throws before the model call. */
  lemma IterationProgress(env: Env, input: Input, s: State)
    ensures var (s1, flow) := Iteration(env, input, s);
      var s0 := s.(iteration := s.iteration + 1);
      Progress(env, s0, s1, 1, 1) || (flow.Raise? && Progress(env, s0, s1, 0, 0))
  {
    hide LlmTurn, Observed;
    var s0 := s.(iteration := s.iteration + 1);
    var s1 := Observed(env, s0, Next).0;
    ObservedProgress(env, s0, Next);
    LlmTurnProgress(env, input, s1);
  }

  // ----- How a turn ends -----

  /** A result that leaves the loop reports the workflow's variables as they are. */
  predicate Reports(s: State, flow: Flow) {
    flow.Break? ==> flow.result == ResultNow(s, flow.result.status, flow.result.output)
  }

  predicate Fails(s: State, flow: Flow) {
    Reports(s, flow) && (flow.Break? ==> flow.result.status == Error)
  }

  lemma ExecuteFails(env: Env, s: State, r: LlmResponse)
    ensures var (s', flow) := Execute(env, s, r); Fails(s', flow)
  {
  }

  lemma ToolTurnFails(env: Env, s: State, r: LlmResponse)
    ensures var (s', flow) := ToolTurn(env, s, r); Fails(s', flow)
  {
    hide Execute;
    ExecuteFails(env, Observed(env, s.(seen := s.seen + {CallKey(r)}), Next).0, r);
  }

  /** After a response the loop goes on only if it was within budget and no final answer; it succeeds only with a final answer. */
  lemma RespondEnds(env: Env, input: Input, s: State, r: LlmResponse)
    ensures var (s', flow) := Respond(env, input, s, r);
      && Reports(s', flow)
      && (flow.Next? ==> !r.isFinal)
      && (flow.Break? && flow.result.status == Succeeded ==> r.isFinal && flow.result.output == r.content)
      && (flow.Next? || (flow.Break? && flow.result.status != Error) ==> input.costBudget > 0 ==> s.cost <= input.costBudget)
      && (flow.Break? ==> flow.result.status == Succeeded || flow.result.status == Error)
  {
    hide ToolTurn;
    ToolTurnFails(env, Push(s, AssistantMessage(r)), r);
  }

  predicate Within(input: Input, s: State) {
    input.costBudget > 0 ==> s.cost <= input.costBudget
  }

  /** The total exceeds the budget by no more than the last model call. */
  predicate WithinButLast(env: Env, input: Input, s: State) {
    Within(input, s) ||
    (LastAnswer(env, s.trace).Some? && s.cost - LastAnswer(env, s.trace).value.cost <= input.costBudget)
  }

  /** How the loop may end. */
  predicate Ending(env: Env, input: Input, s: State, flow: Flow) {
    var last := LastAnswer(env, s.trace);
    && !flow.Next?
    && Reports(s, flow)
    && WithinButLast(env, input, s)
    && (flow.Break? && flow.result.status != Error ==> Within(input, s) && LlmCalls(s.trace) == s.iteration)
    && (flow.Break? && flow.result.status == Succeeded ==>
          last.Some? && last.value.isFinal && flow.result.output == last.value.content)
    && (flow.Break? && flow.result.status == Cancelled ==> Signalled(env, s.trace) && s.iteration < IterationLimit(input))
    && (flow.Break? && flow.result.status == MaxIterationsReached ==> s.iteration >= IterationLimit(input))
    && (flow.Break? && (flow.result.status == Cancelled || flow.result.status == MaxIterationsReached) ==>
          last.Some? ==> !last.value.isFinal)
  }

  lemma {:induction false} LlmTurnEnds(env: Env, input: Input, s: State)
    requires Within(input, s) && LlmCalls(s.trace) == s.iteration - 1
    ensures var (s', flow) := LlmTurn(env, input, s);
      if flow.Next? then
        Within(input, s') && LastAnswer(env, s'.trace).Some? && !LastAnswer(env, s'.trace).value.isFinal
      else Ending(env, input, s', flow)
  {
    hide Respond;
    var s1, r := Await(env, s, CallLlm), env.llm(Length(s.trace));
    var s2 := s1.(cost := s1.cost + r.cost);
    LlmTurnProgress(env, input, s);
    if !Throws(env, s) {
      assert LastAnswer(env, s2.trace) == Some(r);
      RespondProgress(env, input, s2, r);
      RespondEnds(env, input, s2, r);
    }
  }

  // ----- The loop -----

  /** What holds wherever a sandbox exists and has not been terminated. */
  predicate Running(env: Env, s: State) {
    var t := s.trace;
    && Cleared(env, t) && Gated(env, t) && Created(env, t)
    && Terminations(t) == 0 && NoWorkAfterEnd(t) && TerminatesOnly(t, env.sandboxId)
    && s.cost == Spent(env, t)
    && (s.cancelled <==> Signalled(env, t))
    && LlmAfterSignal(env, t) <= 1 && ToolsAfterSignal(env, t) <= 1
  }

  /** What holds whenever control is at the loop head. */
  predicate AtHead(env: Env, input: Input, s: State) {
    && Running(env, s)
    && Within(input, s)
    && LlmCalls(s.trace) == s.iteration
    && (s.iteration > 0 ==> s.iteration <= IterationLimit(input))
    && (LastAnswer(env, s.trace).Some? ==> !LastAnswer(env, s.trace).value.isFinal)
  }

  predicate CallsBounded(input: Input, s: State) {
    LlmCalls(s.trace) > 0 ==> LlmCalls(s.trace) <= IterationLimit(input)
  }

  lemma IterationRuns(env: Env, input: Input, s: State)
    requires AtHead(env, input, s) && !s.cancelled && s.iteration < IterationLimit(input)
    ensures var s' := Iteration(env, input, s).0;
      Running(env, s') && CallsBounded(input, s') && s'.iteration == s.iteration + 1
  {
    hide Iteration;
    IterationProgress(env, input, s);
    NothingAfterNoSignal(env, s.trace);
  }

  lemma IterationEnds(env: Env, input: Input, s: State)
    requires AtHead(env, input, s) && !s.cancelled && s.iteration < IterationLimit(input)
    ensures var (s', flow) := Iteration(env, input, s);
      if flow.Next? then AtHead(env, input, s') else Ending(env, input, s', flow)
  {
    hide LlmTurn, Running, Observed;
    var s0 := s.(iteration := s.iteration + 1);
    var s1 := Observed(env, s0, Next).0;
    IterationRuns(env, input, s);
    ObservedProgress(env, s0, Next);
    ObservedFlow(env, s0, Next);
    LlmTurnProgress(env, input, s1);
    LlmTurnEnds(env, input, s1);
  }

  lemma ObservedFlow(env: Env, s: State, flow: Flow)
    ensures Observed(env, s, flow).1 == flow || Observed(env, s, flow).1.Raise?
  {
  }

  lemma {:induction false} LoopEnds(env: Env, input: Input, s: State)
    requires AtHead(env, input, s)
    ensures var (s', flow) := Loop(env, input, s);
      Running(env, s') && CallsBounded(input, s') && Ending(env, input, s', flow)
    decreases IterationLimit(input) - s.iteration
  {
    hide Running, Iteration;
    if s.iteration >= IterationLimit(input) || s.cancelled {
      LoopStops(env, input, s);
    } else {
      var (s1, flow) := Iteration(env, input, s);
      IterationRuns(env, input, s);
      IterationEnds(env, input, s);
      if flow.Next? {
        LoopEnds(env, input, s1);
      }
    }
  }

  lemma LoopStops(env: Env, input: Input, s: State)
    requires AtHead(env, input, s) && (s.iteration >= IterationLimit(input) || s.cancelled)
    ensures var (s', flow) := Loop(env, input, s);
      Running(env, s') && CallsBounded(input, s') && Ending(env, input, s', flow)
  {
    ObservedProgress(env, s, Next);
  }

  // ----- The whole workflow -----

  /** What holds before the sandbox is requested: no restricted call has been made, and no model has been asked. */
  predicate Preparing(env: Env, input: Input, s: State) {
    var t := s.trace;
    && Gated(env, t) && !Created(env, t)
    && Terminations(t) == 0 && NoWorkAfterEnd(t) && TerminatesOnly(t, env.sandboxId)
    && LlmCalls(t) == 0 && LastAnswer(env, t) == None
    && LlmAfterSignal(env, t) == 0 && ToolsAfterSignal(env, t) == 0
    && s.iteration == 0 && s.cost == 0 == Spent(env, t)
    && (s.cancelled <==> Signalled(env, t))
  }

  /**
   The safety of a finished run.  Restricted calls are gated; a sandbox with a non-empty id is
   terminated exactly once, under that id, after the last model and tool call, and nothing else
   is ever terminated; model calls are bounded; after the cancel signal at most one more model
   call and one more tool call begin; the total is what the model calls cost.
   */
  predicate Safe(env: Env, input: Input, s: State) {
    var t := s.trace;
    && Gated(env, t)
    && Terminations(t) == (if Created(env, t) && env.sandboxId != "" then 1 else 0)
    && TerminatesOnly(t, env.sandboxId) && NoWorkAfterEnd(t)
    && CallsBounded(input, s)
    && LlmAfterSignal(env, t) <= 1 && ToolsAfterSignal(env, t) <= 1
    && s.cost == Spent(env, t) && WithinButLast(env, input, s)
  }

  /** A result other than ERROR reports the true totals, is within budget, and is what its status says. */
  predicate Honest(env: Env, input: Input, s: State, outcome: Outcome) {
    outcome.Returned? && outcome.result.status != Error ==>
      var r, last := outcome.result, LastAnswer(env, s.trace);
      && Created(env, s.trace)
      && r.totalCost == Spent(env, s.trace) && (input.costBudget > 0 ==> r.totalCost <= input.costBudget)
      && r.iterations == LlmCalls(s.trace)
      && (r.status == Succeeded <==> last.Some? && last.value.isFinal)
      && (r.status == Succeeded ==> r.output == last.value.content)
      && (r.status == Cancelled ==> Signalled(env, s.trace) && r.iterations < IterationLimit(input))
      && (r.status == MaxIterationsReached ==> r.iterations >= IterationLimit(input))
  }

  lemma AwaitPreparing(env: Env, input: Input, s: State, call: Call)
    requires Preparing(env, input, s) && !Restricted(call)
    ensures Preparing(env, input, Await(env, s, call))
  {
  }

  lemma PreparingIsSafe(env: Env, input: Input, s: State)
    requires Preparing(env, input, s)
    ensures Safe(env, input, s)
  {
  }

  lemma SandboxCalled(env: Env, input: Input, s: State)
    requires Preparing(env, input, s) && Cleared(env, s.trace)
    ensures var s1 := Await(env, s, CreateSandbox);
      if Throws(env, s) then Safe(env, input, s1) && !Created(env, s1.trace)
      else AtHead(env, input, s1)
  {
  }

  lemma ObservedAtHead(env: Env, input: Input, s: State)
    requires AtHead(env, input, s)
    ensures AtHead(env, input, Await(env, s, Observe))
  {
  }

  /** The try block, at whose end the sandbox, if any, is still there. */
  lemma AttemptEnds(env: Env, input: Input, s: State)
    requires Preparing(env, input, s) && Cleared(env, s.trace)
    ensures var (s', sandboxId, flow) := Attempt(env, input, s);
      if Created(env, s'.trace) then
        sandboxId == env.sandboxId && Running(env, s') && CallsBounded(input, s') && WithinButLast(env, input, s') &&
        !flow.Next? && (flow.Break? ==> Ending(env, input, s', flow))
      else sandboxId == "" && Safe(env, input, s') && flow.Raise?
  {
    hide Loop, AtHead, Preparing, Safe;
    var s1 := Await(env, s, CreateSandbox);
    SandboxCalled(env, input, s);
    if !Throws(env, s) {
      HeadIsRunning(env, input, s1);
      ObservedAtHead(env, input, s1);
      var s2 := Await(env, s1, Observe);
      HeadIsRunning(env, input, s2);
      LoopEnds(env, input, s2);
    }
  }

  lemma HeadIsRunning(env: Env, input: Input, s: State)
    requires AtHead(env, input, s)
    ensures Running(env, s) && CallsBounded(input, s) && Within(input, s)
  {
  }

  lemma AfterwardsSafe(env: Env, input: Input, s: State, call: Call)
    requires Safe(env, input, s) && !Restricted(call)
    ensures Safe(env, input, Await(env, s, call))
    ensures LastAnswer(env, Await(env, s, call).trace) == LastAnswer(env, s.trace)
    ensures Created(env, Await(env, s, call).trace) <==> Created(env, s.trace)
    ensures LlmCalls(Await(env, s, call).trace) == LlmCalls(s.trace)
    ensures Signalled(env, s.trace) ==> Signalled(env, Await(env, s, call).trace)
    ensures Spent(env, Await(env, s, call).trace) == Spent(env, s.trace)
  {
  }

  lemma TerminatedSafe(env: Env, input: Input, s: State)
    requires Running(env, s) && CallsBounded(input, s) && WithinButLast(env, input, s)
    ensures var s' := Finally(env, s, env.sandboxId);
      && Safe(env, input, s') && Created(env, s'.trace)
      && LastAnswer(env, s'.trace) == LastAnswer(env, s.trace) && LlmCalls(s'.trace) == LlmCalls(s.trace)
      && Spent(env, s'.trace) == Spent(env, s.trace) && (Signalled(env, s.trace) ==> Signalled(env, s'.trace))
  {
  }

  lemma ObservedRunning(env: Env, input: Input, s: State)
    requires Running(env, s) && CallsBounded(input, s) && WithinButLast(env, input, s)
    ensures var s' := Await(env, s, Observe);
      Running(env, s') && CallsBounded(input, s') && WithinButLast(env, input, s')
  {
  }

  lemma {:induction false} SandboxedEnds(env: Env, input: Input, s: State)
    requires Preparing(env, input, s) && Cleared(env, s.trace)
    ensures var (s', outcome) := Sandboxed(env, input, s);
      Safe(env, input, s') && Honest(env, input, s', outcome)
  {
    hide Attempt, Running, Safe, CallsBounded, WithinButLast, Preparing, Finally;
    var (s1, sandboxId, end) := Attempt(env, input, s);
    AttemptEnds(env, input, s);
    var s2 := Caught(env, s1, end).0;
    if Created(env, s1.trace) {
      if end.Raise? {
        ObservedRunning(env, input, s1);
      }
      var s3 := Finally(env, s2, sandboxId);
      TerminatedSafe(env, input, s2);
      AfterwardsSafe(env, input, s3, ReportOutcome);
      if end.Break? {
        EndingIsHonest(env, input, s1, end.result, Await(env, s3, ReportOutcome));
      }
    } else {
      AfterwardsSafe(env, input, s1, Observe);
      NothingToTerminate(env, s2);
      AfterwardsSafe(env, input, s2, ReportOutcome);
    }
  }

  lemma NothingToTerminate(env: Env, s: State)
    ensures Finally(env, s, "") == s
  {
  }

  lemma EndingIsHonest(env: Env, input: Input, s: State, r: AgentResult, s': State)
    requires Ending(env, input, s, Break(r)) && Running(env, s)
    requires Created(env, s'.trace) && LastAnswer(env, s'.trace) == LastAnswer(env, s.trace)
    requires LlmCalls(s'.trace) == LlmCalls(s.trace) && Spent(env, s'.trace) == Spent(env, s.trace)
    requires Signalled(env, s.trace) ==> Signalled(env, s'.trace)
    ensures Honest(env, input, s', Returned(r))
  {
  }

  lemma ErrorIsHonest(env: Env, input: Input, s: State, outcome: Outcome)
    requires outcome.Returned? ==> outcome.result.status == Error
    ensures Honest(env, input, s, outcome)
  {
  }

  lemma CheckPolicyEnds(env: Env, input: Input, s: State)
    requires Preparing(env, input, s) && Admitted(env, s.trace)
    ensures var (s', outcome) := CheckPolicy(env, input, s);
      Safe(env, input, s') && Honest(env, input, s', outcome)
  {
    hide Sandboxed, Preparing, Safe, Honest;
    var s1 := Await(env, s, EvaluatePolicy);
    var s2 := Await(env, s1, Observe);
    AwaitPreparing(env, input, s, EvaluatePolicy);
    AwaitPreparing(env, input, s1, Observe);
    PreparingIsSafe(env, input, s1);
    PreparingIsSafe(env, input, s2);
    if Throws(env, s) || !env.allows || Throws(env, s1) {
      var (s', outcome) := CheckPolicy(env, input, s);
      ErrorIsHonest(env, input, s', outcome);
    } else {
      assert Cleared(env, s1.trace);
      SandboxedEnds(env, input, s2);
    }
  }

  lemma CheckAdmissionEnds(env: Env, input: Input, s: State)
    requires Preparing(env, input, s)
    ensures var (s', outcome) := CheckAdmission(env, input, s);
      Safe(env, input, s') && Honest(env, input, s', outcome)
  {
    hide CheckPolicy, Preparing, Safe, Honest;
    var s1 := Await(env, s, Admit);
    var s2 := Await(env, s1, Observe);
    AwaitPreparing(env, input, s, Admit);
    AwaitPreparing(env, input, s1, Observe);
    PreparingIsSafe(env, input, s2);
    if Throws(env, s) || !env.admits || Throws(env, s1) {
      var (s', outcome) := CheckAdmission(env, input, s);
      ErrorIsHonest(env, input, s', outcome);
    } else {
      CheckPolicyEnds(env, input, s2);
    }
  }

  /**
   The safety theorem, for every environment: `Safe` and `Honest` hold of every run, including
   those in which any activity throws or the cancel signal arrives at any await.
   */
  lemma {:induction false} WorkflowIsSafe(env: Env, input: Input)
    ensures var (s, outcome) := Workflow(env, input);
      Safe(env, input, s) && Honest(env, input, s, outcome)
  {
    hide CheckAdmission, Safe, Honest, Preparing;
    var s0 := Initial(env, input);
    var s1 := Await(env, s0, Observe);
    var s2 := Await(env, s1, Observe);
    InitialPreparing(env, input);
    AwaitPreparing(env, input, s0, Observe);
    AwaitPreparing(env, input, s1, Observe);
    PreparingIsSafe(env, input, s1);
    PreparingIsSafe(env, input, s2);
    if Throws(env, s0) || Throws(env, s1) {
      var (s, outcome) := Workflow(env, input);
      ErrorIsHonest(env, input, s, outcome);
    } else {
      CheckAdmissionEnds(env, input, s2);
    }
  }

  lemma InitialPreparing(env: Env, input: Input)
    ensures Preparing(env, input, Initial(env, input))
  {
  }
}
