/**
 The ReAct workflow of control-plane/workflow-engine/src/temporal/workflows/react-workflow.ts.

 Activities are an arbitrary environment: whatever is awaited as call number k may throw or
 answer anything, and the cancel signal may arrive while any call is awaited.  `trace` lists the
 calls in order.  Costs are whole micro-dollars.

 The functions say what each part of the workflow does to its variables; the class
 `ReactExecution` holds those variables and its methods are the workflow's statements.
 */
module ReactWorkflow {
  import opened Options
  import opened Runs
  import opened Numbers

  datatype Role = System | User | Assistant | Tool
  datatype ToolRef = ToolRef(id: string, name: string, args: string)

  /** Absent ids are empty strings, as the source tests ids for truth. */
  datatype Message = Message(role: Role, toolCallId: string, toolCalls: seq<ToolRef>)

  /** `toolArgs` is the JSON text of the arguments; `toolName` is empty if absent or if the type is not `tool_call`. */
  datatype LlmResponse = LlmResponse(
    isFinal: bool, content: string, toolName: string, toolArgs: string, toolCallId: string,
    toolCalls: seq<ToolRef>, cost: int)

  datatype Record = Record(iteration: int, toolName: string, toolArgs: string, toolCallId: string, succeeded: bool)

  datatype Status = Succeeded | MaxIterationsReached | Cancelled | Error
  datatype AgentResult = AgentResult(status: Status, output: string, totalCost: int, iterations: int, toolCalls: seq<Record>)

  datatype Call =
    | Observe | Admit | EvaluatePolicy | CreateSandbox | CallLlm | ExecuteTool(name: string, args: string)
    | Persist | Sleep | TerminateSandbox(id: string) | ReportOutcome

  datatype Input = Input(maxIterations: Option<int>, costBudget: int, initialMessages: seq<Message>)

  /** The answers to call number k, and whether the cancel signal arrives during it or before the first one. */
  datatype Env = Env(
    throws: nat -> bool, message: nat -> string, signal: nat -> bool, signalledEarly: bool,
    admits: bool, allows: bool, sandboxId: string, llm: nat -> LlmResponse, toolSucceeds: nat -> bool)

  datatype State = State(
    trace: Run<Call>, cancelled: bool, iteration: int, cost: int, messages: seq<Message>,
    records: seq<Record>, seen: set<string>, output: string)

  /** How a part of the try block ends: go on with the loop, leave it with a result, or throw. */
  datatype Flow = Next | Break(result: AgentResult) | Raise(message: string)

  datatype Outcome = Returned(result: AgentResult) | Threw(message: string)

  function IterationLimit(input: Input): int {
    Min(if input.maxIterations.Some? then input.maxIterations.value else 20, 100)
  }

  function Initial(env: Env, input: Input): State {
    State(Start, env.signalledEarly, 0, 0, [Message(System, "", [])] + input.initialMessages, [], {}, "")
  }

  predicate Throws(env: Env, s: State) {
    env.throws(Length(s.trace))
  }

  function ErrorText(env: Env, s: State): string {
    env.message(Length(s.trace))
  }

  function Await(env: Env, s: State, call: Call): State {
    s.(trace := Then(s.trace, call), cancelled := s.cancelled || env.signal(Length(s.trace)))
  }

  function ResultNow(s: State, status: Status, output: string): AgentResult {
    AgentResult(status, output, s.cost, s.iteration, s.records)
  }

  /** An unprotected `await recordObservability(...)`. */
  function Observed(env: Env, s: State, flow: Flow): (State, Flow) {
    (Await(env, s, Observe), if Throws(env, s) then Raise(ErrorText(env, s)) else flow)
  }

  function WithId(calls: seq<ToolRef>, id: string): seq<ToolRef> {
    if calls == [] then []
    else if calls[0].id == id then [calls[0]] + WithId(calls[1..], id)
    else WithId(calls[1..], id)
  }

  /** Of several tool calls in one response only the one executed is kept. */
  function AssistantMessage(r: LlmResponse): Message {
    Message(Assistant, "", if r.toolCallId != "" then WithId(r.toolCalls, r.toolCallId) else r.toolCalls)
  }

  function ToolReply(r: LlmResponse): Message {
    if r.toolCallId != "" then Message(Tool, r.toolCallId, []) else Message(User, "", [])
  }

  const PROMPT := Message(User, "", [])

  function Key(name: string, args: string): string {
    name + "::" + args
  }

  function CallKey(r: LlmResponse): string {
    Key(r.toolName, r.toolArgs)
  }

  predicate Includes(s: string, part: string) {
    part <= s || (s != "" && Includes(s[1..], part))
  }

  /** Errors that abort the execution instead of being reported to the model. */
  predicate Fatal(message: string) {
    Includes(message, "PII_VIOLATION") || Includes(message, "POLICY_DENIED")
  }

  function Push(s: State, m: Message): State {
    s.(messages := s.messages + [m])
  }

  // ----- One turn of the loop -----

  function Pause(env: Env, s: State): (State, Flow) {
    (Await(env, s, Sleep), if Throws(env, s) then Raise(ErrorText(env, s)) else Next)
  }

  function Finish(env: Env, s: State, r: LlmResponse): (State, Flow) {
    var s1 := Await(env, s.(output := r.content), Persist);
    Observed(env, s1, Break(ResultNow(s1, Succeeded, r.content)))
  }

  function Report(env: Env, s: State, r: LlmResponse, succeeded: bool): (State, Flow) {
    var s1 := Push(s.(records := s.records + [Record(s.iteration, r.toolName, r.toolArgs, r.toolCallId, succeeded)]), ToolReply(r));
    var (s2, flow) := Observed(env, Await(env, s1, Persist), Next);
    if flow.Raise? then (s2, flow) else Pause(env, s2)
  }

  function Execute(env: Env, s: State, r: LlmResponse): (State, Flow) {
    var s1 := Await(env, s, ExecuteTool(r.toolName, r.toolArgs));
    if Throws(env, s) && Fatal(ErrorText(env, s)) then
      Observed(env, s1, Break(ResultNow(s1, Error, "Tool execution failed: " + ErrorText(env, s))))
    else
      Report(env, s1, r, !Throws(env, s) && env.toolSucceeds(Length(s.trace)))
  }

  function ToolTurn(env: Env, s: State, r: LlmResponse): (State, Flow) {
    if CallKey(r) in s.seen then (Push(s, PROMPT), Next)
    else
      var (s1, flow) := Observed(env, s.(seen := s.seen + {CallKey(r)}), Next);
      if flow.Raise? then (s1, flow) else Execute(env, s1, r)
  }

  function Respond(env: Env, input: Input, s: State, r: LlmResponse): (State, Flow) {
    if input.costBudget > 0 && s.cost > input.costBudget then
      Observed(env, s, Break(ResultNow(s, Error, "Cost budget exceeded")))
    else
      var s1 := Push(s, AssistantMessage(r));
      if r.isFinal then Finish(env, s1, r)
      else if r.toolName != "" then ToolTurn(env, s1, r)
      else Pause(env, Push(s1, PROMPT))
  }

  function LlmTurn(env: Env, input: Input, s: State): (State, Flow) {
    var s1 := Await(env, s, CallLlm);
    if Throws(env, s) then
      Observed(env, s1, Break(ResultNow(s1, Error, "LLM call failed: " + ErrorText(env, s))))
    else
      var r := env.llm(Length(s.trace));
      Respond(env, input, s1.(cost := s1.cost + r.cost), r)
  }

  function Iteration(env: Env, input: Input, s: State): (r: (State, Flow))
    ensures r.0.iteration == s.iteration + 1
  {
    var (s1, flow) := Observed(env, s.(iteration := s.iteration + 1), Next);
    if flow.Raise? then (s1, flow) else LlmTurn(env, input, s1)
  }

  /** The loop from its head, and what follows it when it ends without a result. */
  function Loop(env: Env, input: Input, s: State): (State, Flow)
    decreases IterationLimit(input) - s.iteration
  {
    if s.iteration >= IterationLimit(input) then
      Observed(env, s, Break(ResultNow(s, MaxIterationsReached, if s.output != "" then s.output else "Execution stopped")))
    else if s.cancelled then
      Observed(env, s, Break(ResultNow(s, Cancelled, "Execution cancelled by user")))
    else
      var (s1, flow) := Iteration(env, input, s);
      if flow.Next? then Loop(env, input, s1) else (s1, flow)
  }

  // ----- The whole workflow -----

  function Failure(output: string): AgentResult {
    AgentResult(Error, output, 0, 0, [])
  }

  /** What the source returns if it finds no result after the finally block. */
  function UnexpectedExit(s: State): AgentResult {
    AgentResult(Error, "Workflow exited unexpectedly", 0, s.iteration, [])
  }

  /** The try block; the string is the sandbox id, empty until a sandbox exists. */
  function Attempt(env: Env, input: Input, s: State): (State, string, Flow) {
    var s1 := Await(env, s, CreateSandbox);
    if Throws(env, s) then (s1, "", Raise(ErrorText(env, s)))
    else
      var (s2, flow) := Observed(env, s1, Next);
      var (s3, end) := if flow.Raise? then (s2, flow) else Loop(env, input, s2);
      (s3, env.sandboxId, end)
  }

  /** The catch block. */
  function Caught(env: Env, s: State, flow: Flow): (State, Flow) {
    if flow.Raise? then Observed(env, s, Break(Failure("Sandbox creation failed: " + flow.message))) else (s, flow)
  }

  /** The finally block; an error of `terminateSandbox` is only logged. */
  function Finally(env: Env, s: State, sandboxId: string): State {
    if sandboxId != "" then Await(env, s, TerminateSandbox(sandboxId)) else s
  }

  function Sandboxed(env: Env, input: Input, s: State): (State, Outcome) {
    var (s1, sandboxId, end) := Attempt(env, input, s);
    var (s2, flow) := Caught(env, s1, end);
    var s3 := Finally(env, s2, sandboxId);
    match flow
    case Break(result) => (Await(env, s3, ReportOutcome), Returned(result))
    case Next => (Await(env, s3, ReportOutcome), Returned(UnexpectedExit(s3)))
    case Raise(message) => (s3, Threw(message))
  }

  function ObservedReturn(env: Env, s: State, output: string): (State, Outcome) {
    (Await(env, s, Observe), if Throws(env, s) then Threw(ErrorText(env, s)) else Returned(Failure(output)))
  }

  function CheckPolicy(env: Env, input: Input, s: State): (State, Outcome) {
    var s1 := Await(env, s, EvaluatePolicy);
    if Throws(env, s) then (s1, Threw(ErrorText(env, s)))
    else if !env.allows then ObservedReturn(env, s1, "Policy denied")
    else
      var (s2, flow) := Observed(env, s1, Next);
      if flow.Raise? then (s2, Threw(flow.message)) else Sandboxed(env, input, s2)
  }

  function CheckAdmission(env: Env, input: Input, s: State): (State, Outcome) {
    var s1 := Await(env, s, Admit);
    if Throws(env, s) then ObservedReturn(env, s1, "Agent admission failed: " + ErrorText(env, s))
    else if !env.admits then ObservedReturn(env, s1, "Agent failed admission policy")
    else
      var (s2, flow) := Observed(env, s1, Next);
      if flow.Raise? then (s2, Threw(flow.message)) else CheckPolicy(env, input, s2)
  }

  function Workflow(env: Env, input: Input): (State, Outcome) {
    var (s1, flow1) := Observed(env, Initial(env, input), Next);
    if flow1.Raise? then (s1, Threw(flow1.message))
    else
      var (s2, flow2) := Observed(env, s1, Next);
      if flow2.Raise? then (s2, Threw(flow2.message)) else CheckAdmission(env, input, s2)
  }

  // ----- The workflow's statements -----

  class ReactExecution {
    const env: Env
    const input: Input
    var trace: Run<Call>
    var cancellationRequested: bool
    var currentIteration: int
    var totalCost: int
    var messages: seq<Message>
    var toolCalls: seq<Record>
    var seenToolCalls: set<string>
    var output: string

    function View(): State
      reads this
    {
      State(trace, cancellationRequested, currentIteration, totalCost, messages, toolCalls, seenToolCalls, output)
    }

    constructor (env: Env, input: Input)
      ensures this.env == env && this.input == input && View() == Initial(env, input)
    {
      this.env, this.input := env, input;
      trace, cancellationRequested, currentIteration, totalCost := Start, env.signalledEarly, 0, 0;
      messages, toolCalls, seenToolCalls, output := [Message(System, "", [])] + input.initialMessages, [], {}, "";
    }

    /** Awaits one call; the signal handler may run meanwhile. */
    method Perform(call: Call) returns (threw: bool, message: string)
      modifies this`trace, this`cancellationRequested
      ensures View() == Await(env, old(View()), call)
      ensures threw == Throws(env, old(View())) && message == ErrorText(env, old(View()))
    {
      var k := Length(trace);
      trace := Then(trace, call);
      if env.signal(k) {
        cancellationRequested := true;
      }
      return env.throws(k), env.message(k);
    }

    method RecordObservability(flow: Flow) returns (next: Flow)
      modifies this`trace, this`cancellationRequested
      ensures (View(), next) == Observed(env, old(View()), flow)
    {
      var threw, message := Perform(Observe);
      next := if threw then Raise(message) else flow;
    }

    method Sleep100() returns (next: Flow)
      modifies this`trace, this`cancellationRequested
      ensures (View(), next) == Pause(env, old(View()))
    {
      var threw, message := Perform(Sleep);
      next := if threw then Raise(message) else Next;
    }

    method AnswerFinally(r: LlmResponse) returns (next: Flow)
      modifies this
      ensures (View(), next) == Finish(env, old(View()), r)
    {
      output := r.content;
      var _, _ := Perform(Persist);
      var result := AgentResult(Succeeded, output, totalCost, currentIteration, toolCalls);
      next := RecordObservability(Break(result));
    }

    method ReportToolResult(r: LlmResponse, succeeded: bool) returns (next: Flow)
      modifies this
      ensures (View(), next) == Report(env, old(View()), r, succeeded)
    {
      toolCalls := toolCalls + [Record(currentIteration, r.toolName, r.toolArgs, r.toolCallId, succeeded)];
      if r.toolCallId != "" {
        messages := messages + [Message(Tool, r.toolCallId, [])];
      } else {
        messages := messages + [Message(User, "", [])];
      }
      var _, _ := Perform(Persist);
      next := RecordObservability(Next);
      if next.Next? {
        next := Sleep100();
      }
    }

    method RunTool(r: LlmResponse) returns (next: Flow)
      modifies this
      ensures (View(), next) == Execute(env, old(View()), r)
    {
      hide Report, Fatal;
      var k := Length(trace);
      var threw, message := Perform(ExecuteTool(r.toolName, r.toolArgs));
      var succeeded := false;
      if threw {
        if Fatal(message) {
          var result := AgentResult(Error, "Tool execution failed: " + message, totalCost, currentIteration, toolCalls);
          next := RecordObservability(Break(result));
          return;
        }
      } else {
        succeeded := env.toolSucceeds(k);
      }
      next := ReportToolResult(r, succeeded);
    }

    method HandleToolCall(r: LlmResponse) returns (next: Flow)
      modifies this
      ensures (View(), next) == ToolTurn(env, old(View()), r)
    {
      hide Execute;
      var callKey := CallKey(r);
      if callKey in seenToolCalls {
        messages := messages + [PROMPT];
        return Next;
      }
      seenToolCalls := seenToolCalls + {callKey};
      next := RecordObservability(Next);
      if next.Next? {
        next := RunTool(r);
      }
    }

    method HandleResponse(r: LlmResponse) returns (next: Flow)
      modifies this
      ensures (View(), next) == Respond(env, input, old(View()).(cost := old(totalCost) + r.cost), r)
    {
      hide ToolTurn, Finish, Pause;
      totalCost := totalCost + r.cost;
      if input.costBudget > 0 && totalCost > input.costBudget {
        var result := AgentResult(Error, "Cost budget exceeded", totalCost, currentIteration, toolCalls);
        next := RecordObservability(Break(result));
        return;
      }
      messages := messages + [AssistantMessage(r)];
      if r.isFinal {
        next := AnswerFinally(r);
      } else if r.toolName != "" {
        next := HandleToolCall(r);
      } else {
        messages := messages + [PROMPT];
        next := Sleep100();
      }
    }

    method CallModel() returns (next: Flow)
      modifies this
      ensures (View(), next) == LlmTurn(env, input, old(View()))
    {
      hide Respond;
      var k := Length(trace);
      var threw, message := Perform(CallLlm);
      if threw {
        var result := AgentResult(Error, "LLM call failed: " + message, totalCost, currentIteration, toolCalls);
        next := RecordObservability(Break(result));
        return;
      }
      next := HandleResponse(env.llm(k));
    }

    /** The while loop with its breaks, and the result given when it ends without one. */
    method ReactLoop() returns (end: Flow)
      modifies this
      ensures (View(), end) == Loop(env, input, old(View()))
    {
      var maxIterations := IterationLimit(input);
      end := Next;
      while currentIteration < maxIterations
        invariant end.Next? && Loop(env, input, View()) == Loop(env, input, old(View()))
        decreases maxIterations - currentIteration
      {
        if cancellationRequested {
          var result := AgentResult(Cancelled, "Execution cancelled by user", totalCost, currentIteration, toolCalls);
          end := RecordObservability(Break(result));
          return;
        }
        end := OneIteration();
        if !end.Next? {
          return;
        }
      }
      var text := if output != "" then output else "Execution stopped";
      var result := AgentResult(MaxIterationsReached, text, totalCost, currentIteration, toolCalls);
      end := RecordObservability(Break(result));
    }

    method OneIteration() returns (next: Flow)
      modifies this
      ensures (View(), next) == Iteration(env, input, old(View()))
    {
      hide LlmTurn;
      currentIteration := currentIteration + 1;
      next := RecordObservability(Next);
      if next.Next? {
        next := CallModel();
      }
    }

    method TrySandbox() returns (sandboxId: string, end: Flow)
      modifies this
      ensures (View(), sandboxId, end) == Attempt(env, input, old(View()))
    {
      hide Loop;
      sandboxId := "";
      var threw, message := Perform(CreateSandbox);
      if threw {
        return "", Raise(message);
      }
      sandboxId := env.sandboxId;
      end := RecordObservability(Next);
      if end.Next? {
        end := ReactLoop();
      }
    }

    method RunSandboxed() returns (outcome: Outcome)
      modifies this
      ensures (View(), outcome) == Sandboxed(env, input, old(View()))
    {
      hide Attempt;
      var sandboxId, flow := TrySandbox();
      if flow.Raise? {
        flow := RecordObservability(Break(Failure("Sandbox creation failed: " + flow.message)));
      }
      if sandboxId != "" {
        var _, _ := Perform(TerminateSandbox(sandboxId));
      }
      if flow.Raise? {
        return Threw(flow.message);
      }
      var result := UnexpectedExit(View());
      if flow.Break? {
        result := flow.result;
      }
      var _, _ := Perform(ReportOutcome);
      return Returned(result);
    }

    method DenyWith(text: string) returns (outcome: Outcome)
      modifies this`trace, this`cancellationRequested
      ensures (View(), outcome) == ObservedReturn(env, old(View()), text)
    {
      var threw, message := Perform(Observe);
      outcome := if threw then Threw(message) else Returned(Failure(text));
    }

    method RunAfterAdmission() returns (outcome: Outcome)
      modifies this
      ensures (View(), outcome) == CheckPolicy(env, input, old(View()))
    {
      hide Sandboxed;
      var threw, message := Perform(EvaluatePolicy);
      if threw {
        return Threw(message);
      }
      if !env.allows {
        outcome := DenyWith("Policy denied");
        return;
      }
      var flow := RecordObservability(Next);
      if flow.Raise? {
        return Threw(flow.message);
      }
      outcome := RunSandboxed();
    }

    method RunAdmission() returns (outcome: Outcome)
      modifies this
      ensures (View(), outcome) == CheckAdmission(env, input, old(View()))
    {
      hide CheckPolicy;
      var threw, message := Perform(Admit);
      if threw {
        outcome := DenyWith("Agent admission failed: " + message);
        return;
      }
      if !env.admits {
        outcome := DenyWith("Agent failed admission policy");
        return;
      }
      var flow := RecordObservability(Next);
      if flow.Raise? {
        return Threw(flow.message);
      }
      outcome := RunAfterAdmission();
    }

    method Run() returns (outcome: Outcome)
      requires View() == Initial(env, input)
      modifies this
      ensures (View(), outcome) == Workflow(env, input)
    {
      hide CheckAdmission;
      var flow := RecordObservability(Next);
      if flow.Next? {
        flow := RecordObservability(Next);
      }
      if flow.Raise? {
        return Threw(flow.message);
      }
      outcome := RunAdmission();
    }
  }
}
