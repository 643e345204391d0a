/** Which calls the ReAct workflow makes: tool calls against the model's answers, and the whole sequence of calls. */
module ReactCalls {
  import opened Options
  import opened Runs
  import opened Numbers
  import opened ReactWorkflow
  import opened ReactRuns
  import opened ReactTranscript
  import opened ReactStart

  // ----- Every call asked for is executed -----

  lemma {:induction false} ExecutionListed(env: Env, t: Run<Call>, name: string, args: string)
    requires Executes(t, name, args)
    ensures exists k :: 0 <= k < |Executions(env, t)| && Executions(env, t)[k].name == name && Executions(env, t)[k].args == args
  {
    var all := Executions(env, t);
    if t.event == ExecuteTool(name, args) {
      assert all[|all| - 1].name == name && all[|all| - 1].args == args;
    } else {
      ExecutionListed(env, t.before, name, args);
      var before := Executions(env, t.before);
      var k :| 0 <= k < |before| && before[k].name == name && before[k].args == args;
      assert all[k] == before[k];
    }
  }

  lemma {:induction false} KeyWasExecuted(t: Run<Call>, key: string)
    requires key in ExecutedKeys(t)
    ensures exists name, args :: Executes(t, name, args) && Key(name, args) == key
  {
    if t.event.ExecuteTool? && Key(t.event.name, t.event.args) == key {
      assert Executes(t, t.event.name, t.event.args);
    } else {
      KeyWasExecuted(t.before, key);
      var name, args :| Executes(t.before, name, args) && Key(name, args) == key;
      assert Executes(t, name, args);
    }
  }

  predicate AsksFor(answers: seq<LlmResponse>, name: string, args: string) {
    exists i :: 0 <= i < |answers| && answers[i].toolName == name && answers[i].toolArgs == args
  }

  lemma ExecutedWasAsked(env: Env, input: Input, s: State, name: string, args: string)
    requires HeadBooks(env, input, s) && Executes(s.trace, name, args)
    ensures var answers := Answers(env, s.trace);
      AsksFor(answers, name, args)
  {
    hide Turns, Asked;
    var answers := Answers(env, s.trace);
    ExecutionListed(env, s.trace, name, args);
    var k :| 0 <= k < |Executions(env, s.trace)| && Executions(env, s.trace)[k].name == name && Executions(env, s.trace)[k].args == args;
    assert Recorded(s.records)[k] == Executions(env, s.trace)[k];
    assert RecordAt(s.records[k], s.messages, InitialCount(input), answers);
    var i := s.records[k].iteration - 1;
    assert 0 <= i < |answers| && answers[i].toolName == name && answers[i].toolArgs == args;
  }

  /**
   At every loop head the tools executed are those the answers asked for, with their arguments: nothing else
   was executed, and, if the tools' names are apart, nothing that was asked for was left out.
   With `ToolsRunOnce`, each was executed once.
   */
  lemma {:induction false} CallsAreExecuted(env: Env, input: Input, n: nat, s: State)
    requires HeadAfter(env, input, FirstHead(env, input), n, s)
    ensures var answers := Answers(env, s.trace);
      && (forall name, args :: Executes(s.trace, name, args) ==> AsksFor(answers, name, args))
      && (NamesApart(answers) ==>
            forall i :: 0 <= i < |answers| && answers[i].toolName != "" ==>
              Executes(s.trace, answers[i].toolName, answers[i].toolArgs))
  {
    hide HeadAfter, FirstHead, HeadBooks, Answers, Apart, CallKey;
    BooksAtEveryHead(env, input, n, s);
    var answers := Answers(env, s.trace);
    forall name, args | Executes(s.trace, name, args)
      ensures AsksFor(answers, name, args)
    {
      ExecutedWasAsked(env, input, s, name, args);
    }
    if NamesApart(answers) {
      forall i | 0 <= i < |answers| && answers[i].toolName != "" ensures Executes(s.trace, answers[i].toolName, answers[i].toolArgs) {
        AskedIsExecuted(env, input, s, i);
      }
    }
  }

  lemma AskedIsExecuted(env: Env, input: Input, s: State, i: nat)
    requires HeadBooks(env, input, s) && i < |Answers(env, s.trace)| && Answers(env, s.trace)[i].toolName != ""
    requires NamesApart(Answers(env, s.trace))
    ensures Executes(s.trace, Answers(env, s.trace)[i].toolName, Answers(env, s.trace)[i].toolArgs)
  {
    hide Turns, RecordsMatch, Answers, Key, Recorded, Opened;
    var answers := Answers(env, s.trace);
    var r := answers[i];
    assert CallKey(r) in Asked(answers);
    hide HeadBooks;
    KeyWasExecuted(s.trace, CallKey(r));
    var name, args :| Executes(s.trace, name, args) && Key(name, args) == CallKey(r);
    ExecutedWasAsked(env, input, s, name, args);
    var e :| 0 <= e < |answers| && answers[e].toolName == name && answers[e].toolArgs == args;
    assert Apart(name, r.toolName) by {
      hide *;
      ApartBoth(answers, e, i);
    }
    KeyFixesCall(name, args, r.toolName, r.toolArgs);
  }

  lemma ApartBoth(answers: seq<LlmResponse>, e: nat, i: nat)
    requires NamesApart(answers) && e < |answers| && i < |answers|
    ensures Apart(answers[e].toolName, answers[i].toolName)
  {
  }

  // ----- The whole sequence of calls -----

  function CallsOf(t: Run<Call>): seq<Call> {
    if t.Start? then [] else CallsOf(t.before) + [t.event]
  }

  /** The calls of one turn that goes on. */
  function TurnCalls(answers: seq<LlmResponse>, i: nat): seq<Call>
    requires i < |answers|
  {
    [Observe, CallLlm] +
    if AsksAnew(answers, i) then [Observe, ExecuteTool(answers[i].toolName, answers[i].toolArgs), Persist, Observe, Sleep]
    else if answers[i].toolName != "" then []
    else [Sleep]
  }

  function AllTurnCalls(answers: seq<LlmResponse>): seq<Call> {
    if answers == [] then [] else AllTurnCalls(answers[..|answers| - 1]) + TurnCalls(answers, |answers| - 1)
  }

  const PREPARATION := [Observe, Observe, Admit, Observe, EvaluatePolicy, Observe, CreateSandbox, Observe]

  lemma AwaitCalls(env: Env, s: State, call: Call)
    ensures CallsOf(Await(env, s, call).trace) == CallsOf(s.trace) + [call]
    ensures Answers(env, Await(env, s, call).trace) ==
      Answers(env, s.trace) + if call.CallLlm? && !Throws(env, s) then [env.llm(Length(s.trace))] else []
  {
  }

  lemma ReportCalls(env: Env, s: State, r: LlmResponse, succeeded: bool)
    ensures var (s', flow) := Report(env, s, r, succeeded);
      flow.Next? ==> CallsOf(s'.trace) == CallsOf(s.trace) + [Persist, Observe, Sleep] && Answers(env, s'.trace) == Answers(env, s.trace)
  {
    hide Answers, CallsOf;
    var s1 := Push(s.(records := s.records + [Record(s.iteration, r.toolName, r.toolArgs, r.toolCallId, succeeded)]), ToolReply(r));
    var s2 := Await(env, s1, Persist);
    var s3 := Await(env, s2, Observe);
    AwaitCalls(env, s1, Persist);
    AwaitCalls(env, s2, Observe);
    AwaitCalls(env, s3, Sleep);
  }

  lemma ToolTurnCalls(env: Env, s: State, r: LlmResponse)
    ensures var (s', flow) := ToolTurn(env, s, r);
      flow.Next? ==>
        && Answers(env, s'.trace) == Answers(env, s.trace)
        && CallsOf(s'.trace) == CallsOf(s.trace) +
             if CallKey(r) in s.seen then [] else [Observe, ExecuteTool(r.toolName, r.toolArgs), Persist, Observe, Sleep]
  {
    hide Report, Fatal, CallKey, Answers, CallsOf;
    var s0 := s.(seen := s.seen + {CallKey(r)});
    var s1 := Await(env, s0, Observe);
    var s2 := Await(env, s1, ExecuteTool(r.toolName, r.toolArgs));
    AwaitCalls(env, s0, Observe);
    AwaitCalls(env, s1, ExecuteTool(r.toolName, r.toolArgs));
    ReportCalls(env, s2, r, !Throws(env, s1) && env.toolSucceeds(Length(s1.trace)));
  }

  lemma IterationCallsAre(env: Env, input: Input, s: State)
    requires Iteration(env, input, s).1.Next?
    ensures var s', r := Iteration(env, input, s).0, env.llm(Length(s.trace) + 1);
      && Answers(env, s'.trace) == Answers(env, s.trace) + [r]
      && CallsOf(s'.trace) == CallsOf(s.trace) + [Observe, CallLlm] +
           if r.toolName == "" then [Sleep]
           else if CallKey(r) in s.seen then []
           else [Observe, ExecuteTool(r.toolName, r.toolArgs), Persist, Observe, Sleep]
  {
    hide ToolTurn, Finish, CallKey, Answers, CallsOf;
    var s0 := s.(iteration := s.iteration + 1);
    var s1 := Await(env, s0, Observe);
    var s2, r := Await(env, s1, CallLlm), env.llm(Length(s.trace) + 1);
    var s3 := Push(s2.(cost := s2.cost + r.cost), AssistantMessage(r));
    AwaitCalls(env, s0, Observe);
    AwaitCalls(env, s1, CallLlm);
    AwaitCalls(env, Push(s3, PROMPT), Sleep);
    FinishEnds(env, s3, r);
    ToolTurnCalls(env, s3, r);
  }

  lemma FinishEnds(env: Env, s: State, r: LlmResponse)
    ensures !Finish(env, s, r).1.Next?
  {
  }

  lemma {:induction false} HeadsKeepCalls(env: Env, input: Input, s: State, n: nat, s': State)
    requires HeadBooks(env, input, s) && HeadAfter(env, input, s, n, s')
    requires CallsOf(s.trace) == PREPARATION + AllTurnCalls(Answers(env, s.trace))
    ensures CallsOf(s'.trace) == PREPARATION + AllTurnCalls(Answers(env, s'.trace))
    decreases n
  {
    hide HeadBooks, Iteration, Answers, CallsOf, AllTurnCalls, PREPARATION;
    if n > 0 {
      var s1 := Iteration(env, input, s).0;
      IterationBooks(env, input, s);
      OneMoreTurn(env, input, s);
      HeadsKeepCalls(env, input, s1, n - 1, s');
    }
  }

  lemma OneMoreTurn(env: Env, input: Input, s: State)
    requires HeadBooks(env, input, s) && Iteration(env, input, s).1.Next?
    requires CallsOf(s.trace) == PREPARATION + AllTurnCalls(Answers(env, s.trace))
    ensures var s' := Iteration(env, input, s).0;
      CallsOf(s'.trace) == PREPARATION + AllTurnCalls(Answers(env, s'.trace))
  {
    hide Iteration, Answers, CallsOf, PREPARATION, Asked, Turns, RecordsMatch, Opened, CallKey;
    IterationCallsAre(env, input, s);
    var answers, r := Answers(env, s.trace), env.llm(Length(s.trace) + 1);
    var more := answers + [r];
    assert more[..|answers|] == answers;
    assert AllTurnCalls(more) == AllTurnCalls(answers) + TurnCalls(more, |answers|);
  }

  /**
   At every loop head the calls made so far are the eight of the preparation and then, answer by answer:
   an announcement and the model call; for a call not asked for before, its announcement, the tool,
   the memory, the result's announcement and a pause; for a repeated one nothing; and otherwise a pause.
   */
  lemma {:induction false} CallsAtEveryHead(env: Env, input: Input, n: nat, s: State)
    requires HeadAfter(env, input, FirstHead(env, input), n, s)
    ensures CallsOf(s.trace) == PREPARATION + AllTurnCalls(Answers(env, s.trace))
  {
    hide HeadAfter, HeadBooks, FirstHead;
    FirstHeadBooks(env, input);
    FirstHeadCalls(env, input);
    HeadsKeepCalls(env, input, FirstHead(env, input), n, s);
  }

  lemma FirstHeadCalls(env: Env, input: Input)
    ensures var t := FirstHead(env, input).trace;
      CallsOf(t) == PREPARATION && Answers(env, t) == [] && CallsOf(t) == PREPARATION + AllTurnCalls(Answers(env, t))
  {
    var s2 := Await(env, Await(env, Initial(env, input), Observe), Observe);
    var s4 := Await(env, Await(env, s2, Admit), Observe);
    var s6 := Await(env, Await(env, s4, EvaluatePolicy), Observe);
    var s8 := Await(env, Await(env, s6, CreateSandbox), Observe);
    AwaitCalls(env, Initial(env, input), Observe);
    AwaitCalls(env, Await(env, Initial(env, input), Observe), Observe);
    AwaitCalls(env, s2, Admit);
    AwaitCalls(env, Await(env, s2, Admit), Observe);
    AwaitCalls(env, s4, EvaluatePolicy);
    AwaitCalls(env, Await(env, s4, EvaluatePolicy), Observe);
    AwaitCalls(env, s6, CreateSandbox);
    AwaitCalls(env, Await(env, s6, CreateSandbox), Observe);
    assert s8 == FirstHead(env, input);
    assert CallsOf(Start) == [] && Answers(env, Start) == [];
    hide CallsOf, Answers, Await, FirstHead;
  }

  // ----- Calls that share a key -----

  function Asking(name: string, args: string): LlmResponse {
    LlmResponse(false, "", name, args, "", [], 0)
  }

  /** The model asks for one call in its first answer, call number 9 of the run, and for another one from then on. */
  function TwoCalls(n: string, a: string, m: string, b: string): Env {
    Env(k => false, k => "", k => false, false, true, true, "sandbox", k => if k == 9 then Asking(n, a) else Asking(m, b), k => true)
  }

  lemma TwoCallsGoOn(n: string, a: string, m: string, b: string, input: Input, s: State)
    requires !s.cancelled && s.cost == 0
    ensures var (s', flow) := Iteration(TwoCalls(n, a, m, b), input, s);
      flow.Next? && !s'.cancelled && s'.cost == 0
  {
    hide Fatal, CallKey, ToolTurn;
    var env := TwoCalls(n, a, m, b);
    var s1 := Await(env, s.(iteration := s.iteration + 1), Observe);
    var s2, r := Await(env, s1, CallLlm), env.llm(Length(s1.trace));
    assert r == Asking(n, a) || r == Asking(m, b);
    TwoCallsToolTurn(n, a, m, b, Push(s2.(cost := 0), AssistantMessage(r)), r);
    assert r.toolName == "" ==> Pause(env, Push(Push(s2.(cost := 0), AssistantMessage(r)), PROMPT)).1.Next?;
  }

  lemma TwoCallsToolTurn(n: string, a: string, m: string, b: string, s: State, r: LlmResponse)
    requires !s.cancelled
    ensures var (s', flow) := ToolTurn(TwoCalls(n, a, m, b), s, r);
      flow.Next? && !s'.cancelled && s'.cost == s.cost
  {
    hide Fatal, CallKey;
  }

  /** The state at the second head after the first. */
  function ThirdHead(env: Env, input: Input): State {
    Iteration(env, input, Iteration(env, input, FirstHead(env, input)).0).0
  }

  lemma {:induction false} TwoCallsMade(n: string, a: string, m: string, b: string, input: Input)
    requires n != "" && m != "" && Key(n, a) == Key(m, b) && IterationLimit(input) >= 2
    ensures var env := TwoCalls(n, a, m, b);
      var s := ThirdHead(env, input);
      && HeadAfter(env, input, FirstHead(env, input), 2, s)
      && Answers(env, s.trace) == [Asking(n, a), Asking(m, b)]
      && CallsOf(s.trace) ==
           PREPARATION + [Observe, CallLlm] + [Observe, ExecuteTool(n, a), Persist, Observe, Sleep] + [Observe, CallLlm]
  {
    hide Iteration, IterationLimit, TwoCalls, Answers, CallsOf, Key, FirstHead, HeadBooks;
    var env := TwoCalls(n, a, m, b);
    var s0 := FirstHead(env, input);
    var s1 := Iteration(env, input, s0).0;
    TwoCallsStart(n, a, m, b, input);
    TwoCallsGoOn(n, a, m, b, input, s0);
    TwoCallsGoOn(n, a, m, b, input, s1);
    TwoCallsAnswer(n, a, m, b);
    assert HeadAfter(env, input, s1, 1, Iteration(env, input, s1).0);
    FirstHeadCalls(env, input);
    FirstHeadBooks(env, input);
    IterationBooks(env, input, s0);
    IterationCallsAre(env, input, s0);
    CallsLength(s0.trace);
    SeenAfterFirst(env, input, s0, s1, Asking(n, a));
    CallsLength(s1.trace);
    IterationCallsAre(env, input, s1);
  }

  /**
   The failing run: two tools whose names are not apart, called with arguments that give them one key.
   The second call is taken for a repetition of the first and never executed.
   */
  lemma {:induction false} CollidingCallSkipped(n: string, a: string, m: string, b: string, input: Input)
    requires n != m && n != "" && m != "" && Key(n, a) == Key(m, b) && IterationLimit(input) >= 2
    ensures var env := TwoCalls(n, a, m, b);
      var s := ThirdHead(env, input);
      && HeadAfter(env, input, FirstHead(env, input), 2, s)
      && Answers(env, s.trace) == [Asking(n, a), Asking(m, b)]
      && Executes(s.trace, n, a) && !Executes(s.trace, m, b)
  {
    hide ThirdHead, IterationLimit, TwoCalls, Answers, CallsOf, Key, FirstHead, HeadAfter;
    var calls := CallsOf(ThirdHead(TwoCalls(n, a, m, b), input).trace);
    TwoCallsMade(n, a, m, b, input);
    ExecutesIff(ThirdHead(TwoCalls(n, a, m, b), input).trace, n, a);
    ExecutesIff(ThirdHead(TwoCalls(n, a, m, b), input).trace, m, b);
    assert calls[11] == ExecuteTool(n, a);
  }

  lemma TwoCallsAnswer(n: string, a: string, m: string, b: string)
    ensures forall k: nat :: TwoCalls(n, a, m, b).llm(k) == if k == 9 then Asking(n, a) else Asking(m, b)
  {
  }

  lemma TwoCallsStart(n: string, a: string, m: string, b: string, input: Input)
    ensures var s := FirstHead(TwoCalls(n, a, m, b), input); !s.cancelled && s.cost == 0 && s.iteration == 0 && s.seen == {}
  {
  }

  lemma {:induction false} CallsLength(t: Run<Call>)
    ensures |CallsOf(t)| == Length(t)
  {
    if t.Then? {
      CallsLength(t.before);
    }
  }

  lemma {:induction false} ExecutesIff(t: Run<Call>, name: string, args: string)
    ensures Executes(t, name, args) <==> ExecuteTool(name, args) in CallsOf(t)
  {
    if t.Then? {
      ExecutesIff(t.before, name, args);
    }
  }

  /** What the first turn has put into the set of seen keys. */
  lemma SeenAfterFirst(env: Env, input: Input, s0: State, s1: State, r: LlmResponse)
    requires HeadBooks(env, input, s1) && Answers(env, s1.trace) == [r] && r.toolName != ""
    ensures CallKey(r) in s1.seen
  {
    assert Answers(env, s1.trace)[0] == r;
    assert CallKey(r) in Asked(Answers(env, s1.trace));
  }

  // ----- The limit -----

  /** Default 20, at most 100, and no iterations for a negative number. */
  function Iterations(maxIterations: Option<int>): nat {
    if maxIterations.None? then 20
    else if maxIterations.value > 100 then 100
    else if maxIterations.value < 0 then 0
    else maxIterations.value
  }

  lemma {:induction false} InsistentLoop(input: Input, s: State)
    requires !s.cancelled && s.cost == 0 && s.iteration >= 0
    ensures var (s', flow) := Loop(Insistent(), input, s);
      && LlmCalls(s'.trace) == LlmCalls(s.trace) + Max(0, IterationLimit(input) - s.iteration)
      && flow.Break? && flow.result.status == MaxIterationsReached
    decreases IterationLimit(input) - s.iteration
  {
    hide Iteration, IterationLimit;
    if s.iteration < IterationLimit(input) {
      IterationCalls(Insistent(), input, s);
      InsistentGoesOn(input, s);
      InsistentLoop(input, Iteration(Insistent(), input, s).0);
    }
  }

  /** Nothing but the limit stops a model that never ends: it is called exactly as often as the limit says. */
  lemma {:induction false} InsistentUsesLimit(input: Input)
    ensures var (s, outcome) := Workflow(Insistent(), input);
      && LlmCalls(s.trace) == Iterations(input.maxIterations)
      && outcome.Returned? && outcome.result.status == MaxIterationsReached
  {
    hide Workflow, Loop, Attempt, FirstHead, BeforeSandbox;
    var env := Insistent();
    LoopStartsAtFirstHead(env, input);
    FirstHeadFacts(env, input);
    InsistentStarts(input);
    InsistentLoop(input, FirstHead(env, input));
    EndCalls(env, input, BeforeSandbox(env, input));
  }

  // ----- The report -----

  function Reports(t: Run<Call>): nat {
    match t
    case Start => 0
    case Then(before, e) => Reports(before) + if e.ReportOutcome? then 1 else 0
  }

  predicate TriedSandbox(t: Run<Call>) {
    t.Then? && (t.event.CreateSandbox? || TriedSandbox(t.before))
  }

  /** Nothing is reported inside the loop, and trying the sandbox is not undone. */
  predicate Quiet(s: State, s': State) {
    Reports(s'.trace) == Reports(s.trace) && (TriedSandbox(s.trace) ==> TriedSandbox(s'.trace))
  }

  lemma ReportQuiet(env: Env, s: State, r: LlmResponse, succeeded: bool)
    ensures Quiet(s, Report(env, s, r, succeeded).0)
  {
    var s1 := Push(s.(records := s.records + [Record(s.iteration, r.toolName, r.toolArgs, r.toolCallId, succeeded)]), ToolReply(r));
    var s2 := Await(env, s1, Persist);
    var s3 := Await(env, s2, Observe);
    assert Quiet(s, s2) && Quiet(s2, s3) && Quiet(s3, Await(env, s3, Sleep));
  }

  lemma FinishQuiet(env: Env, s: State, r: LlmResponse)
    ensures Quiet(s, Finish(env, s, r).0)
  {
    var s1 := Await(env, s.(output := r.content), Persist);
    assert Quiet(s, s1) && Quiet(s1, Await(env, s1, Observe));
  }

  lemma ToolTurnQuiet(env: Env, s: State, r: LlmResponse)
    ensures Quiet(s, ToolTurn(env, s, r).0)
  {
    hide Report, Fatal, CallKey;
    var s1 := Await(env, s.(seen := s.seen + {CallKey(r)}), Observe);
    var s2 := Await(env, s1, ExecuteTool(r.toolName, r.toolArgs));
    ReportQuiet(env, s2, r, !Throws(env, s1) && env.toolSucceeds(Length(s1.trace)));
    assert Quiet(s, s1) && Quiet(s1, s2) && Quiet(s2, Await(env, s2, Observe));
  }

  lemma IterationQuiet(env: Env, input: Input, s: State)
    ensures Quiet(s, Iteration(env, input, s).0)
  {
    hide ToolTurn, Finish, CallKey;
    var s1 := Await(env, s.(iteration := s.iteration + 1), Observe);
    var s2, r := Await(env, s1, CallLlm), env.llm(Length(s.trace) + 1);
    var s3 := Push(s2.(cost := s2.cost + r.cost), AssistantMessage(r));
    ToolTurnQuiet(env, s3, r);
    FinishQuiet(env, s3, r);
    assert Quiet(s, s1) && Quiet(s1, s2) && Quiet(s2, s3);
    assert Quiet(s2, Await(env, s2, Observe)) && Quiet(s3, Await(env, Push(s3, PROMPT), Sleep));
  }

  lemma {:induction false} LoopQuiet(env: Env, input: Input, s: State)
    ensures Quiet(s, Loop(env, input, s).0)
    decreases IterationLimit(input) - s.iteration
  {
    hide Iteration;
    if s.iteration < IterationLimit(input) && !s.cancelled {
      IterationQuiet(env, input, s);
      if Iteration(env, input, s).1.Next? {
        LoopQuiet(env, input, Iteration(env, input, s).0);
      }
    }
  }

  /** The outcome is reported, once and last, exactly when the run got as far as asking for a sandbox and returns. */
  predicate ReportedIff(s: State, outcome: Outcome) {
    && Reports(s.trace) == (if outcome.Returned? && TriedSandbox(s.trace) then 1 else 0)
    && (outcome.Returned? && TriedSandbox(s.trace) ==> s.trace.event.ReportOutcome?)
  }

  lemma SandboxedReports(env: Env, input: Input, s: State)
    requires Reports(s.trace) == 0
    ensures var (s', outcome) := Sandboxed(env, input, s); ReportedIff(s', outcome)
  {
    hide Loop;
    var s1 := Await(env, s, CreateSandbox);
    var s2 := Await(env, s1, Observe);
    LoopQuiet(env, input, s2);
    var (s3, id, end) := Attempt(env, input, s);
    assert Quiet(s1, s2);
    assert Reports(s3.trace) == 0 && TriedSandbox(s3.trace);
    hide Attempt;
    var s4 := Caught(env, s3, end).0;
    assert Quiet(s3, s4);
    var s5 := Finally(env, s4, id);
    assert Quiet(s4, s5);
  }

  lemma {:induction false} OutcomeReportedIff(env: Env, input: Input)
    ensures var (s, outcome) := Workflow(env, input); ReportedIff(s, outcome)
  {
    hide Sandboxed, BeforeSandbox;
    if Undisturbed(env, 6) {
      ReachesSandbox(env, input);
      BeforeSandboxQuiet(env, input);
      SandboxedReports(env, input, BeforeSandbox(env, input));
    } else {
      EarlyEndUnreported(env, input);
    }
  }

  lemma BeforeSandboxQuiet(env: Env, input: Input)
    ensures Reports(BeforeSandbox(env, input).trace) == 0
  {
    var s2 := Await(env, Await(env, Initial(env, input), Observe), Observe);
    assert Reports(s2.trace) == 0;
    var s4 := Await(env, Await(env, s2, Admit), Observe);
    assert Reports(s4.trace) == 0;
  }

  lemma EarlyEndUnreported(env: Env, input: Input)
    requires !Undisturbed(env, 6)
    ensures var (s, outcome) := Workflow(env, input); ReportedIff(s, outcome)
  {
    hide Sandboxed;
    var s2 := Await(env, Await(env, Initial(env, input), Observe), Observe);
    var s4 := Await(env, Await(env, s2, Admit), Observe);
    assert Length(s2.trace) == 2 && Length(s4.trace) == 4;
    assert Reports(s2.trace) == 0 && !TriedSandbox(s2.trace);
    assert Reports(s4.trace) == 0 && !TriedSandbox(s4.trace);
  }
}
