/** The conversation and the tool records that the ReAct loop builds. */
module ReactTranscript {
  import opened Options
  import opened Runs
  import opened ReactWorkflow

  /** The model's answers, in order. */
  function Answers(env: Env, t: Run<Call>): seq<LlmResponse> {
    match t
    case Start => []
    case Then(before, e) =>
      if e.CallLlm? && !env.throws(Length(before)) then Answers(env, before) + [env.llm(Length(before))]
      else Answers(env, before)
  }

  function ExecutedKeys(t: Run<Call>): set<string> {
    match t
    case Start => {}
    case Then(before, e) => if e.ExecuteTool? then ExecutedKeys(before) + {Key(e.name, e.args)} else ExecutedKeys(before)
  }

  datatype Execution = Execution(name: string, args: string, succeeded: bool)

  /** The tool calls made, in order, and whether each of them answered with success. */
  function Executions(env: Env, t: Run<Call>): seq<Execution> {
    match t
    case Start => []
    case Then(before, e) =>
      if e.ExecuteTool? then
        Executions(env, before) +
          [Execution(e.name, e.args, !env.throws(Length(before)) && env.toolSucceeds(Length(before)))]
      else Executions(env, before)
  }

  /** What the records say was executed. */
  function Recorded(records: seq<Record>): seq<Execution> {
    seq(|records|, i requires 0 <= i < |records| => Execution(records[i].toolName, records[i].toolArgs, records[i].succeeded))
  }

  /** No call key is executed twice. */
  predicate NoKeyTwice(t: Run<Call>) {
    t.Then? ==> NoKeyTwice(t.before) && (t.event.ExecuteTool? ==> Key(t.event.name, t.event.args) !in ExecutedKeys(t.before))
  }

  function InitialCount(input: Input): nat {
    1 + |input.initialMessages|
  }

  /** The conversation begins with the system prompt and the messages of the input. */
  predicate Opened(input: Input, messages: seq<Message>) {
    && |messages| >= InitialCount(input)
    && messages[0] == Message(System, "", [])
    && messages[1..InitialCount(input)] == input.initialMessages
  }

  /** The call keys that the answers have asked for. */
  function Asked(answers: seq<LlmResponse>): set<string> {
    set i | 0 <= i < |answers| && answers[i].toolName != "" :: CallKey(answers[i])
  }

  /** Answer `i` names a tool, and no earlier one has asked for the same call. */
  predicate AsksAnew(answers: seq<LlmResponse>, i: nat)
    requires i < |answers|
  {
    answers[i].toolName != "" && CallKey(answers[i]) !in Asked(answers[..i])
  }

  /** Turn `i` of the conversation: the assistant's message for that answer, then the reply to a new call or a prompt. */
  predicate TurnAt(messages: seq<Message>, first: nat, i: nat, answers: seq<LlmResponse>) {
    && i < |answers|
    && first + 2 * i + 1 < |messages|
    && messages[first + 2 * i] == AssistantMessage(answers[i])
    && messages[first + 2 * i + 1] == if AsksAnew(answers, i) then ToolReply(answers[i]) else PROMPT
  }

  predicate Turns(messages: seq<Message>, first: nat, answers: seq<LlmResponse>) {
    forall i :: 0 <= i < |answers| ==> TurnAt(messages, first, i, answers)
  }

  lemma AskedPush(answers: seq<LlmResponse>, r: LlmResponse)
    ensures Asked(answers + [r]) == Asked(answers) + if r.toolName != "" then {CallKey(r)} else {}
  {
    var more := answers + [r];
    forall key | key in Asked(answers) ensures key in Asked(more) {
      var i :| 0 <= i < |answers| && answers[i].toolName != "" && CallKey(answers[i]) == key;
      assert more[i] == answers[i];
    }
    if r.toolName != "" {
      assert more[|answers|] == r;
    }
  }

  /** A turn depends on no later message and no later answer. */
  lemma TurnStays(messages: seq<Message>, first: nat, i: nat, answers: seq<LlmResponse>, m: Message, r: LlmResponse)
    requires TurnAt(messages, first, i, answers)
    ensures TurnAt(messages + [m], first, i, answers) && TurnAt(messages, first, i, answers + [r])
  {
    assert (answers + [r])[..i] == answers[..i];
  }

  predicate RecordsIncrease(records: seq<Record>, last: int) {
    && (forall i, j :: 0 <= i < j < |records| ==> records[i].iteration < records[j].iteration)
    && (forall i :: 0 <= i < |records| ==> records[i].iteration <= last)
  }

  /** The record names the answer that asked for the tool, and the reply to that answer is the tool's. */
  predicate RecordAt(record: Record, messages: seq<Message>, first: nat, answers: seq<LlmResponse>) {
    1 <= record.iteration <= |answers| &&
    var r := answers[record.iteration - 1];
    && record.toolName == r.toolName && record.toolArgs == r.toolArgs && record.toolCallId == r.toolCallId
    && first + 2 * record.iteration <= |messages|
    && messages[first + 2 * record.iteration - 1] == ToolReply(r)
  }

  predicate RecordsMatch(records: seq<Record>, messages: seq<Message>, first: nat, answers: seq<LlmResponse>) {
    forall j :: 0 <= j < |records| ==> RecordAt(records[j], messages, first, answers)
  }

  lemma RecordsStillMatch(records: seq<Record>, messages: seq<Message>, first: nat, answers: seq<LlmResponse>, m: Message, r: LlmResponse)
    requires RecordsMatch(records, messages, first, answers)
    ensures RecordsMatch(records, messages + [m], first, answers)
    ensures RecordsMatch(records, messages, first, answers + [r])
  {
    forall j | 0 <= j < |records|
      ensures RecordAt(records[j], messages + [m], first, answers) && RecordAt(records[j], messages, first, answers + [r])
    {
      assert RecordAt(records[j], messages, first, answers);
    }
  }

  /** The books at the loop head. */
  predicate HeadBooks(env: Env, input: Input, s: State) {
    && s.iteration >= 0
    && |Answers(env, s.trace)| == s.iteration
    && |s.messages| == InitialCount(input) + 2 * s.iteration
    && Turns(s.messages, InitialCount(input), Answers(env, s.trace))
    && |s.records| == |s.seen| && s.seen == Asked(Answers(env, s.trace))
    && RecordsIncrease(s.records, s.iteration)
    && RecordsMatch(s.records, s.messages, InitialCount(input), Answers(env, s.trace))
    && Recorded(s.records) == Executions(env, s.trace) && Opened(input, s.messages)
    && ExecutedKeys(s.trace) == s.seen
    && NoKeyTwice(s.trace)
  }

  /** The books after an answer, before the reply that completes the turn. */
  predicate TurnBooks(env: Env, input: Input, s: State, r: LlmResponse) {
    var answers := Answers(env, s.trace);
    && s.iteration >= 1
    && |answers| == s.iteration && answers[s.iteration - 1] == r
    && |s.messages| == InitialCount(input) + 2 * s.iteration - 1
    && s.messages[|s.messages| - 1] == AssistantMessage(r)
    && Turns(s.messages, InitialCount(input), answers[..s.iteration - 1])
    && RecordsIncrease(s.records, s.iteration - 1)
    && RecordsMatch(s.records, s.messages, InitialCount(input), answers)
    && Recorded(s.records) == Executions(env, s.trace) && Opened(input, s.messages)
  }

  /** Nothing but observations, pauses and the like happened. */
  predicate SameBooks(env: Env, s: State, s': State) {
    && s'.messages == s.messages && s'.records == s.records && s'.seen == s.seen && s'.iteration == s.iteration
    && Answers(env, s'.trace) == Answers(env, s.trace)
    && ExecutedKeys(s'.trace) == ExecutedKeys(s.trace) && Executions(env, s'.trace) == Executions(env, s.trace)
    && (NoKeyTwice(s'.trace) <==> NoKeyTwice(s.trace))
  }

  lemma QuietAwait(env: Env, s: State, call: Call)
    requires !call.CallLlm? && !call.ExecuteTool?
    ensures SameBooks(env, s, Await(env, s, call))
  {
  }

  lemma ReportBooks(env: Env, s: State, r: LlmResponse, succeeded: bool)
    ensures var s1 := s.(records := s.records + [Record(s.iteration, r.toolName, r.toolArgs, r.toolCallId, succeeded)],
                         messages := s.messages + [ToolReply(r)]);
      SameBooks(env, s1, Report(env, s, r, succeeded).0)
  {
    hide SameBooks;
    var s1 := Push(s.(records := s.records + [Record(s.iteration, r.toolName, r.toolArgs, r.toolCallId, succeeded)]), ToolReply(r));
    var s2 := Await(env, s1, Persist);
    var s3 := Await(env, s2, Observe);
    QuietAwait(env, s1, Persist);
    QuietAwait(env, s2, Observe);
    QuietAwait(env, s3, Sleep);
    SameBooksChain(env, s1, s2, s3);
    SameBooksChain(env, s1, s3, Await(env, s3, Sleep));
  }

  lemma SameBooksChain(env: Env, s: State, s': State, s'': State)
    requires SameBooks(env, s, s') && SameBooks(env, s', s'')
    ensures SameBooks(env, s, s'')
  {
  }

  lemma OpenedPush(input: Input, messages: seq<Message>, m: Message)
    requires Opened(input, messages)
    ensures Opened(input, messages + [m])
  {
    assert (messages + [m])[1..InitialCount(input)] == messages[1..InitialCount(input)];
  }

  lemma RecordedPush(records: seq<Record>, record: Record)
    ensures Recorded(records + [record]) == Recorded(records) + [Execution(record.toolName, record.toolArgs, record.succeeded)]
  {
  }

  /** Completing a turn with the reply to a new call, or with a prompt otherwise. */
  lemma TurnCompletes(env: Env, input: Input, s: State, r: LlmResponse, m: Message)
    requires TurnBooks(env, input, s, r)
    requires m == if AsksAnew(Answers(env, s.trace), s.iteration - 1) then ToolReply(r) else PROMPT
    ensures var messages := s.messages + [m];
      && |messages| == InitialCount(input) + 2 * s.iteration
      && Turns(messages, InitialCount(input), Answers(env, s.trace))
      && RecordsMatch(s.records, messages, InitialCount(input), Answers(env, s.trace))
      && Opened(input, messages)
  {
    hide AsksAnew, RecordsMatch;
    OpenedPush(input, s.messages, m);
    hide Opened;
    var messages, answers, first := s.messages + [m], Answers(env, s.trace), InitialCount(input);
    var earlier := answers[..s.iteration - 1];
    assert answers == earlier + [r];
    RecordsStillMatch(s.records, s.messages, first, answers, m, r);
    forall i | 0 <= i < |answers| ensures TurnAt(messages, first, i, answers) {
      if i < s.iteration - 1 {
        hide TurnAt;
        TurnStays(s.messages, first, i, earlier, m, r);
        TurnStays(messages, first, i, earlier, m, r);
      }
    }
  }

  lemma RecordPush(records: seq<Record>, record: Record, messages: seq<Message>, first: nat, answers: seq<LlmResponse>)
    requires RecordsIncrease(records, record.iteration - 1)
    requires RecordsMatch(records, messages, first, answers) && RecordAt(record, messages, first, answers)
    ensures RecordsIncrease(records + [record], record.iteration)
    ensures RecordsMatch(records + [record], messages, first, answers)
  {
  }

  lemma ExecuteBooks(env: Env, input: Input, s: State, r: LlmResponse)
    requires TurnBooks(env, input, s, r) && NoKeyTwice(s.trace)
    requires CallKey(r) !in ExecutedKeys(s.trace)
    requires |s.records| + 1 == |s.seen| && ExecutedKeys(s.trace) + {CallKey(r)} == s.seen
    requires s.seen == Asked(Answers(env, s.trace)) && AsksAnew(Answers(env, s.trace), s.iteration - 1)
    ensures var (s', flow) := Execute(env, s, r);
      NoKeyTwice(s'.trace) && (flow.Next? ==> HeadBooks(env, input, s'))
  {
    hide Report, Fatal, Turns, RecordsMatch, Asked, AsksAnew, Opened, Recorded;
    var s1 := Await(env, s, ExecuteTool(r.toolName, r.toolArgs));
    var succeeded := !Throws(env, s) && env.toolSucceeds(Length(s.trace));
    RecordedPush(s.records, Record(s.iteration, r.toolName, r.toolArgs, r.toolCallId, succeeded));
    assert Executions(env, s1.trace) == Executions(env, s.trace) + [Execution(r.toolName, r.toolArgs, succeeded)];
    assert Answers(env, s1.trace) == Answers(env, s.trace) && ExecutedKeys(s1.trace) == s.seen && NoKeyTwice(s1.trace);
    QuietAwait(env, s1, Observe);
    ReportBooks(env, s1, r, succeeded);
    TurnCompletes(env, input, s, r, ToolReply(r));
    RecordPush(s.records, Record(s.iteration, r.toolName, r.toolArgs, r.toolCallId, succeeded),
               s.messages + [ToolReply(r)], InitialCount(input), Answers(env, s.trace));
  }

  /** What the latest answer adds to the keys asked for. */
  lemma AskedNow(env: Env, s: State, r: LlmResponse)
    requires var answers := Answers(env, s.trace);
      |answers| == s.iteration >= 1 && answers[s.iteration - 1] == r
    ensures var answers := Answers(env, s.trace);
      Asked(answers) == Asked(answers[..s.iteration - 1]) + if r.toolName != "" then {CallKey(r)} else {}
  {
    var answers := Answers(env, s.trace);
    assert answers == answers[..s.iteration - 1] + [r];
    AskedPush(answers[..s.iteration - 1], r);
  }

  lemma ToolTurnBooks(env: Env, input: Input, s: State, r: LlmResponse)
    requires TurnBooks(env, input, s, r) && NoKeyTwice(s.trace)
    requires |s.records| == |s.seen| && ExecutedKeys(s.trace) == s.seen
    requires r.toolName != "" && s.seen == Asked(Answers(env, s.trace)[..s.iteration - 1])
    ensures var (s', flow) := ToolTurn(env, s, r);
      NoKeyTwice(s'.trace) && (flow.Next? ==> HeadBooks(env, input, s'))
  {
    hide Execute, Turns, RecordsMatch, Asked, Opened, Recorded;
    AskedNow(env, s, r);
    if CallKey(r) in s.seen {
      TurnCompletes(env, input, s, r, PROMPT);
    } else {
      var s0 := s.(seen := s.seen + {CallKey(r)});
      var s1 := Await(env, s0, Observe);
      QuietAwait(env, s0, Observe);
      if !Throws(env, s0) {
        ExecuteBooks(env, input, s1, r);
      }
    }
  }

  /** The books just after the model has answered. */
  predicate AnsweredBooks(env: Env, input: Input, s: State, r: LlmResponse) {
    var answers := Answers(env, s.trace);
    && s.iteration >= 1
    && |answers| == s.iteration && answers[s.iteration - 1] == r
    && |s.messages| == InitialCount(input) + 2 * (s.iteration - 1)
    && Turns(s.messages, InitialCount(input), answers[..s.iteration - 1])
    && |s.records| == |s.seen| && s.seen == Asked(answers[..s.iteration - 1])
    && RecordsIncrease(s.records, s.iteration - 1)
    && RecordsMatch(s.records, s.messages, InitialCount(input), answers)
    && Recorded(s.records) == Executions(env, s.trace) && Opened(input, s.messages)
    && ExecutedKeys(s.trace) == s.seen && NoKeyTwice(s.trace)
  }

  lemma AssistantPushed(env: Env, input: Input, s: State, r: LlmResponse)
    requires AnsweredBooks(env, input, s, r)
    ensures TurnBooks(env, input, Push(s, AssistantMessage(r)), r)
  {
    var first, answers := InitialCount(input), Answers(env, s.trace)[..s.iteration - 1];
    RecordsStillMatch(s.records, s.messages, first, Answers(env, s.trace), AssistantMessage(r), r);
    OpenedPush(input, s.messages, AssistantMessage(r));
    hide Opened, Recorded;
    var messages := s.messages + [AssistantMessage(r)];
    forall i | 0 <= i < |answers| ensures TurnAt(messages, first, i, answers) {
      TurnStays(s.messages, first, i, answers, AssistantMessage(r), r);
    }
  }

  lemma RespondBooks(env: Env, input: Input, s: State, r: LlmResponse)
    requires AnsweredBooks(env, input, s, r)
    ensures var (s', flow) := Respond(env, input, s, r);
      NoKeyTwice(s'.trace) && (flow.Next? ==> HeadBooks(env, input, s'))
  {
    hide ToolTurn, TurnBooks, Turns, RecordsMatch, Asked, Opened, Recorded;
    var s1 := Push(s, AssistantMessage(r));
    AssistantPushed(env, input, s, r);
    AskedNow(env, s, r);
    if (input.costBudget > 0 && s.cost > input.costBudget) || r.isFinal {
    } else if r.toolName != "" {
      ToolTurnBooks(env, input, s1, r);
    } else {
      TurnCompletes(env, input, s1, r, PROMPT);
      QuietAwait(env, Push(s1, PROMPT), Sleep);
    }
  }

  lemma {:induction false} LlmTurnBooks(env: Env, input: Input, s: State)
    requires HeadBooks(env, input, s.(iteration := s.iteration - 1))
    ensures var (s', flow) := LlmTurn(env, input, s);
      NoKeyTwice(s'.trace) && (flow.Next? ==> HeadBooks(env, input, s'))
  {
    hide Respond, Turns, RecordsMatch, Opened, Recorded;
    var s1, r := Await(env, s, CallLlm), env.llm(Length(s.trace));
    if !Throws(env, s) {
      var s2 := s1.(cost := s1.cost + r.cost);
      var answers := Answers(env, s.trace);
      assert Answers(env, s2.trace) == answers + [r];
      assert (answers + [r])[..s.iteration - 1] == answers;
      RecordsStillMatch(s.records, s.messages, InitialCount(input), answers, PROMPT, r);
      RespondBooks(env, input, s2, r);
    }
  }

  /** Every iteration keeps the books, and executes no call key a second time however it ends. */
  lemma IterationBooks(env: Env, input: Input, s: State)
    requires HeadBooks(env, input, s)
    ensures var (s', flow) := Iteration(env, input, s);
      NoKeyTwice(s'.trace) && (flow.Next? ==> HeadBooks(env, input, s'))
  {
    hide LlmTurn, Turns, RecordsMatch, Opened, Recorded;
    var s0 := s.(iteration := s.iteration + 1);
    var s1 := Await(env, s0, Observe);
    QuietAwait(env, s0, Observe);
    if !Throws(env, s0) {
      LlmTurnBooks(env, input, s1);
    }
  }

  // ----- Every loop head of every run -----

  /** The state in which the loop begins: all the calls before it have been awaited. */
  function FirstHead(env: Env, input: Input): State {
    var announced := Await(env, Await(env, Initial(env, input), Observe), Observe);
    var admitted := Await(env, Await(env, announced, Admit), Observe);
    var allowed := Await(env, Await(env, admitted, EvaluatePolicy), Observe);
    Await(env, Await(env, allowed, CreateSandbox), Observe)
  }

  /** `s'` is the loop head `n` iterations after the loop head `s`. */
  predicate HeadAfter(env: Env, input: Input, s: State, n: nat, s': State)
    decreases n
  {
    if n == 0 then s' == s
    else
      !s.cancelled && s.iteration < IterationLimit(input) &&
      Iteration(env, input, s).1.Next? && HeadAfter(env, input, Iteration(env, input, s).0, n - 1, s')
  }

  lemma {:induction false} HeadsKeepBooks(env: Env, input: Input, s: State, n: nat, s': State)
    requires HeadBooks(env, input, s) && HeadAfter(env, input, s, n, s')
    ensures HeadBooks(env, input, s') && s'.iteration == s.iteration + n
    ensures n > 0 ==> s'.iteration <= IterationLimit(input)
    decreases n
  {
    hide HeadBooks, Iteration, IterationLimit;
    if n > 0 {
      IterationBooks(env, input, s);
      HeadsKeepBooks(env, input, Iteration(env, input, s).0, n - 1, s');
    }
  }

  lemma FirstHeadBooks(env: Env, input: Input)
    ensures HeadBooks(env, input, FirstHead(env, input)) && FirstHead(env, input).iteration == 0
  {
    hide SameBooks;
    var s0 := Initial(env, input);
    var s2 := Await(env, Await(env, s0, Observe), Observe);
    var s4 := Await(env, Await(env, s2, Admit), Observe);
    var s6 := Await(env, Await(env, s4, EvaluatePolicy), Observe);
    TwoQuiet(env, s0, Observe);
    TwoQuiet(env, s2, Admit);
    TwoQuiet(env, s4, EvaluatePolicy);
    TwoQuiet(env, s6, CreateSandbox);
    SameBooksChain(env, s0, s2, s4);
    SameBooksChain(env, s0, s4, s6);
    SameBooksChain(env, s0, s6, FirstHead(env, input));
    BooksFromInitial(env, input, FirstHead(env, input));
  }

  lemma TwoQuiet(env: Env, s: State, call: Call)
    requires !call.CallLlm? && !call.ExecuteTool?
    ensures SameBooks(env, s, Await(env, Await(env, s, call), Observe))
  {
    QuietAwait(env, s, call);
    QuietAwait(env, Await(env, s, call), Observe);
  }

  lemma BooksFromInitial(env: Env, input: Input, s: State)
    requires SameBooks(env, Initial(env, input), s)
    ensures HeadBooks(env, input, s)
  {
  }

  /**
   At the n-th loop head of any run the message count is the initial count plus 2n, turn by turn
   an assistant message and its tool reply or a prompt; there are as many records as distinct
   call keys, in strictly increasing iterations; and no call key has been executed twice.
   */
  lemma {:induction false} BooksAtEveryHead(env: Env, input: Input, n: nat, s: State)
    requires HeadAfter(env, input, FirstHead(env, input), n, s)
    ensures HeadBooks(env, input, s) && s.iteration == n && n <= (if n == 0 then 0 else IterationLimit(input)) <= 100
  {
    FirstHeadBooks(env, input);
    HeadsKeepBooks(env, input, FirstHead(env, input), n, s);
  }

  /** The loop heads so named are those of the run: going on from any of them ends the loop as it ends from the first. */
  lemma {:induction false} HeadsAreOnTheRun(env: Env, input: Input, s: State, n: nat, s': State)
    requires HeadAfter(env, input, s, n, s')
    ensures Loop(env, input, s) == Loop(env, input, s')
    decreases n
  {
    if n > 0 {
      hide Iteration;
      HeadsAreOnTheRun(env, input, Iteration(env, input, s).0, n - 1, s');
    }
  }

  // ----- Tool messages -----

  predicate CarriesId(calls: seq<ToolRef>, id: string) {
    exists i :: 0 <= i < |calls| && calls[i].id == id
  }

  lemma {:induction false} WithIdKeeps(calls: seq<ToolRef>, id: string)
    ensures CarriesId(WithId(calls, id), id) <==> CarriesId(calls, id)
    ensures forall i :: 0 <= i < |WithId(calls, id)| ==> WithId(calls, id)[i].id == id
  {
    if calls != [] {
      WithIdKeeps(calls[1..], id);
      if calls[0].id == id {
        assert WithId(calls, id)[0].id == id;
      } else if CarriesId(calls, id) {
        var i :| 0 <= i < |calls| && calls[i].id == id;
        assert calls[1..][i - 1].id == id;
      }
    }
  }

  /** Of the calls that the answer lists, only those with its id are kept, each as often as listed; without an id, all of them. */
  ghost predicate KeepsOnlyItsCall(kept: seq<ToolRef>, r: LlmResponse) {
    if r.toolCallId == "" then kept == r.toolCalls
    else forall x :: multiset(kept)[x] == if x.id == r.toolCallId then multiset(r.toolCalls)[x] else 0
  }

  lemma {:induction false} WithIdCounts(calls: seq<ToolRef>, id: string, x: ToolRef)
    ensures multiset(WithId(calls, id))[x] == if x.id == id then multiset(calls)[x] else 0
  {
    if calls != [] {
      WithIdCounts(calls[1..], id, x);
      assert calls == [calls[0]] + calls[1..];
    }
  }

  lemma AssistantKeepsOnlyItsCall(r: LlmResponse)
    ensures KeepsOnlyItsCall(AssistantMessage(r).toolCalls, r)
  {
    forall x ensures multiset(WithId(r.toolCalls, r.toolCallId))[x] == if x.id == r.toolCallId then multiset(r.toolCalls)[x] else 0 {
      WithIdCounts(r.toolCalls, r.toolCallId, x);
    }
  }

  /**
   Every tool message directly follows the assistant message it answers.  That message carries
   its id, and no other call, exactly when the model's answer listed a tool call with that id.
   */
  lemma ToolMessagesFollow(env: Env, input: Input, s: State, j: nat)
    requires HeadBooks(env, input, s)
    requires InitialCount(input) <= j < |s.messages| && s.messages[j].role == Tool
    ensures j > InitialCount(input) && s.messages[j - 1].role == Assistant
    ensures exists i :: 0 <= i < s.iteration && j == InitialCount(input) + 2 * i + 1
    ensures forall i :: 0 <= i < s.iteration && j == InitialCount(input) + 2 * i + 1 ==>
      var r := Answers(env, s.trace)[i];
      && s.messages[j].toolCallId == r.toolCallId
      && (CarriesId(s.messages[j - 1].toolCalls, r.toolCallId) <==> CarriesId(r.toolCalls, r.toolCallId))
  {
    var first, answers := InitialCount(input), Answers(env, s.trace);
    var i := (j - first) / 2;
    assert TurnAt(s.messages, first, i, answers);
    WithIdKeeps(answers[i].toolCalls, answers[i].toolCallId);
  }

  /** The answer lists the call it is to execute. */
  predicate ListsItsCall(r: LlmResponse) {
    r.toolCallId != "" ==> CarriesId(r.toolCalls, r.toolCallId)
  }

  /** What `callLLM` returns: the id of the first call listed, or none. */
  predicate FromCallLlm(r: LlmResponse) {
    r.toolCallId == if r.toolCalls == [] then "" else r.toolCalls[0].id
  }

  lemma CallLlmListsItsCall(r: LlmResponse)
    requires FromCallLlm(r)
    ensures ListsItsCall(r)
  {
    assert r.toolCalls != [] ==> r.toolCalls[0].id == r.toolCallId;
  }

  lemma {:induction false} AnswersAreListed(env: Env, t: Run<Call>)
    requires forall k :: ListsItsCall(env.llm(k))
    ensures forall i :: 0 <= i < |Answers(env, t)| ==> ListsItsCall(Answers(env, t)[i])
  {
    if t.Then? {
      AnswersAreListed(env, t.before);
    }
  }

  /** If the answers list their calls, as those of `callLLM` do, then at every loop head every tool message directly follows an assistant message that carries its id. */
  lemma {:induction false} ToolMessagesCarryTheirIds(env: Env, input: Input, n: nat, s: State, j: nat)
    requires forall k :: ListsItsCall(env.llm(k))
    requires HeadAfter(env, input, FirstHead(env, input), n, s)
    requires InitialCount(input) <= j < |s.messages| && s.messages[j].role == Tool
    ensures j > InitialCount(input) && s.messages[j - 1].role == Assistant
    ensures s.messages[j].toolCallId != "" && CarriesId(s.messages[j - 1].toolCalls, s.messages[j].toolCallId)
  {
    hide HeadBooks, HeadAfter, FirstHead, CarriesId, Answers;
    BooksAtEveryHead(env, input, n, s);
    ToolMessagesFollow(env, input, s, j);
    AnswersAreListed(env, s.trace);
    var i :| 0 <= i < s.iteration && j == InitialCount(input) + 2 * i + 1;
    ToolRepliesHaveIds(env, input, s, i);
    var r := Answers(env, s.trace)[i];
    assert s.messages[j].toolCallId == r.toolCallId && ListsItsCall(r);
  }

  lemma ToolRepliesHaveIds(env: Env, input: Input, s: State, i: nat)
    requires HeadBooks(env, input, s) && i < s.iteration
    ensures |Answers(env, s.trace)| == s.iteration
    ensures var j := InitialCount(input) + 2 * i + 1;
      j < |s.messages| && (s.messages[j].role == Tool ==> s.messages[j].toolCallId != "")
  {
    assert TurnAt(s.messages, InitialCount(input), i, Answers(env, s.trace));
  }

  // ----- Calls that get no reply -----

  /** Followed by the separator, neither of two different names begins the other; so names without a colon are apart. */
  predicate Apart(n: string, m: string) {
    n == m || !(n + "::" <= m + "::" || m + "::" <= n + "::")
  }

  lemma ColonFreePrefix(n: string, m: string)
    requires ':' !in m && n + "::" <= m + "::"
    ensures n == m
  {
    assert forall k :: 0 <= k < |m| ==> m[k] != ':';
    assert (m + "::")[|n|] == (n + "::")[|n|] == ':';
    assert n == (n + "::")[..|n|] == (m + "::")[..|n|] == m[..|n|];
  }

  lemma ColonFreeApart(n: string, m: string)
    requires ':' !in n && ':' !in m
    ensures Apart(n, m)
  {
    if n + "::" <= m + "::" {
      ColonFreePrefix(n, m);
    }
    if m + "::" <= n + "::" {
      ColonFreePrefix(m, n);
    }
  }

  /** A call key names one call, if the tools' names are apart. */
  lemma KeyFixesCall(n: string, a: string, m: string, b: string)
    ensures n == m && a == b ==> Key(n, a) == Key(m, b)
    ensures Apart(n, m) && Key(n, a) == Key(m, b) ==> n == m && a == b
  {
    if Key(n, a) == Key(m, b) {
      var p, q := n + "::", m + "::";
      assert p + a == q + b;
      if |p| <= |q| {
        assert p == (p + a)[..|p|] == (q + b)[..|p|] == q[..|p|];
        assert p <= q;
      } else {
        assert q == (q + b)[..|q|] == (p + a)[..|q|] == p[..|q|];
        assert q <= p;
      }
      if n == m {
        assert a == (p + a)[|p|..] == (q + b)[|q|..] == b;
      }
    }
  }

  /** Names that are not apart do share a key, for suitable arguments. */
  lemma KeysCollideIff(n: string, m: string)
    requires n != m
    ensures (exists a, b :: Key(n, a) == Key(m, b)) <==> !Apart(n, m)
  {
    var p, q := n + "::", m + "::";
    if p <= q {
      assert q == p + q[|p|..];
      assert Key(n, q[|p|..]) == Key(m, "");
    } else if q <= p {
      assert p == q + p[|q|..];
      assert Key(n, "") == Key(m, p[|q|..]);
    }
    forall a, b | Key(n, a) == Key(m, b) ensures !Apart(n, m) {
      KeyFixesCall(n, a, m, b);
    }
  }

  predicate SameCall(r: LlmResponse, r': LlmResponse) {
    r.toolName == r'.toolName && r.toolArgs == r'.toolArgs
  }

  predicate NamesApart(answers: seq<LlmResponse>) {
    forall i, e :: 0 <= e < i < |answers| ==> Apart(answers[e].toolName, answers[i].toolName)
  }

  /** No earlier answer asked for the same tool with the same arguments. */
  predicate FirstOfItsKind(answers: seq<LlmResponse>, i: nat)
    requires i < |answers|
  {
    forall e :: 0 <= e < i ==> !SameCall(answers[e], answers[i])
  }

  lemma AsksAnewIff(answers: seq<LlmResponse>, i: nat)
    requires i < |answers|
    ensures AsksAnew(answers, i) ==> answers[i].toolName != "" && FirstOfItsKind(answers, i)
    ensures NamesApart(answers) ==> (AsksAnew(answers, i) <==> answers[i].toolName != "" && FirstOfItsKind(answers, i))
  {
    var r, earlier := answers[i], answers[..i];
    forall e | 0 <= e < i
      ensures SameCall(answers[e], r) ==> CallKey(answers[e]) == CallKey(r)
      ensures Apart(answers[e].toolName, r.toolName) && CallKey(answers[e]) == CallKey(r) ==> SameCall(answers[e], r)
      ensures answers[e].toolName != "" ==> CallKey(answers[e]) in Asked(earlier)
    {
      KeyFixesCall(answers[e].toolName, answers[e].toolArgs, r.toolName, r.toolArgs);
      assert earlier[e] == answers[e];
    }
  }

  /**
   At every loop head, when the call in answer `i` has its reply.  The message after the assistant's is a
   tool message, with the call's id, only if the answer gives an id, names a tool, and no earlier
   answer asked for the same tool with the same arguments; and then always, if the names are apart.
   */
  lemma {:induction false} CallAnsweredIff(env: Env, input: Input, n: nat, s: State, i: nat)
    requires HeadAfter(env, input, FirstHead(env, input), n, s) && i < n
    ensures |Answers(env, s.trace)| == n && |s.messages| == InitialCount(input) + 2 * n
    ensures var answers, j := Answers(env, s.trace), InitialCount(input) + 2 * i;
      var r := answers[i];
      && s.messages[j].role == Assistant && s.messages[j].toolCallId == "" && KeepsOnlyItsCall(s.messages[j].toolCalls, r)
      && (s.messages[j + 1].role == Tool ==> s.messages[j + 1].toolCallId == r.toolCallId)
      && (s.messages[j + 1].role == Tool ==> r.toolCallId != "" && r.toolName != "" && FirstOfItsKind(answers, i))
      && (NamesApart(answers) ==>
            (s.messages[j + 1].role == Tool <==> r.toolCallId != "" && r.toolName != "" && FirstOfItsKind(answers, i)))
  {
    hide HeadAfter, FirstHead, Answers, CallKey, RecordsMatch, Asked;
    BooksAtEveryHead(env, input, n, s);
    var answers := Answers(env, s.trace);
    assert TurnAt(s.messages, InitialCount(input), i, answers);
    AssistantKeepsOnlyItsCall(answers[i]);
    hide Turns, TurnAt, HeadBooks, FirstOfItsKind, NamesApart, KeepsOnlyItsCall;
    AsksAnewIff(answers, i);
  }

  /** A model that asks for the same call over and over. */
  const INSISTENT := LlmResponse(false, "", "search", "{}", "a", [ToolRef("a", "search", "{}")], 0)

  function Insistent(): Env {
    Env(k => false, k => "", k => false, false, true, true, "sandbox", k => INSISTENT, k => true)
  }

  lemma InsistentGoesOn(input: Input, s: State)
    requires !s.cancelled && s.cost == 0
    ensures var (s', flow) := Iteration(Insistent(), input, s);
      flow.Next? && !s'.cancelled && s'.cost == 0
  {
    hide Fatal, CallKey;
  }

  lemma {:induction false} InsistentAnswers(t: Run<Call>)
    ensures forall i :: 0 <= i < |Answers(Insistent(), t)| ==> Answers(Insistent(), t)[i] == INSISTENT
  {
    if t.Then? {
      InsistentAnswers(t.before);
    }
  }

  /** The failing run: the model repeats a call, and its second request carries the id but gets a prompt instead of a tool message. */
  lemma {:induction false} RepeatedCallUnanswered(input: Input)
    requires IterationLimit(input) >= 2
    ensures var env := Insistent();
      var s := Iteration(env, input, Iteration(env, input, FirstHead(env, input)).0).0;
      var j := InitialCount(input) + 2;
      && HeadAfter(env, input, FirstHead(env, input), 2, s) && |s.messages| == j + 2
      && s.messages[j].role == Assistant && CarriesId(s.messages[j].toolCalls, "a")
      && s.messages[j + 1].role != Tool
  {
    hide Iteration, IterationLimit, Insistent, Answers;
    var env, s0 := Insistent(), FirstHead(Insistent(), input);
    var s1 := Iteration(env, input, s0).0;
    var s2 := Iteration(env, input, s1).0;
    InsistentStarts(input);
    InsistentGoesOn(input, s0);
    InsistentGoesOn(input, s1);
    assert HeadAfter(env, input, s1, 1, s2) && HeadAfter(env, input, s0, 2, s2);
    hide HeadAfter, FirstHead;
    CallAnsweredIff(env, input, 2, s2, 1);
    InsistentAnswers(s2.trace);
    assert Answers(env, s2.trace)[0] == INSISTENT && Answers(env, s2.trace)[1] == INSISTENT;
    WithIdKeeps(INSISTENT.toolCalls, "a");
    assert INSISTENT.toolCalls[0].id == "a";
  }

  lemma InsistentStarts(input: Input)
    ensures var s := FirstHead(Insistent(), input); !s.cancelled && s.cost == 0 && s.iteration == 0
  {
  }

  // ----- Whole runs -----

  lemma {:induction false} LoopNoKeyTwice(env: Env, input: Input, s: State)
    requires HeadBooks(env, input, s)
    ensures NoKeyTwice(Loop(env, input, s).0.trace)
    decreases IterationLimit(input) - s.iteration
  {
    hide Turns, RecordsMatch, Iteration;
    if s.iteration < IterationLimit(input) && !s.cancelled {
      IterationBooks(env, input, s);
      if Iteration(env, input, s).1.Next? {
        LoopNoKeyTwice(env, input, Iteration(env, input, s).0);
      }
    }
  }

  lemma QuietNoKeyTwice(env: Env, s: State, call: Call)
    requires NoKeyTwice(s.trace) && !call.ExecuteTool?
    ensures NoKeyTwice(Await(env, s, call).trace)
  {
  }

  lemma {:induction false} SandboxedNoKeyTwice(env: Env, input: Input, s: State)
    requires HeadBooks(env, input, s)
    ensures NoKeyTwice(Sandboxed(env, input, s).0.trace)
  {
    hide Loop, NoKeyTwice, HeadBooks;
    var s1 := Await(env, s, CreateSandbox);
    var s2 := Await(env, s1, Observe);
    HeadStays(env, input, s, CreateSandbox);
    HeadStays(env, input, s1, Observe);
    LoopNoKeyTwice(env, input, s2);
    var (s3, sandboxId, end) := Attempt(env, input, s);
    assert NoKeyTwice(s3.trace);
    QuietNoKeyTwice(env, s3, Observe);
    var s4 := Caught(env, s3, end).0;
    QuietNoKeyTwice(env, s4, TerminateSandbox(sandboxId));
    var s5 := Finally(env, s4, sandboxId);
    QuietNoKeyTwice(env, s5, ReportOutcome);
  }

  lemma HeadStays(env: Env, input: Input, s: State, call: Call)
    requires HeadBooks(env, input, s) && !call.CallLlm? && !call.ExecuteTool?
    ensures HeadBooks(env, input, Await(env, s, call)) && NoKeyTwice(Await(env, s, call).trace)
  {
    hide Turns, RecordsMatch;
    QuietAwait(env, s, call);
  }

  predicate Executes(t: Run<Call>, name: string, args: string) {
    t.Then? && (t.event == ExecuteTool(name, args) || Executes(t.before, name, args))
  }

  /** No tool is executed twice with the same arguments. */
  predicate NeverTwice(t: Run<Call>) {
    t.Then? ==> NeverTwice(t.before) && (t.event.ExecuteTool? ==> !Executes(t.before, t.event.name, t.event.args))
  }

  lemma {:induction false} ExecutedHasKey(t: Run<Call>, name: string, args: string)
    requires Executes(t, name, args)
    ensures Key(name, args) in ExecutedKeys(t)
  {
    if t.event != ExecuteTool(name, args) {
      ExecutedHasKey(t.before, name, args);
    }
  }

  lemma {:induction false} KeysTellCalls(t: Run<Call>)
    requires NoKeyTwice(t)
    ensures NeverTwice(t)
  {
    if t.Then? {
      KeysTellCalls(t.before);
      if t.event.ExecuteTool? && Executes(t.before, t.event.name, t.event.args) {
        ExecutedHasKey(t.before, t.event.name, t.event.args);
      }
    }
  }

  /** In every run, however it ends, no tool is executed twice with the same arguments. */
  lemma {:induction false} ToolsRunOnce(env: Env, input: Input)
    ensures NeverTwice(Workflow(env, input).0.trace)
  {
    hide Workflow;
    KeysRunOnce(env, input);
    KeysTellCalls(Workflow(env, input).0.trace);
  }

  lemma {:induction false} KeysRunOnce(env: Env, input: Input)
    ensures NoKeyTwice(Workflow(env, input).0.trace)
  {
    hide Sandboxed, HeadBooks, NoKeyTwice;
    var s0 := Initial(env, input);
    var s1 := Await(env, s0, Observe);
    var s2 := Await(env, s1, Observe);
    var s3 := Await(env, s2, Admit);
    var s4 := Await(env, s3, Observe);
    var s5 := Await(env, s4, EvaluatePolicy);
    var s6 := Await(env, s5, Observe);
    InitialBooks(env, input);
    HeadStays(env, input, s0, Observe);
    HeadStays(env, input, s1, Observe);
    HeadStays(env, input, s2, Admit);
    HeadStays(env, input, s3, Observe);
    HeadStays(env, input, s4, EvaluatePolicy);
    HeadStays(env, input, s5, Observe);
    SandboxedNoKeyTwice(env, input, s6);
  }

  lemma InitialBooks(env: Env, input: Input)
    ensures HeadBooks(env, input, Initial(env, input))
  {
  }
}
