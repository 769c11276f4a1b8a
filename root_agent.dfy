/**
 * The root agent's query loop: the root model sees only the user's query and
 * explores the merged history through the context tools, for at most twenty
 * rounds.
 *
 * `Steps` is the loop as a state machine over the scripted backend: a round
 * counter, the log of what happened, the growing message list sent to the
 * model, and the pending reply. `ProcessUserQuery` is the loop as the agent
 * runs it, proved equal to `Run`.
 */
module RootAgent {
  import opened Common
  import opened Toolset
  import opened RlmStorage

  const MaxIterations: nat := 20

  /** One entry of `conversation_log` (timestamps and JSON text are not modelled). */
  datatype LogEntry =
    | Started
    | UserQuery(text: string)
    | ToolRequest(calls: seq<ToolCall>)
    | ToolResultLog(name: string, result: ToolResult)
    | DirectResponse(content: string)

  /** The dictionary `process_user_query` returns (`rlm_pattern` and the timing are not modelled). */
  datatype QueryResult = QueryResult(
    answer: Json,
    reasoning: Json,
    contextSources: Json,
    conversationLog: seq<LogEntry>,
    iterations: nat,
    error: Option<string>)

  const Apology := "I apologize, but I was unable to process your request within the allowed steps. Please try rephrasing your question."

  /** The two entries every log starts with. */
  function Seed(query: string): seq<LogEntry> {
    [Started, UserQuery(query)]
  }

  function ErrorResult(reason: string): QueryResult {
    QueryResult(JStr("An error occurred while processing your request: " + reason),
                JStr("Error in RLM processing"), JArr([]), [], 0, Some(reason))
  }

  /** The final-answer result; a final answer without "answer" raises `KeyError('answer')`. */
  function FinalResult(data: map<string, Json>, log: seq<LogEntry>, iteration: nat): QueryResult {
    if "answer" in data then
      QueryResult(data["answer"], Lookup(data, "reasoning", JStr("")), Lookup(data, "context_sources", JArr([])),
                  log, iteration, None)
    else ErrorResult("'answer'")
  }

  function DirectResult(text: string, log: seq<LogEntry>, iteration: nat): QueryResult {
    QueryResult(JStr(text), JStr("Direct response without tool usage"), JArr([]), log, iteration, None)
  }

  function ApologyResult(log: seq<LogEntry>, iteration: nat): QueryResult {
    QueryResult(JStr(Apology), JStr("Max iterations reached without final answer"), JArr([]), log, iteration, None)
  }

  // ---------------------------------------------------------------------------
  // One batch of tool calls

  /** The log entries, the tool messages for the model, a final answer if one came, and the requests sent. */
  datatype BatchOutcome = BatchOutcome(
    log: seq<LogEntry>, turns: seq<ChatItem>, final: Option<map<string, Json>>, sent: seq<seq<ChatItem>>)

  /**
   * A tool executor: the step a tool takes, given the tool name the call
   * carries, its arguments and the number of backend calls made so far.
   */
  type Executor = (string, map<string, Json>, nat) -> Step

  /** `exec` takes every step exactly as the context tools over `history` and `script` do. */
  ghost predicate RunsTools(exec: Executor, history: seq<Message>, script: seq<Reply>) {
    forall name, args, pos {:trigger Invoke(exec, name, args, pos)} ::
      Invoke(exec, name, args, pos) == Execute(ParseToolName(name), args, history, script, pos)
  }

  lemma ToolsExist(history: seq<Message>, script: seq<Reply>)
    ensures exists exec :: RunsTools(exec, history, script)
  {
    var exec: Executor := (name: string, args: map<string, Json>, pos: nat) => Execute(ParseToolName(name), args, history, script, pos);
    assert RunsTools(exec, history, script);
  }

  /**
   * The context tools over the merged history and the backend's script. Only
   * the steps they take are known about them, so a proof about the loop meets
   * a tool's definition only where it asks for it.
   */
  ghost function Tools(history: seq<Message>, script: seq<Reply>): (exec: Executor)
    ensures RunsTools(exec, history, script)
  {
    ToolsExist(history, script);
    var exec :| RunsTools(exec, history, script); exec
  }

  /** A request sent by the recursive call rather than by the loop. */
  predicate IsAnalysis(request: seq<ChatItem>) {
    |request| > 0 && request[0] == AnalystSystemPrompt
  }

  /** The step `exec` takes; named so that facts about every step are used only where a proof asks for them. */
  function Invoke(exec: Executor, name: string, args: map<string, Json>, pos: nat): Step {
    exec(name, args, pos)
  }

  /** A step as the loop expects it: see `Faithful`. */
  predicate FaithfulStep(name: string, args: map<string, Json>, s: Step) {
    && (s.result.FinalAnswer? <==> name == "final_answer")
    && (name == "final_answer" ==> s.result == FinalAnswer(args))
    && |s.sent| <= 1
    && (forall r :: r in s.sent ==> IsAnalysis(r))
  }

  /**
   * What the loop relies on from the tools: only "final_answer" yields a final
   * answer, carrying its arguments, and a tool sends at most one request,
   * an analysis request.
   */
  ghost predicate Faithful(exec: Executor) {
    forall name, args, pos :: FaithfulStep(name, args, Invoke(exec, name, args, pos))
  }

  lemma ToolsFaithful(history: seq<Message>, script: seq<Reply>)
    ensures Faithful(Tools(history, script))
  {
    var exec := Tools(history, script);
    forall name, args, pos: nat ensures FaithfulStep(name, args, Invoke(exec, name, args, pos)) {
      var s := Execute(ParseToolName(name), args, history, script, pos);
      assert Invoke(exec, name, args, pos) == s;
      assert ParseToolName(name) == FinalAnswerTool <==> name == "final_answer";
      if s.sent != [] {
        assert s.sent == [AnalysisMessages(args)];
      }
    }
  }

  /** Run the calls in order; a final answer stops the batch. */
  function Batch(calls: seq<ToolCall>, exec: Executor, pos: nat): (b: BatchOutcome)
    decreases |calls|, 1
  {
    if calls == [] then BatchOutcome([], [], None, []) else BatchStep(calls, exec, pos)
  }

  /** The first call runs; a final answer stops the batch there, any other result is followed by the rest. */
  function BatchStep(calls: seq<ToolCall>, exec: Executor, pos: nat): (b: BatchOutcome)
    requires calls != []
    decreases |calls|, 0
  {
    var c := calls[0];
    var s := exec(c.name, c.arguments, pos);
    var entry := ToolResultLog(c.name, s.result);
    if s.result.FinalAnswer? then BatchOutcome([entry], [], Some(s.result.data), s.sent)
    else
      var rest := Batch(calls[1..], exec, pos + |s.sent|);
      BatchOutcome([entry] + rest.log, [ToolTurn(c.id, s.result)] + rest.turns, rest.final, s.sent + rest.sent)
  }

  /**
   * One result entry per executed call, naming it, in call order. Without a
   * final answer every call runs and yields a tool message; with one, the
   * batch stops at the first "final_answer" call, whose arguments are the
   * answer, and the calls before it yield tool messages. Only recursive
   * calls send requests.
   */
  ghost predicate Shaped(b: BatchOutcome, calls: seq<ToolCall>) {
    && |b.log| <= |calls|
    && (forall j :: 0 <= j < |b.log| ==> b.log[j].ToolResultLog? && b.log[j].name == calls[j].name)
    && (forall r :: r in b.sent ==> IsAnalysis(r))
    && |b.sent| <= |b.log|
    && (b.final.None? ==>
          && |b.log| == |b.turns| == |calls|
          && forall j :: 0 <= j < |calls| ==> calls[j].name != "final_answer")
    && (b.final.Some? ==>
          var k := |b.log| - 1;
          && 0 <= k && |b.turns| == k
          && calls[k].name == "final_answer" && b.final.value == calls[k].arguments
          && b.log[k] == ToolResultLog("final_answer", FinalAnswer(calls[k].arguments))
          && forall j :: 0 <= j < k ==> calls[j].name != "final_answer")
  }

  /** A first call that gives the final answer ends the batch in shape. */
  lemma ShapedFinal(calls: seq<ToolCall>, s: Step)
    requires calls != [] && FaithfulStep(calls[0].name, calls[0].arguments, s)
    requires s.result.FinalAnswer?
    ensures Shaped(BatchOutcome([ToolResultLog(calls[0].name, s.result)], [], Some(s.result.data), s.sent), calls)
  {
  }

  /** A first call of another tool, followed by a batch in shape for the rest, keeps the batch in shape. */
  lemma ShapedCons(calls: seq<ToolCall>, s: Step, rest: BatchOutcome)
    requires calls != [] && FaithfulStep(calls[0].name, calls[0].arguments, s)
    requires !s.result.FinalAnswer? && Shaped(rest, calls[1..])
    ensures Shaped(Glue([ToolResultLog(calls[0].name, s.result)], [ToolTurn(calls[0].id, s.result)], s.sent, rest), calls)
  {
    var c := calls[0];
    var b := Glue([ToolResultLog(c.name, s.result)], [ToolTurn(c.id, s.result)], s.sent, rest);
    forall j | 0 <= j < |b.log| ensures b.log[j].ToolResultLog? && b.log[j].name == calls[j].name {
      if j > 0 { assert b.log[j] == rest.log[j - 1] && calls[j] == calls[1..][j - 1]; }
    }
    forall j | 0 <= j < |b.log| - 1 && b.final.Some? ensures calls[j].name != "final_answer" {
      if j > 0 { assert calls[j] == calls[1..][j - 1]; }
    }
    if b.final.Some? {
      var k := |b.log| - 1;
      assert calls[k] == calls[1..][k - 1] && b.log[k] == rest.log[k - 1];
    } else {
      forall j | 0 <= j < |calls| ensures calls[j].name != "final_answer" {
        if j > 0 { assert calls[j] == calls[1..][j - 1]; }
      }
    }
  }

  /** Every batch run by tools the loop can rely on is in shape. */
  lemma {:induction false} BatchShape(calls: seq<ToolCall>, exec: Executor, pos: nat)
    requires Faithful(exec)
    ensures Shaped(Batch(calls, exec, pos), calls)
    decreases |calls|
  {
    if calls != [] {
      var c := calls[0];
      var s := exec(c.name, c.arguments, pos);
      assert FaithfulStep(c.name, c.arguments, Invoke(exec, c.name, c.arguments, pos));
      BatchCons(calls, exec, pos);
      if s.result.FinalAnswer? {
        assert Batch(calls, exec, pos) == BatchOutcome([ToolResultLog(c.name, s.result)], [], Some(s.result.data), s.sent);
        ShapedFinal(calls, s);
      } else {
        var rest := Batch(calls[1..], exec, pos + |s.sent|);
        assert Batch(calls, exec, pos) == Glue([ToolResultLog(c.name, s.result)], [ToolTurn(c.id, s.result)], s.sent, rest);
        BatchShape(calls[1..], exec, pos + |s.sent|);
        ShapedCons(calls, s, rest);
      }
    }
  }

  /** The requests a batch sends are all analysis requests. */
  lemma BatchAnalysisOnly(calls: seq<ToolCall>, exec: Executor, pos: nat)
    requires Faithful(exec)
    ensures forall r :: r in Batch(calls, exec, pos).sent ==> IsAnalysis(r)
  {
    BatchShape(calls, exec, pos);
  }

  lemma BatchRootCalls(calls: seq<ToolCall>, exec: Executor, pos: nat)
    requires Faithful(exec)
    ensures RootCalls(Batch(calls, exec, pos).sent) == 0
  {
    BatchAnalysisOnly(calls, exec, pos);
    RootCallsNone(Batch(calls, exec, pos).sent);
  }

  /** The log of a batch names its calls and, after a final answer, ends in that answer's result. */
  lemma BatchLog(calls: seq<ToolCall>, exec: Executor, pos: nat)
    requires Faithful(exec)
    ensures var b := Batch(calls, exec, pos);
      && |b.log| <= |calls|
      && (forall j :: 0 <= j < |b.log| ==> b.log[j].ToolResultLog? && b.log[j].name == calls[j].name)
      && (b.final.Some? ==> b.log != [] && b.log[|b.log| - 1] == ToolResultLog("final_answer", FinalAnswer(b.final.value)))
  {
    BatchShape(calls, exec, pos);
  }

  /** The outcome `rest` of the calls still to run, after `log`, `turns` and `sent` of those already run. */
  function Glue(log: seq<LogEntry>, turns: seq<ChatItem>, sent: seq<seq<ChatItem>>, rest: BatchOutcome): BatchOutcome {
    BatchOutcome(log + rest.log, turns + rest.turns, rest.final, sent + rest.sent)
  }

  lemma GlueGlue(log: seq<LogEntry>, turns: seq<ChatItem>, sent: seq<seq<ChatItem>>,
                 log1: seq<LogEntry>, turns1: seq<ChatItem>, sent1: seq<seq<ChatItem>>, rest: BatchOutcome)
    ensures Glue(log, turns, sent, Glue(log1, turns1, sent1, rest)) == Glue(log + log1, turns + turns1, sent + sent1, rest)
  {
    assert log + (log1 + rest.log) == log + log1 + rest.log;
    assert turns + (turns1 + rest.turns) == turns + turns1 + rest.turns;
    assert sent + (sent1 + rest.sent) == sent + sent1 + rest.sent;
  }

  /** One step of a batch: the first call runs, then either the batch stops or the rest follows. */
  lemma BatchCons(calls: seq<ToolCall>, exec: Executor, pos: nat)
    requires calls != []
    ensures var c, s := calls[0], exec(calls[0].name, calls[0].arguments, pos);
      Batch(calls, exec, pos)
        == if s.result.FinalAnswer? then BatchOutcome([ToolResultLog(c.name, s.result)], [], Some(s.result.data), s.sent)
           else Glue([ToolResultLog(c.name, s.result)], [ToolTurn(c.id, s.result)], s.sent, Batch(calls[1..], exec, pos + |s.sent|))
  {
  }

  /**
   * The step of the loop of `run_tool_calls` at call `i`, with `log`, `turns`
   * and `sent` gathered so far, when the call's step `s` is a final answer:
   * the batch ends with it.
   */
  lemma BatchStop(calls: seq<ToolCall>, i: nat, exec: Executor, pos0: nat,
                  log: seq<LogEntry>, turns: seq<ChatItem>, sent: seq<seq<ChatItem>>, pos: nat, s: Step)
    requires i < |calls| && s == exec(calls[i].name, calls[i].arguments, pos)
    requires Batch(calls, exec, pos0) == Glue(log, turns, sent, Batch(calls[i..], exec, pos))
    requires s.result.FinalAnswer?
    ensures Batch(calls, exec, pos0) == BatchOutcome(log + [ToolResultLog(calls[i].name, s.result)], turns, Some(s.result.data), sent + s.sent)
  {
    BatchCons(calls[i..], exec, pos);
    assert calls[i..][0] == calls[i];
    assert turns + [] == turns;
  }

  /**
   * The step of the loop of `run_tool_calls` at call `i` when the call's step
   * `s` is no final answer: its entry, turn and requests join those gathered
   * so far, and the rest of the batch follows.
   */
  lemma BatchGoOn(calls: seq<ToolCall>, i: nat, exec: Executor, pos0: nat,
                  log: seq<LogEntry>, turns: seq<ChatItem>, sent: seq<seq<ChatItem>>, pos: nat, s: Step,
                  log1: seq<LogEntry>, turns1: seq<ChatItem>, sent1: seq<seq<ChatItem>>)
    requires i < |calls| && s == exec(calls[i].name, calls[i].arguments, pos)
    requires Batch(calls, exec, pos0) == Glue(log, turns, sent, Batch(calls[i..], exec, pos))
    requires !s.result.FinalAnswer?
    requires log1 == log + [ToolResultLog(calls[i].name, s.result)]
    requires turns1 == turns + [ToolTurn(calls[i].id, s.result)]
    requires sent1 == sent + s.sent
    ensures Batch(calls, exec, pos0) == Glue(log1, turns1, sent1, Batch(calls[i + 1..], exec, pos + |s.sent|))
  {
    var c := calls[i];
    BatchCons(calls[i..], exec, pos);
    assert calls[i..][0] == c && calls[i..][1..] == calls[i + 1..];
    var rest := Batch(calls[i + 1..], exec, pos + |s.sent|);
    assert Batch(calls[i..], exec, pos) == Glue([ToolResultLog(c.name, s.result)], [ToolTurn(c.id, s.result)], s.sent, rest);
    GlueGlue(log, turns, sent, [ToolResultLog(c.name, s.result)], [ToolTurn(c.id, s.result)], s.sent, rest);
  }

  // ---------------------------------------------------------------------------
  // The loop

  /** How the loop ended. */
  datatype Ending = Answered(data: map<string, Json>) | Direct(content: string) | OutOfSteps | Fault(reason: string)

  /** The log entries after the seed, how the loop ended, the round count, and every request sent. */
  datatype Trace = Trace(entries: seq<LogEntry>, ending: Ending, iterations: nat, sent: seq<seq<ChatItem>>)

  /**
   * The loop from round `iteration` on, with `reply` the answer to the last
   * request and `pos` the number of backend calls made so far. A reply that
   * is an exception ends everything; a reply without choices leaves the
   * loop; a reply with content is the answer; a reply with tool calls runs
   * them and, unless one is a final answer, sends the grown message list
   * back to the model.
   */
  function Steps(query: string, exec: Executor, script: seq<Reply>,
                 iteration: nat, buffer: seq<ChatItem>, reply: Reply, pos: nat): Trace
    decreases MaxIterations - iteration, 1
  {
    if reply.Raised? then Trace([], Fault(reply.reason), iteration, [])
    else if iteration >= MaxIterations then Trace([], OutOfSteps, iteration, [])
    else
      match reply
      case NoChoices => Trace([], OutOfSteps, iteration + 1, [])
      case Content(text) => Trace([DirectResponse(text)], Direct(text), iteration + 1, [])
      case ToolCalls(calls) => CallsRound(query, exec, script, iteration, buffer, calls, pos)
  }

  /**
   * Round `iteration + 1` when the model asked for `calls`: they run in
   * order and, unless one is a final answer, the grown message list goes
   * back to the model and the loop goes on with its reply.
   */
  function CallsRound(query: string, exec: Executor, script: seq<Reply>,
                      iteration: nat, buffer: seq<ChatItem>, calls: seq<ToolCall>, pos: nat): Trace
    requires iteration < MaxIterations
    decreases MaxIterations - iteration, 0
  {
    var it := iteration + 1;
    var b := Batch(calls, exec, pos);
    var entries := [ToolRequest(calls)] + b.log;
    if b.final.Some? then Trace(entries, Answered(b.final.value), it, b.sent)
    else
      var pos1 := pos + |b.sent|;
      var buffer1 := buffer + [AssistantTurn(calls)] + b.turns;
      var rest := Steps(query, exec, script, it, buffer1, Respond(script, pos1), pos1 + 1);
      Trace(entries + rest.entries, rest.ending, rest.iterations, b.sent + [buffer1] + rest.sent)
  }

  /** The whole loop: the first request carries only the user's query; the model's system prompt goes beside it. */
  ghost function Run(query: string, history: seq<Message>, script: seq<Reply>, pos: nat): Trace {
    var t := Steps(query, Tools(history, script), script, 0, [RootSystemPrompt(query), UserTurn(query)], Respond(script, pos), pos + 1);
    Trace(t.entries, t.ending, t.iterations, [[UserTurn(query)]] + t.sent)
  }

  /** The trace `rest` of the rounds still to come, after `entries` and `sent` of those already done. */
  function Resume(entries: seq<LogEntry>, sent: seq<seq<ChatItem>>, rest: Trace): Trace {
    Trace(entries + rest.entries, rest.ending, rest.iterations, sent + rest.sent)
  }

  /** Rounds resumed after rounds that were resumed after others: the done parts concatenate. */
  lemma ResumeResume(entries: seq<LogEntry>, sent: seq<seq<ChatItem>>,
                     entries1: seq<LogEntry>, sent1: seq<seq<ChatItem>>, rest: Trace)
    ensures Resume(entries, sent, Resume(entries1, sent1, rest)) == Resume(entries + entries1, sent + sent1, rest)
  {
    AppendAssoc(entries, entries1, rest.entries);
    AppendAssoc(sent, sent1, rest.sent);
  }

  /** The dictionary returned for a trace. */
  function Answer(query: string, t: Trace): QueryResult {
    match t.ending
    case Fault(reason) => ErrorResult(reason)
    case Answered(data) => FinalResult(data, Seed(query) + t.entries, t.iterations)
    case Direct(text) => DirectResult(text, Seed(query) + t.entries, t.iterations)
    case OutOfSteps => ApologyResult(Seed(query) + t.entries, t.iterations)
  }

  /**
   * The state of the loop of `process_user_query` before a pass: the loop's whole trace `t` is
   * the log entries `entries` and requests `sent` of the earlier passes followed by the rounds
   * from `iteration` on; the log holds the seed and those entries; the backend, whose record was
   * `base` and call count `pos0` before the loop, has received those requests; and the reply in
   * hand is no exception.
   */
  ghost predicate Tracks(query: string, exec: Executor, script: seq<Reply>, t: Trace, base: seq<seq<ChatItem>>, pos0: nat,
                         iteration: nat, buffer: seq<ChatItem>, reply: Reply,
                         log: seq<LogEntry>, entries: seq<LogEntry>, sent: seq<seq<ChatItem>>,
                         received: seq<seq<ChatItem>>, position: nat)
  {
    match reply
    case Raised(_) => false
    case _ =>
      && log == Seed(query) + entries
      && received == base + sent && position == pos0 + |sent|
      && t == Resume(entries, sent, Steps(query, exec, script, iteration, buffer, reply, position))
  }

  ghost predicate Delivers(query: string, t: Trace, result: QueryResult, base: seq<seq<ChatItem>>, pos0: nat,
                           received: seq<seq<ChatItem>>, position: nat) {
    match t
    case Trace(entries, ending, iterations, sent) =>
      result == Answer(query, t) && received == base + sent && position == pos0 + |sent|
  }

  /** Rounds that start after the twentieth add nothing: the loop ends with the apology. */
  lemma OutOfRounds(query: string, exec: Executor, script: seq<Reply>, t: Trace, base: seq<seq<ChatItem>>, pos0: nat,
                    buffer: seq<ChatItem>, reply: Reply, log: seq<LogEntry>, entries: seq<LogEntry>, sent: seq<seq<ChatItem>>,
                    received: seq<seq<ChatItem>>, position: nat)
    requires Tracks(query, exec, script, t, base, pos0, MaxIterations, buffer, reply, log, entries, sent, received, position)
    ensures Delivers(query, t, ApologyResult(log, MaxIterations), base, pos0, received, position)
  {
    assert Steps(query, exec, script, MaxIterations, buffer, reply, position) == Trace([], OutOfSteps, MaxIterations, []);
    assert entries + [] == entries && sent + [] == sent;
  }

  /** Before the first pass nothing is done yet: the loop's trace is the rounds from the first on. */
  lemma StartRounds(query: string, exec: Executor, script: seq<Reply>, buffer: seq<ChatItem>, reply: Reply,
                    base: seq<seq<ChatItem>>, pos0: nat)
    requires !reply.Raised?
    ensures Tracks(query, exec, script, Steps(query, exec, script, 0, buffer, reply, pos0), base, pos0, 0, buffer, reply,
                   Seed(query), [], [], base, pos0)
  {
    var rest := Steps(query, exec, script, 0, buffer, reply, pos0);
    assert [] + rest.entries == rest.entries && [] + rest.sent == rest.sent;
    assert Seed(query) + [] == Seed(query) && base + [] == base;
  }

  /** `process_user_query` over the merged history, with the backend's script read from call `pos` on. */
  ghost function ProcessQuery(query: string, history: seq<Message>, script: seq<Reply>, pos: nat): QueryResult {
    Answer(query, Run(query, history, script, pos))
  }

  // ---------------------------------------------------------------------------
  // Properties of the loop

  /** Number of requests sent by the loop itself. */
  function RootCalls(sent: seq<seq<ChatItem>>): (n: nat)
    ensures n <= |sent|
  {
    CallsUpTo(sent, |sent|)
  }

  /** Number of requests among the first `k` of `sent` sent by the loop itself. */
  function CallsUpTo(sent: seq<seq<ChatItem>>, k: nat): (n: nat)
    requires k <= |sent|
    ensures n <= k
  {
    if k == 0 then 0 else CallsUpTo(sent, k - 1) + (if IsAnalysis(sent[k - 1]) then 0 else 1)
  }

  lemma {:induction false} CallsUpToPrefix(a: seq<seq<ChatItem>>, b: seq<seq<ChatItem>>, k: nat)
    requires k <= |a|
    ensures CallsUpTo(a + b, k) == CallsUpTo(a, k)
  {
    if k > 0 {
      CallsUpToPrefix(a, b, k - 1);
      assert (a + b)[k - 1] == a[k - 1];
    }
  }

  lemma {:induction false} CallsUpToShift(a: seq<seq<ChatItem>>, b: seq<seq<ChatItem>>, k: nat)
    requires k <= |b|
    ensures CallsUpTo(a + b, |a| + k) == RootCalls(a) + CallsUpTo(b, k)
  {
    if k == 0 {
      CallsUpToPrefix(a, b, |a|);
    } else {
      CallsUpToShift(a, b, k - 1);
      assert (a + b)[|a| + k - 1] == b[k - 1];
    }
  }

  lemma RootCallsAppend(a: seq<seq<ChatItem>>, b: seq<seq<ChatItem>>)
    ensures RootCalls(a + b) == RootCalls(a) + RootCalls(b)
  {
    CallsUpToShift(a, b, |b|);
  }

  lemma {:induction false} CallsUpToNone(sent: seq<seq<ChatItem>>, k: nat)
    requires k <= |sent| && forall r :: r in sent ==> IsAnalysis(r)
    ensures CallsUpTo(sent, k) == 0
  {
    if k > 0 {
      CallsUpToNone(sent, k - 1);
      assert sent[k - 1] in sent;
    }
  }

  lemma RootCallsNone(sent: seq<seq<ChatItem>>)
    requires forall r :: r in sent ==> IsAnalysis(r)
    ensures RootCalls(sent) == 0
  {
    CallsUpToNone(sent, |sent|);
  }

  lemma RootCallsOne(r: seq<ChatItem>)
    ensures RootCalls([r]) == if IsAnalysis(r) then 0 else 1
  {
  }

  /** The part of the log after the seed: rounds of a request followed by results naming its calls in order. */
  ghost predicate WellFormedLog(entries: seq<LogEntry>) {
    WellFormedFrom(entries, 0)
  }

  /** The entries from index `i` on are rounds of a request followed by results naming its calls in order. */
  ghost predicate WellFormedFrom(entries: seq<LogEntry>, i: nat)
    requires i <= |entries|
    decreases |entries| - i
  {
    || i == |entries|
    || (i + 1 == |entries| && entries[i].DirectResponse?)
    || (i < |entries| && entries[i].ToolRequest? &&
          var k := ResultRun(entries, i + 1);
          && k <= |entries[i].calls|
          && NamesCalls(entries, i, k)
          && WellFormedFrom(entries, i + 1 + k))
  }

  /** The `k` entries after the request at index `i` are results naming its first `k` calls. */
  ghost predicate NamesCalls(entries: seq<LogEntry>, i: nat, k: nat)
    decreases k
  {
    && i + 1 + k <= |entries| && entries[i].ToolRequest? && k <= |entries[i].calls|
    && (k > 0 ==>
          && NamesCalls(entries, i, k - 1)
          && entries[i + k].ToolResultLog? && entries[i + k].name == entries[i].calls[k - 1].name)
  }

  /** Length of the run of tool-result entries starting at index `i`. */
  function ResultRun(entries: seq<LogEntry>, i: nat): (k: nat)
    requires i <= |entries|
    ensures i + k <= |entries|
    decreases |entries| - i
  {
    if i < |entries| && entries[i].ToolResultLog? then 1 + ResultRun(entries, i + 1) else 0
  }

  lemma {:induction false} ResultRunExactly(entries: seq<LogEntry>, i: nat, n: nat)
    requires i + n <= |entries|
    requires forall j :: i <= j < i + n ==> entries[j].ToolResultLog?
    requires i + n < |entries| ==> !entries[i + n].ToolResultLog?
    ensures ResultRun(entries, i) == n
    decreases n
  {
    if n > 0 {
      ResultRunExactly(entries, i + 1, n - 1);
    }
  }

  lemma {:induction false} ResultRunShift(a: seq<LogEntry>, b: seq<LogEntry>, i: nat)
    requires i <= |b|
    ensures ResultRun(a + b, |a| + i) == ResultRun(b, i)
    decreases |b| - i
  {
    if i < |b| {
      assert (a + b)[|a| + i] == b[i];
      ResultRunShift(a, b, i + 1);
    }
  }

  /** Well-formed entries stay well formed behind any others. */
  lemma {:induction false} WellFormedShift(a: seq<LogEntry>, b: seq<LogEntry>, i: nat)
    requires i <= |b| && WellFormedFrom(b, i)
    ensures WellFormedFrom(a + b, |a| + i)
    decreases |b| - i
  {
    var s := a + b;
    if i < |b| {
      assert s[|a| + i] == b[i];
      if !(i + 1 == |b| && b[i].DirectResponse?) {
        ResultRunShift(a, b, i + 1);
        var k := ResultRun(b, i + 1);
        WellFormedShift(a, b, i + 1 + k);
        NamesShift(a, b, i, k);
      }
    }
  }

  lemma {:induction false} NamesShift(a: seq<LogEntry>, b: seq<LogEntry>, i: nat, k: nat)
    requires i + 1 + k <= |b|
    ensures NamesCalls(a + b, |a| + i, k) == NamesCalls(b, i, k)
    decreases k
  {
    var s := a + b;
    assert s[|a| + i] == b[i];
    if k > 0 {
      NamesShift(a, b, i, k - 1);
      assert s[|a| + i + k] == b[i + k];
    }
  }

  /** From round `iteration` on, the round count only grows, stays within twenty, and a round that runs counts. */
  lemma {:induction false} StepsIterations(query: string, exec: Executor, script: seq<Reply>,
                                           iteration: nat, buffer: seq<ChatItem>, reply: Reply, pos: nat)
    requires iteration <= MaxIterations
    ensures IterationsFrom(Steps(query, exec, script, iteration, buffer, reply, pos), iteration)
    decreases MaxIterations - iteration, 1
  {
    var t := Steps(query, exec, script, iteration, buffer, reply, pos);
    if reply.Raised? {
      assert t.iterations == iteration && t.ending.Fault?;
    } else if iteration >= MaxIterations || !reply.ToolCalls? {
      assert t.iterations == if iteration >= MaxIterations then iteration else iteration + 1;
    } else {
      RoundIterations(query, exec, script, iteration, buffer, reply, pos);
    }
  }

  /** The round count of a trace that starts at round `iteration`. */
  predicate IterationsFrom(t: Trace, iteration: nat) {
    && iteration <= t.iterations <= MaxIterations
    && (!t.ending.Fault? && iteration < MaxIterations ==> t.iterations >= iteration + 1)
  }

  /** A round of tool calls counts itself, and the rounds after it count on from there. */
  lemma {:induction false} RoundIterations(query: string, exec: Executor, script: seq<Reply>,
                                           iteration: nat, buffer: seq<ChatItem>, reply: Reply, pos: nat)
    requires iteration < MaxIterations && reply.ToolCalls?
    ensures IterationsFrom(Steps(query, exec, script, iteration, buffer, reply, pos), iteration)
    decreases MaxIterations - iteration, 0
  {
    var calls := reply.calls;
    var t := CallsRound(query, exec, script, iteration, buffer, calls, pos);
    var b := Batch(calls, exec, pos);
    if b.final.None? {
      var pos1 := pos + |b.sent|;
      var buffer1 := buffer + [AssistantTurn(calls)] + b.turns;
      var rest := Steps(query, exec, script, iteration + 1, buffer1, Respond(script, pos1), pos1 + 1);
      StepsIterations(query, exec, script, iteration + 1, buffer1, Respond(script, pos1), pos1 + 1);
      assert t == Resume([ToolRequest(calls)] + b.log, b.sent + [buffer1], rest);
    } else {
      assert t == Trace([ToolRequest(calls)] + b.log, Answered(b.final.value), iteration + 1, b.sent);
    }
  }

  /** A round's request followed by its results, then well-formed rounds, is well formed. */
  lemma LogRound(calls: seq<ToolCall>, results: seq<LogEntry>, rest: seq<LogEntry>)
    requires |results| <= |calls|
    requires forall j :: 0 <= j < |results| ==> results[j].ToolResultLog? && results[j].name == calls[j].name
    requires WellFormedLog(rest) && (rest == [] || !rest[0].ToolResultLog?)
    ensures WellFormedLog([ToolRequest(calls)] + results + rest)
    ensures ([ToolRequest(calls)] + results + rest)[0] == ToolRequest(calls)
  {
    var all := [ToolRequest(calls)] + results + rest;
    HeadThen(ToolRequest(calls), results, rest);
    ResultRunExactly(all, 1, |results|);
    NamesResults(calls, results, rest, |results|);
    WellFormedShift([ToolRequest(calls)] + results, rest, 0);
  }

  /** The first `n` results after the request name its first `n` calls. */
  lemma {:induction false} NamesResults(calls: seq<ToolCall>, results: seq<LogEntry>, rest: seq<LogEntry>, n: nat)
    requires n <= |results| <= |calls|
    requires forall j :: 0 <= j < |results| ==> results[j].ToolResultLog? && results[j].name == calls[j].name
    ensures NamesCalls([ToolRequest(calls)] + results + rest, 0, n)
    decreases n
  {
    var all := [ToolRequest(calls)] + results + rest;
    HeadThen(ToolRequest(calls), results, rest);
    if n > 0 {
      NamesResults(calls, results, rest, n - 1);
      assert all[1 + (n - 1)] == results[n - 1];
    }
  }

  /** The parts of `x` followed by `a` and then `b`. */
  lemma HeadThen<T>(x: T, a: seq<T>, b: seq<T>)
    ensures var s := [x] + a + b;
      && s[0] == x && |s| == 1 + |a| + |b|
      && (forall j :: 0 <= j < |a| ==> s[1 + j] == a[j])
      && (b != [] ==> s[1 + |a|] == b[0])
  {
  }

  /** Well formed, and starting with a request or the direct response. */
  ghost predicate LogShape(entries: seq<LogEntry>) {
    && WellFormedLog(entries)
    && (entries == [] || entries[0].ToolRequest? || entries[0].DirectResponse?)
  }

  /** The log entries of the rounds are well formed and start with a request or the direct response. */
  lemma {:induction false} StepsLog(query: string, exec: Executor, script: seq<Reply>,
                                    iteration: nat, buffer: seq<ChatItem>, reply: Reply, pos: nat)
    requires Faithful(exec)
    ensures LogShape(Steps(query, exec, script, iteration, buffer, reply, pos).entries)
    decreases MaxIterations - iteration, 1
  {
    if reply.Raised? || iteration >= MaxIterations || !reply.ToolCalls? {
      NoRoundLog(query, exec, script, iteration, buffer, reply, pos);
    } else {
      var b := Batch(reply.calls, exec, pos);
      if b.final.Some? {
        FinalRoundLog(query, exec, script, iteration, buffer, reply, pos);
      } else {
        RoundLog(query, exec, script, iteration, buffer, reply, pos);
      }
    }
  }

  /** A round that runs no tool logs nothing, or only the direct response. */
  lemma NoRoundLog(query: string, exec: Executor, script: seq<Reply>,
                   iteration: nat, buffer: seq<ChatItem>, reply: Reply, pos: nat)
    requires reply.Raised? || iteration >= MaxIterations || !reply.ToolCalls?
    ensures LogShape(Steps(query, exec, script, iteration, buffer, reply, pos).entries)
  {
    var t := Steps(query, exec, script, iteration, buffer, reply, pos);
    if reply.Raised? || iteration >= MaxIterations || reply.NoChoices? {
      assert t.entries == [];
    } else {
      assert t.entries == [DirectResponse(reply.text)];
    }
  }

  /** A round that runs all its tools puts its request and results before the rounds after it. */
  lemma {:induction false} RoundLog(query: string, exec: Executor, script: seq<Reply>,
                                    iteration: nat, buffer: seq<ChatItem>, reply: Reply, pos: nat)
    requires Faithful(exec) && iteration < MaxIterations && reply.ToolCalls?
    requires Batch(reply.calls, exec, pos).final.None?
    ensures LogShape(Steps(query, exec, script, iteration, buffer, reply, pos).entries)
    decreases MaxIterations - iteration, 0
  {
    var calls := reply.calls;
    var t := CallsRound(query, exec, script, iteration, buffer, calls, pos);
    var b := Batch(calls, exec, pos);
    var pos1 := pos + |b.sent|;
    var buffer1 := buffer + [AssistantTurn(calls)] + b.turns;
    var rest := Steps(query, exec, script, iteration + 1, buffer1, Respond(script, pos1), pos1 + 1);
    StepsLog(query, exec, script, iteration + 1, buffer1, Respond(script, pos1), pos1 + 1);
    assert t == Resume([ToolRequest(calls)] + b.log, b.sent + [buffer1], rest);
    assert t.entries == [ToolRequest(calls)] + b.log + rest.entries;
    BatchLog(calls, exec, pos);
    LogRound(calls, b.log, rest.entries);
  }

  /** A round that ends with the final answer logs its request and results, the answer's last. */
  lemma FinalRoundLog(query: string, exec: Executor, script: seq<Reply>,
                      iteration: nat, buffer: seq<ChatItem>, reply: Reply, pos: nat)
    requires Faithful(exec) && iteration < MaxIterations && reply.ToolCalls?
    requires Batch(reply.calls, exec, pos).final.Some?
    ensures LogShape(Steps(query, exec, script, iteration, buffer, reply, pos).entries)
  {
    var calls := reply.calls;
    var b := Batch(calls, exec, pos);
    assert Steps(query, exec, script, iteration, buffer, reply, pos).entries == [ToolRequest(calls)] + b.log + [];
    BatchLog(calls, exec, pos);
    LogRound(calls, b.log, []);
  }

  /** A trace that ends with a direct response or a final answer has it as its last log entry. */
  predicate EndsLogged(t: Trace) {
    && (t.ending.Direct? ==> t.entries != [] && t.entries[|t.entries| - 1] == DirectResponse(t.ending.content))
    && (t.ending.Answered? ==>
          t.entries != [] && t.entries[|t.entries| - 1] == ToolResultLog("final_answer", FinalAnswer(t.ending.data)))
  }

  lemma EndsLoggedResume(entries: seq<LogEntry>, sent: seq<seq<ChatItem>>, rest: Trace)
    requires EndsLogged(rest)
    ensures EndsLogged(Resume(entries, sent, rest))
  {
    if rest.entries != [] {
      assert (entries + rest.entries)[|entries + rest.entries| - 1] == rest.entries[|rest.entries| - 1];
    }
  }

  lemma EndsLoggedAnswer(entries: seq<LogEntry>, log: seq<LogEntry>, data: map<string, Json>, it: nat, sent: seq<seq<ChatItem>>)
    requires log != [] && log[|log| - 1] == ToolResultLog("final_answer", FinalAnswer(data))
    ensures EndsLogged(Trace(entries + log, Answered(data), it, sent))
  {
    assert (entries + log)[|entries + log| - 1] == log[|log| - 1];
  }

  /** The log ends in the direct response, or in the final answer's result, when the loop ends with one. */
  lemma {:induction false} StepsLogEnd(query: string, exec: Executor, script: seq<Reply>,
                                       iteration: nat, buffer: seq<ChatItem>, reply: Reply, pos: nat)
    requires Faithful(exec)
    ensures EndsLogged(Steps(query, exec, script, iteration, buffer, reply, pos))
    decreases MaxIterations - iteration, 1
  {
    var t := Steps(query, exec, script, iteration, buffer, reply, pos);
    if reply.Raised? || iteration >= MaxIterations || reply.NoChoices? {
      assert !t.ending.Direct? && !t.ending.Answered?;
    } else if reply.Content? {
      assert t.entries == [DirectResponse(reply.text)] && t.ending == Direct(reply.text);
    } else {
      RoundLogEnd(query, exec, script, iteration, buffer, reply, pos);
    }
  }

  /** A round of tool calls ends its log in the final answer's result, or leaves the ending to the rounds after it. */
  lemma {:induction false} RoundLogEnd(query: string, exec: Executor, script: seq<Reply>,
                                       iteration: nat, buffer: seq<ChatItem>, reply: Reply, pos: nat)
    requires Faithful(exec) && iteration < MaxIterations && reply.ToolCalls?
    ensures EndsLogged(Steps(query, exec, script, iteration, buffer, reply, pos))
    decreases MaxIterations - iteration, 0
  {
    var calls := reply.calls;
    var t := CallsRound(query, exec, script, iteration, buffer, calls, pos);
    var b := Batch(calls, exec, pos);
    BatchLog(calls, exec, pos);
    if b.final.Some? {
      assert t == Trace([ToolRequest(calls)] + b.log, Answered(b.final.value), iteration + 1, b.sent);
      EndsLoggedAnswer([ToolRequest(calls)], b.log, b.final.value, iteration + 1, b.sent);
    } else {
      var pos1 := pos + |b.sent|;
      var buffer1 := buffer + [AssistantTurn(calls)] + b.turns;
      var rest := Steps(query, exec, script, iteration + 1, buffer1, Respond(script, pos1), pos1 + 1);
      StepsLogEnd(query, exec, script, iteration + 1, buffer1, Respond(script, pos1), pos1 + 1);
      assert t == Resume([ToolRequest(calls)] + b.log, b.sent + [buffer1], rest);
      EndsLoggedResume([ToolRequest(calls)] + b.log, b.sent + [buffer1], rest);
    }
  }

  /** At most one loop request per remaining round. */
  lemma {:induction false} StepsCalls(query: string, exec: Executor, script: seq<Reply>,
                                      iteration: nat, buffer: seq<ChatItem>, reply: Reply, pos: nat)
    requires Faithful(exec) && iteration <= MaxIterations
    ensures RootCalls(Steps(query, exec, script, iteration, buffer, reply, pos).sent) <= MaxIterations - iteration
    decreases MaxIterations - iteration, 1
  {
    if reply.Raised? || iteration >= MaxIterations || !reply.ToolCalls? {
      NoRoundCalls(query, exec, script, iteration, buffer, reply, pos);
    } else {
      var b := Batch(reply.calls, exec, pos);
      if b.final.None? {
        RoundCalls(query, exec, script, iteration, buffer, reply, pos);
      } else {
        FinalRoundCalls(query, exec, script, iteration, buffer, reply, pos);
      }
    }
  }

  /** A round that runs all its tools adds its one loop request to the rounds after it, so the budget still holds. */
  lemma {:induction false} RoundCalls(query: string, exec: Executor, script: seq<Reply>,
                                      iteration: nat, buffer: seq<ChatItem>, reply: Reply, pos: nat)
    requires Faithful(exec) && iteration < MaxIterations && reply.ToolCalls?
    requires Batch(reply.calls, exec, pos).final.None?
    ensures RootCalls(Steps(query, exec, script, iteration, buffer, reply, pos).sent) <= MaxIterations - iteration
    decreases MaxIterations - iteration, 0
  {
    var calls := reply.calls;
    var t := CallsRound(query, exec, script, iteration, buffer, calls, pos);
    var b := Batch(calls, exec, pos);
    var pos1 := pos + |b.sent|;
    var buffer1 := buffer + [AssistantTurn(calls)] + b.turns;
    var rest := Steps(query, exec, script, iteration + 1, buffer1, Respond(script, pos1), pos1 + 1);
    StepsCalls(query, exec, script, iteration + 1, buffer1, Respond(script, pos1), pos1 + 1);
    assert t == Resume([ToolRequest(calls)] + b.log, b.sent + [buffer1], rest);
    assert t.sent == b.sent + [buffer1] + rest.sent;
    BatchRootCalls(calls, exec, pos);
    RootCallsRound(b.sent, buffer1, rest.sent);
    assert RootCalls(t.sent) <= 1 + RootCalls(rest.sent);
  }

  /** A round that ends the loop before any tool runs sends nothing. */
  lemma NoRoundCalls(query: string, exec: Executor, script: seq<Reply>,
                     iteration: nat, buffer: seq<ChatItem>, reply: Reply, pos: nat)
    requires reply.Raised? || iteration >= MaxIterations || !reply.ToolCalls?
    ensures Steps(query, exec, script, iteration, buffer, reply, pos).sent == []
  {
  }

  /** A round that ends with the final answer sends analysis requests only. */
  lemma FinalRoundCalls(query: string, exec: Executor, script: seq<Reply>,
                        iteration: nat, buffer: seq<ChatItem>, reply: Reply, pos: nat)
    requires Faithful(exec) && iteration < MaxIterations && reply.ToolCalls?
    requires Batch(reply.calls, exec, pos).final.Some?
    ensures RootCalls(Steps(query, exec, script, iteration, buffer, reply, pos).sent) == 0
  {
    var b := Batch(reply.calls, exec, pos);
    assert Steps(query, exec, script, iteration, buffer, reply, pos).sent == b.sent;
    BatchRootCalls(reply.calls, exec, pos);
  }

  /** A round's analysis requests, then the loop's next request, then the rest: one more loop request. */
  lemma RootCallsRound(bsent: seq<seq<ChatItem>>, buffer1: seq<ChatItem>, rest: seq<seq<ChatItem>>)
    requires RootCalls(bsent) == 0
    ensures RootCalls(bsent + [buffer1] + rest) <= 1 + RootCalls(rest)
  {
    RootCallsAppend(bsent, [buffer1]);
    RootCallsAppend(bsent + [buffer1], rest);
    RootCallsOne(buffer1);
  }

  /** `r` is `buffer` followed by at least one more message. */
  predicate Extends(r: seq<ChatItem>, buffer: seq<ChatItem>) {
    |buffer| < |r| && r[..|buffer|] == buffer
  }

  /** Every request in `sent` that the loop made itself extends `buffer`. */
  ghost predicate LoopRequestsExtend(sent: seq<seq<ChatItem>>, buffer: seq<ChatItem>) {
    forall r :: r in sent && !IsAnalysis(r) ==> Extends(r, buffer)
  }

  lemma ExtendsRound(bsent: seq<seq<ChatItem>>, buffer1: seq<ChatItem>, rest: seq<seq<ChatItem>>, buffer: seq<ChatItem>)
    requires forall r :: r in bsent ==> IsAnalysis(r)
    requires Extends(buffer1, buffer) && LoopRequestsExtend(rest, buffer1)
    ensures LoopRequestsExtend(bsent + [buffer1] + rest, buffer)
  {
    forall r | r in bsent + [buffer1] + rest && !IsAnalysis(r) ensures Extends(r, buffer) {
      if r in rest {
        assert r[..|buffer1|][..|buffer|] == buffer;
      }
    }
  }

  /** Every loop request extends the message list of the round it is sent from. */
  lemma {:induction false} StepsBuffer(query: string, exec: Executor, script: seq<Reply>,
                                       iteration: nat, buffer: seq<ChatItem>, reply: Reply, pos: nat)
    requires Faithful(exec)
    ensures LoopRequestsExtend(Steps(query, exec, script, iteration, buffer, reply, pos).sent, buffer)
    decreases MaxIterations - iteration, 1
  {
    if reply.Raised? || iteration >= MaxIterations || !reply.ToolCalls? {
      NoRoundCalls(query, exec, script, iteration, buffer, reply, pos);
    } else {
      RoundBuffer(query, exec, script, iteration, buffer, reply, pos);
    }
  }

  /** The loop request after a round of tool calls extends the round's message list, and so do the later ones. */
  lemma {:induction false} RoundBuffer(query: string, exec: Executor, script: seq<Reply>,
                                       iteration: nat, buffer: seq<ChatItem>, reply: Reply, pos: nat)
    requires Faithful(exec) && iteration < MaxIterations && reply.ToolCalls?
    ensures LoopRequestsExtend(Steps(query, exec, script, iteration, buffer, reply, pos).sent, buffer)
    decreases MaxIterations - iteration, 0
  {
    var calls := reply.calls;
    var t := CallsRound(query, exec, script, iteration, buffer, calls, pos);
    var b := Batch(calls, exec, pos);
    BatchAnalysisOnly(calls, exec, pos);
    if b.final.None? {
      var pos1 := pos + |b.sent|;
      var buffer1 := buffer + [AssistantTurn(calls)] + b.turns;
      var rest := Steps(query, exec, script, iteration + 1, buffer1, Respond(script, pos1), pos1 + 1);
      StepsBuffer(query, exec, script, iteration + 1, buffer1, Respond(script, pos1), pos1 + 1);
      assert t.sent == b.sent + [buffer1] + rest.sent;
      assert buffer1[..|buffer|] == buffer;
      ExtendsRound(b.sent, buffer1, rest.sent, buffer);
    } else {
      assert t.sent == b.sent;
    }
  }

  /**
   * The loop runs at most twenty rounds and calls the backend for itself at
   * most twenty-one times: once before the loop and once after each round
   * that neither answered nor stopped. The first request is the query
   * alone; every later one starts with the system prompt and the query.
   */
  lemma RunBounds(query: string, history: seq<Message>, script: seq<Reply>, pos: nat)
    ensures var t := Run(query, history, script, pos);
      && t.iterations <= MaxIterations
      && RootCalls(t.sent) <= MaxIterations + 1
      && t.sent[0] == [UserTurn(query)]
      && forall r :: r in t.sent[1..] && !IsAnalysis(r) ==> |r| > 2 && r[..2] == [RootSystemPrompt(query), UserTurn(query)]
  {
    var exec := Tools(history, script);
    ToolsFaithful(history, script);
    var buffer := [RootSystemPrompt(query), UserTurn(query)];
    var s := Steps(query, exec, script, 0, buffer, Respond(script, pos), pos + 1);
    StepsIterations(query, exec, script, 0, buffer, Respond(script, pos), pos + 1);
    StepsCalls(query, exec, script, 0, buffer, Respond(script, pos), pos + 1);
    StepsBuffer(query, exec, script, 0, buffer, Respond(script, pos), pos + 1);
    RootCallsAppend([[UserTurn(query)]], s.sent);
    RootCallsOne([UserTurn(query)]);
    var t := Run(query, history, script, pos);
    assert t.sent[1..] == s.sent;
  }

  /**
   * The returned dictionary: an error result exactly when the iteration count
   * is 0 and exactly when the log is empty; otherwise between one and twenty
   * rounds, and the log is the two seed entries followed by well-formed rounds.
   */
  lemma ProcessQueryShape(query: string, history: seq<Message>, script: seq<Reply>, pos: nat)
    ensures var r := ProcessQuery(query, history, script, pos);
      && (r.error.Some? <==> r.iterations == 0)
      && (r.error.Some? <==> r.conversationLog == [])
      && (r.error.None? ==>
            && 1 <= r.iterations <= MaxIterations
            && |r.conversationLog| >= 2 && r.conversationLog[..2] == Seed(query)
            && WellFormedLog(r.conversationLog[2..]))
  {
    var exec := Tools(history, script);
    ToolsFaithful(history, script);
    var buffer := [RootSystemPrompt(query), UserTurn(query)];
    StepsIterations(query, exec, script, 0, buffer, Respond(script, pos), pos + 1);
    StepsLog(query, exec, script, 0, buffer, Respond(script, pos), pos + 1);
    AnswerShape(query, Run(query, history, script, pos));
  }

  /** The result built from a trace of one to twenty rounds with a well-formed log. */
  lemma AnswerShape(query: string, t: Trace)
    requires !t.ending.Fault? ==> 1 <= t.iterations <= MaxIterations
    requires WellFormedLog(t.entries)
    ensures var r := Answer(query, t);
      && (r.error.Some? <==> r.iterations == 0)
      && (r.error.Some? <==> r.conversationLog == [])
      && (r.error.None? ==>
            && 1 <= r.iterations <= MaxIterations
            && |r.conversationLog| >= 2 && r.conversationLog[..2] == Seed(query)
            && WellFormedLog(r.conversationLog[2..]))
  {
    assert (Seed(query) + t.entries)[2..] == t.entries;
  }

  /** A first reply with content is the answer after one round, with the reply logged as a direct response. */
  lemma DirectAnswer(query: string, history: seq<Message>, script: seq<Reply>, pos: nat, text: string)
    requires Respond(script, pos) == Content(text)
    ensures ProcessQuery(query, history, script, pos)
         == QueryResult(JStr(text), JStr("Direct response without tool usage"), JArr([]),
                        Seed(query) + [DirectResponse(text)], 1, None)
  {
  }

  /** A first reply without choices leaves the loop after one round with the apology. */
  lemma NoChoicesApology(query: string, history: seq<Message>, script: seq<Reply>, pos: nat)
    requires Respond(script, pos) == NoChoices
    ensures ProcessQuery(query, history, script, pos)
         == QueryResult(JStr(Apology), JStr("Max iterations reached without final answer"), JArr([]), Seed(query), 1, None)
  {
  }

  /** Replies that are all empty batches of tool calls drive the loop through all twenty rounds. */
  lemma {:induction false} EmptyBatchesExhaust(query: string, exec: Executor, script: seq<Reply>,
                                               iteration: nat, buffer: seq<ChatItem>, pos: nat)
    requires iteration <= MaxIterations && buffer != [] && buffer[0] == RootSystemPrompt(query)
    requires forall k :: pos <= k < |script| ==> script[k] == ToolCalls([])
    requires pos + (MaxIterations - iteration) <= |script|
    ensures Exhausted(Steps(query, exec, script, iteration, buffer, ToolCalls([]), pos), iteration)
    decreases MaxIterations - iteration, 1
  {
    if iteration < MaxIterations {
      EmptyRoundExhaust(query, exec, script, iteration, buffer, pos);
    }
  }

  /** The rounds from `iteration` on ran out of rounds, one loop request each. */
  ghost predicate Exhausted(t: Trace, iteration: nat) {
    && t.ending == OutOfSteps && t.iterations == MaxIterations
    && |t.sent| == MaxIterations - iteration && RootCalls(t.sent) == MaxIterations - iteration
  }

  /** An empty batch of tool calls sends one loop request and leaves the rest of the rounds to the next reply. */
  lemma {:induction false} EmptyRoundExhaust(query: string, exec: Executor, script: seq<Reply>,
                                             iteration: nat, buffer: seq<ChatItem>, pos: nat)
    requires iteration < MaxIterations && buffer != [] && buffer[0] == RootSystemPrompt(query)
    requires forall k :: pos <= k < |script| ==> script[k] == ToolCalls([])
    requires pos + (MaxIterations - iteration) <= |script|
    ensures Exhausted(Steps(query, exec, script, iteration, buffer, ToolCalls([]), pos), iteration)
    decreases MaxIterations - iteration, 0
  {
    var buffer1 := buffer + [AssistantTurn([])] + [];
    var rest := Steps(query, exec, script, iteration + 1, buffer1, ToolCalls([]), pos + 1);
    EmptyBatchesExhaust(query, exec, script, iteration + 1, buffer1, pos + 1);
    EmptyRound(query, exec, script, iteration, buffer, pos);
    var t := Steps(query, exec, script, iteration, buffer, ToolCalls([]), pos);
    assert t.sent == [buffer1] + rest.sent && t.ending == rest.ending && t.iterations == rest.iterations;
    RootCallsAppend([buffer1], rest.sent);
    RootCallsOne(buffer1);
    assert RootCalls(t.sent) == 1 + RootCalls(rest.sent);
  }

  /** A round whose reply requests no tool resumes with the next reply after one loop request. */
  lemma EmptyRound(query: string, exec: Executor, script: seq<Reply>, iteration: nat, buffer: seq<ChatItem>, pos: nat)
    requires iteration < MaxIterations && buffer != []
    requires pos < |script| && script[pos] == ToolCalls([])
    ensures var buffer1 := buffer + [AssistantTurn([])] + [];
      && buffer1[0] == buffer[0]
      && Steps(query, exec, script, iteration, buffer, ToolCalls([]), pos)
           == Resume([ToolRequest([])], [buffer1], Steps(query, exec, script, iteration + 1, buffer1, ToolCalls([]), pos + 1))
  {
    var buffer1 := buffer + [AssistantTurn([])] + [];
    assert Batch([], exec, pos) == BatchOutcome([], [], None, []);
    assert Respond(script, pos) == ToolCalls([]);
    assert [ToolRequest([])] + [] == [ToolRequest([])];
    assert [] + [buffer1] == [buffer1];
  }

  /**
   * The bound is reached: twenty-one replies that each request no tool at
   * all make the loop call the backend twenty-one times and end with the
   * apology after twenty rounds.
   */
  lemma TwentyOneCalls(query: string, history: seq<Message>)
    ensures var script := seq(MaxIterations + 1, _ => ToolCalls([]));
      var t := Run(query, history, script, 0);
      && RootCalls(t.sent) == MaxIterations + 1
      && ProcessQuery(query, history, script, 0).answer == JStr(Apology)
      && ProcessQuery(query, history, script, 0).iterations == MaxIterations
  {
    var script := seq(MaxIterations + 1, _ => ToolCalls([]));
    var exec := Tools(history, script);
    var buffer := [RootSystemPrompt(query), UserTurn(query)];
    EmptyBatchesExhaust(query, exec, script, 0, buffer, 1);
    assert Respond(script, 0) == ToolCalls([]);
    var s := Steps(query, exec, script, 0, buffer, ToolCalls([]), 1);
    RootCallsAppend([[UserTurn(query)]], s.sent);
    RootCallsOne([UserTurn(query)]);
  }

  // ---------------------------------------------------------------------------
  // The agent

  class TrueRlmAgent {
    const rlmStorage: RlmStorage
    const llm: ScriptedBackend

    constructor (rlmStorage: RlmStorage, llm: ScriptedBackend)
      ensures this.rlmStorage == rlmStorage && this.llm == llm
    {
      this.rlmStorage := rlmStorage;
      this.llm := llm;
    }

    /** Run one batch of tool calls, stopping at a final answer. */
    method RunToolCalls(calls: seq<ToolCall>, history: seq<Message>)
      returns (log: seq<LogEntry>, toolResults: seq<ChatItem>, finalAnswer: Option<map<string, Json>>)
      modifies llm
      ensures var b := Batch(calls, Tools(history, llm.script), old(llm.position));
        && log == b.log && toolResults == b.turns && finalAnswer == b.final
        && llm.received == old(llm.received) + b.sent && llm.position == old(llm.position) + |b.sent|
    {
      log, toolResults, finalAnswer := [], [], None;
      ghost var exec := Tools(history, llm.script);
      ghost var sent: seq<seq<ChatItem>> := [];
      var i := 0;
      while i < |calls|
        invariant 0 <= i <= |calls|
        invariant llm.received == old(llm.received) + sent && llm.position == old(llm.position) + |sent|
        invariant Batch(calls, exec, old(llm.position)) == Glue(log, toolResults, sent, Batch(calls[i..], exec, llm.position))
      {
        var toolCall := calls[i];
        ghost var pos := llm.position;
        ghost var s := exec(toolCall.name, toolCall.arguments, pos);
        var result := CallTool(toolCall, history, exec, s);
        AppendAssoc(old(llm.received), sent, s.sent);
        if result.FinalAnswer? {
          BatchStop(calls, i, exec, old(llm.position), log, toolResults, sent, pos, s);
          log, sent := log + [ToolResultLog(toolCall.name, result)], sent + s.sent;
          finalAnswer := Some(result.data);
          return;
        }
        ghost var log0, toolResults0, sent0 := log, toolResults, sent;
        log, sent := log + [ToolResultLog(toolCall.name, result)], sent + s.sent;
        toolResults := toolResults + [ToolTurn(toolCall.id, result)];
        BatchGoOn(calls, i, exec, old(llm.position), log0, toolResults0, sent0, pos, s, log, toolResults, sent);
        i := i + 1;
      }
    }

    /** Run one tool call: the step `exec` describes for it. */
    method CallTool(toolCall: ToolCall, history: seq<Message>, ghost exec: Executor, ghost s: Step) returns (result: ToolResult)
      requires exec == Tools(history, llm.script)
      requires s == exec(toolCall.name, toolCall.arguments, llm.position)
      modifies llm
      ensures result == s.result
      ensures llm.received == old(llm.received) + s.sent && llm.position == old(llm.position) + |s.sent|
    {
      result := ExecuteContextTool(ParseToolName(toolCall.name), toolCall.arguments, history, llm);
      assert Invoke(exec, toolCall.name, toolCall.arguments, old(llm.position))
          == exec(toolCall.name, toolCall.arguments, old(llm.position));
    }

    /**
     * One round of tool use: run the calls and, unless one was a final
     * answer, send the grown message list back to the model.
     */
    method ToolRound(calls: seq<ToolCall>, history: seq<Message>, messages: seq<ChatItem>, ghost exec: Executor)
      returns (batchLog: seq<LogEntry>, finalAnswer: Option<map<string, Json>>, nextMessages: seq<ChatItem>, response: Reply)
      requires exec == Tools(history, llm.script)
      modifies llm
      ensures var b := Batch(calls, exec, old(llm.position));
        && batchLog == b.log && finalAnswer == b.final
        && (b.final.Some? ==> llm.received == old(llm.received) + b.sent && llm.position == old(llm.position) + |b.sent|)
        && (b.final.None? ==>
              && nextMessages == messages + [AssistantTurn(calls)] + b.turns
              && response == Respond(llm.script, old(llm.position) + |b.sent|)
              && llm.received == old(llm.received) + b.sent + [nextMessages]
              && llm.position == old(llm.position) + |b.sent| + 1)
    {
      var toolResults;
      batchLog, toolResults, finalAnswer := RunToolCalls(calls, history);
      nextMessages := messages;
      response := NoChoices;
      if finalAnswer.None? {
        nextMessages := messages + [AssistantTurn(calls)] + toolResults;
        response := llm.Chat(nextMessages);
      }
    }

    /**
     * One round of the loop of `process_user_query` for a reply asking for `calls`: the tool-request
     * entry and the batch's entries are the round's log, and the round's trace ends with the final
     * answer or goes on with the next reply.
     */
    method ToolStep(userQuery: string, history: seq<Message>, calls: seq<ToolCall>, messages: seq<ChatItem>,
                    ghost exec: Executor, ghost round: nat)
      returns (roundLog: seq<LogEntry>, finalAnswer: Option<map<string, Json>>, nextMessages: seq<ChatItem>,
               response: Reply, ghost roundSent: seq<seq<ChatItem>>)
      requires exec == Tools(history, llm.script) && 1 <= round <= MaxIterations
      modifies llm
      ensures llm.received == old(llm.received) + roundSent && llm.position == old(llm.position) + |roundSent|
      ensures finalAnswer.Some? ==>
        Steps(userQuery, exec, llm.script, round - 1, messages, ToolCalls(calls), old(llm.position))
          == Trace(roundLog, Answered(finalAnswer.value), round, roundSent)
      ensures finalAnswer.None? ==>
        Steps(userQuery, exec, llm.script, round - 1, messages, ToolCalls(calls), old(llm.position))
          == Resume(roundLog, roundSent, Steps(userQuery, exec, llm.script, round, nextMessages, response, llm.position))
    {
      ghost var pos := llm.position;
      ghost var b := Batch(calls, exec, pos);
      var batchLog;
      batchLog, finalAnswer, nextMessages, response := ToolRound(calls, history, messages, exec);
      roundLog := [ToolRequest(calls)] + batchLog;
      if finalAnswer.Some? {
        roundSent := b.sent;
      } else {
        roundSent := b.sent + [nextMessages];
        ghost var rest := Steps(userQuery, exec, llm.script, round, nextMessages, response, llm.position);
        assert Steps(userQuery, exec, llm.script, round - 1, messages, ToolCalls(calls), pos)
            == Trace(roundLog + rest.entries, rest.ending, rest.iterations, roundSent + rest.sent);
      }
    }

    /**
     * One pass of the loop of `process_user_query`, the `iteration`-th before it: a request for
     * tools is served and its log appended; a final answer, a direct reply, a reply without choices
     * (the loop's `break`) or a failing next call ends the query with its result, otherwise the loop
     * goes on with the next reply. `t` is the trace of the whole loop, made of the log entries
     * `entries` and the requests `sent` of the earlier passes and the rounds from this one on;
     * `base` and `pos0` are the backend's record and call count before the loop.
     */
    method LoopStep(userQuery: string, history: seq<Message>, iteration: nat, messages: seq<ChatItem>, reply: Reply,
                    conversationLog: seq<LogEntry>, ghost exec: Executor, ghost t: Trace,
                    ghost entries: seq<LogEntry>, ghost sent: seq<seq<ChatItem>>, ghost base: seq<seq<ChatItem>>, ghost pos0: nat)
      returns (done: Option<QueryResult>, log: seq<LogEntry>, nextMessages: seq<ChatItem>, response: Reply,
               ghost roundLog: seq<LogEntry>, ghost roundSent: seq<seq<ChatItem>>)
      requires exec == Tools(history, llm.script) && iteration < MaxIterations && !reply.Raised?
      requires Tracks(userQuery, exec, llm.script, t, base, pos0, iteration, messages, reply,
                      conversationLog, entries, sent, llm.received, llm.position)
      modifies llm
      ensures done.Some? ==> Delivers(userQuery, t, done.value, base, pos0, llm.received, llm.position)
      ensures done.None? ==>
        Tracks(userQuery, exec, llm.script, t, base, pos0, iteration + 1, nextMessages, response,
               log, entries + roundLog, sent + roundSent, llm.received, llm.position)
    {
      ghost var pos := llm.position;
      ghost var s := Steps(userQuery, exec, llm.script, iteration, messages, reply, pos);
      nextMessages, response := messages, reply;
      if reply.ToolCalls? {
        var calls := reply.calls;
        assert reply == ToolCalls(calls);
        var finalAnswer, passLog;
        passLog, finalAnswer, nextMessages, response, roundSent :=
          ToolStep(userQuery, history, calls, messages, exec, iteration + 1);
        roundLog := passLog;
        log := conversationLog + passLog;
        if finalAnswer.Some? {
          done := Some(FinalResult(finalAnswer.value, log, iteration + 1));
        } else if response.Raised? {
          ghost var rest := Steps(userQuery, exec, llm.script, iteration + 1, nextMessages, response, llm.position);
          assert rest == Trace([], Fault(response.reason), iteration + 1, []);
          assert roundSent + [] == roundSent;
          done := Some(ErrorResult(response.reason));
        } else {
          done := None;
          ghost var rest := Steps(userQuery, exec, llm.script, iteration + 1, nextMessages, response, llm.position);
          ResumeResume(entries, sent, roundLog, roundSent, rest);
        }
      } else if reply.Content? {
        log := conversationLog + [DirectResponse(reply.text)];
        roundLog, roundSent := [DirectResponse(reply.text)], [];
        done := Some(DirectResult(reply.text, log, iteration + 1));
      } else {
        roundLog, roundSent := [], [];
        log := conversationLog;
        assert entries + [] == entries;
        done := Some(ApologyResult(log, iteration + 1));
      }
      AppendAssoc(Seed(userQuery), entries, roundLog);
      AppendAssoc(base, sent, roundSent);
    }

    /**
     * The rounds of `process_user_query` after its first call was answered
     * with `reply`: the loop of up to twenty rounds of tool use.
     */
    method RunRounds(userQuery: string, history: seq<Message>, reply: Reply, ghost exec: Executor)
      returns (result: QueryResult)
      requires exec == Tools(history, llm.script) && !reply.Raised?
      modifies llm
      ensures Delivers(userQuery, Steps(userQuery, exec, llm.script, 0, [RootSystemPrompt(userQuery), UserTurn(userQuery)], reply, old(llm.position)),
                       result, old(llm.received), old(llm.position), llm.received, llm.position)
    {
      ghost var pos0 := llm.position;
      ghost var t := Steps(userQuery, exec, llm.script, 0, [RootSystemPrompt(userQuery), UserTurn(userQuery)], reply, pos0);
      var response := reply;
      var currentMessages := [RootSystemPrompt(userQuery), UserTurn(userQuery)];
      var conversationLog := Seed(userQuery);
      ghost var entries: seq<LogEntry> := [];
      ghost var sent: seq<seq<ChatItem>> := [];
      var iteration := 0;
      StartRounds(userQuery, exec, llm.script, currentMessages, response, old(llm.received), pos0);
      while iteration < MaxIterations
        invariant 0 <= iteration <= MaxIterations
        invariant Tracks(userQuery, exec, llm.script, t, old(llm.received), pos0, iteration, currentMessages, response,
                         conversationLog, entries, sent, llm.received, llm.position)
      {
        var done;
        ghost var roundLog, roundSent;
        done, conversationLog, currentMessages, response, roundLog, roundSent :=
          LoopStep(userQuery, history, iteration, currentMessages, response, conversationLog, exec, t, entries, sent, old(llm.received), pos0);
        if done.Some? {
          return done.value;
        }
        entries, sent := entries + roundLog, sent + roundSent;
        iteration := iteration + 1;
      }
      OutOfRounds(userQuery, exec, llm.script, t, old(llm.received), pos0, currentMessages, response,
                  conversationLog, entries, sent, llm.received, llm.position);
      return ApologyResult(conversationLog, iteration);
    }

    /** `process_user_query` over a given merged history: the first call with the query alone, then the rounds. */
    method ProcessQueryOver(history: seq<Message>, userQuery: string) returns (result: QueryResult)
      modifies llm
      ensures var t := Run(userQuery, history, llm.script, old(llm.position));
        && result == Answer(userQuery, t)
        && llm.received == old(llm.received) + t.sent && llm.position == old(llm.position) + |t.sent|
    {
      var response := llm.Chat([UserTurn(userQuery)]);
      if response.Raised? {
        assert Run(userQuery, history, llm.script, old(llm.position)) == Trace([], Fault(response.reason), 0, [[UserTurn(userQuery)]] + []);
        return ErrorResult(response.reason);
      }
      result := RunRounds(userQuery, history, response, Tools(history, llm.script));
      ghost var s := Steps(userQuery, Tools(history, llm.script), llm.script, 0,
                           [RootSystemPrompt(userQuery), UserTurn(userQuery)], response, old(llm.position) + 1);
      assert Run(userQuery, history, llm.script, old(llm.position)) == Trace(s.entries, s.ending, s.iterations, [[UserTurn(userQuery)]] + s.sent);
      AppendAssoc(old(llm.received), [[UserTurn(userQuery)]], s.sent);
    }

    /** `process_user_query`: answer `userQuery` over the merged history of the conversation. */
    method ProcessUserQuery(conversationId: string, userQuery: string) returns (result: QueryResult)
      modifies llm
      ensures var t := Run(userQuery, rlmStorage.GetFullHistoryForSearch(conversationId), llm.script, old(llm.position));
        && result == Answer(userQuery, t)
        && llm.received == old(llm.received) + t.sent && llm.position == old(llm.position) + |t.sent|
    {
      var history := rlmStorage.GetFullHistoryForSearch(conversationId);
      result := ProcessQueryOver(history, userQuery);
    }
  }
}
