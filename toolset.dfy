/**
 * The context tools the root model may call while it answers a query: an
 * overview of the merged history, a chunk of it by index range, a fuzzy
 * search with expansion around each hit, a recursive call to a second model
 * on a subset of the history, and the final answer.
 *
 * Each tool is a specification function of the merged history and the
 * already-parsed JSON arguments; the tools whose code works with loops are
 * also methods proved equal to their function. The language-model backend is
 * a script of replies held by `ScriptedBackend`, which records every request
 * it receives.
 */
module Toolset {
  import opened Common
  import opened Text
  import opened FuzzySearch

  // ---------------------------------------------------------------------------
  // Tool names

  /** The five tools the schema offers, and any other name the model may send. */
  datatype ToolName =
    | OverviewTool
    | ChunkTool
    | SearchTool
    | RecursiveTool
    | FinalAnswerTool
    | UnknownTool(name: string)

  function ToolNameText(t: ToolName): string {
    match t
    case OverviewTool => "get_context_overview"
    case ChunkTool => "get_context_chunk"
    case SearchTool => "search_context"
    case RecursiveTool => "recursive_lm_call"
    case FinalAnswerTool => "final_answer"
    case UnknownTool(n) => n
  }

  /** The name a tool call carries, as the dispatch compares it. */
  function ParseToolName(s: string): (t: ToolName)
    ensures ToolNameText(t) == s
  {
    if s == "get_context_overview" then OverviewTool
    else if s == "get_context_chunk" then ChunkTool
    else if s == "search_context" then SearchTool
    else if s == "recursive_lm_call" then RecursiveTool
    else if s == "final_answer" then FinalAnswerTool
    else UnknownTool(s)
  }

  /** Parsing recovers every tool, and every unknown name that is not a tool's own. */
  lemma ParseToolNameRoundTrip(t: ToolName)
    requires t.UnknownTool? ==>
      t.name !in {"get_context_overview", "get_context_chunk", "search_context", "recursive_lm_call", "final_answer"}
    ensures ParseToolName(ToolNameText(t)) == t
  {
  }

  // ---------------------------------------------------------------------------
  // Tool payloads, chat requests and the scripted backend

  /** An error payload `{"error": ...}`; the text of a caught exception is not modelled. */
  datatype ToolFailure =
    | NoSuchTool(name: string)
    | StartBeyondEnd(startIndex: int, total: nat)
    | NoContextSubset
    | Failed(operation: string)

  /** One search hit with the messages around it. */
  datatype Expanded = Expanded(searchResult: SearchHit, expandedContext: seq<Message>)

  /** The tally `role_counts`: an insertion-ordered dictionary from role to count. */
  type Counts = seq<(string, nat)>

  /** The dictionaries the tools return. */
  datatype ToolResult =
    | EmptyOverview
    | OverviewStats(totalMessages: nat, totalTokens: nat, conversationSpan: string,
                    potentialTopics: seq<string>, messageDistribution: Counts)
    | ChunkResult(chunk: seq<Message>, startIndex: int, endIndex: int, totalInChunk: nat,
                  estimatedTokens: nat, hasMore: bool)
    | NoResults
    | Found(results: seq<Expanded>, query: string, totalFound: nat)
    | Analysis(result: string, task: Json, contextSize: nat)
    | FinalAnswer(data: map<string, Json>)
    | ToolError(failure: ToolFailure)

  /** A tool call of the model, its arguments already parsed. */
  datatype ToolCall = ToolCall(id: string, name: string, arguments: map<string, Json>)

  /**
   * What one backend call yields: an exception, a response without choices,
   * a message with content, or a message with tool calls (and no content).
   */
  datatype Reply =
    | Raised(reason: string)
    | NoChoices
    | Content(text: string)
    | ToolCalls(calls: seq<ToolCall>)

  /** The entries of the message lists sent to the backend. */
  datatype ChatItem =
    | RootSystemPrompt(userQuery: string)
    | UserTurn(text: string)
    | AssistantTurn(calls: seq<ToolCall>)
    | ToolTurn(toolCallId: string, result: ToolResult)
    | AnalystSystemPrompt
    | AnalysisRequest(task: Json, prompt: Json, contextSubset: Json)

  /** The reply to call number `pos`; calls beyond the script raise. */
  function Respond(script: seq<Reply>, pos: nat): (r: Reply)
    ensures pos >= |script| ==> r.Raised?
  {
    if pos < |script| then script[pos] else Raised("no scripted reply")
  }

  /** The language-model client: answers call after call from its script and records each request. */
  class ScriptedBackend {
    const script: seq<Reply>
    /** How many calls have been made. */
    var position: nat
    /** The message list of every call, in order. */
    var received: seq<seq<ChatItem>>

    constructor (script: seq<Reply>)
      ensures this.script == script && position == 0 && received == []
    {
      this.script := script;
      position := 0;
      received := [];
    }

    method Chat(messages: seq<ChatItem>) returns (reply: Reply)
      modifies this
      ensures reply == Respond(script, old(position))
      ensures position == old(position) + 1 && received == old(received) + [messages]
    {
      reply := Respond(script, position);
      position := position + 1;
      received := received + [messages];
    }
  }

  /** A tool's payload and the requests it sent to the backend. */
  datatype Step = Step(result: ToolResult, sent: seq<seq<ChatItem>>)

  /** A JSON value used as an integer: Python accepts `int` and `bool`; anything else raises. */
  function AsInt(j: Json): (r: Option<int>)
    ensures r.Some? <==> j.JInt? || j.JBool?
  {
    match j
    case JInt(i) => Some(i)
    case JBool(b) => Some(if b then 1 else 0)
    case _ => None
  }

  // ---------------------------------------------------------------------------
  // get_context_overview

  /** The non-empty timestamps, in history order. */
  function Stamps(ms: seq<Message>): (ts: seq<string>)
    ensures |ts| <= |ms| && forall k :: 0 <= k < |ts| ==> ts[k] != []
  {
    if ms == [] then []
    else
      var t := ms[|ms| - 1].timestamp;
      Stamps(ms[..|ms| - 1]) + (if t != [] then [t] else [])
  }

  /** First and last date (the first ten characters of the timestamps), or "Unknown time span". */
  function Span(ms: seq<Message>): string {
    var ts := Stamps(ms);
    if ts == [] then "Unknown time span" else Take(ts[0], 10) + " to " + Take(ts[|ts| - 1], 10)
  }

  /** All contents, lower-cased and joined with single spaces. */
  function AllText(ms: seq<Message>): string {
    Join(seq(|ms|, i requires 0 <= i < |ms| => Lower(ms[i].content)), " ")
  }

  /** The words longer than four characters that occur more than twice in `text`, repeats kept. */
  function TopicWords(words: seq<string>, text: string): (r: seq<string>)
    ensures |r| <= |words|
  {
    if words == [] then []
    else
      var w := words[0];
      (if |w| > 4 && CountOccurrences(text, w) > 2 then [w] else []) + TopicWords(words[1..], text)
  }

  lemma {:induction false} TopicWordsSound(words: seq<string>, text: string)
    ensures forall w :: w in TopicWords(words, text) ==> w in words && |w| > 4 && CountOccurrences(text, w) > 2
  {
    if words != [] {
      TopicWordsSound(words[1..], text);
    }
  }

  /** `potential_topics`: the first ten topic words of the joined text. */
  function Topics(ms: seq<Message>): seq<string> {
    var text := AllText(ms);
    Take(TopicWords(Words(text), text), 10)
  }

  /**
   * At most ten topics; each is a word of the joined text, longer than four
   * characters, occurring in it more than twice (as a substring).
   */
  lemma TopicsSound(ms: seq<Message>)
    ensures var r, text := Topics(ms), AllText(ms);
      && |r| <= 10
      && forall w :: w in r ==>
           w in Words(text) && |w| > 4 && CountOccurrences(text, w) > 2 && IsSubstring(w, text)
  {
    var text := AllText(ms);
    var all := TopicWords(Words(text), text);
    TopicWordsSound(Words(text), text);
    var r := Topics(ms);
    assert r == all[..|r|];
    forall w | w in r ensures w in all {
      var k :| 0 <= k < |r| && r[k] == w;
      assert all[k] == w;
    }
  }

  /** `dict.get(key, 0)` on the tally. */
  function CountOf(d: Counts, key: string): nat {
    if d == [] then 0 else if d[0].0 == key then d[0].1 else CountOf(d[1..], key)
  }

  /** `d[key] = v` on the tally: overwrite the entry in place, or add one at the end. */
  function SetCount(d: Counts, key: string, v: nat): (r: Counts)
    ensures |d| <= |r| <= |d| + 1
  {
    if d == [] then [(key, v)]
    else if d[0].0 == key then [(key, v)] + d[1..]
    else [d[0]] + SetCount(d[1..], key, v)
  }

  function CountsTotal(d: Counts): nat {
    if d == [] then 0 else d[0].1 + CountsTotal(d[1..])
  }

  ghost function KeySet(d: Counts): set<string> {
    set i | 0 <= i < |d| :: d[i].0
  }

  ghost predicate DistinctKeys(d: Counts) {
    forall i, j :: 0 <= i < j < |d| ==> d[i].0 != d[j].0
  }

  /** Reading back a key just set gives the new value; other keys keep theirs. */
  lemma {:induction false} SetCountGet(d: Counts, key: string, v: nat, other: string)
    ensures CountOf(SetCount(d, key, v), other) == if other == key then v else CountOf(d, other)
  {
    if d != [] && d[0].0 != key {
      SetCountGet(d[1..], key, v, other);
      assert ([d[0]] + SetCount(d[1..], key, v))[1..] == SetCount(d[1..], key, v);
    }
  }

  /** Setting a key changes the total by the difference between the new and the old count. */
  lemma {:induction false} SetCountTotal(d: Counts, key: string, v: nat)
    ensures CountsTotal(SetCount(d, key, v)) + CountOf(d, key) == CountsTotal(d) + v
  {
    if d == [] {
      assert CountsTotal([(key, v)]) == v + CountsTotal([]);
    } else if d[0].0 == key {
      assert ([(key, v)] + d[1..])[1..] == d[1..];
    } else {
      SetCountTotal(d[1..], key, v);
      assert ([d[0]] + SetCount(d[1..], key, v))[1..] == SetCount(d[1..], key, v);
    }
  }

  lemma KeySetCons(h: (string, nat), t: Counts)
    ensures KeySet([h] + t) == {h.0} + KeySet(t)
  {
    var d := [h] + t;
    forall x | x in KeySet(d) ensures x in {h.0} + KeySet(t) {
      var i :| 0 <= i < |d| && d[i].0 == x;
      if i > 0 { assert t[i - 1].0 == x; }
    }
    forall x | x in KeySet(t) ensures x in KeySet(d) {
      var i :| 0 <= i < |t| && t[i].0 == x;
      assert d[i + 1].0 == x;
    }
    assert d[0].0 == h.0;
  }

  lemma DistinctCons(h: (string, nat), t: Counts)
    ensures DistinctKeys([h] + t) <==> h.0 !in KeySet(t) && DistinctKeys(t)
  {
    var d := [h] + t;
    if DistinctKeys(d) {
      forall i | 0 <= i < |t| ensures t[i].0 != h.0 {
        assert t[i] == d[i + 1] && d[0] == h;
      }
      forall i, j | 0 <= i < j < |t| ensures t[i].0 != t[j].0 {
        assert t[i] == d[i + 1] && t[j] == d[j + 1];
      }
    }
    if h.0 !in KeySet(t) && DistinctKeys(t) {
      forall i, j | 0 <= i < j < |d| ensures d[i].0 != d[j].0 {
        assert d[j] == t[j - 1];
        if i > 0 { assert d[i] == t[i - 1]; } else { assert t[j - 1].0 in KeySet(t); }
      }
    }
  }

  /** Setting a key adds exactly that key, and keeps the keys distinct. */
  lemma {:induction false} SetCountKeys(d: Counts, key: string, v: nat)
    ensures KeySet(SetCount(d, key, v)) == KeySet(d) + {key}
    ensures DistinctKeys(d) ==> DistinctKeys(SetCount(d, key, v))
  {
    if d == [] {
      KeySetCons((key, v), []);
      DistinctCons((key, v), []);
      assert [(key, v)] + [] == [(key, v)];
    } else {
      assert d == [d[0]] + d[1..];
      KeySetCons(d[0], d[1..]);
      DistinctCons(d[0], d[1..]);
      if d[0].0 == key {
        KeySetCons((key, v), d[1..]);
        DistinctCons((key, v), d[1..]);
      } else {
        var tail := SetCount(d[1..], key, v);
        SetCountKeys(d[1..], key, v);
        KeySetCons(d[0], tail);
        DistinctCons(d[0], tail);
      }
    }
  }

  /** Number of messages with the given role. */
  function RoleCount(ms: seq<Message>, role: string): (n: nat)
    ensures n <= |ms|
  {
    if ms == [] then 0
    else RoleCount(ms[..|ms| - 1], role) + (if ms[|ms| - 1].role == role then 1 else 0)
  }

  ghost function Roles(ms: seq<Message>): set<string> {
    set i | 0 <= i < |ms| :: ms[i].role
  }

  /** `message_distribution`: one more for each message's role, in history order. */
  function Distribution(ms: seq<Message>): Counts {
    if ms == [] then []
    else
      var d := Distribution(ms[..|ms| - 1]);
      var role := ms[|ms| - 1].role;
      SetCount(d, role, CountOf(d, role) + 1)
  }

  /**
   * The distribution has one entry per role present, with distinct keys; each
   * role's count is its number of messages, and the counts add up to the
   * number of messages.
   */
  lemma {:induction false} DistributionSound(ms: seq<Message>)
    ensures var d := Distribution(ms);
      && CountsTotal(d) == |ms|
      && DistinctKeys(d)
      && KeySet(d) == Roles(ms)
      && forall role :: CountOf(d, role) == RoleCount(ms, role)
  {
    if ms != [] {
      var init, role := ms[..|ms| - 1], ms[|ms| - 1].role;
      DistributionSound(init);
      var d0 := Distribution(init);
      var v := CountOf(d0, role) + 1;
      SetCountTotal(d0, role, v);
      SetCountKeys(d0, role, v);
      forall other ensures CountOf(Distribution(ms), other) == RoleCount(ms, other) {
        SetCountGet(d0, role, v, other);
      }
      assert Roles(ms) == Roles(init) + {role} by {
        forall x | x in Roles(ms) ensures x in Roles(init) + {role} {
          var i :| 0 <= i < |ms| && ms[i].role == x;
          if i < |init| { assert init[i].role == x; }
        }
        forall x | x in Roles(init) ensures x in Roles(ms) {
          var i :| 0 <= i < |init| && init[i].role == x;
          assert ms[i].role == x;
        }
      }
    }
  }

  /** `_get_context_overview` on the merged history. */
  function Overview(history: seq<Message>): ToolResult {
    if history == [] then EmptyOverview
    else OverviewStats(|history|, TotalChars(history), Span(history), Topics(history), Distribution(history))
  }

  /**
   * No history gives the all-zero overview. Otherwise the message count is
   * the history's length, the token total is the summed content length, the
   * role counts are exact and add up to the message count, and there are at
   * most ten topics, each longer than four characters.
   */
  lemma OverviewSound(history: seq<Message>)
    ensures var r := Overview(history);
      && (r.EmptyOverview? <==> history == [])
      && (r.OverviewStats? ==>
            && r.totalMessages == |history|
            && r.totalTokens == TotalChars(history)
            && CountsTotal(r.messageDistribution) == r.totalMessages
            && DistinctKeys(r.messageDistribution)
            && KeySet(r.messageDistribution) == Roles(history)
            && (forall role :: CountOf(r.messageDistribution, role) == RoleCount(history, role))
            && |r.potentialTopics| <= 10
            && (forall w :: w in r.potentialTopics ==> |w| > 4))
  {
    DistributionSound(history);
    TopicsSound(history);
  }

  /** The overview, with the role tally counted message by message. */
  method GetContextOverview(history: seq<Message>) returns (r: ToolResult)
    ensures r == Overview(history)
  {
    if history == [] {
      return EmptyOverview;
    }
    var roleCounts: Counts := [];
    for i := 0 to |history|
      invariant roleCounts == Distribution(history[..i])
    {
      assert history[..i + 1][..i] == history[..i];
      var role := history[i].role;
      roleCounts := SetCount(roleCounts, role, CountOf(roleCounts, role) + 1);
    }
    assert history[..|history|] == history;
    r := OverviewStats(|history|, TotalChars(history), Span(history), Topics(history), roleCounts);
  }

  // ---------------------------------------------------------------------------
  // get_context_chunk

  /** Keep messages from the front while their summed content length stays within `room`. */
  function FitPrefix(ms: seq<Message>, room: int): (r: seq<Message>)
    ensures |r| <= |ms|
  {
    if ms == [] then []
    else if |ms[0].content| <= room then [ms[0]] + FitPrefix(ms[1..], room - |ms[0].content|)
    else []
  }

  lemma TotalCharsCons(m: Message, ms: seq<Message>)
    ensures TotalChars([m] + ms) == |m.content| + TotalChars(ms)
  {
    TotalCharsAppend([m], ms);
    assert [m][..0] == [];
  }

  /**
   * The kept messages are a prefix, within `room` unless none is kept, and the
   * first message left out would have gone over.
   */
  lemma {:induction false} FitPrefixProperties(ms: seq<Message>, room: int)
    ensures var r := FitPrefix(ms, room);
      && r == ms[..|r|]
      && (r == [] || TotalChars(r) <= room)
      && (|r| < |ms| ==> TotalChars(r) + |ms[|r|].content| > room)
  {
    if ms != [] && |ms[0].content| <= room {
      var rest := FitPrefix(ms[1..], room - |ms[0].content|);
      FitPrefixProperties(ms[1..], room - |ms[0].content|);
      TotalCharsCons(ms[0], rest);
      assert ms[..1 + |rest|] == [ms[0]] + ms[1..][..|rest|];
      if 1 + |rest| < |ms| {
        assert ms[1 + |rest|] == ms[1..][|rest|];
      }
    }
  }

  /** A chunk for already-decoded integer arguments (`maxTokens` is `None` when it is not a number). */
  function ChunkOf(history: seq<Message>, start0: int, end0: int, maxTokens: Option<int>): ToolResult {
    var n := |history|;
    var start := if start0 < 0 then 0 else start0;
    var end := if end0 > n then n else end0;
    if start >= n then ToolError(StartBeyondEnd(start, n))
    else
      var slice := PySlice(history, start, end);
      match maxTokens
      case None => ToolError(Failed("get context chunk"))
      case Some(limit) =>
        var chunk := Truncated(slice, limit);
        ChunkResult(chunk, start, start + |chunk|, |chunk|, TotalChars(chunk), end < n)
  }

  /** The slice itself when it fits `maxTokens`, otherwise its longest prefix that does. */
  function Truncated(slice: seq<Message>, maxTokens: int): seq<Message> {
    if TotalChars(slice) > maxTokens then FitPrefix(slice, maxTokens) else slice
  }

  lemma TruncatedSound(slice: seq<Message>, maxTokens: int)
    ensures var chunk := Truncated(slice, maxTokens);
      && chunk == slice[..|chunk|]
      && (chunk == [] || TotalChars(chunk) <= maxTokens)
      && (TotalChars(slice) <= maxTokens ==> chunk == slice)
      && (|chunk| < |slice| ==> TotalChars(chunk) + |slice[|chunk|].content| > maxTokens)
  {
    FitPrefixProperties(slice, maxTokens);
  }

  /** `_get_context_chunk`: the defaults are 0, `start_index + 10` and 2000. */
  function Chunk(history: seq<Message>, args: map<string, Json>): ToolResult {
    match AsInt(Lookup(args, "start_index", JInt(0)))
    case None => ToolError(Failed("get context chunk"))
    case Some(start0) =>
      match AsInt(Lookup(args, "end_index", JInt(start0 + 10)))
      case None => ToolError(Failed("get context chunk"))
      case Some(end0) => ChunkOf(history, start0, end0, AsInt(Lookup(args, "max_tokens", JInt(2000))))
  }

  /**
   * What a chunk of the history from the clamped `start` (inside the history)
   * to the clamped `end` looks like: `history[start:endIndex]`, a prefix of
   * `history[start:end]`, whole when that fits `maxTokens`, and otherwise
   * the longest prefix within it; the reported figures are its length and
   * summed content length, and `hasMore` compares the clamped end (not the
   * chunk's end) with the history's length.
   */
  ghost predicate ChunkShaped(history: seq<Message>, start: int, end: int, maxTokens: int, r: ToolResult) {
    var n := |history|;
    var slice := PySlice(history, start, end);
    && r.ChunkResult?
    && r.startIndex == start && 0 <= start <= r.endIndex <= n
    && r.chunk == history[start..r.endIndex]
    && |r.chunk| <= |slice| && r.chunk == slice[..|r.chunk|]
    && r.totalInChunk == |r.chunk| && r.endIndex == start + |r.chunk|
    && r.estimatedTokens == TotalChars(r.chunk)
    && (r.chunk == [] || r.estimatedTokens <= maxTokens)
    && (TotalChars(slice) <= maxTokens ==> r.chunk == slice)
    && (|r.chunk| < |slice| ==> r.estimatedTokens + |slice[|r.chunk|].content| > maxTokens)
    && r.hasMore == (end < n)
  }

  /**
   * After clamping the start to at least 0 and the end to at most the
   * history's length: a start at or past the end of the history is an error
   * payload, a `max_tokens` that is not an integer is an error, and otherwise
   * the chunk is shaped as `ChunkShaped` says.
   */
  lemma ChunkSound(history: seq<Message>, start0: int, end0: int, maxTokens: Option<int>)
    ensures var n, r := |history|, ChunkOf(history, start0, end0, maxTokens);
      var start, end := if start0 < 0 then 0 else start0, if end0 > n then n else end0;
      && (start >= n ==> r == ToolError(StartBeyondEnd(start, n)))
      && (start < n && maxTokens.None? ==> r.ToolError?)
      && (start < n && maxTokens.Some? ==> ChunkShaped(history, start, end, maxTokens.value, r))
  {
    var n := |history|;
    var start, end := if start0 < 0 then 0 else start0, if end0 > n then n else end0;
    if start < n && maxTokens.Some? {
      ChunkKept(history, start, end, maxTokens.value);
    }
  }

  /** The chunk tool's result from an in-range start is shaped as `ChunkShaped` says. */
  lemma ChunkKept(history: seq<Message>, start: nat, end: int, maxTokens: int)
    requires start < |history| && end <= |history|
    ensures ChunkShaped(history, start, end, maxTokens, ChunkOf(history, start, end, Some(maxTokens)))
  {
    var slice := PySlice(history, start, end);
    var chunk := Truncated(slice, maxTokens);
    TruncatedSound(slice, maxTokens);
    SliceFromStart(history, start, end);
    assert ChunkOf(history, start, end, Some(maxTokens))
        == ChunkResult(chunk, start, start + |chunk|, |chunk|, TotalChars(chunk), end < |history|);
  }

  /** A prefix of `history[start:end]` is the slice of the history from `start` on of its length. */
  lemma SliceFromStart(history: seq<Message>, start: int, end: int)
    requires 0 <= start < |history|
    ensures var slice := PySlice(history, start, end);
      forall k :: 0 <= k <= |slice| ==> start + k <= |history| && slice[..k] == history[start..start + k]
  {
    var slice := PySlice(history, start, end);
    var hi := SliceBound(end, |history|);
    if start <= hi {
      assert slice == history[start..hi];
    } else {
      assert slice == [];
    }
  }


  /** One step of `FitPrefix` from index `i` on. */
  lemma FitPrefixAt(ms: seq<Message>, i: nat, room: int)
    requires i < |ms|
    ensures FitPrefix(ms[i..], room)
         == if |ms[i].content| <= room then [ms[i]] + FitPrefix(ms[i + 1..], room - |ms[i].content|) else []
  {
    assert ms[i..][0] == ms[i] && ms[i..][1..] == ms[i + 1..];
  }

  lemma TotalCharsSnoc(ms: seq<Message>, m: Message)
    ensures TotalChars(ms + [m]) == TotalChars(ms) + |m.content|
  {
    assert (ms + [m])[..|ms|] == ms;
  }

  /** Keeping the next message of the chunk when it still fits keeps the loop's invariant. */
  lemma TruncateKeep(chunk: seq<Message>, maxTokens: int, i: nat, kept: seq<Message>, running: int)
    requires i < |chunk| && running == TotalChars(kept)
    requires FitPrefix(chunk, maxTokens) == kept + FitPrefix(chunk[i..], maxTokens - running)
    requires running + |chunk[i].content| <= maxTokens
    ensures running + |chunk[i].content| == TotalChars(kept + [chunk[i]])
    ensures FitPrefix(chunk, maxTokens)
         == kept + [chunk[i]] + FitPrefix(chunk[i + 1..], maxTokens - (running + |chunk[i].content|))
  {
    FitPrefixAt(chunk, i, maxTokens - running);
    TotalCharsSnoc(kept, chunk[i]);
  }

  /** The loop stops at the end of the chunk or at the first message that does not fit: what it kept is the prefix. */
  lemma TruncateStop(chunk: seq<Message>, maxTokens: int, i: nat, kept: seq<Message>, running: int)
    requires i <= |chunk| && FitPrefix(chunk, maxTokens) == kept + FitPrefix(chunk[i..], maxTokens - running)
    requires i < |chunk| ==> running + |chunk[i].content| > maxTokens
    ensures kept == FitPrefix(chunk, maxTokens)
  {
    if i < |chunk| {
      FitPrefixAt(chunk, i, maxTokens - running);
    } else {
      assert chunk[i..] == [];
    }
  }

  /** Keep the chunk's messages from the front while the running length stays within `maxTokens`. */
  method TruncateChunk(chunk: seq<Message>, maxTokens: int) returns (kept: seq<Message>)
    ensures kept == FitPrefix(chunk, maxTokens)
  {
    kept := [];
    var runningTokens := 0;
    var i := 0;
    while i < |chunk| && runningTokens + |chunk[i].content| <= maxTokens
      invariant 0 <= i <= |chunk|
      invariant runningTokens == TotalChars(kept)
      invariant FitPrefix(chunk, maxTokens) == kept + FitPrefix(chunk[i..], maxTokens - runningTokens)
    {
      var msgTokens := |chunk[i].content|;
      TruncateKeep(chunk, maxTokens, i, kept, runningTokens);
      kept := kept + [chunk[i]];
      runningTokens := runningTokens + msgTokens;
      i := i + 1;
    }
    TruncateStop(chunk, maxTokens, i, kept, runningTokens);
  }

  /** The chunk tool: decode the arguments, then clamp, slice and truncate. */
  method GetContextChunk(history: seq<Message>, args: map<string, Json>) returns (r: ToolResult)
    ensures r == Chunk(history, args)
  {
    var startIndex := AsInt(Lookup(args, "start_index", JInt(0)));
    if startIndex.None? {
      return ToolError(Failed("get context chunk"));
    }
    var endIndex := AsInt(Lookup(args, "end_index", JInt(startIndex.value + 10)));
    if endIndex.None? {
      return ToolError(Failed("get context chunk"));
    }
    var maxTokens := AsInt(Lookup(args, "max_tokens", JInt(2000)));
    r := SliceChunk(history, startIndex.value, endIndex.value, maxTokens);
  }

  /** Clamp the decoded indices, slice the history and truncate the slice to `maxTokens`. */
  method SliceChunk(history: seq<Message>, start0: int, end0: int, maxTokens: Option<int>) returns (r: ToolResult)
    ensures r == ChunkOf(history, start0, end0, maxTokens)
  {
    var start, end := start0, end0;
    if start < 0 {
      start := 0;
    }
    if end > |history| {
      end := |history|;
    }
    if start >= |history| {
      return ToolError(StartBeyondEnd(start, |history|));
    }
    assert start == (if start0 < 0 then 0 else start0) && end == (if end0 > |history| then |history| else end0);
    var chunk := PySlice(history, start, end);
    if maxTokens.None? {
      return ToolError(Failed("get context chunk"));
    }
    ghost var slice := chunk;
    if TotalChars(chunk) > maxTokens.value {
      chunk := TruncateChunk(chunk, maxTokens.value);
    }
    assert chunk == Truncated(slice, maxTokens.value);
    r := ChunkResult(chunk, start, start + |chunk|, |chunk|, TotalChars(chunk), end < |history|);
  }

  // ---------------------------------------------------------------------------
  // search_context

  /** The expansion (two pairs each way) around every hit that carries a message id. */
  function ExpandHits(history: seq<Message>, hits: seq<SearchHit>): seq<Expanded> {
    if hits == [] then []
    else
      var h := hits[|hits| - 1];
      ExpandHits(history, hits[..|hits| - 1])
        + (if h.messageId != [] then [Expanded(h, Expand(history, h.messageId, "both", 2))] else [])
  }

  /**
   * An expansion around a hit with a message id: the context around that
   * message, two pairs each way, holding between 1 and 9 messages, among
   * them the message itself.
   */
  ghost predicate WellExpanded(history: seq<Message>, e: Expanded) {
    && e.searchResult.messageId != []
    && e.expandedContext == Expand(history, e.searchResult.messageId, "both", 2)
    && 1 <= |e.expandedContext| <= 9
    && exists m :: m in e.expandedContext && m.id == e.searchResult.messageId
  }

  /** Expanding around a hit whose id is in the history is well formed. */
  lemma ExpandOne(history: seq<Message>, h: SearchHit)
    requires h.messageId != [] && exists k :: 0 <= k < |history| && history[k].id == h.messageId
    ensures WellExpanded(history, Expanded(h, Expand(history, h.messageId, "both", 2)))
  {
    var t := IndexOfId(history, h.messageId);
    IndexOfIdFirst(history, h.messageId);
    ExpandTarget(history, h.messageId, "both", 2);
    ExpandLength(history, h.messageId, "both", 2);
    assert history[t] in Expand(history, h.messageId, "both", 2);
  }

  lemma {:induction false} ExpandHitsSound(history: seq<Message>, hits: seq<SearchHit>)
    requires forall h :: h in hits ==> exists k :: 0 <= k < |history| && history[k].id == h.messageId
    ensures var r := ExpandHits(history, hits);
      && |r| <= |hits|
      && forall e :: e in r ==> e.searchResult in hits && WellExpanded(history, e)
  {
    if hits != [] {
      var init, h := hits[..|hits| - 1], hits[|hits| - 1];
      assert forall x :: x in init ==> x in hits;
      ExpandHitsSound(history, init);
      if h.messageId != [] {
        ExpandOne(history, h);
      }
    }
  }

  /** Search the history for `query` (at most `limit` hits) and expand around each hit. */
  function SearchAndExpand(history: seq<Message>, query: string, limit: int): ToolResult {
    var expanded := ExpandHits(history, Search(history, query, limit));
    Found(expanded, query, |expanded|)
  }

  /** `results[:limit]` accepts an integer, a boolean or `None` (no limit). */
  function AsLimit(j: Json, n: nat): (r: Option<int>)
    ensures j.JNull? ==> r == Some(n)
  {
    if j.JNull? then Some(n) else AsInt(j)
  }

  /** `_search_context`: the defaults are the empty query and a limit of 5. */
  function SearchPayload(history: seq<Message>, args: map<string, Json>): ToolResult {
    var query := Lookup(args, "query", JStr(""));
    if history == [] then NoResults
    else if !query.JStr? then ToolError(Failed("search context"))
    else
      match AsLimit(Lookup(args, "limit", JInt(5)), |history|)
      case None => ToolError(Failed("search context"))
      case Some(limit) => SearchAndExpand(history, query.s, limit)
  }

  /**
   * At most `limit` results (for `limit >= 0`), no more than there are
   * messages, in order of non-increasing score; each expands, two pairs
   * each way, around its hit and contains the message the hit names.
   */
  lemma SearchAndExpandSound(history: seq<Message>, query: string, limit: int)
    ensures var r := SearchAndExpand(history, query, limit);
      && r.totalFound == |r.results| <= |history|
      && (limit >= 0 ==> r.totalFound <= limit)
      && (forall i, j :: 0 <= i < j < |r.results| ==> r.results[i].searchResult.score >= r.results[j].searchResult.score)
      && forall e :: e in r.results ==>
           && e.expandedContext == Expand(history, e.searchResult.messageId, "both", 2)
           && 1 <= |e.expandedContext| <= 9
           && exists m :: m in e.expandedContext && m.id == e.searchResult.messageId
  {
    var hits := Search(history, query, limit);
    SearchSound(history, query, limit);
    forall h | h in hits ensures exists k :: 0 <= k < |history| && history[k].id == h.messageId {
      var k :| 0 <= k < |history| && HitFor(history[k], query) == Some(h);
      assert history[k].id == h.messageId;
    }
    ExpandHitsSound(history, hits);
    ExpandHitsOrder(history, hits);
  }

  ghost predicate RankedByScore(r: seq<Expanded>) {
    forall i, j :: 0 <= i < j < |r| ==> r[i].searchResult.score >= r[j].searchResult.score
  }

  /** Expansion keeps the hits' order and drops only hits without an id. */
  lemma {:induction false} ExpandHitsOrder(history: seq<Message>, hits: seq<SearchHit>)
    requires forall i, j :: 0 <= i < j < |hits| ==> hits[i].score >= hits[j].score
    ensures RankedByScore(ExpandHits(history, hits))
    ensures forall e :: e in ExpandHits(history, hits) ==> hits != [] && hits[|hits| - 1].score <= e.searchResult.score
  {
    if hits != [] {
      var init, h := hits[..|hits| - 1], hits[|hits| - 1];
      ExpandHitsOrder(history, init);
      var r0 := ExpandHits(history, init);
      var r := ExpandHits(history, hits);
      assert r == r0 + (if h.messageId != [] then [Expanded(h, Expand(history, h.messageId, "both", 2))] else []);
      forall e | e in r0 ensures h.score <= e.searchResult.score {
        assert init[|init| - 1].score <= e.searchResult.score;
      }
      assert RankedByScore(r0);
      forall i, j | 0 <= i < j < |r| ensures r[i].searchResult.score >= r[j].searchResult.score {
        assert r[i] == r0[i] && r0[i] in r0;
        if j < |r0| {
          assert r[j] == r0[j] && r0[i].searchResult.score >= r0[j].searchResult.score;
        } else {
          assert r[j].searchResult == h;
        }
      }
    }
  }

  /** The search tool: rank the hits, then expand around each one carrying an id. */
  method SearchContext(history: seq<Message>, args: map<string, Json>) returns (r: ToolResult)
    ensures r == SearchPayload(history, args)
  {
    var query := Lookup(args, "query", JStr(""));
    var limitArg := Lookup(args, "limit", JInt(5));
    if history == [] {
      return NoResults;
    }
    if !query.JStr? {
      return ToolError(Failed("search context"));
    }
    var limit := AsLimit(limitArg, |history|);
    if limit.None? {
      return ToolError(Failed("search context"));
    }
    var searchResults := SearchMessages(history, query.s, limit.value);
    var expandedResults := [];
    for i := 0 to |searchResults|
      invariant expandedResults == ExpandHits(history, searchResults[..i])
    {
      assert searchResults[..i + 1][..i] == searchResults[..i];
      var messageId := searchResults[i].messageId;
      if messageId != [] {
        var expanded := ExpandContext(history, messageId, "both", 2);
        expandedResults := expandedResults + [Expanded(searchResults[i], expanded)];
      }
    }
    assert searchResults[..|searchResults|] == searchResults;
    r := Found(expandedResults, query.s, |expandedResults|);
  }

  // ---------------------------------------------------------------------------
  // recursive_lm_call

  /** The two messages sent to the analysing model. */
  function AnalysisMessages(args: map<string, Json>): seq<ChatItem> {
    [AnalystSystemPrompt,
     AnalysisRequest(Lookup(args, "task", JStr("analyze")), Lookup(args, "prompt", JStr("")),
                     Lookup(args, "context_subset", JArr([])))]
  }

  /** `_recursive_lm_call` given the reply the backend would give. */
  function AnalysisOf(args: map<string, Json>, reply: Reply): ToolResult {
    var subset := Lookup(args, "context_subset", JArr([]));
    var task := Lookup(args, "task", JStr("analyze"));
    match reply
    case Raised(_) => ToolError(Failed("recursive LM call"))
    case ToolCalls(_) => ToolError(Failed("recursive LM call"))
    case _ =>
      var text := if reply.Content? then reply.text else "Recursive LM call failed";
      match JsonLen(subset)
      case None => ToolError(Failed("recursive LM call"))
      case Some(size) => Analysis(text, task, size)
  }

  /**
   * The guard: an empty (falsy) `context_subset` is an error payload and no
   * request is sent; otherwise exactly one request goes out.
   */
  function Recursive(args: map<string, Json>, script: seq<Reply>, pos: nat): (s: Step)
    ensures var subset := Lookup(args, "context_subset", JArr([]));
      && (!Truthy(subset) <==> s.sent == [])
      && (!Truthy(subset) ==> s.result == ToolError(NoContextSubset))
      && (Truthy(subset) ==> s.sent == [AnalysisMessages(args)])
      && (s.result.Analysis? ==> Truthy(subset) && JsonLen(subset) == Some(s.result.contextSize))
      && (Truthy(subset) && Respond(script, pos).Content? && JsonLen(subset).Some? ==>
            s.result == Analysis(Respond(script, pos).text, Lookup(args, "task", JStr("analyze")), JsonLen(subset).value))
  {
    var subset := Lookup(args, "context_subset", JArr([]));
    if !Truthy(subset) then Step(ToolError(NoContextSubset), [])
    else Step(AnalysisOf(args, Respond(script, pos)), [AnalysisMessages(args)])
  }

  /** The recursive call: guard on the subset, then one backend call. */
  method RecursiveLmCall(args: map<string, Json>, llm: ScriptedBackend) returns (r: ToolResult)
    modifies llm
    ensures var s := Recursive(args, llm.script, old(llm.position));
      && r == s.result
      && llm.received == old(llm.received) + s.sent && llm.position == old(llm.position) + |s.sent|
  {
    var contextSubset := Lookup(args, "context_subset", JArr([]));
    if !Truthy(contextSubset) {
      return ToolError(NoContextSubset);
    }
    var response := llm.Chat(AnalysisMessages(args));
    r := AnalysisOf(args, response);
  }

  // ---------------------------------------------------------------------------
  // Dispatch

  /**
   * `execute_context_tool`. Only the final-answer tool yields a final answer,
   * and it hands back its arguments unchanged; an unknown name is an error
   * payload; only the recursive call talks to the backend, at most once.
   */
  function Execute(name: ToolName, args: map<string, Json>, history: seq<Message>, script: seq<Reply>, pos: nat): (s: Step)
    ensures s.result.FinalAnswer? <==> name == FinalAnswerTool
    ensures name == FinalAnswerTool ==> s.result == FinalAnswer(args)
    ensures name.UnknownTool? ==> s.result == ToolError(NoSuchTool(name.name))
    ensures |s.sent| <= 1 && (s.sent != [] ==> name == RecursiveTool)
  {
    match name
    case OverviewTool => Step(Overview(history), [])
    case ChunkTool => Step(Chunk(history, args), [])
    case SearchTool => Step(SearchPayload(history, args), [])
    case RecursiveTool => Recursive(args, script, pos)
    case FinalAnswerTool => Step(FinalAnswer(args), [])
    case UnknownTool(n) => Step(ToolError(NoSuchTool(n)), [])
  }

  method ExecuteContextTool(name: ToolName, args: map<string, Json>, history: seq<Message>, llm: ScriptedBackend)
    returns (r: ToolResult)
    modifies llm
    ensures var s := Execute(name, args, history, llm.script, old(llm.position));
      && r == s.result
      && llm.received == old(llm.received) + s.sent && llm.position == old(llm.position) + |s.sent|
  {
    match name
    case OverviewTool => r := GetContextOverview(history);
    case ChunkTool => r := GetContextChunk(history, args);
    case SearchTool => r := SearchContext(history, args);
    case RecursiveTool => r := RecursiveLmCall(args, llm);
    case FinalAnswerTool => r := FinalAnswer(args);
    case UnknownTool(n) => r := ToolError(NoSuchTool(n));
  }
}
