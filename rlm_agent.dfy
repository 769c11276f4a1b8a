/**
 * The retrieval agent of the first RLM design: search the history for the
 * user's message, widen every hit to the exchange around it, drop repeats and
 * cap the result; render the retrieved messages for a prompt; and pick the
 * prompt the assistant answers from.
 */
module RlmAgent {
  import opened Common
  import opened Text
  import opened FuzzySearch

  // ---------------------------------------------------------------------------
  // Retrieval

  /** What one search hit contributes: its "both"-sided expansion with one pair, when that has two or more messages. */
  function Contribution(messages: seq<Message>, hit: SearchHit): seq<Message> {
    var expanded := Expand(messages, hit.messageId, "both", 1);
    if |expanded| >= 2 then expanded else []
  }

  /** The contributions of the hits, in ranking order. */
  function Expansions(messages: seq<Message>, hits: seq<SearchHit>): seq<Message> {
    if hits == [] then []
    else Expansions(messages, hits[..|hits| - 1]) + Contribution(messages, hits[|hits| - 1])
  }

  /** Keep the first message of each id not yet in `seen`, in order. */
  function Dedupe(ms: seq<Message>, seen: set<string>): (r: seq<Message>)
    ensures |r| <= |ms|
  {
    if ms == [] then []
    else if ms[0].id in seen then Dedupe(ms[1..], seen)
    else [ms[0]] + Dedupe(ms[1..], seen + {ms[0].id})
  }

  /** What the hits yield: their contributions without repeated ids, at most 10 messages. */
  function Gather(messages: seq<Message>, hits: seq<SearchHit>): seq<Message> {
    Take(Dedupe(Expansions(messages, hits), {}), 10)
  }

  /** `retrieve_context` over the loaded history. */
  function Retrieve(messages: seq<Message>, userMessage: string, contextLimit: int): seq<Message> {
    if messages == [] then [] else Gather(messages, Search(messages, userMessage, contextLimit))
  }

  /**
   * Each message of `r` is the first message of `ms` with its id, that id is
   * not in `seen`, and `r` lists them in the order of those first occurrences.
   */
  ghost predicate FirstOccurrences(r: seq<Message>, ms: seq<Message>, seen: set<string>) {
    && (forall i :: 0 <= i < |r| ==>
          r[i].id !in seen && 0 <= IndexOfId(ms, r[i].id) && r[i] == ms[IndexOfId(ms, r[i].id)])
    && (forall i, j :: 0 <= i < j < |r| ==> IndexOfId(ms, r[i].id) < IndexOfId(ms, r[j].id))
  }

  /** First occurrences in `ms[1..]` of ids other than `ms[0]`'s are first occurrences in `ms`, one further on. */
  lemma FirstOccurrencesShift(r: seq<Message>, ms: seq<Message>, seen: set<string>)
    requires ms != [] && ms[0].id in seen && FirstOccurrences(r, ms[1..], seen)
    ensures FirstOccurrences(r, ms, seen)
    ensures forall i :: 0 <= i < |r| ==> IndexOfId(ms, r[i].id) >= 1
  {
    forall i | 0 <= i < |r|
      ensures IndexOfId(ms, r[i].id) == IndexOfId(ms[1..], r[i].id) + 1
      ensures r[i] == ms[IndexOfId(ms, r[i].id)]
    {
      assert r[i].id != ms[0].id;
    }
  }

  /** Putting `ms[0]` in front of first occurrences that avoid its id gives first occurrences. */
  lemma FirstOccurrencesCons(r: seq<Message>, ms: seq<Message>, seen: set<string>)
    requires ms != [] && ms[0].id !in seen
    requires FirstOccurrences(r, ms, seen + {ms[0].id})
    requires forall i :: 0 <= i < |r| ==> IndexOfId(ms, r[i].id) >= 1
    ensures FirstOccurrences([ms[0]] + r, ms, seen)
  {
    ConsKeepsFirst(r, ms, seen);
    ConsKeepsOrder(r, ms, seen);
  }

  /** The first half of `FirstOccurrencesCons`: each kept message is its id's first occurrence. */
  lemma ConsKeepsFirst(r: seq<Message>, ms: seq<Message>, seen: set<string>)
    requires ms != [] && ms[0].id !in seen
    requires FirstOccurrences(r, ms, seen + {ms[0].id})
    ensures var r' := [ms[0]] + r;
      forall i :: 0 <= i < |r'| ==>
        r'[i].id !in seen && 0 <= IndexOfId(ms, r'[i].id) && r'[i] == ms[IndexOfId(ms, r'[i].id)]
  {
    var r' := [ms[0]] + r;
    assert IndexOfId(ms, ms[0].id) == 0;
    forall i | 1 <= i < |r'|
      ensures r'[i].id !in seen && 0 <= IndexOfId(ms, r'[i].id) && r'[i] == ms[IndexOfId(ms, r'[i].id)]
    {
      assert r'[i] == r[i - 1];
    }
  }

  /** The second half of `FirstOccurrencesCons`: the kept messages follow their first occurrences' order. */
  lemma ConsKeepsOrder(r: seq<Message>, ms: seq<Message>, seen: set<string>)
    requires ms != [] && FirstOccurrences(r, ms, seen + {ms[0].id})
    requires forall i :: 0 <= i < |r| ==> IndexOfId(ms, r[i].id) >= 1
    ensures var r' := [ms[0]] + r;
      forall i, j :: 0 <= i < j < |r'| ==> IndexOfId(ms, r'[i].id) < IndexOfId(ms, r'[j].id)
  {
    var r' := [ms[0]] + r;
    assert IndexOfId(ms, ms[0].id) == 0;
    forall i, j | 0 <= i < j < |r'| ensures IndexOfId(ms, r'[i].id) < IndexOfId(ms, r'[j].id) {
      assert r'[j] == r[j - 1];
      if i >= 1 {
        assert r'[i] == r[i - 1];
      }
    }
  }

  /** De-duplication keeps first occurrences only, in order; so no two kept messages share an id. */
  lemma {:induction false} DedupeFirstOccurrences(ms: seq<Message>, seen: set<string>)
    ensures FirstOccurrences(Dedupe(ms, seen), ms, seen)
    decreases |ms|
  {
    if ms != [] {
      var seen' := if ms[0].id in seen then seen else seen + {ms[0].id};
      DedupeFirstOccurrences(ms[1..], seen');
      var tail := Dedupe(ms[1..], seen');
      FirstOccurrencesShift(tail, ms, seen');
      if ms[0].id !in seen {
        assert Dedupe(ms, seen) == [ms[0]] + tail;
        FirstOccurrencesCons(tail, ms, seen);
      }
    }
  }

  /** Every id of `ms` outside `seen` is kept. */
  lemma {:induction false} DedupeComplete(ms: seq<Message>, seen: set<string>)
    ensures forall x :: x in ms && x.id !in seen ==> exists y :: y in Dedupe(ms, seen) && y.id == x.id
    decreases |ms|
  {
    if ms != [] {
      var seen' := if ms[0].id in seen then seen else seen + {ms[0].id};
      DedupeComplete(ms[1..], seen');
      forall x | x in ms && x.id !in seen ensures exists y :: y in Dedupe(ms, seen) && y.id == x.id {
        if x.id == ms[0].id {
          assert Dedupe(ms, seen)[0] == ms[0];
        } else {
          assert x in ms[1..];
          var y :| y in Dedupe(ms[1..], seen') && y.id == x.id;
          assert y in Dedupe(ms, seen);
        }
      }
    }
  }

  /** An expansion only ever holds messages of the history. */
  lemma ContributionWithin(messages: seq<Message>, hit: SearchHit)
    ensures forall x :: x in Contribution(messages, hit) ==> x in messages
  {
    var t := IndexOfId(messages, hit.messageId);
    if t >= 0 {
      ExpandBoth(messages, hit.messageId, 1, t);
    }
  }

  lemma {:induction false} ExpansionsWithin(messages: seq<Message>, hits: seq<SearchHit>)
    ensures forall x :: x in Expansions(messages, hits) ==> x in messages
    decreases |hits|
  {
    if hits != [] {
      ExpansionsWithin(messages, hits[..|hits| - 1]);
      ContributionWithin(messages, hits[|hits| - 1]);
    }
  }

  /** A history of fewer than two messages never yields an exchange of two, so nothing is retrieved. */
  lemma {:induction false} ExpansionsOfShortHistory(messages: seq<Message>, hits: seq<SearchHit>)
    requires |messages| <= 1
    ensures Expansions(messages, hits) == []
    decreases |hits|
  {
    if hits != [] {
      ExpansionsOfShortHistory(messages, hits[..|hits| - 1]);
      var hit := hits[|hits| - 1];
      var t := IndexOfId(messages, hit.messageId);
      if t >= 0 {
        ExpandBoth(messages, hit.messageId, 1, t);
      }
    }
  }

  /**
   * What the hits yield: nothing from a history of fewer than two messages,
   * at most 10 messages, all taken from the history, with pairwise different ids.
   */
  lemma GatherSound(messages: seq<Message>, hits: seq<SearchHit>)
    ensures var r := Gather(messages, hits);
      && (|messages| <= 1 ==> r == [])
      && |r| <= 10
      && (forall x :: x in r ==> x in messages)
      && (forall i, j :: 0 <= i < j < |r| ==> r[i].id != r[j].id)
  {
    var pairs := Expansions(messages, hits);
    var unique := Dedupe(pairs, {});
    var r := Gather(messages, hits);
    assert r == unique[..|r|];
    DedupeFirstOccurrences(pairs, {});
    assert FirstOccurrences(unique, pairs, {});
    ExpansionsWithin(messages, hits);
    if |messages| <= 1 {
      ExpansionsOfShortHistory(messages, hits);
    }
    forall x | x in r ensures x in messages {
      var i :| 0 <= i < |r| && r[i] == x;
      assert x == unique[i];
    }
    forall i, j | 0 <= i < j < |r| ensures r[i].id != r[j].id {
      assert r[i] == unique[i] && r[j] == unique[j];
    }
  }

  /**
   * The retrieved context: empty for an empty or one-message history, at
   * most 10 messages, all taken from the history, with pairwise different ids.
   */
  lemma RetrieveSound(messages: seq<Message>, userMessage: string, contextLimit: int)
    ensures var r := Retrieve(messages, userMessage, contextLimit);
      && (|messages| <= 1 ==> r == [])
      && |r| <= 10
      && (forall x :: x in r ==> x in messages)
      && (forall i, j :: 0 <= i < j < |r| ==> r[i].id != r[j].id)
  {
    if messages != [] {
      GatherSound(messages, Search(messages, userMessage, contextLimit));
    }
  }

  /** The expansion loop: widen each hit and keep the exchanges of two or more messages. */
  method CollectExpansions(messages: seq<Message>, searchResults: seq<SearchHit>) returns (contextPairs: seq<Message>)
    ensures contextPairs == Expansions(messages, searchResults)
  {
    contextPairs := [];
    for i := 0 to |searchResults|
      invariant contextPairs == Expansions(messages, searchResults[..i])
    {
      assert searchResults[..i + 1][..i] == searchResults[..i];
      var contextMessages := ExpandContext(messages, searchResults[i].messageId, "both", 1);
      if |contextMessages| >= 2 {
        contextPairs := contextPairs + contextMessages;
      }
    }
    assert searchResults[..|searchResults|] == searchResults;
  }

  /** The de-duplication loop: keep a message when its id has not been seen. */
  method DropRepeatedIds(contextPairs: seq<Message>) returns (uniqueContext: seq<Message>)
    ensures uniqueContext == Dedupe(contextPairs, {})
  {
    uniqueContext := [];
    var seenIds: set<string> := {};
    for i := 0 to |contextPairs|
      invariant Dedupe(contextPairs, {}) == uniqueContext + Dedupe(contextPairs[i..], seenIds)
    {
      var msg := contextPairs[i];
      assert contextPairs[i..][1..] == contextPairs[i + 1..];
      if msg.id !in seenIds {
        uniqueContext := uniqueContext + [msg];
        seenIds := seenIds + {msg.id};
      }
    }
    assert Dedupe(contextPairs[|contextPairs|..], seenIds) == [];
  }

  /** `retrieve_context`: search, expand each hit, keep exchanges of two or more, drop repeated ids, cap at 10. */
  method RetrieveContext(messages: seq<Message>, userMessage: string, contextLimit: int)
    returns (context: seq<Message>)
    ensures context == Retrieve(messages, userMessage, contextLimit)
  {
    if messages == [] {
      return [];
    }
    var searchResults := SearchMessages(messages, userMessage, contextLimit);
    var contextPairs := CollectExpansions(messages, searchResults);
    var uniqueContext := DropRepeatedIds(contextPairs);
    context := Take(uniqueContext, 10);
  }

  // ---------------------------------------------------------------------------
  // Formatting

  /** Content longer than 500 characters is cut to its first 500 plus "...". */
  function Truncated(content: string): (r: string)
    ensures |content| <= 500 ==> r == content
    ensures |content| > 500 ==> |r| == 503 && r[..500] == content[..500] && r[500..] == "..."
  {
    if |content| > 500 then content[..500] + "..." else content
  }

  /** One rendered entry: the upper-cased role, a colon, and the (cut) content. */
  function Entry(m: Message): string {
    Upper(m.role) + ": " + Truncated(m.content)
  }

  /** The rendered entries, one per message. */
  function Entries(ms: seq<Message>): (r: seq<string>)
    ensures |r| == |ms|
    ensures forall i :: 0 <= i < |ms| ==> r[i] == Entry(ms[i])
  {
    seq(|ms|, i requires 0 <= i < |ms| => Entry(ms[i]))
  }

  const NoContext := "No relevant historical context found."

  /** `format_context`. */
  function Formatted(ms: seq<Message>): string {
    if ms == [] then NoContext else Join(Entries(ms), "\n\n")
  }

  /** Every entry of a rendered context is at most the role, two characters and 503 characters of content long. */
  lemma EntryBound(m: Message)
    ensures |Entry(m)| <= |m.role| + 2 + 503
    ensures |m.content| <= 500 ==> |Entry(m)| == |m.role| + 2 + |m.content|
  {
  }

  /** `format_context`: render each message, then join with a blank line. */
  method FormatContext(contextMessages: seq<Message>) returns (text: string)
    ensures text == Formatted(contextMessages)
    ensures contextMessages == [] ==> text == NoContext
    ensures |contextMessages| == 1 ==> text == Entry(contextMessages[0])
  {
    if contextMessages == [] {
      return NoContext;
    }
    var formatted := [];
    for i := 0 to |contextMessages|
      invariant formatted == Entries(contextMessages[..i])
    {
      var msg := contextMessages[i];
      var role := Upper(msg.role);
      var content := msg.content;
      if |content| > 500 {
        content := content[..500] + "...";
      }
      formatted := formatted + [role + ": " + content];
    }
    assert contextMessages[..|contextMessages|] == contextMessages;
    text := Join(formatted, "\n\n");
  }

  // ---------------------------------------------------------------------------
  // The enriched prompt

  datatype RlmResult = RlmResult(
    originalMessage: string,
    contextMessages: seq<Message>,
    enrichedPrompt: string,
    hasContext: bool)

  /** The result when the agent call is skipped or fails: the user's own message, flagged by whether context was found. */
  function Fallback(userMessage: string, context: seq<Message>): (r: RlmResult)
    ensures r.enrichedPrompt == r.originalMessage == userMessage
    ensures r.hasContext <==> context != []
  {
    RlmResult(userMessage, context, userMessage, |context| > 0)
  }

  /**
   * `process_user_message` once the context is retrieved: with context and a
   * reply from the agent model the reply becomes the enriched prompt; with no
   * context, or when the model call fails (`agentReply == None`), the fallback.
   */
  function ProcessUserMessage(userMessage: string, context: seq<Message>, agentReply: Option<string>): (r: RlmResult)
    ensures r.originalMessage == userMessage && r.contextMessages == context
    ensures r.hasContext <==> context != []
    ensures context == [] || agentReply.None? ==> r == Fallback(userMessage, context)
  {
    if context != [] && agentReply.Some? then RlmResult(userMessage, context, agentReply.value, true)
    else Fallback(userMessage, context)
  }

  /** `create_assistant_prompt`. */
  function CreateAssistantPrompt(r: RlmResult): string {
    if r.hasContext then r.enrichedPrompt else r.originalMessage
  }

  /**
   * The assistant answers from the agent's reply exactly when context was found
   * and the agent replied; otherwise from the user's own message.
   */
  lemma AssistantPromptChoice(userMessage: string, context: seq<Message>, agentReply: Option<string>)
    ensures var p := CreateAssistantPrompt(ProcessUserMessage(userMessage, context, agentReply));
      && (context != [] && agentReply.Some? ==> p == agentReply.value)
      && (context == [] || agentReply.None? ==> p == userMessage)
  {
  }
}
