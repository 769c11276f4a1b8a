/**
 * The dual-track store of RLM mode. Beside the standard conversation store it
 * keeps, per conversation, a clean user/assistant dialogue (the RLM track,
 * file `rlm_<id>` in its own directory) and a log of agent interactions (the
 * agent track, file `rlm_agent_<id>` in another directory). Each directory is
 * an in-memory map from file key to message list; the clock readings that go
 * into ids and timestamps are supplied by the caller.
 */
module RlmStorage {
  import opened Common
  import opened Text
  import opened Sorting
  import opened Storage
  import Context

  // ---------------------------------------------------------------------------
  // File keys

  /** Key of the RLM dialogue track of a base conversation. */
  function RlmConversationId(baseConversationId: string): (r: string)
    ensures |r| == |baseConversationId| + 4 && r[..4] == "rlm_" && r[4..] == baseConversationId
  {
    "rlm_" + baseConversationId
  }

  /** Key of the agent track of a base conversation. */
  function RlmAgentConversationId(baseConversationId: string): (r: string)
    ensures |r| == |baseConversationId| + 10 && r[..10] == "rlm_agent_" && r[10..] == baseConversationId
  {
    "rlm_agent_" + baseConversationId
  }

  /** Distinct conversations never share a track. */
  lemma TrackKeysInjective(a: string, b: string)
    ensures RlmConversationId(a) == RlmConversationId(b) <==> a == b
    ensures RlmAgentConversationId(a) == RlmAgentConversationId(b) <==> a == b
  {
    if RlmConversationId(a) == RlmConversationId(b) {
      assert a == RlmConversationId(a)[4..];
    }
    if RlmAgentConversationId(a) == RlmAgentConversationId(b) {
      assert a == RlmAgentConversationId(a)[10..];
    }
  }

  /** The id of the `n`-th message of a track: `f"{prefix}{n}_{HHMMSS}"`. */
  function TrackMessageId(prefix: string, n: nat, clock: string): (r: string)
    ensures var head := prefix + NatToString(n) + "_";
      |r| == |head| + |clock| && r[..|head|] == head && r[|head|..] == clock
  {
    prefix + NatToString(n) + "_" + clock
  }

  /** An id names its message number: ids with the same prefix and different numbers differ, whatever the clocks. */
  lemma TrackMessageIdCounter(prefix: string, n: nat, c: string, m: nat, d: string)
    requires TrackMessageId(prefix, n, c) == TrackMessageId(prefix, m, d)
    ensures n == m
  {
    var a, b := NatToString(n), NatToString(m);
    IdLayout(prefix, a, c);
    IdLayout(prefix, b, d);
    assert |a| == |b|;
    assert a == b;
    NatToStringInjective(n, m);
  }

  /** Where the number and the separator sit in an id. */
  lemma IdLayout(prefix: string, digits: string, clock: string)
    ensures var r := prefix + digits + "_" + clock;
      && r[|prefix| + |digits|] == '_'
      && forall k :: 0 <= k < |digits| ==> r[|prefix| + k] == digits[k]
  {
  }

  // ---------------------------------------------------------------------------
  // Merged history

  /** The sort key of the merged history: string order of the timestamps. */
  predicate TimestampBefore(a: Message, b: Message) {
    StrLt(a.timestamp, b.timestamp)
  }

  lemma TimestampEquivalent(a: Message, b: Message)
    ensures Equivalent(TimestampBefore, a, b) <==> a.timestamp == b.timestamp
  {
    if a.timestamp == b.timestamp {
      StrLtIrreflexive(a.timestamp);
    } else {
      StrLtTotal(a.timestamp, b.timestamp);
    }
  }

  lemma TimestampOrder()
    ensures StrictWeakOrder(TimestampBefore)
  {
    forall a: Message ensures !TimestampBefore(a, a) {
      StrLtIrreflexive(a.timestamp);
    }
    forall a: Message, b: Message, c: Message | TimestampBefore(a, b) && TimestampBefore(b, c)
      ensures TimestampBefore(a, c)
    {
      StrLtTransitive(a.timestamp, b.timestamp, c.timestamp);
    }
    forall a: Message, b: Message, c: Message
      | Equivalent(TimestampBefore, a, b) && Equivalent(TimestampBefore, b, c)
      ensures Equivalent(TimestampBefore, a, c)
    {
      TimestampEquivalent(a, b);
      TimestampEquivalent(b, c);
      TimestampEquivalent(a, c);
    }
  }

  /**
   * The history searched in RLM mode: the standard conversation followed by
   * the RLM track, stably sorted by timestamp. Nothing is dropped or merged,
   * and the result is in timestamp order.
   */
  function FullHistory(standard: seq<Message>, rlm: seq<Message>): (all: seq<Message>)
    ensures |all| == |standard| + |rlm|
    ensures multiset(all) == multiset(standard + rlm)
    ensures Sorted(all, TimestampBefore)
  {
    var all := StableSort(standard + rlm, TimestampBefore);
    TimestampOrder();
    StableSortSorted(standard + rlm, TimestampBefore);
    assert |all| == |multiset(all)|;
    all
  }

  /**
   * Stability: the messages sharing a timestamp keep their order, standard
   * messages before RLM messages.
   */
  lemma FullHistoryStable(standard: seq<Message>, rlm: seq<Message>, k: Message)
    ensures SameClass(FullHistory(standard, rlm), TimestampBefore, k)
         == SameClass(standard, TimestampBefore, k) + SameClass(rlm, TimestampBefore, k)
  {
    TimestampOrder();
    StableSortSameClass(standard + rlm, TimestampBefore, k);
    SameClassAppend(standard, rlm, TimestampBefore, k);
  }

  // ---------------------------------------------------------------------------
  // Statistics and migration

  datatype RlmStats = RlmStats(
    rlmMessagesCount: nat,
    agentMessagesCount: nat,
    totalRlmCharacters: nat,
    totalAgentCharacters: nat,
    estimatedRlmTokens: nat,
    estimatedAgentTokens: nat,
    modeActive: bool)

  /** Summed `len(content) // 4`. */
  function EstimatedTokens(ms: seq<Message>): (n: nat)
    ensures ms == [] ==> n == 0
  {
    if ms == [] then 0 else EstimatedTokens(ms[..|ms| - 1]) + Context.EstimateTokens(ms[|ms| - 1].content)
  }

  /** Each message loses less than 4 characters to rounding, so the estimate brackets the character total. */
  lemma {:induction false} EstimatedTokensBracket(ms: seq<Message>)
    ensures 4 * EstimatedTokens(ms) <= TotalChars(ms) <= 4 * EstimatedTokens(ms) + 3 * |ms|
    decreases |ms|
  {
    if ms != [] {
      EstimatedTokensBracket(ms[..|ms| - 1]);
    }
  }

  /** A message copied into the standard store: id, role, content and timestamp, nothing else. */
  function StandardForm(m: Message): Message {
    Message(m.id, m.role, m.content, m.timestamp, None, None)
  }

  /** The standard-format copy of a track, message by message. */
  function Migrated(ms: seq<Message>): (r: seq<Message>)
    ensures |r| == |ms|
    ensures forall i :: 0 <= i < |ms| ==>
      && r[i].id == ms[i].id && r[i].role == ms[i].role
      && r[i].content == ms[i].content && r[i].timestamp == ms[i].timestamp
      && r[i].mode == None && r[i].metadata == None
  {
    seq(|ms|, i requires 0 <= i < |ms| => StandardForm(ms[i]))
  }

  // ---------------------------------------------------------------------------
  // The store

  class RlmStorage {
    /** The standard store the RLM store sits beside. */
    const standardStorage: ConversationStorage
    /** The RLM dialogue files, by `RlmConversationId`. */
    var rlmFiles: map<string, seq<Message>>
    /** The agent interaction files, by `RlmAgentConversationId`. */
    var agentFiles: map<string, seq<Message>>

    constructor ()
      ensures fresh(standardStorage) && standardStorage.conversations == map[]
      ensures rlmFiles == map[] && agentFiles == map[]
    {
      standardStorage := new ConversationStorage();
      rlmFiles := map[];
      agentFiles := map[];
    }

    function LoadRlmConversation(conversationId: string): (ms: seq<Message>)
      reads this
      ensures RlmConversationId(conversationId) !in rlmFiles ==> ms == []
    {
      var key := RlmConversationId(conversationId);
      if key in rlmFiles then rlmFiles[key] else []
    }

    function LoadRlmAgentConversation(conversationId: string): (ms: seq<Message>)
      reads this
      ensures RlmAgentConversationId(conversationId) !in agentFiles ==> ms == []
    {
      var key := RlmAgentConversationId(conversationId);
      if key in agentFiles then agentFiles[key] else []
    }

    method SaveRlmConversation(conversationId: string, messages: seq<Message>)
      modifies this
      ensures rlmFiles == old(rlmFiles)[RlmConversationId(conversationId) := messages]
      ensures agentFiles == old(agentFiles)
      ensures LoadRlmConversation(conversationId) == messages
    {
      rlmFiles := rlmFiles[RlmConversationId(conversationId) := messages];
    }

    method SaveRlmAgentConversation(conversationId: string, messages: seq<Message>)
      modifies this
      ensures agentFiles == old(agentFiles)[RlmAgentConversationId(conversationId) := messages]
      ensures rlmFiles == old(rlmFiles)
      ensures LoadRlmAgentConversation(conversationId) == messages
    {
      agentFiles := agentFiles[RlmAgentConversationId(conversationId) := messages];
    }

    /**
     * Append to the RLM track. The id is `rlm_<n+1>_<clock>` for a track of
     * `n` messages; the message is marked as an RLM-mode message.
     */
    method AppendRlmMessage(conversationId: string, role: string, content: string, clock: string, now: string)
      returns (id: string)
      modifies this
      ensures id == TrackMessageId("rlm_", |old(LoadRlmConversation(conversationId))| + 1, clock)
      ensures LoadRlmConversation(conversationId)
           == old(LoadRlmConversation(conversationId)) + [Message(id, role, content, now, Some("rlm"), None)]
      ensures rlmFiles == old(rlmFiles)[RlmConversationId(conversationId) := LoadRlmConversation(conversationId)]
      ensures forall c :: c != conversationId ==> LoadRlmConversation(c) == old(LoadRlmConversation(c))
      ensures agentFiles == old(agentFiles)
    {
      var messages := LoadRlmConversation(conversationId);
      var message := Message(TrackMessageId("rlm_", |messages| + 1, clock), role, content, now, Some("rlm"), None);
      messages := messages + [message];
      SaveRlmConversation(conversationId, messages);
      id := message.id;
      forall c | c != conversationId ensures LoadRlmConversation(c) == old(LoadRlmConversation(c)) {
        TrackKeysInjective(c, conversationId);
      }
    }

    /**
     * Append to the agent track. The id is `agent_<n+1>_<clock>`; missing or
     * empty metadata is stored as the empty object.
     */
    method AppendRlmAgentMessage(conversationId: string, role: string, content: string,
                                 metadata: Option<map<string, Json>>, clock: string, now: string)
      returns (id: string)
      modifies this
      ensures id == TrackMessageId("agent_", |old(LoadRlmAgentConversation(conversationId))| + 1, clock)
      ensures LoadRlmAgentConversation(conversationId)
           == old(LoadRlmAgentConversation(conversationId)) + [Message(id, role, content, now, None, Some(metadata.GetOr(map[])))]
      ensures agentFiles == old(agentFiles)[RlmAgentConversationId(conversationId) := LoadRlmAgentConversation(conversationId)]
      ensures forall c :: c != conversationId ==> LoadRlmAgentConversation(c) == old(LoadRlmAgentConversation(c))
      ensures rlmFiles == old(rlmFiles)
    {
      var messages := LoadRlmAgentConversation(conversationId);
      var message := Message(TrackMessageId("agent_", |messages| + 1, clock), role, content, now, None, Some(metadata.GetOr(map[])));
      messages := messages + [message];
      SaveRlmAgentConversation(conversationId, messages);
      id := message.id;
      forall c | c != conversationId ensures LoadRlmAgentConversation(c) == old(LoadRlmAgentConversation(c)) {
        TrackKeysInjective(c, conversationId);
      }
    }

    /** The standard conversation and the RLM track, merged in timestamp order. */
    function GetFullHistoryForSearch(conversationId: string): (all: seq<Message>)
      reads this, standardStorage
      ensures all == FullHistory(standardStorage.LoadConversation(conversationId), LoadRlmConversation(conversationId))
      ensures |all| == |standardStorage.LoadConversation(conversationId)| + |LoadRlmConversation(conversationId)|
    {
      var standardMessages := standardStorage.LoadConversation(conversationId);
      var rlmMessages := LoadRlmConversation(conversationId);
      FullHistory(standardMessages, rlmMessages)
    }

    /** A conversation is in RLM mode when its RLM track exists. */
    predicate IsRlmConversation(conversationId: string)
      reads this
    {
      RlmConversationId(conversationId) in rlmFiles
    }

    /** Create whichever track is missing, empty; existing tracks are left as they are. */
    method SwitchToRlmMode(conversationId: string) returns (rlmId: string, agentId: string)
      modifies this
      ensures rlmId == RlmConversationId(conversationId) && agentId == RlmAgentConversationId(conversationId)
      ensures rlmFiles == if rlmId in old(rlmFiles) then old(rlmFiles) else old(rlmFiles)[rlmId := []]
      ensures agentFiles == if agentId in old(agentFiles) then old(agentFiles) else old(agentFiles)[agentId := []]
      ensures IsRlmConversation(conversationId)
      ensures LoadRlmConversation(conversationId) == old(LoadRlmConversation(conversationId))
      ensures LoadRlmAgentConversation(conversationId) == old(LoadRlmAgentConversation(conversationId))
    {
      rlmId := RlmConversationId(conversationId);
      agentId := RlmAgentConversationId(conversationId);
      if rlmId !in rlmFiles {
        SaveRlmConversation(conversationId, []);
      }
      if agentId !in agentFiles {
        SaveRlmAgentConversation(conversationId, []);
      }
    }

    /** Counts, character totals and token estimates of both tracks. */
    function GetRlmStats(conversationId: string): (s: RlmStats)
      reads this
      ensures s.rlmMessagesCount == |LoadRlmConversation(conversationId)|
      ensures s.agentMessagesCount == |LoadRlmAgentConversation(conversationId)|
      ensures s.totalRlmCharacters == TotalChars(LoadRlmConversation(conversationId))
      ensures s.totalAgentCharacters == TotalChars(LoadRlmAgentConversation(conversationId))
      ensures s.estimatedRlmTokens == EstimatedTokens(LoadRlmConversation(conversationId))
      ensures s.estimatedAgentTokens == EstimatedTokens(LoadRlmAgentConversation(conversationId))
      ensures 4 * s.estimatedRlmTokens <= s.totalRlmCharacters
      ensures 4 * s.estimatedAgentTokens <= s.totalAgentCharacters
      ensures s.modeActive == IsRlmConversation(conversationId)
    {
      var rlmMessages := LoadRlmConversation(conversationId);
      var agentMessages := LoadRlmAgentConversation(conversationId);
      EstimatedTokensBracket(rlmMessages);
      EstimatedTokensBracket(agentMessages);
      RlmStats(
        |rlmMessages|, |agentMessages|,
        TotalChars(rlmMessages), TotalChars(agentMessages),
        EstimatedTokens(rlmMessages), EstimatedTokens(agentMessages),
        IsRlmConversation(conversationId))
    }

    /**
     * Copy the RLM track into the standard store in standard format. Nothing
     * happens, and the answer is false, when the track is empty; the RLM
     * tracks are kept either way.
     */
    method MigrateFromRlmMode(conversationId: string) returns (migrated: bool)
      modifies standardStorage
      ensures migrated <==> LoadRlmConversation(conversationId) != []
      ensures migrated ==>
        standardStorage.conversations
          == old(standardStorage.conversations)[conversationId := Migrated(LoadRlmConversation(conversationId))]
      ensures !migrated ==> standardStorage.conversations == old(standardStorage.conversations)
    {
      var rlmMessages := LoadRlmConversation(conversationId);
      if rlmMessages == [] {
        return false;
      }
      var standardMessages := [];
      var i := 0;
      while i < |rlmMessages|
        invariant 0 <= i <= |rlmMessages|
        invariant standardMessages == Migrated(rlmMessages[..i])
      {
        var msg := rlmMessages[i];
        standardMessages := standardMessages + [StandardForm(msg)];
        i := i + 1;
      }
      assert rlmMessages[..i] == rlmMessages;
      standardStorage.SaveConversation(conversationId, standardMessages);
      return true;
    }
  }
}
