/**
 * The standard conversation store: one list of messages per conversation id.
 * The JSON file per conversation becomes an entry of an in-memory map; a
 * conversation without a file reads as the empty list. Fresh message ids and
 * the clock are supplied by the caller.
 */
module Storage {
  import opened Common

  class ConversationStorage {
    /** The saved conversations, by conversation id. */
    var conversations: map<string, seq<Message>>

    constructor ()
      ensures conversations == map[]
    {
      conversations := map[];
    }

    /** The saved messages of `conversationId`; none when it was never saved. */
    function LoadConversation(conversationId: string): (ms: seq<Message>)
      reads this
      ensures conversationId !in conversations ==> ms == []
    {
      if conversationId in conversations then conversations[conversationId] else []
    }

    /** Replace the saved list of one conversation; every other conversation is untouched. */
    method SaveConversation(conversationId: string, messages: seq<Message>)
      modifies this
      ensures conversations == old(conversations)[conversationId := messages]
      ensures LoadConversation(conversationId) == messages
      ensures forall c :: c != conversationId ==> LoadConversation(c) == old(LoadConversation(c))
    {
      conversations := conversations[conversationId := messages];
    }

    /**
     * Append a message with a fresh id and the current time, and return the id.
     * The conversation grows by exactly that message at the end.
     */
    method AppendMessage(conversationId: string, role: string, content: string, freshId: string, now: string)
      returns (id: string)
      modifies this
      ensures id == freshId
      ensures LoadConversation(conversationId)
           == old(LoadConversation(conversationId)) + [Message(freshId, role, content, now, None, None)]
      ensures forall c :: c != conversationId ==> LoadConversation(c) == old(LoadConversation(c))
    {
      var messages := LoadConversation(conversationId);
      var message := Message(freshId, role, content, now, None, None);
      messages := messages + [message];
      SaveConversation(conversationId, messages);
      id := message.id;
    }

    /** The first message of the conversation carrying `messageId`, if any. */
    method GetMessageById(conversationId: string, messageId: string) returns (m: Option<Message>)
      ensures var ms, k := LoadConversation(conversationId), IndexOfId(LoadConversation(conversationId), messageId);
        && (k >= 0 ==> m == Some(ms[k]))
        && (k < 0 ==> m == None)
    {
      var messages := LoadConversation(conversationId);
      IndexOfIdFirst(messages, messageId);
      var i := 0;
      while i < |messages|
        invariant 0 <= i <= |messages|
        invariant forall j :: 0 <= j < i ==> messages[j].id != messageId
      {
        if messages[i].id == messageId {
          return Some(messages[i]);
        }
        i := i + 1;
      }
      return None;
    }

    /** Index of the first message of the conversation carrying `messageId`, or -1. */
    method GetMessageIndex(conversationId: string, messageId: string) returns (index: int)
      ensures index == IndexOfId(LoadConversation(conversationId), messageId)
    {
      var messages := LoadConversation(conversationId);
      IndexOfIdFirst(messages, messageId);
      var i := 0;
      while i < |messages|
        invariant 0 <= i <= |messages|
        invariant forall j :: 0 <= j < i ==> messages[j].id != messageId
      {
        if messages[i].id == messageId {
          return i;
        }
        i := i + 1;
      }
      return -1;
    }
  }
}
