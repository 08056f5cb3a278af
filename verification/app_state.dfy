/** The Teams agent's turn state: a conversation scope that must be loaded before it is read
    or written, and the conversation record holding the message counter. */
module Models {
  import opened Wrappers
  import opened Int32

  const MessageCountKey: string := "MessageCount"
  const NotLoadedMessage: string := "TurnState hasn't been loaded. Call LoadStateAsync() first."

  /** `ConversationState`: a record of named values (only integer values are modelled). */
  class ConversationState {
    var entries: map<string, int32>

    constructor ()
      ensures entries == map[]
    {
      entries := map[];
    }

    /** The "MessageCount" entry; a record without it reads as 0. */
    function MessageCount(): (n: int32)
      reads this
      ensures MessageCountKey in entries ==> n == entries[MessageCountKey]
      ensures MessageCountKey !in entries ==> n == 0
    {
      if MessageCountKey in entries then entries[MessageCountKey] else 0
    }

    /** Writes the "MessageCount" entry and no other. */
    method SetMessageCount(value: int32)
      modifies this
      ensures entries == old(entries)[MessageCountKey := value]
      ensures MessageCount() == value
      ensures forall k :: k != MessageCountKey ==> (k in entries <==> k in old(entries))
      ensures forall k :: k != MessageCountKey && k in entries ==> entries[k] == old(entries)[k]
    {
      entries := entries[MessageCountKey := value];
    }
  }

  /** `AppState`: the conversation scope's value (null while the scope is not loaded), and the
      value a load uses when storage holds nothing for the conversation. */
  class AppState {
    var conversation: ConversationState?
    const conversationDefault: ConversationState

    /** A new turn state: nothing loaded, the conversation default a fresh empty record. */
    constructor ()
      ensures conversation == null
      ensures fresh(conversationDefault) && conversationDefault.entries == map[]
    {
      conversation := null;
      conversationDefault := new ConversationState();
    }

    /** The `Conversation` getter: fails with an argument error while the scope is not loaded. */
    method GetConversation() returns (r: Result<ConversationState, string>)
      ensures r.Failure? <==> conversation == null
      ensures r.Failure? ==> r.error == NotLoadedMessage
      ensures r.Success? ==> r.value == conversation
    {
      if conversation == null {
        return Failure(NotLoadedMessage);
      }
      return Success(conversation);
    }

    /** The `Conversation` setter: fails and changes nothing while the scope is not loaded;
        otherwise replaces the scope's value. */
    method SetConversation(value: ConversationState) returns (error: Option<string>)
      modifies this
      ensures old(conversation) == null ==> error == Some(NotLoadedMessage) && conversation == null
      ensures old(conversation) != null ==> error.None? && conversation == value
    {
      if conversation == null {
        return Some(NotLoadedMessage);
      }
      conversation := value;
      error := None;
    }

    /** The state load before the handlers run (done by the framework): the stored record, or
        the scope default when storage holds nothing. */
    method LoadConversation(stored: Option<map<string, int32>>)
      modifies this
      ensures conversation != null
      ensures stored.None? ==> conversation == conversationDefault
      ensures stored.Some? ==> fresh(conversation) && conversation.entries == stored.value
    {
      if stored.None? {
        conversation := conversationDefault;
      } else {
        var record := new ConversationState();
        record.entries := stored.value;
        conversation := record;
      }
    }

    /** `DeleteConversationState` (done by the framework): a loaded scope reads as a fresh,
        empty record from then on; an unloaded scope is left alone. */
    method DeleteConversationState()
      modifies this
      ensures old(conversation) == null ==> conversation == null
      ensures old(conversation) != null ==>
        conversation != null && fresh(conversation) && conversation.entries == map[]
    {
      if conversation != null {
        conversation := new ConversationState();
      }
    }
  }

  /** A write to a loaded scope followed by a read returns the value written. */
  method SetThenGet(state: AppState, value: ConversationState) returns (r: Result<ConversationState, string>)
    requires state.conversation != null
    modifies state
    ensures r == Success(value)
  {
    var error := state.SetConversation(value);
    r := state.GetConversation();
  }

  /** After the framework's load the getter succeeds: with the stored record when storage
      holds one, with the scope default otherwise. */
  method LoadThenGet(state: AppState, stored: Option<map<string, int32>>)
    returns (r: Result<ConversationState, string>)
    modifies state
    ensures r.Success?
    ensures stored.Some? ==> r.value.entries == stored.value
    ensures stored.None? ==> r.value == state.conversationDefault
  {
    state.LoadConversation(stored);
    r := state.GetConversation();
  }
}
