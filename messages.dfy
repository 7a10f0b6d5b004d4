/**
 * The process-wide conversation store of CpmDemoApp/Models/Messages.cs: a display log of
 * free-text lines and the chat history, both append-only lists.
 */
module Messages {

  /** One turn of the chat history; the source's ChatMessage class hierarchy. */
  datatype ChatMessage = UserMessage(content: string) | AssistantMessage(content: string)

  /** One display-log line. */
  datatype Message = Message(text: string)

  /** A snapshot of the store, for the specification functions. */
  datatype StoreState = StoreState(log: seq<Message>, history: seq<ChatMessage>)

  /** The static MessagesListStatic and ConversationHistory lists. */
  class ConversationStore {
    var messagesList: seq<Message>
    var conversationHistory: seq<ChatMessage>

    constructor ()
      ensures messagesList == [] && conversationHistory == []
    {
      messagesList := [];
      conversationHistory := [];
    }

    function State(): StoreState
      reads this
    {
      StoreState(messagesList, conversationHistory)
    }
  }
}
