/**
 * Reply generation (GenerateAIResponseAsync): find the latest customer message, look up
 * context for it, assemble the chat prompt from the system instructions, the context and the
 * last ten history entries, and map every failure to a fixed apology. The chat model is a
 * function from request to outcome.
 */
module Generation {
  import opened Wrappers
  import opened Text
  import opened Messages
  import opened Search

  const SystemPrompt :=
    "You are a helpful wedding assistant. Your task is to provide accurate information about the wedding based on the search results provided to you. "
    + "Always prioritize information from the search results when answering questions. "
    + "If the search results don't contain the answer, politely say you don't have that specific information and offer to help with something else. "
    + "Keep your responses friendly, concise, and accurate. "
    + "Don't make up information that's not in the search results."
  const ContextHeading := "\n\nRelevant Information Found:\n"
  /** How many of the most recent history entries the prompt carries. */
  const HistoryWindow: nat := 10
  const MaxTokens: nat := 800

  const NoUserMessageReply := "I couldn't retrieve your last message. Could you please repeat it?"
  const EmptyUserMessageReply := "Your last message was empty. Could you please ask again?"
  const EmptyCompletionReply := "I received an empty response. Could you try asking differently?"
  const FailureReply := "I'm having trouble generating a response right now. Please try again in a moment."

  /** The role-tagged messages of a chat-completions request. */
  datatype ChatRequestMessage = SystemTurn(content: string) | UserTurn(content: string) | AssistantTurn(content: string)

  datatype ChatRequest = ChatRequest(messages: seq<ChatRequestMessage>, maxTokens: nat)

  /** The content of the first choice's message (None when there is no choice, message or content), or an exception. */
  datatype ChatOutcome = Completed(firstChoice: Option<string>) | ChatFailed(message: string)

  type ChatService = ChatRequest -> ChatOutcome

  function Min(a: int, b: int): int {
    if a <= b then a else b
  }

  /** The index of the most recent UserMessage in the history, or -1 if there is none. */
  function LastUserIndex(history: seq<ChatMessage>): (k: int)
    ensures -1 <= k < |history|
    ensures k >= 0 ==> history[k].UserMessage?
    ensures forall j :: k < j < |history| ==> !history[j].UserMessage?
  {
    if history == [] then -1
    else
      var n := |history| - 1;
      if history[n].UserMessage? then n
      else
        var k := LastUserIndex(history[..n]);
        assert forall j :: k < j < n ==> history[..n][j] == history[j];
        k
  }

  /** LastOrDefault(m => m is UserMessage): the content of the most recent user message, if there is one. */
  function LastUserMessage(history: seq<ChatMessage>): (r: Option<string>)
    ensures r.None? <==> forall i :: 0 <= i < |history| ==> !history[i].UserMessage?
    ensures r.Some? ==> exists i :: (0 <= i < |history| && history[i] == UserMessage(r.value)
      && forall j :: i < j < |history| ==> !history[j].UserMessage?)
  {
    var k := LastUserIndex(history);
    if k < 0 then None
    else
      assert history[k] == UserMessage(history[k].content);
      Some(history[k].content)
  }

  /** A history entry as a chat turn of the same role. */
  function ToTurn(m: ChatMessage): ChatRequestMessage {
    match m
    case UserMessage(c) => UserTurn(c)
    case AssistantMessage(c) => AssistantTurn(c)
  }

  /** TakeLast(HistoryWindow): the most recent entries, oldest first. */
  function Window(history: seq<ChatMessage>): seq<ChatMessage> {
    if |history| <= HistoryWindow then history else history[|history| - HistoryWindow..]
  }

  function Turns(history: seq<ChatMessage>): seq<ChatRequestMessage> {
    seq(|history|, i requires 0 <= i < |history| => ToTurn(history[i]))
  }

  /** The system instruction with the retrieved context appended. */
  function SystemTurnFor(context: string): ChatRequestMessage {
    SystemTurn(SystemPrompt + ContextHeading + context)
  }

  /**
   * The prompt: one system turn holding the instructions and the context, then the last
   * min(10, |history|) entries in chronological order, each with its own role.
   */
  function Prompt(context: string, history: seq<ChatMessage>): (p: seq<ChatRequestMessage>)
    ensures |p| == 1 + Min(HistoryWindow, |history|)
    ensures p[0] == SystemTurnFor(context)
    ensures forall i :: 1 <= i < |p| ==> p[i] == ToTurn(history[|history| - |p| + i])
  {
    [SystemTurnFor(context)] + Turns(Window(history))
  }

  /** The messages loop of GenerateAIResponseAsync. */
  method BuildPrompt(context: string, history: seq<ChatMessage>) returns (messages: seq<ChatRequestMessage>)
    ensures messages == Prompt(context, history)
  {
    messages := [SystemTurnFor(context)];
    var window := Window(history);
    for i := 0 to |window|
      invariant messages == [SystemTurnFor(context)] + Turns(window[..i])
    {
      match window[i]
      case UserMessage(c) =>
        messages := messages + [UserTurn(c)];
      case AssistantMessage(c) =>
        messages := messages + [AssistantTurn(c)];
    }
    assert window[..|window|] == window;
  }

  /** The reply and the calls made for it: the index requests, and the chat request if the model was called. */
  datatype Generation = Generation(reply: string, searches: seq<SearchRequest>, request: Option<ChatRequest>)

  /** GenerateAIResponseAsync as a value. */
  function Generate(history: seq<ChatMessage>, search: SearchService, chat: ChatService): Generation {
    match LastUserMessage(history)
    case None => Generation(NoUserMessageReply, [], None)
    case Some(query) =>
      if IsBlank(query) then Generation(EmptyUserMessageReply, [], None)
      else
        var lookup := Retrieve(query, search);
        match lookup.outcome
        case Err(_) => Generation(FailureReply, lookup.requests, None)
        case Ok(context) =>
          var request := ChatRequest(Prompt(context, history), MaxTokens);
          match chat(request)
          case ChatFailed(_) => Generation(FailureReply, lookup.requests, Some(request))
          case Completed(text) =>
            var reply := if text.None? || IsBlank(text.value) then EmptyCompletionReply else text.value;
            Generation(reply, lookup.requests, Some(request))
  }

  /** GenerateAIResponseAsync: every failure, including one of the last search tier, is caught and replaced by a fixed reply. */
  method GenerateAIResponse(history: seq<ChatMessage>, search: SearchService, chat: ChatService)
    returns (reply: string, searches: seq<SearchRequest>, request: Option<ChatRequest>)
    ensures Generation(reply, searches, request) == Generate(history, search, chat)
  {
    var lastUserMessage := LastUserMessage(history);
    if lastUserMessage.None? {
      return NoUserMessageReply, [], None;
    }
    var userQuery := lastUserMessage.value;
    if IsBlank(userQuery) {
      return EmptyUserMessageReply, [], None;
    }
    var searchResults;
    searchResults, searches := SearchIndex(userQuery, search);
    if searchResults.Err? {
      return FailureReply, searches, None;
    }
    var messages := BuildPrompt(searchResults.value, history);
    var completionOptions := ChatRequest(messages, MaxTokens);
    request := Some(completionOptions);
    var response := chat(completionOptions);
    if response.ChatFailed? {
      return FailureReply, searches, request;
    }
    var responseText := response.firstChoice;
    if responseText.None? || IsBlank(responseText.value) {
      reply := EmptyCompletionReply;
    } else {
      reply := responseText.value;
    }
  }

  /** The generated reply is never blank: every fallback is visible text. */
  lemma ReplyNeverBlank(history: seq<ChatMessage>, search: SearchService, chat: ChatService)
    ensures !IsBlank(Generate(history, search, chat).reply)
  {
    EndsVisible(NoUserMessageReply);
    EndsVisible(EmptyUserMessageReply);
    EndsVisible(EmptyCompletionReply);
    EndsVisible(FailureReply);
  }

  /**
   * Once the model is called, its answer decides the reply: an exception gives the apology,
   * an absent or blank first choice gives the "empty response" reply, and any other text
   * is returned as it came.
   */
  lemma ChatOutcomeDecidesReply(history: seq<ChatMessage>, search: SearchService, chat: ChatService)
    requires Generate(history, search, chat).request.Some?
    ensures var g := Generate(history, search, chat);
      match chat(g.request.value)
      case ChatFailed(_) => g.reply == FailureReply
      case Completed(text) => g.reply == (if text.None? || IsBlank(text.value) then EmptyCompletionReply else text.value)
  {
  }

  /** Without a non-blank customer message neither the index nor the model is called. */
  lemma NoCallsWithoutQuestion(history: seq<ChatMessage>, search: SearchService, chat: ChatService)
    requires LastUserMessage(history).None? || IsBlank(LastUserMessage(history).value)
    ensures var g := Generate(history, search, chat);
      && g.searches == [] && g.request == None
      && g.reply == (if LastUserMessage(history).None? then NoUserMessageReply else EmptyUserMessageReply)
  {
  }

  /**
   * The model is called only after a successful lookup, with the lookup's context in the
   * system turn followed by the last min(10, |history|) history entries.
   */
  lemma PromptCarriesContextAndWindow(history: seq<ChatMessage>, search: SearchService, chat: ChatService)
    requires Generate(history, search, chat).request.Some?
    ensures LastUserMessage(history).Some? && !IsBlank(LastUserMessage(history).value)
    ensures var lookup := Retrieve(LastUserMessage(history).value, search);
      var request := Generate(history, search, chat).request.value;
      && lookup.outcome.Ok?
      && request.maxTokens == MaxTokens
      && |request.messages| == 1 + Min(HistoryWindow, |history|)
      && request.messages[0] == SystemTurn(SystemPrompt + ContextHeading + lookup.outcome.value)
  {
  }

  /** A failure of the last search tier is caught: the apology is returned and the model is not called. */
  lemma SearchFailureGivesApology(history: seq<ChatMessage>, search: SearchService, chat: ChatService)
    requires LastUserMessage(history).Some? && !IsBlank(LastUserMessage(history).value)
    requires Retrieve(LastUserMessage(history).value, search).outcome.Err?
    ensures Generate(history, search, chat) ==
      Generation(FailureReply, Retrieve(LastUserMessage(history).value, search).requests, None)
  {
  }

  /** A single question in the history: the request is the system turn with the context, then that question. */
  lemma SingleQuestionPrompt(question: string, search: SearchService, chat: ChatService)
    requires !IsBlank(question)
    requires Retrieve(question, search).outcome.Ok?
    ensures Generate([UserMessage(question)], search, chat).request ==
      Some(ChatRequest([SystemTurnFor(Retrieve(question, search).outcome.value), UserTurn(question)], MaxTokens))
  {
    var history := [UserMessage(question)];
    assert LastUserMessage(history) == Some(question);
    var context := Retrieve(question, search).outcome.value;
    var p := Prompt(context, history);
    assert |p| == 2 && p[1] == ToTurn(history[0]);
    assert p == [SystemTurnFor(context), UserTurn(question)];
  }
}
