# WhatsApp wedding-assistant webhook, modelled in Dafny

This project models the per-message pipeline of the webhook controller of a WhatsApp
assistant. An Event Grid POST is classified by its `aeg-event-type` header:

- a subscription-validation request gets its validation code echoed back;
- a notification batch is walked in array order;
- any other header gets BadRequest.

Each `microsoft.communication.advancedmessagereceived` event (compared ignoring case) goes
through the same steps:

1. A customer line is logged and a user message is appended to the chat history.
2. A three-tier knowledge lookup runs: semantic + vector, then vector only, then plain text.
3. A chat prompt is built from the system instructions, the retrieved context and the last ten
   history entries.
4. The reply is sent back to the customer.
5. The outcome is recorded. Only a delivered reply becomes an assistant message.

The knowledge index, the chat model and the message channel are not called. Each is a function
from the request the controller would send to the outcome it would get back:

- `SearchService`: documents, or a `RequestFailedException` (status and message) or another exception.
- `ChatService`: the first choice's text, or an exception.
- `send`: delivered, a `RequestFailedException`, or another exception.

A batch gets one `Services` bundle per envelope position.

Files and modules:

- `wrappers.dfy` (`Wrappers`): `Option` and `Result`.
- `text.dfy` (`Text`): `string.IsNullOrWhiteSpace`, `string.Contains`, the ordinal
  ignore-case comparison, and character counting.
- `messages.dfy` (`Messages`): the conversation store of `Messages.cs`. `ChatMessage` is a
  datatype `UserMessage | AssistantMessage`. `ConversationStore` is a class with the two list
  fields.
- `search.dfy` (`Search`): `SearchIndexAsync`. `Attempts` and `Retrieve` specify the cascade.
  `SearchIndex` mirrors the nested try/catch. `FormatSearchResults` is the `StringBuilder` loop.
- `generation.dfy` (`Generation`): `GenerateAIResponseAsync`. `LastUserMessage`, `Prompt` and
  `Generate` are the specification. `BuildPrompt` is the messages loop. `GenerateAIResponse` is
  the method.
- `webhook.dfy` (`Webhook`): `Post`, `HandleValidation`, `HandleGridEvents` and
  `RespondToCustomerAsync`. The functions `Classify`, `HandleValidation`, `Respond`,
  `HandleEvent`, `ProcessEvents` and `Dispatch` are the specification. The class
  `WebhookController` holds the state-changing methods, which are proved equal to them.

Behaviour of the code that the model keeps, though a reader may not expect it:

- A validation request with an empty envelope array makes `.First()` throw. No 4xx is mapped for
  it. The model returns `Unhandled("Sequence contains no elements")`.
- `RespondToCustomerAsync` catches only `RequestFailedException`. Any other exception from the
  send escapes `HandleGridEvents` and ends the batch. The envelopes after it are not processed.
  The model has `SendFaulted` for this (`FaultEndsBatch`).
- The `"Error: No response generated from Azure OpenAI."` branch of `RespondToCustomerAsync` can
  never run, because `GenerateAIResponseAsync` never returns blank text (`ReplyNeverBlank`). The
  model keeps the branch. The contract of `Respond` lists only the three send outcomes.
- The history is process-wide and shared by all customers. A prompt's ten-entry window can hold
  other customers' turns. The model keeps one shared store, as the code does.

## Model

| member | source | states |
|---|---|---|
| Messages.ConversationStore.constructor | CpmDemoApp/Models/Messages.cs:5-9 | the display log and the chat history both start empty |
| Search.Attempts | CpmDemoApp/Controllers/WebhookController.cs:256-327 | tier A always runs first, and only tiers A, B and C are ever requested. Every tier but the last tried failed. No request repeats, so tier C runs at most once, and when it runs it is the last. Tier B runs iff tier A failed with a 400 naming the semantic configuration, the semantic ranker or the vectorizer. Tier C runs iff tier A failed otherwise, or tier B failed. Every request has size 3 and selects chunk and title |
| Search.Retrieve | CpmDemoApp/Controllers/WebhookController.cs:245-357 | a blank query issues no request and yields the "please provide" text. Otherwise the requests are exactly the cascade's `Attempts`. When the last tier tried found documents, the outcome is the formatted text of those documents (`ResultsText`). When it failed, the outcome is that tier's exception. A text outcome is never blank |
| Search.ResultsText | CpmDemoApp/Controllers/WebhookController.cs:329-356 | the "no relevant information" sentinel is returned exactly when there are no documents. The text is never blank |
| Search.BlockInOrder | CpmDemoApp/Controllers/WebhookController.cs:335-344 | document i's Title/Content/--- block stands after the blocks of documents 0..i-1 and before those of the later documents |
| Search.FormatResultsLines | CpmDemoApp/Controllers/WebhookController.cs:338-343 | with single-line fields, N documents give exactly 3N lines, i.e. N blocks |
| Search.MissingFieldsPrintAsNA | CpmDemoApp/Controllers/WebhookController.cs:338-343 | a document with no title and no chunk prints "Title: N/A", "Content: N/A" and "---" |
| Search.FormatSearchResults | CpmDemoApp/Controllers/WebhookController.cs:330-356 | the AppendLine loop over the results builds exactly `ResultsText` of the documents |
| Search.SearchIndex | CpmDemoApp/Controllers/WebhookController.cs:245-357 | the cascade with reassigned options and response issues exactly the requests of `Retrieve` and returns its outcome. A blank query issues none |
| Search.VectorFallbackSucceeds | CpmDemoApp/Controllers/WebhookController.cs:282-305 | tier A tier-limited and tier B found documents: the requests are exactly [A, B], so no call reaches tier C, and the context is B's blocks |
| Search.TextFallbackDecides | CpmDemoApp/Controllers/WebhookController.cs:307-316 | tier A tier-limited and tier B failed: the requests are [A, B, C], and C's documents (or sentinel) or C's exception are the outcome |
| Generation.LastUserMessage | CpmDemoApp/Controllers/WebhookController.cs:170-171 | None iff the history holds no user message. Otherwise the content of a user message with no user message after it |
| Generation.Prompt | CpmDemoApp/Controllers/WebhookController.cs:202-217 | the prompt has 1 + min(10, \|history\|) messages. The first is the system prompt + "\n\nRelevant Information Found:\n" + the context. Then come the last entries in chronological order, each mapped to a turn of the same role |
| Generation.BuildPrompt | CpmDemoApp/Controllers/WebhookController.cs:202-217 | the loop over TakeLast(10) builds exactly `Prompt` |
| Generation.GenerateAIResponse | CpmDemoApp/Controllers/WebhookController.cs:165-243 | the reply, the index requests made and the chat request made are exactly those of `Generate` |
| Generation.ReplyNeverBlank | CpmDemoApp/Controllers/WebhookController.cs:173-241 | whatever the history and the services, the generated reply is not blank, because every fallback is visible text |
| Generation.ChatOutcomeDecidesReply | CpmDemoApp/Controllers/WebhookController.cs:219-241 | once the model is called, an exception from it gives the "trouble generating" reply. An absent or blank first choice gives the "empty response" reply. Any other text is returned as it came |
| Generation.NoCallsWithoutQuestion | CpmDemoApp/Controllers/WebhookController.cs:170-185 | no user message gives the "couldn't retrieve" reply, and a blank last user message gives the "was empty" reply. In both cases no index request and no chat request is made |
| Generation.PromptCarriesContextAndWindow | CpmDemoApp/Controllers/WebhookController.cs:187-222 | the model is called only after a non-blank question and a lookup that produced text. It is called with max tokens 800, 1 + min(10, \|history\|) messages, and the lookup's text in the system turn |
| Generation.SearchFailureGivesApology | CpmDemoApp/Controllers/WebhookController.cs:188-242 | an exception from the last search tier gives the "trouble generating" reply, and the model is never called |
| Generation.SingleQuestionPrompt | CpmDemoApp/Controllers/WebhookController.cs:204-217 | with history [User(q)], the request is exactly [system turn with the context, user turn q] |
| Webhook.Classify | CpmDemoApp/Controllers/WebhookController.cs:38-44 | validation iff the header is "SubscriptionValidation". Notification iff it is "Notification". Anything else, or no header, is neither |
| Webhook.HandleValidation | CpmDemoApp/Controllers/WebhookController.cs:104-113 | a validation response iff the array is non-empty, echoing the first envelope's validation code exactly (a null code echoes null). An empty array throws |
| Webhook.Respond | CpmDemoApp/Controllers/WebhookController.cs:135-163 | the reply is sent to exactly [number]. A successful send appends AssistantMessage(reply) and "Assistant: reply". A RequestFailedException leaves the history unchanged and appends one `Error: Failed to respond to "number". Exception: msg` line. Any other exception escapes with the store unchanged. The no-response branch is never taken |
| Webhook.HandleEvent | CpmDemoApp/Controllers/WebhookController.cs:118-130 | an envelope of another type changes nothing. A message-received envelope first appends `Customer(from): "content"` to the log and UserMessage(content) to the history. Then it responds from that state: without an exception the result is `Respond`'s, and with one the store keeps the two appended entries and the exception escapes. Every envelope only appends to the log and the history |
| Webhook.Dispatch | CpmDemoApp/Controllers/WebhookController.cs:83-102 | an unrecognised or missing header gives BadRequest with the store unchanged. The validation header gives `HandleValidation`'s result with the store unchanged. The notification header runs the batch: the store is the batch's, the result is Ok iff no exception escaped, and otherwise it is that exception |
| Webhook.FaultEndsBatch | CpmDemoApp/Controllers/WebhookController.cs:118-130 | once an exception escapes for one envelope, the later envelopes are not processed |
| Webhook.PascalCaseTypeIsHandled | CpmDemoApp/Controllers/WebhookController.cs:120 | the comparison ignores case: "Microsoft.Communication.AdvancedMessageReceived" is handled |
| Webhook.EmptyBatchIsOk | CpmDemoApp/Controllers/WebhookController.cs:115-133 | a notification with no envelopes returns Ok with the store unchanged |
| Webhook.IgnoredEventsChangeNothing | CpmDemoApp/Controllers/WebhookController.cs:118-130 | a batch with no message-received envelopes returns with the store unchanged and no exception |
| Webhook.BatchAppendsOnly | CpmDemoApp/Controllers/WebhookController.cs:115-163 | the log and the history before a batch are prefixes of those after it |
| Webhook.UserMessagesInArrayOrder | CpmDemoApp/Controllers/WebhookController.cs:118-130 | without an escaping exception, the user messages added are exactly the contents of the message-received envelopes, in array order |
| Webhook.LookupUsesTriggeringMessage | CpmDemoApp/Controllers/WebhookController.cs:127-128 | once the customer's message is appended to the history, as `HandleEvent` does before responding, it is the last user message, so the lookup runs on it. A blank one gives the "was empty" reply with no lookup |
| Webhook.DeliveredAnswer | CpmDemoApp/Controllers/WebhookController.cs:123-154 | question found, answered and delivered: the history gains [User(question), Assistant(answer)] and the log gains [customer line, assistant line], in that order |
| Webhook.WebhookController.Post | CpmDemoApp/Controllers/WebhookController.cs:83-102 | the store after the call and the result are those of `Dispatch` |
| Webhook.WebhookController.HandleGridEvents | CpmDemoApp/Controllers/WebhookController.cs:115-133 | the loop leaves the store as `ProcessEvents` says. It returns Ok, or the exception that ended the batch |
| Webhook.WebhookController.RespondToCustomer | CpmDemoApp/Controllers/WebhookController.cs:135-163 | the store after the call and the escaping exception are those of `Respond` |

## Left out

- The `Options` preflight handler (lines 67-80) copies request headers into response headers. It has no logic.
- The controller constructor and its static `_clientsInitialized` flag (lines 48-65) only build clients from configuration.
- JSON deserialisation is not modelled. Envelopes arrive parsed, and their data is reduced to the three fields the controller reads. A null or absent sender or content is represented by "". The controller only interpolates those two or tests them with `IsNullOrWhiteSpace`, which treat null and "" alike, except for the chat-message case on the next line. The validation code is echoed as JSON, so it is kept as an `Option` and a null code echoes null.
- `ChatRequestUserMessage` and `ChatRequestAssistantMessage` might throw on a null content from an older history entry. That case is folded into "". The apology path is not modelled for it.
- `SendWhatsAppMessageAsync` (lines 359-364) is modelled only as the `SendRequest` it issues. The channel registration id is configuration and is left out of the request.
- `Temperature = 0.7f` is a floating-point setting and is not part of `ChatRequest`. `MaxTokens = 800` is.
- `Console.WriteLine` diagnostics and the options JSON dump (lines 349-350) do not affect any result.
- async/await, and concurrent requests on the unsynchronised static lists, are not modelled. The model is one sequential store.
- Search results are a finite sequence. Paged enumeration of `GetResultsAsync`, and an exception thrown mid-enumeration, are not modelled.
- Each service is a deterministic function of its request within one envelope. Retries and timeouts of the SDK clients are not modelled.
- Text.EqualsIgnoreCase: folds only ASCII letters. .NET's ordinal ignore-case comparison also folds non-ASCII letters, which the model does not.
- Search.NewLine: `AppendLine` writes `Environment.NewLine`. The model uses "\n", which is what it is on Linux; on Windows it is "\r\n".
- Search.ResultsText: a document field that is present but not a string is printed with its `ToString()`. The model takes the printed text as given.
