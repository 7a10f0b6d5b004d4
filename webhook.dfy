/**
 * The webhook entry point (WebhookController): classify a POST by its aeg-event-type header,
 * echo the subscription-validation code, or run the per-message pipeline for every
 * message-received event of a notification batch, recording the outcome in the
 * conversation store. Envelopes arrive already parsed; the three services are given
 * per envelope as functions from request to outcome.
 */
module Webhook {
  import opened Wrappers
  import opened Text
  import opened Messages
  import opened Search
  import opened Generation

  const SubscriptionValidationMarker := "SubscriptionValidation"
  const NotificationMarker := "Notification"
  const AdvancedMessageReceived := "microsoft.communication.advancedmessagereceived"
  /** The type name as Event Grid documents it. */
  const EventGridTypeName := "Microsoft.Communication.AdvancedMessageReceived"
  const NoResponseError := "Error: No response generated from Azure OpenAI."
  /** The message of the exception Enumerable.First throws on an empty array. */
  const NoElements := "Sequence contains no elements"

  /**
   * The fields of an envelope's data that the webhook reads. The validation code is echoed
   * as JSON, so a null code stays None; the sender and the content are only interpolated
   * or tested for blankness, where null reads as "".
   */
  datatype EventData = EventData(validationCode: Option<string>, from: string, content: string)

  datatype EventGridEvent = EventGridEvent(eventType: string, data: EventData)

  datatype HeaderKind = SubscriptionValidation | Notification | Unrecognised

  /** The HTTP outcome of a POST; Unhandled is an exception that escapes the controller. */
  datatype ActionResult =
    | ValidationResponse(validationResponse: Option<string>)
    | OkResult
    | BadRequestResult
    | Unhandled(message: string)

  /** One outbound text message: the recipients and the text. */
  datatype SendRequest = SendRequest(recipients: seq<string>, content: string)

  /** A send either succeeds, throws a RequestFailedException, or throws any other exception. */
  datatype SendOutcome = Sent | SendRequestFailed(message: string) | SendFaulted(message: string)

  /** The three external services, as seen by the pipeline for one message. */
  datatype Services = Services(
    search: SearchService, chat: ChatService, send: SendRequest -> SendOutcome)

  /** The store after a step, and the exception that escaped it, if any. */
  datatype Outcome = Outcome(state: StoreState, fault: Option<string>)

  /** The first aeg-event-type header value (None when absent) compared with the two markers. */
  function Classify(header: Option<string>): (k: HeaderKind)
    ensures k == SubscriptionValidation <==> header == Some(SubscriptionValidationMarker)
    ensures k == Notification <==> header == Some(NotificationMarker)
  {
    if header == Some(SubscriptionValidationMarker) then SubscriptionValidation
    else if header == Some(NotificationMarker) then Notification
    else Unrecognised
  }

  /** HandleValidation: echo the validation code of the first envelope. */
  function HandleValidation(events: seq<EventGridEvent>): (r: ActionResult)
    ensures r.ValidationResponse? <==> |events| > 0
    ensures |events| > 0 ==> r.validationResponse == events[0].data.validationCode
    ensures |events| == 0 ==> r == Unhandled(NoElements)
  {
    if |events| == 0 then Unhandled(NoElements)
    else ValidationResponse(events[0].data.validationCode)
  }

  /** The OrdinalIgnoreCase test of an envelope's event type. */
  predicate IsMessageReceived(e: EventGridEvent) {
    EqualsIgnoreCase(e.eventType, AdvancedMessageReceived)
  }

  function CustomerLine(from: string, content: string): string {
    "Customer(" + from + "): \"" + content + "\""
  }

  function AssistantLine(text: string): string {
    "Assistant: " + text
  }

  function FailedToRespondLine(number: string, message: string): string {
    "Error: Failed to respond to \"" + number + "\". Exception: " + message
  }

  /**
   * RespondToCustomerAsync as a value: generate a reply from the history, send it, and record
   * the outcome. Only a delivered reply enters the history; a RequestFailedException from the
   * send adds one error line; any other exception escapes with the store as it was.
   */
  function Respond(st: StoreState, number: string, services: Services): (o: Outcome)
    ensures var reply := Generate(st.history, services.search, services.chat).reply;
      match services.send(SendRequest([number], reply))
      case Sent =>
        o == Outcome(StoreState(st.log + [Message(AssistantLine(reply))], st.history + [AssistantMessage(reply)]), None)
      case SendRequestFailed(m) =>
        o == Outcome(StoreState(st.log + [Message(FailedToRespondLine(number, m))], st.history), None)
      case SendFaulted(m) =>
        o == Outcome(st, Some(m))
  {
    var g := Generate(st.history, services.search, services.chat);
    ReplyNeverBlank(st.history, services.search, services.chat);
    if IsBlank(g.reply) then
      Outcome(StoreState(st.log + [Message(NoResponseError)], st.history), None)
    else
      match services.send(SendRequest([number], g.reply))
      case Sent =>
        Outcome(StoreState(st.log + [Message(AssistantLine(g.reply))], st.history + [AssistantMessage(g.reply)]), None)
      case SendRequestFailed(m) =>
        Outcome(StoreState(st.log + [Message(FailedToRespondLine(number, m))], st.history), None)
      case SendFaulted(m) =>
        Outcome(st, Some(m))
  }

  /** One envelope of a batch: a message-received event logs the customer line, records the user message, then responds. */
  function HandleEvent(st: StoreState, e: EventGridEvent, services: Services): (o: Outcome)
    ensures !IsMessageReceived(e) ==> o == Outcome(st, None)
    ensures IsMessageReceived(e) ==>
      var received := StoreState(
        st.log + [Message(CustomerLine(e.data.from, e.data.content))],
        st.history + [UserMessage(e.data.content)]);
      var r := Respond(received, e.data.from, services);
      && o.fault == r.fault
      && (o.fault.None? ==> o == r)
      && (o.fault.Some? ==> o.state == received)
    ensures st.log <= o.state.log && st.history <= o.state.history
  {
    if !IsMessageReceived(e) then Outcome(st, None)
    else
      var received := StoreState(
        st.log + [Message(CustomerLine(e.data.from, e.data.content))],
        st.history + [UserMessage(e.data.content)]);
      var o := Respond(received, e.data.from, services);
      if o.fault.Some? then Outcome(received, o.fault) else o
  }

  /** A batch, envelope by envelope in array order; an escaping exception ends it. */
  function ProcessEvents(st: StoreState, events: seq<EventGridEvent>, services: nat -> Services): Outcome
    decreases |events|
  {
    if events == [] then Outcome(st, None)
    else
      var n := |events| - 1;
      Continue(ProcessEvents(st, events[..n], services), events[n], services(n))
  }

  /** The next envelope is handled only while no exception has escaped. */
  function Continue(prior: Outcome, e: EventGridEvent, services: Services): (o: Outcome)
    ensures prior.fault.Some? ==> o == prior
  {
    if prior.fault.Some? then prior else HandleEvent(prior.state, e, services)
  }

  /** Once an exception escapes, the envelopes after it change nothing. */
  lemma {:induction false} FaultEndsBatch(st: StoreState, events: seq<EventGridEvent>, services: nat -> Services, k: nat)
    requires k <= |events|
    requires ProcessEvents(st, events[..k], services).fault.Some?
    ensures ProcessEvents(st, events, services) == ProcessEvents(st, events[..k], services)
    decreases |events| - k
  {
    if k < |events| {
      var n := |events| - 1;
      assert events[..n][..k] == events[..k];
      FaultEndsBatch(st, events[..n], services, k);
      var prior := ProcessEvents(st, events[..n], services);
      assert prior.fault.Some?;
      assert ProcessEvents(st, events, services) == Continue(prior, events[n], services(n));
    } else {
      assert events[..k] == events;
    }
  }

  lemma LowerCaseTypeInParts()
    ensures AdvancedMessageReceived == "microsoft." + "communication." + "advancedmessagereceived"
  {
  }

  lemma PascalCaseTypeInParts()
    ensures EventGridTypeName == "Microsoft." + "Communication." + "AdvancedMessageReceived"
  {
  }

  lemma VendorEqualIgnoringCase()
    ensures EqualsIgnoreCase("Microsoft.", "microsoft.")
  {
  }

  lemma ServiceEqualIgnoringCase()
    ensures EqualsIgnoreCase("Communication.", "communication.")
  {
  }

  lemma EventEqualIgnoringCase()
    ensures EqualsIgnoreCase("AdvancedMessageReceived", "advancedmessagereceived")
  {
  }

  /** Event Grid's own spelling of the type, Microsoft.Communication.AdvancedMessageReceived, is handled. */
  lemma PascalCaseTypeIsHandled(data: EventData)
    ensures IsMessageReceived(EventGridEvent(EventGridTypeName, data))
  {
    var upper1, upper2, upper3 := "Microsoft.", "Communication.", "AdvancedMessageReceived";
    var lower1, lower2, lower3 := "microsoft.", "communication.", "advancedmessagereceived";
    LowerCaseTypeInParts();
    PascalCaseTypeInParts();
    VendorEqualIgnoringCase();
    ServiceEqualIgnoringCase();
    EventEqualIgnoringCase();
    EqualsIgnoreCaseConcat(upper1, upper2, lower1, lower2);
    EqualsIgnoreCaseConcat(upper1 + upper2, upper3, lower1 + lower2, lower3);
  }

  /** A notification with an empty envelope array is acknowledged and changes nothing. */
  lemma EmptyBatchIsOk(st: StoreState, services: nat -> Services)
    ensures Dispatch(st, Some(NotificationMarker), [], services) == Response(st, OkResult)
  {
  }

  /** Envelopes of other event types change nothing. */
  lemma {:induction false} IgnoredEventsChangeNothing(st: StoreState, events: seq<EventGridEvent>, services: nat -> Services)
    requires forall i :: 0 <= i < |events| ==> !IsMessageReceived(events[i])
    ensures ProcessEvents(st, events, services) == Outcome(st, None)
  {
    if events != [] {
      IgnoredEventsChangeNothing(st, events[..|events| - 1], services);
    }
  }

  /** A batch only appends: the log and the history before it are prefixes of those after it. */
  lemma {:induction false} BatchAppendsOnly(st: StoreState, events: seq<EventGridEvent>, services: nat -> Services)
    ensures var o := ProcessEvents(st, events, services);
      st.log <= o.state.log && st.history <= o.state.history
  {
    if events != [] {
      BatchAppendsOnly(st, events[..|events| - 1], services);
    }
  }

  /** The contents of the user messages of a history, oldest first. */
  function UserContents(history: seq<ChatMessage>): seq<string> {
    if history == [] then []
    else
      var n := |history| - 1;
      UserContents(history[..n]) + (if history[n].UserMessage? then [history[n].content] else [])
  }

  /** The contents of the message-received envelopes of a batch, in array order. */
  function ReceivedContents(events: seq<EventGridEvent>): seq<string> {
    if events == [] then []
    else
      var n := |events| - 1;
      ReceivedContents(events[..n]) + (if IsMessageReceived(events[n]) then [events[n].data.content] else [])
  }

  lemma {:induction false} UserContentsAppend(a: seq<ChatMessage>, b: seq<ChatMessage>)
    ensures UserContents(a + b) == UserContents(a) + UserContents(b)
    decreases |b|
  {
    if b == [] {
      assert a + b == a;
    } else {
      var n := |b| - 1;
      assert (a + b)[..|a| + n] == a + b[..n];
      UserContentsAppend(a, b[..n]);
    }
  }

  /** Each handled envelope adds exactly its own user message to the history (and possibly an assistant reply). */
  lemma HandleEventUserContents(st: StoreState, e: EventGridEvent, services: Services)
    requires HandleEvent(st, e, services).fault.None?
    ensures UserContents(HandleEvent(st, e, services).state.history) ==
      UserContents(st.history) + (if IsMessageReceived(e) then [e.data.content] else [])
  {
    if IsMessageReceived(e) {
      var message := UserMessage(e.data.content);
      var received := st.history + [message];
      var reply := Generate(received, services.search, services.chat).reply;
      var h := HandleEvent(st, e, services).state.history;
      assert h == received || h == received + [AssistantMessage(reply)];
      UserContentsAppend(st.history, [message]);
      assert UserContents([message]) == [e.data.content] by {
        assert [message][..0] == [];
      }
      if h != received {
        UserContentsAppend(received, [AssistantMessage(reply)]);
        assert UserContents([AssistantMessage(reply)]) == [] by {
          assert [AssistantMessage(reply)][..0] == [];
        }
      }
    }
  }

  /** Without an escaping exception, the history gains the batch's customer messages in array order. */
  lemma {:induction false} UserMessagesInArrayOrder(st: StoreState, events: seq<EventGridEvent>, services: nat -> Services)
    requires ProcessEvents(st, events, services).fault.None?
    ensures UserContents(ProcessEvents(st, events, services).state.history) == UserContents(st.history) + ReceivedContents(events)
  {
    if events != [] {
      var n := |events| - 1;
      var prior := ProcessEvents(st, events[..n], services);
      ContinueUserContents(prior, events[n], services(n));
      UserMessagesInArrayOrder(st, events[..n], services);
    }
  }

  lemma ContinueUserContents(prior: Outcome, e: EventGridEvent, services: Services)
    requires Continue(prior, e, services).fault.None?
    ensures prior.fault.None?
    ensures UserContents(Continue(prior, e, services).state.history) ==
      UserContents(prior.state.history) + (if IsMessageReceived(e) then [e.data.content] else [])
  {
    HandleEventUserContents(prior.state, e, services);
  }

  /** The lookup runs on the message just received: it is the latest user message of the history. */
  lemma LookupUsesTriggeringMessage(history: seq<ChatMessage>, content: string, search: SearchService, chat: ChatService)
    ensures LastUserMessage(history + [UserMessage(content)]) == Some(content)
    ensures var g := Generate(history + [UserMessage(content)], search, chat);
      if IsBlank(content) then g.reply == EmptyUserMessageReply && g.searches == []
      else g.searches == Retrieve(content, search).requests
  {
  }

  /**
   * A customer asks a question, the lookup finds documents, the model answers and the send
   * succeeds: the history ends with the question and the answer, and the log gains the
   * customer line and the assistant line, in that order.
   */
  lemma DeliveredAnswer(st: StoreState, from: string, question: string, answer: string, docs: seq<Document>, services: Services)
    requires !IsBlank(question) && !IsBlank(answer)
    requires services.search(SemanticVectorRequest(question)) == Found(docs)
    requires forall request :: services.chat(request) == Completed(Some(answer))
    requires forall request :: services.send(request) == Sent
    ensures var e := EventGridEvent(AdvancedMessageReceived, EventData(None, from, question));
      HandleEvent(st, e, services) == Outcome(StoreState(
        st.log + [Message(CustomerLine(from, question)), Message(AssistantLine(answer))],
        st.history + [UserMessage(question), AssistantMessage(answer)]), None)
  {
    var e := EventGridEvent(AdvancedMessageReceived, EventData(None, from, question));
    assert IsMessageReceived(e);
    var history := st.history + [UserMessage(question)];
    assert LastUserMessage(history) == Some(question);
    assert Generate(history, services.search, services.chat).reply == answer;
  }

  /** What a POST returns and leaves in the store. */
  datatype Response = Response(state: StoreState, result: ActionResult)

  /** Post: validation echo, notification batch, or BadRequest for any other header. */
  function Dispatch(st: StoreState, header: Option<string>, events: seq<EventGridEvent>, services: nat -> Services): (r: Response)
    ensures Classify(header) == Unrecognised ==> r == Response(st, BadRequestResult)
    ensures Classify(header) == SubscriptionValidation ==> r == Response(st, HandleValidation(events))
    ensures Classify(header) == Notification ==>
      var o := ProcessEvents(st, events, services);
      && r.state == o.state
      && (r.result == OkResult <==> o.fault.None?)
      && (o.fault.Some? ==> r.result == Unhandled(o.fault.value))
    ensures r.result.ValidationResponse? ==>
      header == Some(SubscriptionValidationMarker) && |events| > 0
      && r.result.validationResponse == events[0].data.validationCode
  {
    match Classify(header)
    case SubscriptionValidation => Response(st, HandleValidation(events))
    case Notification =>
      var o := ProcessEvents(st, events, services);
      Response(o.state, if o.fault.Some? then Unhandled(o.fault.value) else OkResult)
    case Unrecognised => Response(st, BadRequestResult)
  }

  /** The controller, sharing the process-wide conversation store. */
  class WebhookController {
    const store: ConversationStore

    constructor (store: ConversationStore)
      ensures this.store == store
    {
      this.store := store;
    }

    method Post(header: Option<string>, events: seq<EventGridEvent>, services: nat -> Services)
      returns (result: ActionResult)
      modifies store
      ensures Response(store.State(), result) == Dispatch(old(store.State()), header, events, services)
    {
      if header == Some(SubscriptionValidationMarker) {
        return HandleValidation(events);
      } else if header == Some(NotificationMarker) {
        result := HandleGridEvents(events, services);
        return;
      }
      return BadRequestResult;
    }

    method HandleGridEvents(events: seq<EventGridEvent>, services: nat -> Services) returns (result: ActionResult)
      modifies store
      ensures var o := ProcessEvents(old(store.State()), events, services);
        store.State() == o.state && result == (if o.fault.Some? then Unhandled(o.fault.value) else OkResult)
    {
      for i := 0 to |events|
        invariant ProcessEvents(old(store.State()), events[..i], services) == Outcome(store.State(), None)
      {
        assert events[..i + 1][..i] == events[..i];
        var e := events[i];
        if EqualsIgnoreCase(e.eventType, AdvancedMessageReceived) {
          store.messagesList := store.messagesList + [Message(CustomerLine(e.data.from, e.data.content))];
          store.conversationHistory := store.conversationHistory + [UserMessage(e.data.content)];
          var fault := RespondToCustomer(e.data.from, services(i));
          if fault.Some? {
            FaultEndsBatch(old(store.State()), events, services, i + 1);
            return Unhandled(fault.value);
          }
        }
      }
      assert events[..|events|] == events;
      return OkResult;
    }

    method RespondToCustomer(numberToRespondTo: string, services: Services) returns (fault: Option<string>)
      modifies store
      ensures Outcome(store.State(), fault) == Respond(old(store.State()), numberToRespondTo, services)
    {
      var assistantResponseText, _, _ := GenerateAIResponse(store.conversationHistory, services.search, services.chat);
      if IsBlank(assistantResponseText) {
        store.messagesList := store.messagesList + [Message(NoResponseError)];
        return None;
      }
      match services.send(SendRequest([numberToRespondTo], assistantResponseText))
      case Sent =>
        store.conversationHistory := store.conversationHistory + [AssistantMessage(assistantResponseText)];
        store.messagesList := store.messagesList + [Message(AssistantLine(assistantResponseText))];
        fault := None;
      case SendRequestFailed(m) =>
        store.messagesList := store.messagesList + [Message(FailedToRespondLine(numberToRespondTo, m))];
        fault := None;
      case SendFaulted(m) =>
        fault := Some(m);
    }
  }
}
