/**
 * The WhatsApp channel of the service (`WhatsAppService`): reading the sender
 * and the message out of a webhook payload, queueing the turn as a
 * background task, and building and interpreting the outbound Graph API
 * request.
 *
 * The HTTP client is a function parameter from request to response; the
 * configuration values are fields of `Settings`.
 */
module WhatsAppService {
  import opened Wrappers
  import opened PyStrings
  import opened PyValues

  /** The configuration values the channel reads. */
  datatype Settings = Settings(whatsappApiToken: string, whatsappPhoneId: string, verifyToken: string)

  function Dict1(k: string, v: Json): Json {
    JDict(map[k := v])
  }

  function Dict2(k1: string, v1: Json, k2: string, v2: Json): Json {
    JDict(map[k1 := v1, k2 := v2])
  }

  /** `data['entry'][0]['changes'][0]['value']['messages'][0]`. */
  function FirstMessage(data: Json): (r: Result<Json, PyError>)
    ensures r.Err? ==> r.error.KeyError? || r.error.IndexError? || r.error.TypeError?
  {
    var entries :- Subscript(data, Name("entry"));
    var entry :- Subscript(entries, Position(0));
    var changes :- Subscript(entry, Name("changes"));
    var change :- Subscript(changes, Position(0));
    var value :- Subscript(change, Name("value"));
    var messages :- Subscript(value, Name("messages"));
    Subscript(messages, Position(0))
  }

  /**
   * The two reads of `handle_incoming_message`: the sender is the "from"
   * field of the first message, and the message is that first message.
   */
  function ExtractSenderAndMessage(data: Json): (r: Result<(Json, Json), PyError>)
    ensures r.Ok? <==> FirstMessage(data).Ok? && Subscript(FirstMessage(data).value, Name("from")).Ok?
    ensures r.Ok? ==> var message := r.value.1;
                      && message == FirstMessage(data).value
                      && message.JDict? && "from" in message.fields && r.value.0 == message.fields["from"]
    ensures FirstMessage(data).Err? ==> r == Err(FirstMessage(data).error)
  {
    var message :- FirstMessage(data);
    var sender :- Subscript(message, Name("from"));
    Ok((sender, message))
  }

  /** The payload shape WhatsApp posts for one inbound message. */
  function WebhookPayload(sender: Json, message: map<string, Json>): Json {
    Dict1("entry", JList([Dict1("changes", JList([Dict1("value", Dict1("messages", JList([
      JDict(message["from" := sender])])))]))]))
  }

  /** Extraction inverts the payload shape: it returns the sender and the message that were packed. */
  lemma ExtractFromWebhookPayload(sender: Json, message: map<string, Json>)
    ensures ExtractSenderAndMessage(WebhookPayload(sender, message)) == Ok((sender, JDict(message["from" := sender])))
  {
  }

  /** A payload without "entry" fails with KeyError on that key. */
  lemma MissingEntryIsKeyError(fields: map<string, Json>)
    requires "entry" !in fields
    ensures ExtractSenderAndMessage(JDict(fields)) == Err(KeyError(Name("entry")))
  {
  }

  /** An empty "messages" list (a status notification, say) fails with IndexError, not KeyError. */
  lemma EmptyMessagesIsIndexError(value: map<string, Json>)
    requires "messages" in value && value["messages"] == JList([])
    ensures ExtractSenderAndMessage(Dict1("entry", JList([Dict1("changes", JList([Dict1("value", JDict(value))]))])))
            == Err(IndexError("list index out of range"))
  {
  }

  /** An empty "entry" list fails with IndexError, not KeyError. */
  lemma EmptyEntryIsIndexError()
    ensures ExtractSenderAndMessage(Dict1("entry", JList([]))) == Err(IndexError("list index out of range"))
  {
  }

  /** The delivery functions a turn can be given. */
  datatype DeliveryFunction = SendMessageToWhatsApp | SendMessageToWeb

  /** A queued call of `process_message_from_channel(db, userId, message, channel, deliver)`. */
  datatype Task = ProcessMessageTask(userId: Json, message: Json, channel: string, deliver: DeliveryFunction)

  const WhatsAppChannel := "whatsapp"

  /** FastAPI's `BackgroundTasks`: the calls queued to run after the response. */
  class BackgroundTasks {
    var tasks: seq<Task>

    constructor ()
      ensures tasks == []
    {
      tasks := [];
    }

    method AddTask(task: Task)
      modifies this
      ensures tasks == old(tasks) + [task]
    {
      tasks := tasks + [task];
    }
  }

  const InvalidPayload := Dict2("status", JStr("error"), "message", JStr("Invalid payload structure"))
  const Received := Dict2("status", JStr("received"), "message", JStr("Received and processing"))

  /**
   * What `handle_incoming_message` does with a payload: the value it returns
   * (or the exception it raises) and what it queues, if any. Only a
   * KeyError is turned into the error dict.
   */
  function Handling(data: Json): (Result<Json, PyError>, Option<Task>) {
    match ExtractSenderAndMessage(data)
    case Err(KeyError(_)) => (Ok(InvalidPayload), None)
    case Err(e) => (Err(e), None)
    case Ok((sender, message)) =>
      (Ok(Received), Some(ProcessMessageTask(sender, message, WhatsAppChannel, SendMessageToWhatsApp)))
  }

  /**
   * A payload is acknowledged as received exactly when both reads succeed;
   * then one task is queued for the sender and message, on the WhatsApp
   * channel with WhatsApp delivery. A missing key gives the error dict and
   * queues nothing; any other failure propagates and queues nothing.
   */
  lemma HandlingOutcomes(data: Json)
    ensures var (response, task) := Handling(data);
            && (response == Ok(Received) <==> ExtractSenderAndMessage(data).Ok?)
            && (task.Some? <==> ExtractSenderAndMessage(data).Ok?)
            && (task.Some? ==> task.value.userId == ExtractSenderAndMessage(data).value.0
                               && task.value.message == ExtractSenderAndMessage(data).value.1
                               && task.value.channel == "whatsapp" && task.value.deliver == SendMessageToWhatsApp)
            && (response == Ok(InvalidPayload) <==> ExtractSenderAndMessage(data).Err? && ExtractSenderAndMessage(data).error.KeyError?)
            && (response.Err? <==> ExtractSenderAndMessage(data).Err? && !ExtractSenderAndMessage(data).error.KeyError?)
  {
    assert Received.fields["status"] != InvalidPayload.fields["status"];
  }

  /** `handle_incoming_message`: queues at most one task and returns the acknowledgement. */
  method HandleIncomingMessage(data: Json, backgroundTasks: BackgroundTasks) returns (r: Result<Json, PyError>)
    modifies backgroundTasks
    ensures r == Handling(data).0
    ensures backgroundTasks.tasks == old(backgroundTasks.tasks) + (if Handling(data).1.Some? then [Handling(data).1.value] else [])
  {
    var extracted := ExtractSenderAndMessage(data);
    if extracted.Err? {
      if extracted.error.KeyError? {
        return Ok(InvalidPayload);
      }
      return Err(extracted.error);
    }
    var (sender, message) := extracted.value;
    backgroundTasks.AddTask(ProcessMessageTask(sender, message, WhatsAppChannel, SendMessageToWhatsApp));
    r := Ok(Received);
  }

  /** An HTTP request as the client sends it; the body is the JSON document. */
  datatype HttpRequest = HttpRequest(url: string, headers: map<string, string>, body: Json)

  /** An HTTP response: its status and its body as `response.json()` decodes it (or the decoding error). */
  datatype HttpResponse = HttpResponse(statusCode: int, body: Result<Json, PyError>)

  const GraphApiBase := "https://graph.facebook.com/v20.0/"
  const MessagesSuffix := "/messages"
  const BearerPrefix := "Bearer "

  function MessagesUrl(phoneId: string): string {
    GraphApiBase + phoneId + MessagesSuffix
  }

  /** Reads the phone id back out of a messages URL. */
  function PhoneIdOf(url: string): Option<string> {
    if |url| < |GraphApiBase| + |MessagesSuffix| then None
    else if url[..|GraphApiBase|] != GraphApiBase || url[|url| - |MessagesSuffix|..] != MessagesSuffix then None
    else Some(url[|GraphApiBase|..|url| - |MessagesSuffix|])
  }

  /** The URL embeds the configured phone id, and nothing else varies. */
  lemma MessagesUrlRoundTrip(phoneId: string)
    ensures PhoneIdOf(MessagesUrl(phoneId)) == Some(phoneId)
  {
    var url := MessagesUrl(phoneId);
    assert url[..|GraphApiBase|] == GraphApiBase;
    assert url[|url| - |MessagesSuffix|..] == MessagesSuffix;
    assert url[|GraphApiBase|..|url| - |MessagesSuffix|] == phoneId;
  }

  /** The text-message body of the Graph API. */
  function OutboundBody(phoneNumber: string, messageText: string): Json {
    JDict(map[
      "messaging_product" := JStr("whatsapp"),
      "to" := JStr(phoneNumber),
      "type" := JStr("text"),
      "text" := Dict1("body", JStr(messageText))])
  }

  /** Reads recipient and text back out of a text-message body. */
  function RecipientAndText(body: Json): Option<(string, string)> {
    if !body.JDict? || "to" !in body.fields || "text" !in body.fields then None
    else
      var to := body.fields["to"];
      var text := body.fields["text"];
      if !to.JStr? || !text.JDict? || "body" !in text.fields || !text.fields["body"].JStr? then None
      else Some((to.s, text.fields["body"].s))
  }

  /** The request of `send_message_to_whatsapp`. */
  function OutboundRequest(settings: Settings, phoneNumber: string, messageText: string): (r: HttpRequest)
    ensures PhoneIdOf(r.url) == Some(settings.whatsappPhoneId)
    ensures r.headers.Keys == {"Authorization", "Content-Type"}
    ensures StartsWith(r.headers["Authorization"], BearerPrefix)
            && r.headers["Authorization"][|BearerPrefix|..] == settings.whatsappApiToken
    ensures RecipientAndText(r.body) == Some((phoneNumber, messageText))
    ensures r.body.JDict? && r.body.fields.Keys == {"messaging_product", "to", "type", "text"}
    ensures r.headers["Content-Type"] == "application/json"
    ensures r.body.fields["messaging_product"] == JStr("whatsapp") && r.body.fields["type"] == JStr("text")
    ensures r.body.fields["text"].JDict? && r.body.fields["text"].fields.Keys == {"body"}
  {
    MessagesUrlRoundTrip(settings.whatsappPhoneId);
    var authorization := BearerPrefix + settings.whatsappApiToken;
    assert authorization[|BearerPrefix|..] == settings.whatsappApiToken;
    HttpRequest(
      MessagesUrl(settings.whatsappPhoneId),
      map["Authorization" := authorization, "Content-Type" := "application/json"],
      OutboundBody(phoneNumber, messageText))
  }

  const DeliverySuccess := Dict1("status", JStr("success"))

  /**
   * The status mapping of `send_message_to_whatsapp`: exactly status 200 is a
   * success; any other status, other 2xx codes included, reports the
   * decoded response body as the error message.
   */
  function DeliveryOutcome(response: HttpResponse): (r: Result<Json, PyError>)
    ensures r == Ok(DeliverySuccess) <==> response.statusCode == 200
    ensures response.statusCode != 200 && response.body.Ok? ==>
              r.Ok? && r.value.JDict? && r.value.fields.Keys == {"status", "message"}
              && r.value.fields["status"] == JStr("error") && r.value.fields["message"] == response.body.value
    ensures r.Err? <==> response.statusCode != 200 && response.body.Err?
  {
    if response.statusCode == 200 then Ok(DeliverySuccess)
    else
      var body :- response.body;
      var failure := Dict2("status", JStr("error"), "message", body);
      assert "message" in failure.fields && "message" !in DeliverySuccess.fields;
      Ok(failure)
  }

  /**
   * `send_message_to_whatsapp`: one POST of the outbound request, whose
   * response decides the result. A failure of the client itself is the
   * client's exception.
   */
  function SendToWhatsApp(
    settings: Settings, phoneNumber: string, messageText: string,
    post: HttpRequest -> Result<HttpResponse, PyError>): (r: Result<Json, PyError>)
    ensures post(OutboundRequest(settings, phoneNumber, messageText)).Err? ==>
              r == Err(post(OutboundRequest(settings, phoneNumber, messageText)).error)
    ensures post(OutboundRequest(settings, phoneNumber, messageText)).Ok? ==>
              r == DeliveryOutcome(post(OutboundRequest(settings, phoneNumber, messageText)).value)
    ensures post(OutboundRequest(settings, phoneNumber, messageText)).Ok? ==>
              (r == Ok(DeliverySuccess) <==> post(OutboundRequest(settings, phoneNumber, messageText)).value.statusCode == 200)
  {
    var response :- post(OutboundRequest(settings, phoneNumber, messageText));
    DeliveryOutcome(response)
  }
}
