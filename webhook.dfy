/**
 * The inbound webhook (app/routes/webhook.py, `handle_whatsapp_message`):
 * one step of a linear state machine. A message comes in; the sender's
 * number is derived, the history is fetched and then discarded, the
 * composer answers, the answer is sent back, and a save is scheduled only
 * when the send went through. The only state the handler changes is the
 * list of scheduled background saves.
 */
module Webhook {
  import opened Options
  import opened Text
  import opened AiService
  import opened WhatsAppService

  /** `extract_name_from_phone`: every sender is called "there". */
  function ExtractNameFromPhone(phoneNumber: string): (name: string)
    ensures name == "there"
    ensures HasName(Some(name))
  {
    "there"
  }

  /** `user_phone = From.replace("whatsapp:", "")`. */
  function UserPhone(from: string): (userPhone: string)
    ensures |userPhone| <= |from|
  {
    RemoveAll(from, Scheme)
  }

  /** An address without the scheme is its own user phone. */
  lemma UserPhoneUnchanged(from: string)
    requires !Contains(from, Scheme)
    ensures UserPhone(from) == from
  {
    RemoveAllAbsent(from, Scheme);
  }

  /** The sender of a scheme-prefixed address is the number after the scheme. */
  lemma UserPhoneDropsScheme(number: string)
    requires !Contains(number, Scheme)
    ensures UserPhone(Scheme + number) == number
  {
    RemoveAllLeading(Scheme, number);
    RemoveAllAbsent(number, Scheme);
  }

  /** A background save: the arguments of `save_conversation_background`. */
  datatype SaveTask = SaveTask(userPhone: string, userMessage: string, aiResponse: string, responseTimeMs: int)

  /** What the handler answers: the success-shaped payload or the HTTP error. */
  datatype WebhookReply =
    | Processed(status: string, message: string, provider: string)
    | ServerError(statusCode: int, detail: string)

  const InternalError: WebhookReply := ServerError(500, "Internal server error")

  /**
   * The collaborators of one request. `store(userPhone)` is `None` when the
   * awaited history fetch raises; the records it returns are otherwise
   * discarded. The remaining fields are handed on to the composer
   * (`generator`, `now`, `elapsedMs`, `composerFault`) and to the notifier
   * (`client`, `fromNumber`).
   */
  datatype Environment = Environment(
    store: string -> Option<seq<Conversation>>,
    generator: string -> Option<string>,
    now: int,
    elapsedMs: nat,
    composerFault: bool,
    client: MessageRequest -> bool,
    fromNumber: string)

  /** The observable effect of one request. */
  datatype Outcome = Outcome(reply: WebhookReply, delivery: Option<Delivery>, saves: seq<SaveTask>)

  /** What the composer answers in the live path: no history, the name "there". */
  function LiveResult(env: Environment, body: string, from: string): AiResult {
    Compose(body, None, Some(ExtractNameFromPhone(UserPhone(from))), env.now, env.generator, env.elapsedMs,
            env.composerFault)
  }

  /** The request handled as one step: reply, delivery and the saves it schedules. */
  function Handle(env: Environment, body: string, from: string): (o: Outcome)
    ensures o.reply.ServerError? <==> env.store(UserPhone(from)).None?
    ensures o.reply.ServerError? ==> o.reply == InternalError && o.delivery.None? && o.saves == []
    ensures o.reply.Processed? ==> o.reply.status == "success" && o.reply.message == "Message processed"
    ensures o.reply.Processed? ==> o.delivery.Some?
    ensures |o.saves| <= 1
    ensures o.saves != [] <==> o.delivery.Some? && o.delivery.value.sent
  {
    var userPhone := UserPhone(from);
    match env.store(userPhone)
    case None => Outcome(InternalError, None, [])
    case Some(_) =>
      var result := LiveResult(env, body, from);
      var delivery := SendMessage(env.client, env.fromNumber, from, result.response);
      var saves := if delivery.sent then [SaveTask(userPhone, body, result.response, result.responseTimeMs)] else [];
      Outcome(Processed("success", "Message processed", result.provider.Tag()), Some(delivery), saves)
  }

  /**
   * The history is overwritten with `None` before the composer is called,
   * and the name is always present, so in the live path personalisation is
   * exactly greeting detection.
   */
  lemma LivePersonalization(body: string, from: string, now: int)
    ensures UsePersonalizedGreeting(body, None, Some(ExtractNameFromPhone(UserPhone(from))), now)
            <==> IsGreetingMessage(body)
  {
    NoHistoryIsFirst(now);
  }

  /** In the live path the prompt never has a context block and the mode is never "continuing". */
  lemma LivePromptMode(body: string, from: string, now: int)
    ensures var personalize := UsePersonalizedGreeting(body, None, Some(ExtractNameFromPhone(UserPhone(from))), now);
            SelectMode(personalize, None, Some("there"))
            == if IsGreetingMessage(body) then PersonalizedGreeting("there") else ColdStart
  {
    LivePersonalization(body, from, now);
  }

  /** What the store returns (short of raising) makes no difference to anything the handler does. */
  lemma StoreContentIgnored(env: Environment, store: string -> Option<seq<Conversation>>, body: string, from: string)
    requires env.store(UserPhone(from)).Some? && store(UserPhone(from)).Some?
    ensures Handle(env.(store := store), body, from) == Handle(env, body, from)
  {
  }

  /**
   * A save is scheduled exactly when the send succeeded, once, with the
   * sender's number, the inbound body and the composer's text and time.
   */
  lemma SaveIffSent(env: Environment, body: string, from: string)
    requires env.store(UserPhone(from)).Some?
    ensures var o := Handle(env, body, from);
            var result := LiveResult(env, body, from);
            o.saves == if o.delivery.value.sent
                       then [SaveTask(UserPhone(from), body, result.response, result.responseTimeMs)]
                       else []
  {
  }

  /** The payload is success-shaped and carries the composer's tag, whether or not the send succeeded. */
  lemma PayloadIgnoresDelivery(env: Environment, client: MessageRequest -> bool, body: string, from: string)
    requires env.store(UserPhone(from)).Some?
    ensures Handle(env, body, from).reply
         == Processed("success", "Message processed", LiveResult(env, body, from).provider.Tag())
    ensures Handle(env.(client := client), body, from).reply == Handle(env, body, from).reply
  {
  }

  /**
   * The answer goes to the raw `From`, not to the derived number: the
   * recipient is `From` normalised by the notifier, which for an address
   * with the scheme in front is the scheme plus the validated number.
   */
  lemma ReplyGoesToRawSender(env: Environment, body: string, from: string)
    requires env.store(UserPhone(from)).Some?
    ensures var d := Handle(env, body, from).delivery.value;
            && d.request.to == RecipientAddress(from)
            && d.request.body == LiveResult(env, body, from).response
            && d.request.sender == env.fromNumber
            && (Scheme <= from ==> d.request.to == Scheme + ValidatePhoneNumber(from))
  {
    if Scheme <= from {
      RecipientMatchesValidate(from);
    }
  }

  /** A failing history fetch is the only way to the HTTP 500 answer; nothing is sent or saved. */
  lemma FetchFailureIsServerError(env: Environment, body: string, from: string)
    requires env.store(UserPhone(from)).None?
    ensures Handle(env, body, from) == Outcome(InternalError, None, [])
  {
  }

  /** The queue of background saves, in the order they were scheduled. */
  class BackgroundTasks {
    var scheduled: seq<SaveTask>

    constructor()
      ensures scheduled == []
    {
      scheduled := [];
    }

    /** `background_tasks.add_task`. */
    method AddTask(task: SaveTask)
      modifies this
      ensures scheduled == old(scheduled) + [task]
    {
      scheduled := scheduled + [task];
    }
  }

  /**
   * `handle_whatsapp_message`: the reply and the delivery are those of
   * `Handle`, and the saves `Handle` lists are appended to the queue.
   */
  method HandleWhatsAppMessage(tasks: BackgroundTasks, env: Environment, body: string, from: string)
    returns (reply: WebhookReply, delivery: Option<Delivery>)
    modifies tasks
    ensures reply == Handle(env, body, from).reply
    ensures delivery == Handle(env, body, from).delivery
    ensures tasks.scheduled == old(tasks.scheduled) + Handle(env, body, from).saves
  {
    var userPhone := UserPhone(from);
    var conversationHistory := env.store(userPhone);
    if conversationHistory.None? {
      return InternalError, None;
    }
    conversationHistory := None;
    var userName := ExtractNameFromPhone(userPhone);
    var aiResult := GenerateResponse(body, conversationHistory, Some(userName), env.now, env.generator,
                                     env.elapsedMs, env.composerFault);
    var sent := SendMessage(env.client, env.fromNumber, from, aiResult.response);
    if sent.sent {
      tasks.AddTask(SaveTask(userPhone, body, aiResult.response, aiResult.responseTimeMs));
    }
    reply := Processed("success", "Message processed", aiResult.provider.Tag());
    delivery := Some(sent);
  }

  /**
   * End to end: "Hi" (or any message that normalises to "hi") from
   * `whatsapp:+123` while the model is silent and the client accepts. The
   * personalised hello is sent back to the raw address and one save is
   * scheduled for `+123`.
   */
  lemma HiFromNewSender(env: Environment, body: string)
    requires Normalized(body) == "hi"
    requires env.store("+123").Some? && env.generator == (_ => None) && !env.composerFault
    requires forall r: MessageRequest :: env.client(r)
    ensures var o := Handle(env, body, "whatsapp:+123");
            && o.reply == Processed("success", "Message processed", "intelligent_fallback")
            && o.delivery.Some? && o.delivery.value.request.to == "whatsapp:+123"
            && o.saves == [SaveTask("+123", body, PersonalHelloReply("there"), env.elapsedMs)]
  {
    var from := "whatsapp:+123";
    assert from == Scheme + "+123";
    TooShortToContain("+123", Scheme);
    UserPhoneDropsScheme("+123");
    HiScenario(body, env.now, env.elapsedMs);
    RecipientMatchesValidate(from);
    ValidateExamples();
  }
}
