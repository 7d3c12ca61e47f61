/** The SMS service: which catalog body each sender sends, and what one send
    does to the outside world. */
module Sms {
  import opened Results
  import opened Transport
  import opened Configuration
  import Message

  /** The messages the service can send. */
  datatype Kind =
    | Greeting
    | Invite
    | AcceptConfirmation
    | InviteFallback
    | AskForName
    | AskForNameFallback
    | NamedGreeting(name: string)
    | CallNotification
    | ThankYou
    | Goodbye

  /** The body each sender sends. */
  function Body(k: Kind): string {
    match k
    case Greeting => Message.GREETING
    case Invite => Message.PARTICIPATION_INVITE
    case AcceptConfirmation => Message.PARTICIPATION_ACCEPT_RESPONSE
    case InviteFallback => Message.PARTICIPATION_INVITE_FALLBACK
    case AskForName => Message.ASK_FOR_NAME
    case AskForNameFallback => Message.ASK_FOR_NAME
    case NamedGreeting(name) => Message.GetHelloMessage(name)
    case CallNotification => Message.CALL_NOTIFICATION
    case ThankYou => Message.PARTICIPATION_THANKYOU
    case Goodbye => Message.GOODBYE
  }

  /** The text each sender puts in front of a transport error. */
  function ErrorPrefix(k: Kind): string {
    match k
    case Greeting => "[SendGreeting] Failed to send greeting"
    case Invite => "[SendInvite] Failed to send review invite"
    case AcceptConfirmation => "[SendAcceptConfirmation] Failed to send invite accept confirmation"
    case InviteFallback => "[SendInviteFallback] Failed to send invite fallback"
    case AskForName => "[SendAskForName] Failed to send name query"
    case AskForNameFallback => "[SendAskForNameFallback] Failed to send name query fallback"
    case NamedGreeting(_) => "[SendNamedGreeting] Failed to send named greeting"
    case CallNotification => "[SendCallNotification] Failed to send call notification"
    case ThankYou => "[SendThankYou] Failed to send thank you"
    case Goodbye => "[SendGoodbye] Failed to send goodbye"
  }

  /** `json.Marshal` of the record: its fields under their JSON tags `to`
      and `message`, in declaration order. */
  function JsonFields(c: PublishContent): JsonObject {
    [(TO_KEY, c.toNumber), (MESSAGE_KEY, c.message)]
  }

  /** The JSON tags of the record's two fields. */
  const TO_KEY: string := "to"
  const MESSAGE_KEY: string := "message"

  /** Reading a published payload back as the record: exactly the two
      members `to` and `message`, in that order. */
  function ContentFromJson(data: JsonObject): Option<PublishContent> {
    if |data| == 2 && data[0].0 == TO_KEY && data[1].0 == MESSAGE_KEY then Some(PublishContent(data[0].1, data[1].1))
    else None
  }

  /** What one send leaves behind: the create request with the provider's
      answer and, only when it was accepted, the marshalled record published
      once. */
  function MessageEvents(to: string, from: string, body: string, reply: Reply): seq<Event> {
    [Requested(SmsRequest(MessageRequest(Some(to), Some(from), Some(body))), reply)]
    + (if reply == None then [Published(JsonFields(PublishContent(to, body)))] else [])
  }

  /** What one send returns: nothing on success, the error wrapped behind the
      sender's prefix for an API error, and a panic for any other error (the
      unchecked conversion to `*TwilioRestError`). */
  function MessageOutcome(errMsg: string, reply: Reply): Outcome<()> {
    match reply
    case None => Ok(())
    case Some(RestError(text)) => Err(errMsg + ". Error: " + text)
    case Some(OtherError(_)) => Panic
  }

  /** A send publishes exactly when the provider accepts it and never
      otherwise; the one payload it publishes is the JSON object with the
      recipient under `to` and the body under `message`; and the send
      succeeds exactly when it was accepted, whatever its error text. */
  lemma PublishesOnlyOnSuccess(to: string, from: string, body: string, errMsg: string, reply: Reply)
    ensures var ev := MessageEvents(to, from, body, reply);
      && Sent(ev) == [SmsRequest(MessageRequest(Some(to), Some(from), Some(body)))]
      && Replies(ev) == [reply]
      && (reply == None <==> Published([("to", to), ("message", body)]) in ev)
      && (forall e | e in ev && e.Published? :: e.data == [("to", to), ("message", body)])
      && (forall e | e in ev && e.Published? :: ContentFromJson(e.data) == Some(PublishContent(to, body)))
      && MessageOutcome(errMsg, reply).Ok? == (reply == None)
  {
    var ev := MessageEvents(to, from, body, reply);
    var first := [Requested(SmsRequest(MessageRequest(Some(to), Some(from), Some(body))), reply)];
    assert Sent(first) == [first[0].request];
    if reply == None {
      var pub := [Published(JsonFields(PublishContent(to, body)))];
      assert Sent(pub) == [] && Replies(pub) == [];
      SentAppend(first, pub);
    } else {
      assert ev == first;
    }
  }

  /** The published payload and the record determine each other: reading
      back a marshalled record gives that record, and a payload that reads
      back as a record is that record marshalled. */
  lemma JsonRoundTrip(c: PublishContent, data: JsonObject)
    ensures ContentFromJson(JsonFields(c)) == Some(c)
    ensures ContentFromJson(data) == Some(c) ==> data == JsonFields(c)
  {
    if ContentFromJson(data) == Some(c) {
      assert data == [data[0], data[1]];
    }
  }

  /** `sendMessage`: fills in the request, asks the provider, and on success
      publishes the recipient and body to the topic. */
  method SendMessage(gw: Gateway, to: string, from: string, body: string, errMsg: string)
    returns (r: Outcome<()>, ghost reply: Reply)
    modifies gw
    ensures gw.events == old(gw.events) + MessageEvents(to, from, body, reply)
    ensures r == MessageOutcome(errMsg, reply)
  {
    var params := new CreateMessageParams();
    params.SetTo(to);
    params.SetFrom(from);
    params.SetBody(body);
    var answer := gw.CreateMessage(params);
    reply := answer;
    match answer {
      case Some(RestError(text)) =>
        r := Err(errMsg + ". Error: " + text);
      case Some(OtherError(_)) =>
        r := Panic;
      case None =>
        var msgJson := JsonFields(PublishContent(to, body));
        gw.Publish(msgJson);
        r := Ok(());
    }
  }

  method SendGreeting(gw: Gateway, cfg: TwilioConfiguration, to: string) returns (r: Outcome<()>, ghost reply: Reply)
    modifies gw
    ensures gw.events == old(gw.events) + MessageEvents(to, cfg.accountPhoneNumber, Body(Greeting), reply)
    ensures r == MessageOutcome(ErrorPrefix(Greeting), reply)
  {
    r, reply := SendMessage(gw, to, cfg.accountPhoneNumber, Message.GREETING, "[SendGreeting] Failed to send greeting");
  }

  method SendInvite(gw: Gateway, cfg: TwilioConfiguration, to: string) returns (r: Outcome<()>, ghost reply: Reply)
    modifies gw
    ensures gw.events == old(gw.events) + MessageEvents(to, cfg.accountPhoneNumber, Body(Invite), reply)
    ensures r == MessageOutcome(ErrorPrefix(Invite), reply)
  {
    r, reply := SendMessage(gw, to, cfg.accountPhoneNumber, Message.PARTICIPATION_INVITE, "[SendInvite] Failed to send review invite");
  }

  method SendAcceptConfirmation(gw: Gateway, cfg: TwilioConfiguration, to: string) returns (r: Outcome<()>, ghost reply: Reply)
    modifies gw
    ensures gw.events == old(gw.events) + MessageEvents(to, cfg.accountPhoneNumber, Body(AcceptConfirmation), reply)
    ensures r == MessageOutcome(ErrorPrefix(AcceptConfirmation), reply)
  {
    r, reply := SendMessage(gw, to, cfg.accountPhoneNumber, Message.PARTICIPATION_ACCEPT_RESPONSE,
      "[SendAcceptConfirmation] Failed to send invite accept confirmation");
  }

  method SendInviteFallback(gw: Gateway, cfg: TwilioConfiguration, to: string) returns (r: Outcome<()>, ghost reply: Reply)
    modifies gw
    ensures gw.events == old(gw.events) + MessageEvents(to, cfg.accountPhoneNumber, Body(InviteFallback), reply)
    ensures r == MessageOutcome(ErrorPrefix(InviteFallback), reply)
  {
    r, reply := SendMessage(gw, to, cfg.accountPhoneNumber, Message.PARTICIPATION_INVITE_FALLBACK,
      "[SendInviteFallback] Failed to send invite fallback");
  }

  method SendAskForName(gw: Gateway, cfg: TwilioConfiguration, to: string) returns (r: Outcome<()>, ghost reply: Reply)
    modifies gw
    ensures gw.events == old(gw.events) + MessageEvents(to, cfg.accountPhoneNumber, Body(AskForName), reply)
    ensures r == MessageOutcome(ErrorPrefix(AskForName), reply)
  {
    r, reply := SendMessage(gw, to, cfg.accountPhoneNumber, Message.ASK_FOR_NAME, "[SendAskForName] Failed to send name query");
  }

  /** Sends the same body as `SendAskForName`; only the error prefix differs. */
  method SendAskForNameFallback(gw: Gateway, cfg: TwilioConfiguration, to: string) returns (r: Outcome<()>, ghost reply: Reply)
    modifies gw
    ensures gw.events == old(gw.events) + MessageEvents(to, cfg.accountPhoneNumber, Body(AskForNameFallback), reply)
    ensures r == MessageOutcome(ErrorPrefix(AskForNameFallback), reply)
  {
    r, reply := SendMessage(gw, to, cfg.accountPhoneNumber, Message.ASK_FOR_NAME,
      "[SendAskForNameFallback] Failed to send name query fallback");
  }

  method SendNamedGreeting(gw: Gateway, cfg: TwilioConfiguration, to: string, name: string) returns (r: Outcome<()>, ghost reply: Reply)
    modifies gw
    ensures gw.events == old(gw.events) + MessageEvents(to, cfg.accountPhoneNumber, Body(NamedGreeting(name)), reply)
    ensures r == MessageOutcome(ErrorPrefix(NamedGreeting(name)), reply)
  {
    var body := Message.GetHelloMessage(name);
    Message.HelloMessageShape(name);
    r, reply := SendMessage(gw, to, cfg.accountPhoneNumber, body, "[SendNamedGreeting] Failed to send named greeting");
  }

  method SendCallNotification(gw: Gateway, cfg: TwilioConfiguration, to: string) returns (r: Outcome<()>, ghost reply: Reply)
    modifies gw
    ensures gw.events == old(gw.events) + MessageEvents(to, cfg.accountPhoneNumber, Body(CallNotification), reply)
    ensures r == MessageOutcome(ErrorPrefix(CallNotification), reply)
  {
    r, reply := SendMessage(gw, to, cfg.accountPhoneNumber, Message.CALL_NOTIFICATION,
      "[SendCallNotification] Failed to send call notification");
  }

  method SendThankYou(gw: Gateway, cfg: TwilioConfiguration, to: string) returns (r: Outcome<()>, ghost reply: Reply)
    modifies gw
    ensures gw.events == old(gw.events) + MessageEvents(to, cfg.accountPhoneNumber, Body(ThankYou), reply)
    ensures r == MessageOutcome(ErrorPrefix(ThankYou), reply)
  {
    r, reply := SendMessage(gw, to, cfg.accountPhoneNumber, Message.PARTICIPATION_THANKYOU, "[SendThankYou] Failed to send thank you");
  }

  method SendGoodbye(gw: Gateway, cfg: TwilioConfiguration, to: string) returns (r: Outcome<()>, ghost reply: Reply)
    modifies gw
    ensures gw.events == old(gw.events) + MessageEvents(to, cfg.accountPhoneNumber, Body(Goodbye), reply)
    ensures r == MessageOutcome(ErrorPrefix(Goodbye), reply)
  {
    r, reply := SendMessage(gw, to, cfg.accountPhoneNumber, Message.GOODBYE, "[SendGoodbye] Failed to send goodbye");
  }
}
