/** The outside world the services act on: the provider's REST API (SMS and
    voice), the Pub/Sub topic and the clock. The provider's answers are not
    modelled: each request gets an arbitrary answer, which is recorded with
    the request so that contracts can speak about it. */
module Transport {
  import opened Results

  /** Why the REST client failed. `RestError` is an error answer of the API
      (a `*TwilioRestError`); `OtherError` is any other error value, such as a
      failed connection. `text` is the error's `Error()` string. */
  datatype ApiError = RestError(text: string) | OtherError(text: string)

  /** The provider's answer to a create request: `None` when it was accepted. */
  type Reply = Option<ApiError>

  /** The parameters of a "create message" request; `None` is an unset field. */
  datatype MessageRequest = MessageRequest(to: Option<string>, from: Option<string>, body: Option<string>)

  /** The parameters of a "create call" request; `None` is an unset field. */
  datatype CallRequest = CallRequest(
    to: Option<string>,
    from: Option<string>,
    statusCallback: Option<string>,
    statusCallbackEvent: Option<seq<string>>,
    statusCallbackMethod: Option<string>,
    twiml: Option<string>)

  datatype ApiRequest = SmsRequest(message: MessageRequest) | VoiceRequest(call: CallRequest)

  /** One call of the provider's call log; every field may be missing. */
  datatype CallRecord = CallRecord(
    sid: Option<string>,
    to: Option<string>,
    dateCreated: Option<string>,
    duration: Option<string>)

  /** The record marshalled and published to the Pub/Sub topic after a
      message is sent. */
  datatype PublishContent = PublishContent(toNumber: string, message: string)

  /** A JSON object, as its members in the order they are written. */
  type JsonObject = seq<(string, string)>

  datatype Event =
    | Requested(request: ApiRequest, reply: Reply)
    | CallsListed(answer: Result<seq<CallRecord>, ApiError>)
    | Published(data: JsonObject)
    | Slept(seconds: nat)

  /** The create requests among `events`, in order. */
  function Sent(events: seq<Event>): seq<ApiRequest> {
    if events == [] then []
    else (if events[0].Requested? then [events[0].request] else []) + Sent(events[1..])
  }

  /** The provider's answers to those requests, in the same order. */
  function Replies(events: seq<Event>): (r: seq<Reply>)
    ensures |r| == |Sent(events)|
  {
    if events == [] then []
    else (if events[0].Requested? then [events[0].reply] else []) + Replies(events[1..])
  }

  lemma SentAppend(a: seq<Event>, b: seq<Event>)
    ensures Sent(a + b) == Sent(a) + Sent(b)
    ensures Replies(a + b) == Replies(a) + Replies(b)
  {
    SentConcat(a, b);
    RepliesConcat(a, b);
  }

  lemma {:induction false} SentConcat(a: seq<Event>, b: seq<Event>)
    ensures Sent(a + b) == Sent(a) + Sent(b)
  {
    if a == [] {
      assert a + b == b;
    } else {
      var head := if a[0].Requested? then [a[0].request] else [];
      assert (a + b)[0] == a[0];
      assert (a + b)[1..] == a[1..] + b;
      assert Sent(a + b) == head + Sent(a[1..] + b);
      SentConcat(a[1..], b);
      assert head + (Sent(a[1..]) + Sent(b)) == (head + Sent(a[1..])) + Sent(b);
    }
  }

  lemma {:induction false} RepliesConcat(a: seq<Event>, b: seq<Event>)
    ensures Replies(a + b) == Replies(a) + Replies(b)
  {
    if a == [] {
      assert a + b == b;
    } else {
      var head := if a[0].Requested? then [a[0].reply] else [];
      assert (a + b)[0] == a[0];
      assert (a + b)[1..] == a[1..] + b;
      assert Replies(a + b) == head + Replies(a[1..] + b);
      RepliesConcat(a[1..], b);
      assert head + (Replies(a[1..]) + Replies(b)) == (head + Replies(a[1..])) + Replies(b);
    }
  }

  /** The SDK's message parameter object, filled in through setters. */
  class CreateMessageParams {
    var to: Option<string>
    var from: Option<string>
    var body: Option<string>

    constructor ()
      ensures to == None && from == None && body == None
    {
      to, from, body := None, None, None;
    }

    function Value(): MessageRequest
      reads this
    {
      MessageRequest(to, from, body)
    }

    method SetTo(v: string)
      modifies this
      ensures Value() == old(Value()).(to := Some(v))
    {
      to := Some(v);
    }

    method SetFrom(v: string)
      modifies this
      ensures Value() == old(Value()).(from := Some(v))
    {
      from := Some(v);
    }

    method SetBody(v: string)
      modifies this
      ensures Value() == old(Value()).(body := Some(v))
    {
      body := Some(v);
    }
  }

  /** The SDK's call parameter object, filled in through setters. */
  class CreateCallParams {
    var to: Option<string>
    var from: Option<string>
    var statusCallback: Option<string>
    var statusCallbackEvent: Option<seq<string>>
    var statusCallbackMethod: Option<string>
    var twiml: Option<string>

    constructor ()
      ensures Value() == CallRequest(None, None, None, None, None, None)
    {
      to, from, statusCallback := None, None, None;
      statusCallbackEvent, statusCallbackMethod, twiml := None, None, None;
    }

    function Value(): CallRequest
      reads this
    {
      CallRequest(to, from, statusCallback, statusCallbackEvent, statusCallbackMethod, twiml)
    }

    method SetTo(v: string)
      modifies this
      ensures Value() == old(Value()).(to := Some(v))
    {
      to := Some(v);
    }

    method SetFrom(v: string)
      modifies this
      ensures Value() == old(Value()).(from := Some(v))
    {
      from := Some(v);
    }

    method SetStatusCallback(v: string)
      modifies this
      ensures Value() == old(Value()).(statusCallback := Some(v))
    {
      statusCallback := Some(v);
    }

    method SetStatusCallbackEvent(v: seq<string>)
      modifies this
      ensures Value() == old(Value()).(statusCallbackEvent := Some(v))
    {
      statusCallbackEvent := Some(v);
    }

    method SetStatusCallbackMethod(v: string)
      modifies this
      ensures Value() == old(Value()).(statusCallbackMethod := Some(v))
    {
      statusCallbackMethod := Some(v);
    }

    method SetTwiml(v: string)
      modifies this
      ensures Value() == old(Value()).(twiml := Some(v))
    {
      twiml := Some(v);
    }
  }

  /** The provider, the topic and the clock, seen through the history of
      what was done to them. */
  class Gateway {
    var events: seq<Event>

    constructor ()
      ensures events == []
    {
      events := [];
    }

    /** Asks the provider to send a message; the answer is arbitrary. */
    method CreateMessage(params: CreateMessageParams) returns (reply: Reply)
      modifies this
      ensures events == old(events) + [Requested(SmsRequest(params.Value()), reply)]
    {
      reply :| true;
      events := events + [Requested(SmsRequest(params.Value()), reply)];
    }

    /** Asks the provider to place a call; the answer is arbitrary. */
    method CreateCall(params: CreateCallParams) returns (reply: Reply)
      modifies this
      ensures events == old(events) + [Requested(VoiceRequest(params.Value()), reply)]
    {
      reply :| true;
      events := events + [Requested(VoiceRequest(params.Value()), reply)];
    }

    /** Asks the provider for its call log; the answer is arbitrary. */
    method ListCall() returns (answer: Result<seq<CallRecord>, ApiError>)
      modifies this
      ensures events == old(events) + [CallsListed(answer)]
    {
      answer :| true;
      events := events + [CallsListed(answer)];
    }

    /** Publishes one message, with `data` as its payload, to the topic. */
    method Publish(data: JsonObject)
      modifies this
      ensures events == old(events) + [Published(data)]
    {
      events := events + [Published(data)];
    }

    /** Blocks the caller for the given number of seconds. */
    method Sleep(seconds: nat)
      modifies this
      ensures events == old(events) + [Slept(seconds)]
    {
      events := events + [Slept(seconds)];
    }
  }
}
