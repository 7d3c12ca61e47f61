/** The voice service: the review call and the call log. */
module Voice {
  import opened Results
  import opened Transport
  import opened Configuration
  import Message

  /** One entry of the call log as the service reports it. */
  datatype ReviewCallRecord = ReviewCallRecord(sid: string, to: string, dateCreated: string, duration: string)

  /** The request that places the review call to `to`. */
  function ReviewCallRequest(cfg: TwilioConfiguration, to: string): CallRequest {
    CallRequest(
      Some(to),
      Some(cfg.accountPhoneNumber),
      Some(cfg.baseUrl + cfg.statusCallbackPath),
      Some(["completed"]),
      Some(cfg.statusCallbackMethod),
      Some(Message.ReviewTwiml()))
  }

  /** What placing the call returns: any error, of either kind, is wrapped
      behind the method's prefix. */
  function CallOutcome(reply: Reply): Outcome<()> {
    match reply
    case None => Ok(())
    case Some(e) => Err("[InitiateReviewCall] Failed to create review call.\n Error: " + e.text)
  }

  /** Places the review call: to the customer, from the account's number,
      reporting only the "completed" status to the configured callback, and
      playing the review script. */
  method InitiateReviewCall(gw: Gateway, cfg: TwilioConfiguration, to: string) returns (r: Outcome<()>, ghost reply: Reply)
    modifies gw
    ensures gw.events == old(gw.events) + [Requested(VoiceRequest(ReviewCallRequest(cfg, to)), reply)]
    ensures r == CallOutcome(reply)
  {
    var params := new CreateCallParams();
    params.SetTo(to);
    params.SetFrom(cfg.accountPhoneNumber);
    params.SetStatusCallback(cfg.baseUrl + cfg.statusCallbackPath);
    params.SetStatusCallbackEvent(["completed"]);
    params.SetStatusCallbackMethod(cfg.statusCallbackMethod);
    var twiml := Message.GetReviewGreetingAndInstructionsTwiML();
    params.SetTwiml(twiml);
    var answer := gw.CreateCall(params);
    reply := answer;
    if answer.Some? {
      r := Err("[InitiateReviewCall] Failed to create review call.\n Error: " + answer.value.text);
    } else {
      r := Ok(());
    }
  }

  /** The review call's parameters, field by field. */
  lemma ReviewCallFields(cfg: TwilioConfiguration, to: string)
    ensures var c := ReviewCallRequest(cfg, to);
      && c.to == Some(to) && c.from == Some(cfg.accountPhoneNumber)
      && c.statusCallback == Some(cfg.baseUrl + cfg.statusCallbackPath)
      && c.statusCallbackEvent == Some(["completed"])
      && c.statusCallbackMethod == Some(cfg.statusCallbackMethod)
      && c.twiml == Some(Message.ReviewTwiml())
      && Message.Contains(c.twiml.value, "Ahoy! Greetings from Twilio Resorts and Spas")
      && Message.Contains(c.twiml.value, "<Record timeout=\"10\" maxLength=\"60\" playBeep=\"true\"></Record>")
  {
    Message.ReviewTwimlGreets();
    Message.ReviewTwimlRecords();
  }

  /** A record whose four fields are all present. */
  predicate Complete(r: CallRecord) {
    r.sid.Some? && r.to.Some? && r.dateCreated.Some? && r.duration.Some?
  }

  function Copy(r: CallRecord): ReviewCallRecord
    requires Complete(r)
  {
    ReviewCallRecord(r.sid.value, r.to.value, r.dateCreated.value, r.duration.value)
  }

  /** Fetches the call log. On success there is one entry per provider
      record, in the provider's order, with the four fields copied; a record
      with a missing field makes the dereference panic; a provider error is
      wrapped behind the method's prefix. */
  method RetrieveCallLogs(gw: Gateway) returns (r: Outcome<seq<ReviewCallRecord>>, ghost answer: Result<seq<CallRecord>, ApiError>)
    modifies gw
    ensures gw.events == old(gw.events) + [CallsListed(answer)]
    ensures answer.Failure? ==> r == Err("[RetrieveCallLogs] Failed to retrieve call logs.\n Error: " + answer.error.text)
    ensures answer.Success? ==>
      var records := answer.value;
      && (r.Ok? <==> forall i | 0 <= i < |records| :: Complete(records[i]))
      && (!r.Ok? ==> r == Panic)
      && (r.Ok? ==> |r.value| == |records| && forall i | 0 <= i < |records| :: r.value[i] == Copy(records[i]))
  {
    var listed := gw.ListCall();
    answer := listed;
    if listed.Failure? {
      return Err("[RetrieveCallLogs] Failed to retrieve call logs.\n Error: " + listed.error.text), answer;
    }
    var records := listed.value;
    var logs: seq<ReviewCallRecord> := [];
    for i := 0 to |records|
      invariant |logs| == i
      invariant forall k | 0 <= k < i :: Complete(records[k]) && logs[k] == Copy(records[k])
    {
      var v := records[i];
      if !Complete(v) {
        return Panic, answer;
      }
      logs := logs + [Copy(v)];
    }
    r := Ok(logs);
  }
}
