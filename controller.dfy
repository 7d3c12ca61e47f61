/** The review webhook: request authentication, the stateless reply
    dispatcher, the call-event handler and the campaign kickoff. */
module ReviewController {
  import opened Results
  import opened Transport
  import opened Configuration
  import Strings
  import Format
  import Message
  import Sms
  import Voice
  import opened Plans

  const WAIT_SECONDS_UNTIL_CALL: nat := 8
  const SIGNATURE_HEADER: string := "X-Twilio-Signature"

  // ---------------------------------------------------------------------
  // Requests and responses

  /** A form key parsed from a request body always has at least one value. */
  type FormValues = s: seq<string> | |s| > 0 witness [""]

  datatype Request = Request(
    requestUri: string,
    header: map<string, seq<string>>,
    postForm: map<string, FormValues>)

  /** What a handler leaves for the client: a status and body, a panic that
      the router's recovery turns into a 500, or (in a background task, where
      nothing recovers it) the end of the process. */
  datatype HttpOutcome = Answered(status: int, body: string) | Panicked | Crashed

  /** The request validator: the signature check over the full URL, the form
      parameters and the signature. Its cryptography is not modelled. */
  type Validator = (string, map<string, string>, string) -> bool

  /** The controller's collaborators: the services' configuration (the SMS
      and voice services share it), the public base URL and the validator. */
  datatype Controller = Controller(config: TwilioConfiguration, baseUrl: string, validate: Validator)

  /** `c.PostForm(key)`: the first value of the form key, or "" when absent. */
  function PostForm(req: Request, key: string): string {
    if key in req.postForm then req.postForm[key][0] else ""
  }

  function SignatureHeader(req: Request): seq<string> {
    if SIGNATURE_HEADER in req.header then req.header[SIGNATURE_HEADER] else []
  }

  /** The form as the validator sees it: the first value of every key. */
  function FirstValues(form: map<string, FormValues>): map<string, string> {
    map k | k in form :: form[k][0]
  }

  /** `isValidRequest`: a request is authentic only if it carries a signature
      and the validator accepts it for `baseURL + RequestURI`. */
  predicate ValidRequest(ctr: Controller, req: Request) {
    var sig := SignatureHeader(req);
    |sig| > 0 && ctr.validate(ctr.baseUrl + req.requestUri, FirstValues(req.postForm), sig[0])
  }

  /** Without a signature header a request is refused whatever the validator
      would say: the check fails closed. */
  lemma FailsClosed(ctr: Controller, req: Request)
    requires SIGNATURE_HEADER !in req.header || req.header[SIGNATURE_HEADER] == []
    ensures !ValidRequest(ctr, req)
    ensures forall v: Validator :: !ValidRequest(ctr.(validate := v), req)
  {
  }

  /** Collects the first value of each form key and consults the validator
      only when a signature is present. */
  method IsValidRequest(ctr: Controller, req: Request) returns (valid: bool)
    ensures valid == ValidRequest(ctr, req)
  {
    var url := ctr.baseUrl + req.requestUri;
    var signatureHeader := SignatureHeader(req);
    var params: map<string, string> := map[];
    var keys := req.postForm.Keys;
    while keys != {}
      invariant keys <= req.postForm.Keys
      invariant params.Keys == req.postForm.Keys - keys
      invariant forall k | k in params :: params[k] == req.postForm[k][0]
      decreases keys
    {
      var k :| k in keys;
      params := params[k := req.postForm[k][0]];
      keys := keys - {k};
    }
    assert params == FirstValues(req.postForm);
    if |signatureHeader| > 0 {
      return ctr.validate(url, params, signatureHeader[0]);
    }
    return false;
  }

  // ---------------------------------------------------------------------
  // Classification of a reply

  datatype Branch = Accept | Decline | Fallback

  /** The reply is trimmed, lower-cased and compared with "yes" and "no";
      anything else falls back to repeating the invite. */
  function Classify(body: string): Branch {
    var reply := Strings.ToLower(Strings.TrimSpace(body));
    if reply == "yes" then Accept
    else if reply == "no" then Decline
    else Fallback
  }

  predicate CaseFreeChar(c: char, lower: char) {
    Strings.LowerChar(c) == lower
  }

  lemma {:induction false} ToLowerIsWord(t: string, w: string)
    requires forall i | 0 <= i < |w| :: w[i] == Strings.LowerChar(w[i]) && 'a' <= w[i] <= 'z'
    ensures Strings.ToLower(t) == w <==> |t| == |w| && forall i | 0 <= i < |t| :: CaseFreeChar(t[i], w[i])
  {
    if |t| == |w| && forall i | 0 <= i < |t| :: CaseFreeChar(t[i], w[i]) {
      assert forall i | 0 <= i < |t| :: Strings.ToLower(t)[i] == w[i];
    }
  }

  lemma LowerCharIs(c: char, lower: char)
    requires 'a' <= lower <= 'z'
    ensures CaseFreeChar(c, lower) <==> c == lower || c as int == lower as int - 32
  {
  }

  /** "yes" is recognised exactly when the trimmed reply spells it in any mix
      of upper and lower case. */
  lemma AcceptExactly(body: string)
    ensures var t := Strings.TrimSpace(body);
      Classify(body) == Accept <==>
        |t| == 3 && (t[0] == 'y' || t[0] == 'Y') && (t[1] == 'e' || t[1] == 'E') && (t[2] == 's' || t[2] == 'S')
  {
    var t := Strings.TrimSpace(body);
    ToLowerIsWord(t, "yes");
    if |t| == 3 {
      LowerCharIs(t[0], 'y');
      LowerCharIs(t[1], 'e');
      LowerCharIs(t[2], 's');
    }
  }

  /** "no" is recognised exactly when the trimmed reply spells it in any mix
      of upper and lower case. */
  lemma DeclineExactly(body: string)
    ensures var t := Strings.TrimSpace(body);
      Classify(body) == Decline <==>
        |t| == 2 && (t[0] == 'n' || t[0] == 'N') && (t[1] == 'o' || t[1] == 'O')
  {
    var t := Strings.TrimSpace(body);
    ToLowerIsWord(t, "yes");
    ToLowerIsWord(t, "no");
    if |t| == 2 {
      LowerCharIs(t[0], 'n');
      LowerCharIs(t[1], 'o');
    }
  }

  /** White space around the reply does not change its branch. */
  lemma ClassifyIgnoresPadding(pre: string, w: string, post: string)
    requires Strings.AllSpace(pre) && Strings.AllSpace(post)
    ensures Classify(pre + w + post) == Classify(w)
  {
    Strings.TrimSpaceIgnoresPadding(pre, w, post);
  }

  /** Letter case does not change the branch. */
  lemma ClassifyIgnoresCase(body: string)
    ensures Classify(Strings.ToLower(body)) == Classify(body)
  {
    Strings.TrimSpaceOfLower(body);
    Strings.ToLowerIdempotent(Strings.TrimSpace(body));
  }

  lemma AcceptExample()
    ensures Classify("Yes") == Accept
  {
    Strings.TrimSpaceOfTrimmed("Yes");
    assert Strings.ToLower("Yes") == "yes";
  }

  lemma DeclineExample()
    ensures Classify("No") == Decline
  {
    Strings.TrimSpaceOfTrimmed("No");
    assert Strings.ToLower("No") == "no";
  }

  lemma FallbackExample()
    ensures Classify("yeah") == Fallback
  {
    Strings.TrimSpaceOfTrimmed("yeah");
    assert Strings.ToLower("yeah") == "yeah";
  }

  // ---------------------------------------------------------------------
  // The plans of the helper methods

  function GreetAndInvite(to: string): seq<Action> {
    [Text(Sms.Greeting, to), Text(Sms.Invite, to)]
  }

  function InviteConfirmationPlan(to: string): seq<Action> {
    [Text(Sms.AcceptConfirmation, to)]
  }

  function CallNotificationPlan(to: string): seq<Action> {
    [Text(Sms.CallNotification, to), Pause(WAIT_SECONDS_UNTIL_CALL), Dial(to)]
  }

  /** The steps each branch takes, in order. */
  function ActionsFor(b: Branch, to: string): seq<Action> {
    match b
    case Accept => InviteConfirmationPlan(to) + CallNotificationPlan(to)
    case Decline => [Text(Sms.Goodbye, to)]
    case Fallback => [Text(Sms.InviteFallback, to)]
  }

  /** `sendInviteComfirmation`: the accept confirmation. */
  method SendInviteConfirmation(ctr: Controller, gw: Gateway, to: string) returns (r: Outcome<()>, ghost replies: seq<Reply>)
    modifies gw
    ensures Performed(old(gw.events), gw.events, ctr.config, InviteConfirmationPlan(to), replies)
    ensures r == Run(ctr.config, InviteConfirmationPlan(to), replies).outcome
  {
    ghost var reply;
    r, reply := Sms.SendAcceptConfirmation(gw, ctr.config, to);
    replies := [reply];
    RunSingle(ctr.config, Text(Sms.AcceptConfirmation, to), reply);
  }

  /** `sendCallNotificationAndInitiateCall`: the notification, the pause, and
      the call, stopping at the first failure. */
  method SendCallNotificationAndInitiateCall(ctr: Controller, gw: Gateway, to: string) returns (r: Outcome<()>, ghost replies: seq<Reply>)
    modifies gw
    ensures Performed(old(gw.events), gw.events, ctr.config, CallNotificationPlan(to), replies)
    ensures r == Run(ctr.config, CallNotificationPlan(to), replies).outcome
  {
    var cfg := ctr.config;
    ghost var e0 := gw.events;
    var notify := [Text(Sms.CallNotification, to)];
    var pause := [Pause(WAIT_SECONDS_UNTIL_CALL)];
    var dial := [Dial(to)];
    assert CallNotificationPlan(to) == notify + pause + dial;
    ghost var reply;
    r, reply := Sms.SendCallNotification(gw, cfg, to);
    RunSingle(cfg, Text(Sms.CallNotification, to), reply);
    assert Performed(e0, gw.events, cfg, notify, [reply]);
    if !r.Ok? {
      replies := [reply];
      PerformedStop(e0, gw.events, cfg, notify, pause + dial, replies);
      assert notify + (pause + dial) == CallNotificationPlan(to);
      return;
    }
    ghost var e1 := gw.events;
    gw.Sleep(WAIT_SECONDS_UNTIL_CALL);
    RunSingle(cfg, Pause(WAIT_SECONDS_UNTIL_CALL), None);
    PerformedThen(e0, e1, gw.events, cfg, notify, pause, [reply], []);
    assert [reply] + [] == [reply];
    ghost var e2 := gw.events;
    ghost var call;
    r, call := Voice.InitiateReviewCall(gw, cfg, to);
    RunSingle(cfg, Dial(to), call);
    PerformedThen(e0, e2, gw.events, cfg, notify + pause, dial, [reply], [call]);
    replies := [reply] + [call];
  }

  /** `sendGreetingAndInvite`: the greeting, then the invite if the greeting
      went out. */
  method SendGreetingAndInvite(ctr: Controller, gw: Gateway, name: string, to: string) returns (r: Outcome<()>, ghost replies: seq<Reply>)
    modifies gw
    ensures Performed(old(gw.events), gw.events, ctr.config, GreetAndInvite(to), replies)
    ensures r == Run(ctr.config, GreetAndInvite(to), replies).outcome
  {
    var cfg := ctr.config;
    ghost var e0 := gw.events;
    var greet := [Text(Sms.Greeting, to)];
    var invite := [Text(Sms.Invite, to)];
    assert GreetAndInvite(to) == greet + invite;
    ghost var reply;
    r, reply := Sms.SendGreeting(gw, cfg, to);
    RunSingle(cfg, Text(Sms.Greeting, to), reply);
    assert Performed(e0, gw.events, cfg, greet, [reply]);
    if !r.Ok? {
      replies := [reply];
      PerformedStop(e0, gw.events, cfg, greet, invite, replies);
      return;
    }
    ghost var e1 := gw.events;
    ghost var second;
    r, second := Sms.SendInvite(gw, cfg, to);
    RunSingle(cfg, Text(Sms.Invite, to), second);
    PerformedThen(e0, e1, gw.events, cfg, greet, invite, [reply], [second]);
    replies := [reply] + [second];
  }

  // ---------------------------------------------------------------------
  // Handlers

  /** How a handler's result reaches the client: success is 200, an error
      aborts with 500, and a panic is left to the router's recovery. */
  function Respond(o: Outcome<()>): HttpOutcome {
    match o
    case Ok(_) => Answered(200, "")
    case Err(_) => Answered(500, "")
    case Panic => Panicked
  }

  /** `HandleSMS`: an unauthenticated request is refused with 403 and nothing
      is sent; otherwise the reply's branch decides the plan, which runs until
      its first failure, and the handler answers with that run's outcome. */
  method HandleSms(ctr: Controller, gw: Gateway, req: Request) returns (out: HttpOutcome, ghost replies: seq<Reply>)
    modifies gw
    ensures !ValidRequest(ctr, req) ==> out == Answered(403, "") && gw.events == old(gw.events)
    ensures ValidRequest(ctr, req) ==>
      var plan := ActionsFor(Classify(PostForm(req, "Body")), PostForm(req, "From"));
      && Performed(old(gw.events), gw.events, ctr.config, plan, replies)
      && out == Respond(Run(ctr.config, plan, replies).outcome)
  {
    var valid := IsValidRequest(ctr, req);
    if !valid {
      return Answered(403, ""), [];
    }
    var r;
    r, replies := AnswerReply(ctr, gw, PostForm(req, "From"), PostForm(req, "Body"));
    out := Respond(r);
  }

  /** The dispatch of `HandleSMS` once the request is authentic: the branch
      of the trimmed, lower-cased body picks the plan. */
  method AnswerReply(ctr: Controller, gw: Gateway, from: string, rawBody: string) returns (r: Outcome<()>, ghost replies: seq<Reply>)
    modifies gw
    ensures Performed(old(gw.events), gw.events, ctr.config, ActionsFor(Classify(rawBody), from), replies)
    ensures r == Run(ctr.config, ActionsFor(Classify(rawBody), from), replies).outcome
  {
    var cfg := ctr.config;
    ghost var e0 := gw.events;
    var branch := Classify(rawBody);
    if branch == Accept {
      var first := InviteConfirmationPlan(from);
      var second := CallNotificationPlan(from);
      ghost var g1;
      r, g1 := SendInviteConfirmation(ctr, gw, from);
      if !r.Ok? {
        replies := g1;
        PerformedStop(e0, gw.events, cfg, first, second, g1);
        return;
      }
      ghost var e1 := gw.events;
      ghost var g2;
      r, g2 := SendCallNotificationAndInitiateCall(ctr, gw, from);
      PerformedThen(e0, e1, gw.events, cfg, first, second, g1, g2);
      replies := g1 + g2;
    } else if branch == Decline {
      ghost var g;
      r, g := Sms.SendGoodbye(gw, cfg, from);
      PerformedSingle(e0, gw.events, cfg, Text(Sms.Goodbye, from), g);
      replies := [g];
    } else {
      ghost var g;
      r, g := Sms.SendInviteFallback(gw, cfg, from);
      PerformedSingle(e0, gw.events, cfg, Text(Sms.InviteFallback, from), g);
      replies := [g];
    }
  }

  /** `HandleCallEvent`: an authenticated status callback thanks the number
      that was called; a failed thank-you is ignored and the answer is still
      200, unless the send panicked. */
  method HandleCallEvent(ctr: Controller, gw: Gateway, req: Request) returns (out: HttpOutcome, ghost reply: Reply)
    modifies gw
    ensures !ValidRequest(ctr, req) ==> out == Answered(403, "") && gw.events == old(gw.events)
    ensures ValidRequest(ctr, req) ==>
      && gw.events == old(gw.events) + Sms.MessageEvents(PostForm(req, "To"), ctr.config.accountPhoneNumber, Sms.Body(Sms.ThankYou), reply)
      && out == (if reply.Some? && reply.value.OtherError? then Panicked else Answered(200, ""))
  {
    var valid := IsValidRequest(ctr, req);
    if !valid {
      return Answered(403, ""), None;
    }
    var receiverPhone := PostForm(req, "To");
    var r;
    r, reply := Sms.SendThankYou(gw, ctr.config, receiverPhone);
    if r.Panic? {
      return Panicked, reply;
    }
    out := Answered(200, "");
  }

  /** A declined invite is answered with the goodbye and an unrecognised
      reply with the fallback, and with nothing else. */
  lemma SingleTextBranches(cfg: TwilioConfiguration, b: Branch, from: string, replies: seq<Reply>)
    requires b != Accept
    ensures Sent(Run(cfg, ActionsFor(b, from), replies).events)
         == [TextRequest(cfg, if b == Decline then Sms.Goodbye else Sms.InviteFallback, from)]
  {
    var plan := ActionsFor(b, from);
    RunStopsAtFirstFailure(cfg, plan, replies);
    RunStarts(cfg, plan, replies);
    assert plan[1..] == [];
    var sent := Sent(Run(cfg, plan, replies).events);
    assert Planned(cfg, plan) == StepRequest(cfg, plan[0]);
    assert |sent| > 0;
  }

  /** The review call is placed only after both the confirmation and the
      notification were accepted. */
  lemma CallOnlyAfterBothTexts(cfg: TwilioConfiguration, to: string, replies: seq<Reply>)
    ensures var run := Run(cfg, ActionsFor(Accept, to), replies);
      VoiceRequest(Voice.ReviewCallRequest(cfg, to)) in Sent(run.events) ==>
        var a := Replies(run.events);
        |a| == 3 && a[0] == None && a[1] == None
  {
    var plan := ActionsFor(Accept, to);
    var call := VoiceRequest(Voice.ReviewCallRequest(cfg, to));
    AcceptPlanned(cfg, to);
    var planned := Planned(cfg, plan);
    assert |planned| == 3 && planned[2] == call;
    assert planned[0].SmsRequest? && planned[1].SmsRequest?;
    LastOfPlanMeansEarlierAccepted(cfg, plan, replies);
    var a := Replies(Run(cfg, plan, replies).events);
    if call in Sent(Run(cfg, plan, replies).events) {
      assert a[..2][0] == a[0] && a[..2][1] == a[1];
    }
  }

  /** A run that made the last request of its plan, one no earlier step
      makes, had every earlier request accepted. */
  lemma LastOfPlanMeansEarlierAccepted(cfg: TwilioConfiguration, plan: seq<Action>, replies: seq<Reply>)
    requires |Planned(cfg, plan)| > 0
    requires var p := Planned(cfg, plan); forall i | 0 <= i < |p| - 1 :: p[i] != p[|p| - 1]
    ensures var p := Planned(cfg, plan); var run := Run(cfg, plan, replies);
      p[|p| - 1] in Sent(run.events) ==>
        |Replies(run.events)| == |p| && AllAccepted(Replies(run.events)[..|p| - 1])
  {
    var p := Planned(cfg, plan);
    var run := Run(cfg, plan, replies);
    if p[|p| - 1] in Sent(run.events) {
      RunStopsAtFirstFailure(cfg, plan, replies);
      LastRequestMeansEarlierAccepted(run, p);
    }
  }

  /** A run that reached the last request of its plan (a request made at no
      earlier step) had every earlier request accepted. */
  lemma LastRequestMeansEarlierAccepted(run: RunResult, planned: seq<ApiRequest>)
    requires RunFacts(run, planned) && |planned| > 0
    requires planned[|planned| - 1] in Sent(run.events)
    requires forall i | 0 <= i < |planned| - 1 :: planned[i] != planned[|planned| - 1]
    ensures |Replies(run.events)| == |planned|
    ensures AllAccepted(Replies(run.events)[..|planned| - 1])
  {
    var sent := Sent(run.events);
    var k :| 0 <= k < |sent| && sent[k] == planned[|planned| - 1];
    assert planned[k] == sent[k];
    assert sent == planned;
    var a := Replies(run.events);
    if run.outcome.Ok? {
      var earlier := a[..|planned| - 1];
      forall i | 0 <= i < |earlier| ensures earlier[i] == None {
        assert earlier[i] == a[i];
      }
    }
  }

  /** The accepted branch's plan makes two texts and then the call. */
  lemma AcceptPlanned(cfg: TwilioConfiguration, to: string)
    ensures Planned(cfg, ActionsFor(Accept, to))
         == [TextRequest(cfg, Sms.AcceptConfirmation, to), TextRequest(cfg, Sms.CallNotification, to), VoiceRequest(Voice.ReviewCallRequest(cfg, to))]
  {
    PlannedCons(cfg, Dial(to), []);
    PlannedCons(cfg, Pause(WAIT_SECONDS_UNTIL_CALL), [Dial(to)]);
    PlannedCons(cfg, Text(Sms.CallNotification, to), [Pause(WAIT_SECONDS_UNTIL_CALL), Dial(to)]);
    PlannedCons(cfg, Text(Sms.AcceptConfirmation, to), CallNotificationPlan(to));
    assert ActionsFor(Accept, to) == [Text(Sms.AcceptConfirmation, to)] + CallNotificationPlan(to);
  }

  /** Greeting and invite make two texts. */
  lemma GreetAndInvitePlanned(cfg: TwilioConfiguration, to: string)
    ensures Planned(cfg, GreetAndInvite(to)) == [TextRequest(cfg, Sms.Greeting, to), TextRequest(cfg, Sms.Invite, to)]
  {
    PlannedCons(cfg, Text(Sms.Invite, to), []);
    PlannedCons(cfg, Text(Sms.Greeting, to), [Text(Sms.Invite, to)]);
    assert GreetAndInvite(to) == [Text(Sms.Greeting, to)] + [Text(Sms.Invite, to)];
  }

  // ---------------------------------------------------------------------
  // The review campaign

  /** The JSON body of a started campaign. The router marshals map keys in
      sorted order. */
  function CampaignBody(invites: nat): string {
    "{\"invites\":" + Format.Decimal(invites) + ",\"message\":\"Success\",\"status\":\"success\"}"
  }

  datatype CampaignRun = CampaignRun(events: seq<Event>, crashed: bool)

  /** The customers greeted and invited one after another, with `rs[i]` the
      answers for customer `i`. A failed greeting or invite is ignored, but
      a panic ends the process. */
  function Campaign(cfg: TwilioConfiguration, cs: seq<Customer>, rs: seq<seq<Reply>>): CampaignRun
    requires |rs| == |cs|
    decreases |cs|
  {
    if cs == [] then CampaignRun([], false)
    else
      var prev := Campaign(cfg, cs[..|cs| - 1], rs[..|cs| - 1]);
      if prev.crashed then prev
      else
        var run := Run(cfg, GreetAndInvite(cs[|cs| - 1].phoneNumber), rs[|cs| - 1]);
        CampaignRun(prev.events + run.events, run.outcome.Panic?)
  }

  /** Every customer's answers are exactly the ones that customer's run used. */
  predicate Consumed(cfg: TwilioConfiguration, cs: seq<Customer>, rs: seq<seq<Reply>>)
    requires |rs| == |cs|
  {
    forall i {:trigger UsedExactly(cfg, cs[i], rs[i])} | 0 <= i < |cs| :: UsedExactly(cfg, cs[i], rs[i])
  }

  /** Greeting and inviting customer `c` used exactly the answers `r`. */
  predicate UsedExactly(cfg: TwilioConfiguration, c: Customer, r: seq<Reply>) {
    Replies(Run(cfg, GreetAndInvite(c.phoneNumber), r).events) == r
  }

  /** `StartReviewCampaign`: if the customers cannot be read the answer is 500
      and nothing is sent; otherwise every customer is greeted and invited,
      and the answer reports how many customers there were. */
  method StartReviewCampaign(ctr: Controller, gw: Gateway, customers: Result<seq<Customer>, string>)
    returns (out: HttpOutcome, ghost rs: seq<seq<Reply>>)
    modifies gw
    ensures customers.Failure? ==> out == Answered(500, "") && gw.events == old(gw.events) && rs == []
    ensures customers.Success? ==>
      var cs := customers.value;
      && |rs| <= |cs|
      && Consumed(ctr.config, cs[..|rs|], rs)
      && gw.events == old(gw.events) + Campaign(ctr.config, cs[..|rs|], rs).events
      && (Campaign(ctr.config, cs[..|rs|], rs).crashed ==> out == Crashed)
      && (!Campaign(ctr.config, cs[..|rs|], rs).crashed ==> |rs| == |cs| && out == Answered(200, CampaignBody(|cs|)))
  {
    if customers.Failure? {
      return Answered(500, ""), [];
    }
    var cs := customers.value;
    var cfg := ctr.config;
    ghost var e0 := gw.events;
    ghost var done: seq<Customer> := [];
    rs := [];
    var i := 0;
    while i < |cs|
      invariant 0 <= i <= |cs| && |rs| == i && done == cs[..i]
      invariant CampaignSoFar(cfg, e0, done, rs, gw.events)
    {
      var c := cs[i];
      ghost var before := gw.events;
      var r, g := SendGreetingAndInvite(ctr, gw, c.firstName, c.phoneNumber);
      CampaignAdvance(cfg, e0, done, rs, c, g, before, gw.events, r);
      done := done + [c];
      rs := rs + [g];
      assert done == cs[..i + 1];
      if r.Panic? {
        return Crashed, rs;
      }
      i := i + 1;
    }
    assert done == cs;
    out := Answered(200, CampaignBody(|cs|));
  }

  /** The campaign over `done` used exactly the answers `rs`, did not crash,
      and recorded its effects between `e0` and `events`. */
  predicate CampaignSoFar(cfg: TwilioConfiguration, e0: seq<Event>, done: seq<Customer>, rs: seq<seq<Reply>>, events: seq<Event>) {
    && |rs| == |done|
    && Consumed(cfg, done, rs)
    && !Campaign(cfg, done, rs).crashed
    && events == e0 + Campaign(cfg, done, rs).events
  }

  /** Greeting and inviting one more customer extends the campaign so far;
      it crashes exactly when that customer's run panics. */
  lemma CampaignAdvance(cfg: TwilioConfiguration, e0: seq<Event>, done: seq<Customer>, rs: seq<seq<Reply>>,
                        c: Customer, g: seq<Reply>, before: seq<Event>, after: seq<Event>, r: Outcome<()>)
    requires CampaignSoFar(cfg, e0, done, rs, before)
    requires Performed(before, after, cfg, GreetAndInvite(c.phoneNumber), g)
    requires r == Run(cfg, GreetAndInvite(c.phoneNumber), g).outcome
    ensures var next := Campaign(cfg, done + [c], rs + [g]);
      && |rs + [g]| == |done + [c]|
      && Consumed(cfg, done + [c], rs + [g])
      && after == e0 + next.events
      && next.crashed == r.Panic?
    ensures !r.Panic? ==> CampaignSoFar(cfg, e0, done + [c], rs + [g], after)
  {
    CampaignSnoc(cfg, done, rs, c, g);
    ConsumedExtend(cfg, done, rs, c, g);
    Extended(e0, before, after, Campaign(cfg, done, rs).events, Run(cfg, GreetAndInvite(c.phoneNumber), g).events);
  }

  /** The campaign over one more customer, when the shorter one did not crash. */
  lemma CampaignSnoc(cfg: TwilioConfiguration, cs: seq<Customer>, rs: seq<seq<Reply>>, c: Customer, g: seq<Reply>)
    requires |rs| == |cs| && !Campaign(cfg, cs, rs).crashed
    ensures var run := Run(cfg, GreetAndInvite(c.phoneNumber), g);
      Campaign(cfg, cs + [c], rs + [g]) == CampaignRun(Campaign(cfg, cs, rs).events + run.events, run.outcome.Panic?)
  {
    assert (cs + [c])[..|cs|] == cs && (cs + [c])[|cs|] == c;
    assert (rs + [g])[..|cs|] == rs && (rs + [g])[|cs|] == g;
  }

  lemma ConsumedExtend(cfg: TwilioConfiguration, cs: seq<Customer>, rs: seq<seq<Reply>>, c: Customer, g: seq<Reply>)
    requires |rs| == |cs| && Consumed(cfg, cs, rs) && UsedExactly(cfg, c, g)
    ensures Consumed(cfg, cs + [c], rs + [g])
  {
    forall j | 0 <= j <= |cs| ensures UsedExactly(cfg, (cs + [c])[j], (rs + [g])[j]) {
      if j < |cs| {
        assert (cs + [c])[j] == cs[j] && (rs + [g])[j] == rs[j];
      }
    }
  }

  function GreetingRequest(cfg: TwilioConfiguration, to: string): ApiRequest {
    TextRequest(cfg, Sms.Greeting, to)
  }

  /** Every customer in `cs` was sent a greeting among `sent`. */
  predicate GreetedAll(cfg: TwilioConfiguration, cs: seq<Customer>, sent: seq<ApiRequest>) {
    forall i | 0 <= i < |cs| :: GreetingRequest(cfg, cs[i].phoneNumber) in sent
  }

  lemma GreetedAllExtend(cfg: TwilioConfiguration, cs: seq<Customer>, before: seq<ApiRequest>, after: seq<ApiRequest>)
    requires cs != []
    requires GreetedAll(cfg, cs[..|cs| - 1], before)
    requires GreetingRequest(cfg, cs[|cs| - 1].phoneNumber) in after
    ensures GreetedAll(cfg, cs, before + after)
  {
    var n := |cs| - 1;
    forall i | 0 <= i < |cs| ensures GreetingRequest(cfg, cs[i].phoneNumber) in before + after {
      if i < n {
        assert cs[..n][i] == cs[i];
      }
    }
  }

  /** A campaign that did not crash tried to greet every customer, whatever
      the provider answered. */
  lemma {:induction false} CampaignGreetsEveryone(cfg: TwilioConfiguration, cs: seq<Customer>, rs: seq<seq<Reply>>)
    requires |rs| == |cs|
    requires !Campaign(cfg, cs, rs).crashed
    ensures GreetedAll(cfg, cs, Sent(Campaign(cfg, cs, rs).events))
    decreases |cs|
  {
    if cs != [] {
      var n := |cs| - 1;
      var prev := Campaign(cfg, cs[..n], rs[..n]).events;
      var run := Run(cfg, GreetAndInvite(cs[n].phoneNumber), rs[n]).events;
      CampaignUnfold(cfg, cs, rs);
      CampaignGreetsEveryone(cfg, cs[..n], rs[..n]);
      SentAppend(prev, run);
      GreetingAttempted(cfg, cs[n].phoneNumber, rs[n]);
      GreetedAllExtend(cfg, cs, Sent(prev), Sent(run));
    }
  }

  /** Greeting and inviting one customer always attempts the greeting. */
  lemma GreetingAttempted(cfg: TwilioConfiguration, to: string, replies: seq<Reply>)
    ensures GreetingRequest(cfg, to) in Sent(Run(cfg, GreetAndInvite(to), replies).events)
  {
    RunStarts(cfg, GreetAndInvite(to), replies);
    GreetAndInvitePlanned(cfg, to);
  }

  /** A campaign that did not crash is the shorter campaign, which did not
      crash either, followed by the last customer's run. */
  lemma CampaignUnfold(cfg: TwilioConfiguration, cs: seq<Customer>, rs: seq<seq<Reply>>)
    requires |rs| == |cs| && cs != []
    requires !Campaign(cfg, cs, rs).crashed
    ensures !Campaign(cfg, cs[..|cs| - 1], rs[..|cs| - 1]).crashed
    ensures Campaign(cfg, cs, rs).events
         == Campaign(cfg, cs[..|cs| - 1], rs[..|cs| - 1]).events + Run(cfg, GreetAndInvite(cs[|cs| - 1].phoneNumber), rs[|cs| - 1]).events
  {
  }

  /** A greeting that is refused is not followed by an invite. */
  lemma GreetingFailureSkipsInvite(cfg: TwilioConfiguration, to: string, replies: seq<Reply>)
    requires replies != [] && replies[0] != None
    ensures Sent(Run(cfg, GreetAndInvite(to), replies).events) == [GreetingRequest(cfg, to)]
    ensures !Run(cfg, GreetAndInvite(to), replies).outcome.Ok?
  {
    Sms.PublishesOnlyOnSuccess(to, cfg.accountPhoneNumber, Message.GREETING, Sms.ErrorPrefix(Sms.Greeting), replies[0]);
  }

  /** The requests of a campaign in which every request is accepted. */
  function CampaignRequests(cfg: TwilioConfiguration, cs: seq<Customer>): seq<ApiRequest>
    decreases |cs|
  {
    if cs == [] then []
    else CampaignRequests(cfg, cs[..|cs| - 1]) + Planned(cfg, GreetAndInvite(cs[|cs| - 1].phoneNumber))
  }

  /** When the provider accepts everything, the campaign greets and invites
      every customer in order: two requests per customer. */
  lemma {:induction false} CampaignAllAccepted(cfg: TwilioConfiguration, cs: seq<Customer>, rs: seq<seq<Reply>>)
    requires |rs| == |cs|
    requires forall i | 0 <= i < |rs| :: AllAccepted(rs[i])
    ensures !Campaign(cfg, cs, rs).crashed
    ensures Sent(Campaign(cfg, cs, rs).events) == CampaignRequests(cfg, cs)
    ensures |CampaignRequests(cfg, cs)| == 2 * |cs|
    decreases |cs|
  {
    if cs != [] {
      var n := |cs| - 1;
      assert forall i | 0 <= i < n :: rs[..n][i] == rs[i];
      CampaignAllAccepted(cfg, cs[..n], rs[..n]);
      var plan := GreetAndInvite(cs[n].phoneNumber);
      RunAllAccepted(cfg, plan, rs[n]);
      RunStopsAtFirstFailure(cfg, plan, rs[n]);
      var prev := Campaign(cfg, cs[..n], rs[..n]);
      SentAppend(prev.events, Run(cfg, plan, rs[n]).events);
      GreetAndInvitePlanned(cfg, cs[n].phoneNumber);
    }
  }
}
