/** A handler's outbound work as a plan of steps, and what running a plan
    against the provider's answers records and returns. */
module Plans {
  import opened Results
  import opened Transport
  import opened Configuration
  import Sms
  import Voice

  /** One outbound step: a text from the catalog, a pause, or the review call. */
  datatype Action = Text(kind: Sms.Kind, to: string) | Pause(seconds: nat) | Dial(to: string)

  datatype RunResult = RunResult(events: seq<Event>, outcome: Outcome<()>)

  /** What one step records and returns, given the provider's answer. */
  function Step(cfg: TwilioConfiguration, a: Action, reply: Reply): RunResult {
    match a
    case Text(k, to) =>
      RunResult(Sms.MessageEvents(to, cfg.accountPhoneNumber, Sms.Body(k), reply), Sms.MessageOutcome(Sms.ErrorPrefix(k), reply))
    case Pause(s) => RunResult([Slept(s)], Ok(()))
    case Dial(to) => RunResult([Requested(VoiceRequest(Voice.ReviewCallRequest(cfg, to)), reply)], Voice.CallOutcome(reply))
  }

  /** The request that sends catalog message `k` to `to` from the account's number. */
  function TextRequest(cfg: TwilioConfiguration, k: Sms.Kind, to: string): ApiRequest {
    SmsRequest(MessageRequest(Some(to), Some(cfg.accountPhoneNumber), Some(Sms.Body(k))))
  }

  /** The request a step makes, if any. */
  function StepRequest(cfg: TwilioConfiguration, a: Action): seq<ApiRequest> {
    match a
    case Text(k, to) => [TextRequest(cfg, k, to)]
    case Pause(_) => []
    case Dial(to) => [VoiceRequest(Voice.ReviewCallRequest(cfg, to))]
  }

  /** The answers a step consumes. */
  function Answers(a: Action, reply: Reply): seq<Reply> {
    if a.Pause? then [] else [reply]
  }

  /** A step makes its request, records exactly its answer, and succeeds
      exactly when it makes no request or the request was accepted. */
  lemma StepFacts(cfg: TwilioConfiguration, a: Action, reply: Reply)
    ensures Sent(Step(cfg, a, reply).events) == StepRequest(cfg, a)
    ensures Replies(Step(cfg, a, reply).events) == Answers(a, reply)
    ensures Step(cfg, a, reply).outcome.Ok? <==> (a.Pause? || reply == None)
  {
    match a
    case Text(k, to) =>
      Sms.PublishesOnlyOnSuccess(to, cfg.accountPhoneNumber, Sms.Body(k), Sms.ErrorPrefix(k), reply);
    case Pause(s) =>
    case Dial(to) =>
  }

  /** The requests a plan would make if every one were accepted. */
  function Planned(cfg: TwilioConfiguration, actions: seq<Action>): seq<ApiRequest>
    decreases |actions|
  {
    if actions == [] then [] else StepRequest(cfg, actions[0]) + Planned(cfg, actions[1..])
  }

  lemma PlannedCons(cfg: TwilioConfiguration, a: Action, rest: seq<Action>)
    ensures Planned(cfg, [a] + rest) == StepRequest(cfg, a) + Planned(cfg, rest)
  {
    assert ([a] + rest)[0] == a && ([a] + rest)[1..] == rest;
  }

  function FirstReply(replies: seq<Reply>): Reply {
    if replies == [] then None else replies[0]
  }

  function Drop(replies: seq<Reply>): seq<Reply> {
    if replies == [] then [] else replies[1..]
  }

  /** The answers left for the rest of the plan after step `a`. */
  function Rest(a: Action, replies: seq<Reply>): seq<Reply> {
    if a.Pause? then replies else Drop(replies)
  }

  /** A step's effects, followed by the rest of the plan only if the step succeeded. */
  function Then(events: seq<Event>, outcome: Outcome<()>, rest: RunResult): RunResult {
    if outcome.Ok? then RunResult(events + rest.events, rest.outcome) else RunResult(events, outcome)
  }

  /** Runs a plan against the provider's answers `replies` (one per request,
      in order): each step's effects are recorded, and the run stops after the
      first step that does not succeed, with that step's outcome. */
  function Run(cfg: TwilioConfiguration, actions: seq<Action>, replies: seq<Reply>): RunResult
    decreases |actions|
  {
    if actions == [] then RunResult([], Ok(()))
    else
      var st := Step(cfg, actions[0], FirstReply(replies));
      Then(st.events, st.outcome, Run(cfg, actions[1..], Rest(actions[0], replies)))
  }

  predicate AllAccepted(replies: seq<Reply>) {
    forall i | 0 <= i < |replies| :: replies[i] == None
  }

  /** What a run promises against its plan: it makes the plan's requests in
      the plan's order; it succeeds exactly when every request it made was
      accepted, and then it made all of them; otherwise only its last request
      was refused, and nothing after it was attempted. */
  predicate RunFacts(r: RunResult, planned: seq<ApiRequest>) {
    Facts(Sent(r.events), Replies(r.events), r.outcome.Ok?, planned)
  }

  /** `RunFacts` on the requests made, the answers received and whether the
      run succeeded. */
  predicate Facts(sent: seq<ApiRequest>, answers: seq<Reply>, ok: bool, planned: seq<ApiRequest>) {
    && sent <= planned
    && (ok <==> AllAccepted(answers))
    && (ok ==> sent == planned)
    && (!ok ==> |answers| > 0 && answers[|answers| - 1] != None && AllAccepted(answers[..|answers| - 1]))
  }

  lemma {:induction false} RunStopsAtFirstFailure(cfg: TwilioConfiguration, actions: seq<Action>, replies: seq<Reply>)
    ensures RunFacts(Run(cfg, actions, replies), Planned(cfg, actions))
    decreases |actions|
  {
    if actions != [] {
      var a := actions[0];
      var reply := FirstReply(replies);
      var st := Step(cfg, a, reply);
      var next := Run(cfg, actions[1..], Rest(a, replies));
      RunStopsAtFirstFailure(cfg, actions[1..], Rest(a, replies));
      StepFacts(cfg, a, reply);
      SentAppend(st.events, next.events);
      if a.Pause? {
        assert Sent(st.events + next.events) == Sent(next.events);
        assert Replies(st.events + next.events) == Replies(next.events);
      } else {
        StepThen(st.events, st.outcome, next, reply, StepRequest(cfg, a)[0], Planned(cfg, actions[1..]));
      }
    }
  }

  lemma AllAcceptedCons(reply: Reply, rest: seq<Reply>)
    ensures AllAccepted([reply] + rest) <==> reply == None && AllAccepted(rest)
  {
    var a := [reply] + rest;
    assert a[0] == reply;
    assert forall i | 0 <= i < |rest| :: a[i + 1] == rest[i];
  }

  /** One step that makes request `req` and gets answer `reply`, followed by
      a run that keeps its promises, keeps them for the longer plan. */
  lemma StepThen(ev: seq<Event>, outcome: Outcome<()>, next: RunResult, reply: Reply,
                 req: ApiRequest, plannedRest: seq<ApiRequest>)
    requires Sent(ev) == [req] && Replies(ev) == [reply] && (outcome.Ok? <==> reply == None)
    requires RunFacts(next, plannedRest)
    requires Sent(ev + next.events) == Sent(ev) + Sent(next.events)
    requires Replies(ev + next.events) == Replies(ev) + Replies(next.events)
    ensures RunFacts(Then(ev, outcome, next), [req] + plannedRest)
  {
    if outcome.Ok? {
      FactsCons(req, reply, Sent(next.events), Replies(next.events), next.outcome.Ok?, plannedRest);
    } else {
      FactsStop(req, reply, plannedRest);
    }
  }

  /** An accepted request in front of a run that keeps its promises. */
  lemma FactsCons(req: ApiRequest, reply: Reply, sent: seq<ApiRequest>, answers: seq<Reply>, ok: bool, plannedRest: seq<ApiRequest>)
    requires reply == None && Facts(sent, answers, ok, plannedRest)
    ensures Facts([req] + sent, [reply] + answers, ok, [req] + plannedRest)
  {
    var a := [reply] + answers;
    AllAcceptedCons(reply, answers);
    if |answers| > 0 {
      assert a[..|a| - 1] == [reply] + answers[..|answers| - 1];
      AllAcceptedCons(reply, answers[..|answers| - 1]);
    }
  }

  /** A refused request stops the run. */
  lemma FactsStop(req: ApiRequest, reply: Reply, plannedRest: seq<ApiRequest>)
    requires reply != None
    ensures Facts([req], [reply], false, [req] + plannedRest)
  {
    assert [reply][..0] == [] && [reply][0] == reply;
    assert ([req] + plannedRest)[..1] == [req];
  }

  lemma ThenAssoc(ev: seq<Event>, outcome: Outcome<()>, x: RunResult, y: RunResult)
    ensures Then(ev, outcome, Then(x.events, x.outcome, y))
         == Then(Then(ev, outcome, x).events, Then(ev, outcome, x).outcome, y)
  {
    if outcome.Ok? && x.outcome.Ok? {
      assert ev + (x.events + y.events) == (ev + x.events) + y.events;
    }
  }

  /** Running two plans one after the other is running their concatenation,
      when the first plan used exactly the answers it was given. */
  lemma {:induction false} RunAppend(cfg: TwilioConfiguration, a: seq<Action>, b: seq<Action>, ra: seq<Reply>, rb: seq<Reply>)
    requires Replies(Run(cfg, a, ra).events) == ra
    ensures Run(cfg, a + b, ra + rb) == Then(Run(cfg, a, ra).events, Run(cfg, a, ra).outcome, Run(cfg, b, rb))
    decreases |a|
  {
    if a == [] {
      assert a + b == b;
      assert ra + rb == rb;
    } else {
      var st := Step(cfg, a[0], FirstReply(ra));
      RunAppendHead(cfg, a, b, ra, rb);
      if st.outcome.Ok? {
        RunAppend(cfg, a[1..], b, Rest(a[0], ra), rb);
        ThenAssoc(st.events, st.outcome, Run(cfg, a[1..], Rest(a[0], ra)), Run(cfg, b, rb));
      }
    }
  }

  /** The first step of `RunAppend`: both runs begin with the same step, and
      when it succeeds the rest of the first plan used the rest of its answers. */
  lemma RunAppendHead(cfg: TwilioConfiguration, a: seq<Action>, b: seq<Action>, ra: seq<Reply>, rb: seq<Reply>)
    requires a != [] && Replies(Run(cfg, a, ra).events) == ra
    ensures var st := Step(cfg, a[0], FirstReply(ra));
      && Run(cfg, a, ra) == Then(st.events, st.outcome, Run(cfg, a[1..], Rest(a[0], ra)))
      && Run(cfg, a + b, ra + rb) == Then(st.events, st.outcome, Run(cfg, a[1..] + b, Rest(a[0], ra) + rb))
      && (st.outcome.Ok? ==> Replies(Run(cfg, a[1..], Rest(a[0], ra)).events) == Rest(a[0], ra))
  {
    var x := a[0];
    var st := Step(cfg, x, FirstReply(ra));
    RunCons(cfg, a, ra);
    RunCons(cfg, a + b, ra + rb);
    assert (a + b)[0] == x && (a + b)[1..] == a[1..] + b;
    StepAnswersSplit(cfg, x, ra, rb, Run(cfg, a[1..], Rest(x, ra)));
  }

  /** A non-empty plan runs its first step, then the rest on the answers left. */
  lemma RunCons(cfg: TwilioConfiguration, a: seq<Action>, r: seq<Reply>)
    requires a != []
    ensures var st := Step(cfg, a[0], FirstReply(r));
      Run(cfg, a, r) == Then(st.events, st.outcome, Run(cfg, a[1..], Rest(a[0], r)))
  {
  }

  /** When a step followed by `rest` used exactly the answers `ra`, more
      answers after them change neither the step's answer nor, when the step
      succeeded, what is left for `rest`. */
  lemma StepAnswersSplit(cfg: TwilioConfiguration, x: Action, ra: seq<Reply>, rb: seq<Reply>, rest: RunResult)
    requires var st := Step(cfg, x, FirstReply(ra)); Replies(Then(st.events, st.outcome, rest).events) == ra
    ensures var st := Step(cfg, x, FirstReply(ra));
      && Step(cfg, x, FirstReply(ra + rb)) == st
      && (st.outcome.Ok? ==> Rest(x, ra + rb) == Rest(x, ra) + rb && Replies(rest.events) == Rest(x, ra))
  {
    var reply := FirstReply(ra);
    var st := Step(cfg, x, reply);
    StepFacts(cfg, x, reply);
    SentAppend(st.events, rest.events);
    ConsumeSplit(x, reply, ra, rb, st.outcome.Ok?, Replies(rest.events));
    if x.Pause? {
      assert Step(cfg, x, FirstReply(ra + rb)) == st;
    }
  }

  /** The bookkeeping of `RunAppend`: how the answers split around one step. */
  lemma ConsumeSplit(x: Action, reply: Reply, ra: seq<Reply>, rb: seq<Reply>, ok: bool, nextReplies: seq<Reply>)
    requires reply == FirstReply(ra)
    requires ra == (if ok then Answers(x, reply) + nextReplies else Answers(x, reply))
    requires !ok ==> !x.Pause?
    ensures !x.Pause? ==> FirstReply(ra + rb) == reply
    ensures ok ==> Rest(x, ra + rb) == Rest(x, ra) + rb && nextReplies == Rest(x, ra)
  {
    if !x.Pause? {
      assert ra != [] && ra[0] == reply;
      assert (ra + rb)[1..] == ra[1..] + rb;
    }
  }

  /** The recorded effects of running `plan` on `replies` are what was
      appended between `before` and `after`, and exactly those answers were
      used. */
  predicate Performed(before: seq<Event>, after: seq<Event>, cfg: TwilioConfiguration, plan: seq<Action>, replies: seq<Reply>) {
    var run := Run(cfg, plan, replies);
    after == before + run.events && Replies(run.events) == replies
  }

  /** A plan that succeeded, followed by a second plan, performs both. */
  lemma PerformedThen(e0: seq<Event>, e1: seq<Event>, e2: seq<Event>, cfg: TwilioConfiguration,
                      a: seq<Action>, b: seq<Action>, ra: seq<Reply>, rb: seq<Reply>)
    requires Performed(e0, e1, cfg, a, ra) && Run(cfg, a, ra).outcome.Ok?
    requires Performed(e1, e2, cfg, b, rb)
    ensures Performed(e0, e2, cfg, a + b, ra + rb)
    ensures Run(cfg, a + b, ra + rb).outcome == Run(cfg, b, rb).outcome
  {
    var x := Run(cfg, a, ra);
    var y := Run(cfg, b, rb);
    RunAppend(cfg, a, b, ra, rb);
    assert Run(cfg, a + b, ra + rb).events == x.events + y.events;
    SentAppend(x.events, y.events);
    Extended(e0, e1, e2, x.events, y.events);
  }

  lemma Extended(e0: seq<Event>, e1: seq<Event>, e2: seq<Event>, x: seq<Event>, y: seq<Event>)
    requires e1 == e0 + x && e2 == e1 + y
    ensures e2 == e0 + (x + y)
  {
  }

  /** A plan that failed, followed by a second plan, performs only the first. */
  lemma PerformedStop(e0: seq<Event>, e1: seq<Event>, cfg: TwilioConfiguration,
                      a: seq<Action>, b: seq<Action>, ra: seq<Reply>)
    requires Performed(e0, e1, cfg, a, ra) && !Run(cfg, a, ra).outcome.Ok?
    ensures Performed(e0, e1, cfg, a + b, ra)
    ensures Run(cfg, a + b, ra).outcome == Run(cfg, a, ra).outcome
  {
    RunAppend(cfg, a, b, ra, []);
    assert ra + [] == ra;
  }

  /** A one-step plan runs as that step. */
  lemma RunSingle(cfg: TwilioConfiguration, a: Action, reply: Reply)
    ensures Run(cfg, [a], Answers(a, reply)) == Step(cfg, a, reply)
    ensures Replies(Step(cfg, a, reply).events) == Answers(a, reply)
  {
    StepFacts(cfg, a, reply);
    assert [a][1..] == [];
    var st := Step(cfg, a, reply);
    assert st.events + [] == st.events;
    assert Step(cfg, a, FirstReply(Answers(a, reply))) == st;
  }

  /** One step recorded between `before` and `after` performs the one-step plan. */
  lemma PerformedSingle(before: seq<Event>, after: seq<Event>, cfg: TwilioConfiguration, a: Action, reply: Reply)
    requires after == before + Step(cfg, a, reply).events
    ensures Performed(before, after, cfg, [a], Answers(a, reply))
    ensures Run(cfg, [a], Answers(a, reply)).outcome == Step(cfg, a, reply).outcome
  {
    RunSingle(cfg, a, reply);
  }

  /** When the provider accepts everything, a run succeeds and makes its
      whole plan. */
  lemma {:induction false} RunAllAccepted(cfg: TwilioConfiguration, actions: seq<Action>, replies: seq<Reply>)
    requires AllAccepted(replies)
    ensures Run(cfg, actions, replies).outcome.Ok?
    ensures Sent(Run(cfg, actions, replies).events) == Planned(cfg, actions)
    decreases |actions|
  {
    RunStopsAtFirstFailure(cfg, actions, replies);
    if actions != [] {
      var a := actions[0];
      StepFacts(cfg, a, FirstReply(replies));
      assert AllAccepted(Rest(a, replies)) by {
        if replies != [] {
          forall i | 0 <= i < |Drop(replies)| ensures Drop(replies)[i] == None {
            assert Drop(replies)[i] == replies[i + 1];
          }
        }
      }
      RunAllAccepted(cfg, actions[1..], Rest(a, replies));
    }
  }

  /** A run makes the first request of its plan, whatever the answers. */
  lemma RunStarts(cfg: TwilioConfiguration, actions: seq<Action>, replies: seq<Reply>)
    requires actions != [] && !actions[0].Pause?
    ensures Planned(cfg, actions)[0] in Sent(Run(cfg, actions, replies).events)
  {
    var st := Step(cfg, actions[0], FirstReply(replies));
    StepFacts(cfg, actions[0], FirstReply(replies));
    var next := Run(cfg, actions[1..], Rest(actions[0], replies));
    SentAppend(st.events, next.events);
  }
}
