/** What the two entry points share: the outcome of start-up, the route
    table they register, and the `/call-total` handler both define. */
module Startup {
  import opened Results
  import opened Transport
  import opened Configuration
  import Logging
  import Format
  import Voice
  import ReviewController

  const MISSING_FROM: string := "Missing required from phone number arg."
  const MISSING_URL: string := "Missing required base URL arg."
  const LOGGER_FAILED: string := "Failed to initialize logger. Error: "

  const STATUS_CALLBACK_PATH: string := "/call-event"
  const STATUS_CALLBACK_METHOD: string := "POST"

  /** The handlers a route can be bound to. */
  datatype Handler = Ping | HandleSms | HandleCallEvent | Metrics | CallTotal | Favicon

  datatype Route = Route(verb: string, path: string, handler: Handler)

  /** How start-up ends: either the server is configured and about to serve
      its routes, or `log.Fatal` ends the process with a message. The auth
      token keys both the REST client and the request validator. */
  datatype Boot =
    | Started(config: TwilioConfiguration, authToken: string, level: Logging.Level, routes: seq<Route>)
    | Aborted(message: string)

  /** `os.Getenv`: the value, or "" when the variable is unset. */
  function Getenv(env: map<string, string>, name: string): string {
    if name in env then env[name] else ""
  }

  /** The configuration both entry points build from the sender number and
      the base URL, with the fixed status callback. */
  function CallbackConfiguration(accountSid: string, from: string, baseUrl: string): TwilioConfiguration {
    TwilioConfiguration(accountSid, from, baseUrl, STATUS_CALLBACK_PATH, STATUS_CALLBACK_METHOD)
  }

  /** The handler the router picks for a request: the first route registered
      for the method and path. */
  function Lookup(routes: seq<Route>, verb: string, path: string): Option<Handler> {
    if routes == [] then None
    else if routes[0].verb == verb && routes[0].path == path then Some(routes[0].handler)
    else Lookup(routes[1..], verb, path)
  }

  predicate Matches(r: Route, verb: string, path: string) {
    r.verb == verb && r.path == path
  }

  /** A request is routed exactly when some route matches it, and then to
      the handler of a matching route. */
  lemma {:induction false} LookupSound(routes: seq<Route>, verb: string, path: string)
    ensures Lookup(routes, verb, path).Some? <==> exists i :: 0 <= i < |routes| && Matches(routes[i], verb, path)
    ensures Lookup(routes, verb, path).Some? ==>
      exists i :: 0 <= i < |routes| && routes[i] == Route(verb, path, Lookup(routes, verb, path).value)
  {
    if routes != [] {
      LookupSound(routes[1..], verb, path);
      if Matches(routes[0], verb, path) {
        assert routes[0] == Route(verb, path, routes[0].handler);
      } else {
        assert forall i :: 0 < i < |routes| ==> routes[i] == routes[1..][i - 1];
      }
    }
  }

  /** The router takes the first registered route that matches. */
  lemma {:induction false} LookupFinds(routes: seq<Route>, verb: string, path: string, i: nat)
    requires i < |routes| && Matches(routes[i], verb, path)
    requires forall j :: 0 <= j < i ==> !Matches(routes[j], verb, path)
    ensures Lookup(routes, verb, path) == Some(routes[i].handler)
  {
    if i > 0 {
      assert !Matches(routes[0], verb, path);
      forall j | 0 <= j < i - 1 ensures !Matches(routes[1..][j], verb, path) {
        assert routes[1..][j] == routes[j + 1];
      }
      LookupFinds(routes[1..], verb, path, i - 1);
    }
  }

  /** A request no route matches is not routed. */
  lemma LookupMisses(routes: seq<Route>, verb: string, path: string)
    requires forall i :: 0 <= i < |routes| ==> !Matches(routes[i], verb, path)
    ensures Lookup(routes, verb, path) == None
  {
    LookupSound(routes, verb, path);
  }

  /** `StaticFile` serves the file for both GET and HEAD. */
  function StaticFile(path: string): seq<Route> {
    [Route("GET", path, Favicon), Route("HEAD", path, Favicon)]
  }

  /** The body of a successful `/call-total` answer. */
  function CallTotalBody(n: nat): string {
    "Total Calls: " + Format.Decimal(n)
  }

  /** The count can be read back from the answer. */
  lemma CallTotalBodyCount(n: nat)
    ensures var b := CallTotalBody(n);
      && |b| > 13 && b[..13] == "Total Calls: "
      && (forall i | 13 <= i < |b| :: '0' <= b[i] <= '9')
      && Format.DecimalValue(b[13..]) == n
  {
    var b := CallTotalBody(n);
    assert b[13..] == Format.Decimal(n);
    Format.DecimalRoundTrip(n);
  }

  /** The `/call-total` handler: the number of calls in the log, a 500 when
      the log cannot be fetched, and a panic (recovered into a 500 by the
      router) when a record lacks a field. */
  method CallTotalHandler(gw: Gateway) returns (out: ReviewController.HttpOutcome, ghost answer: Result<seq<CallRecord>, ApiError>)
    modifies gw
    ensures gw.events == old(gw.events) + [CallsListed(answer)]
    ensures answer.Failure? ==> out == ReviewController.Answered(500, "")
    ensures answer.Success? && (forall i | 0 <= i < |answer.value| :: Voice.Complete(answer.value[i])) ==>
      out == ReviewController.Answered(200, CallTotalBody(|answer.value|))
    ensures answer.Success? && !(forall i | 0 <= i < |answer.value| :: Voice.Complete(answer.value[i])) ==>
      out == ReviewController.Panicked
  {
    var logs;
    logs, answer := Voice.RetrieveCallLogs(gw);
    match logs {
      case Err(_) =>
        out := ReviewController.Answered(500, "");
      case Panic =>
        out := ReviewController.Panicked;
      case Ok(calls) =>
        out := ReviewController.Answered(200, CallTotalBody(|calls|));
    }
  }
}
