/** The deployable entry point: the same server configured from the
    environment, with a health check and metrics, after the tracer is set up. */
module AppMain {
  import opened Results
  import opened Configuration
  import Logging
  import opened Startup

  const ACCOUNT_SID_ENV: string := "TWILIO_ACCOUNT_SID"
  const ACCOUNT_AUTH_TOKEN_ENV: string := "TWILIO_AUTH_TOKEN"
  const PHONE_NUMBER_ENV: string := "TWILIO_PHONE_NUMBER"
  const BASE_URL_ENV: string := "BASE_URL"
  const LOG_LEVEL_ENV: string := "LOG_LEVEL"

  const ROUTES: seq<Route> :=
    [Route("GET", "/ping", Ping),
     Route("POST", "/sms", HandleSms),
     Route("POST", "/call-event", HandleCallEvent),
     Route("GET", "/metrics", Metrics),
     Route("GET", "/call-total", CallTotal)]
    + StaticFile("/favicon.ico")

  /** `main` up to serving. Setting up the tracer comes first; its failure,
      given here as `tracerError`, ends start-up with that error's text.
      Then the sender and the base URL are required, sender first, and the
      logger is initialised from `LOG_LEVEL`, which has no default. */
  function Main(env: map<string, string>, tracerError: Option<string>): Boot {
    if tracerError.Some? then Aborted(tracerError.value)
    else
      var from := Getenv(env, PHONE_NUMBER_ENV);
      var baseUrl := Getenv(env, BASE_URL_ENV);
      var logLevel := Getenv(env, LOG_LEVEL_ENV);
      if from == "" then Aborted(MISSING_FROM)
      else if baseUrl == "" then Aborted(MISSING_URL)
      else
        var accountSid := Getenv(env, ACCOUNT_SID_ENV);
        var authToken := Getenv(env, ACCOUNT_AUTH_TOKEN_ENV);
        var config := CallbackConfiguration(accountSid, from, baseUrl);
        match Logging.InitializeLogger(logLevel)
        case Failure(e) => Aborted(LOGGER_FAILED + e)
        case Success(level) => Started(config, authToken, level, ROUTES)
  }

  /** The order of the start-up checks, and what a successful start-up
      carries: the environment's values, unchanged. */
  lemma MainChecks(env: map<string, string>, tracerError: Option<string>)
    ensures tracerError.Some? ==> Main(env, tracerError) == Aborted(tracerError.value)
    ensures tracerError == None && Getenv(env, PHONE_NUMBER_ENV) == "" ==> Main(env, tracerError) == Aborted(MISSING_FROM)
    ensures tracerError == None && Getenv(env, PHONE_NUMBER_ENV) != "" && Getenv(env, BASE_URL_ENV) == "" ==>
      Main(env, tracerError) == Aborted(MISSING_URL)
    ensures Main(env, tracerError).Started? <==>
      && tracerError == None
      && Getenv(env, PHONE_NUMBER_ENV) != "" && Getenv(env, BASE_URL_ENV) != ""
      && Getenv(env, LOG_LEVEL_ENV) in Logging.LEVEL_NAMES
    ensures Main(env, tracerError).Started? ==>
      var b := Main(env, tracerError);
      && b.config == TwilioConfiguration(Getenv(env, ACCOUNT_SID_ENV), env[PHONE_NUMBER_ENV], env[BASE_URL_ENV], "/call-event", "POST")
      && b.authToken == Getenv(env, ACCOUNT_AUTH_TOKEN_ENV)
      && Logging.LevelName(b.level) == env[LOG_LEVEL_ENV]
  {
    Logging.InitializeLoggerAccepts(Getenv(env, LOG_LEVEL_ENV));
  }

  /** With `LOG_LEVEL` unset, start-up that gets past the required values
      ends with the logger error. */
  lemma UnsetLevelAborts(env: map<string, string>)
    requires LOG_LEVEL_ENV !in env
    requires Getenv(env, PHONE_NUMBER_ENV) != "" && Getenv(env, BASE_URL_ENV) != ""
    ensures Main(env, None) == Aborted(LOGGER_FAILED + Logging.INVALID_LEVEL_ERROR)
  {
    assert Getenv(env, LOG_LEVEL_ENV) == "";
    assert Logging.InitializeLogger("") == Failure(Logging.INVALID_LEVEL_ERROR);
  }

  /** The status callback the calls are given is a route the server
      registers, and it reaches the call-event handler. */
  lemma CallbackIsRouted(env: map<string, string>, tracerError: Option<string>)
    requires Main(env, tracerError).Started?
    ensures var b := Main(env, tracerError);
      Lookup(b.routes, b.config.statusCallbackMethod, b.config.statusCallbackPath) == Some(HandleCallEvent)
  {
    LookupFinds(ROUTES, "POST", "/call-event", 2);
  }

  /** The routes reach the handlers they are registered for. */
  lemma RoutesReachHandlers()
    ensures Lookup(ROUTES, "GET", "/ping") == Some(Ping)
    ensures Lookup(ROUTES, "POST", "/sms") == Some(HandleSms)
    ensures Lookup(ROUTES, "GET", "/metrics") == Some(Metrics)
    ensures Lookup(ROUTES, "GET", "/call-total") == Some(CallTotal)
    ensures Lookup(ROUTES, "POST", "/call-total") == None
  {
    LookupFinds(ROUTES, "GET", "/ping", 0);
    LookupFinds(ROUTES, "POST", "/sms", 1);
    LookupFinds(ROUTES, "GET", "/metrics", 3);
    LookupFinds(ROUTES, "GET", "/call-total", 4);
    LookupMisses(ROUTES, "POST", "/call-total");
  }
}
