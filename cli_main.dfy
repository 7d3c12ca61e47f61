/** The command-line entry point: flags for the sender number, the base URL
    and the log level, the account from the environment, and the routes of
    the webhook server. */
module CliMain {
  import opened Results
  import opened Configuration
  import Logging
  import opened Startup

  const ACCOUNT_SID_ENV: string := "TWILIO_ACCOUNT_SID"
  const ACCOUNT_AUTH_TOKEN_ENV: string := "TWILIO_AUTH_TOKEN"

  /** A string flag's value: what was passed, or the flag's default. */
  function Flag(flags: map<string, string>, name: string, default: string): string {
    if name in flags then flags[name] else default
  }

  const ROUTES: seq<Route> :=
    [Route("POST", "/sms", HandleSms),
     Route("POST", "/call-event", HandleCallEvent),
     Route("GET", "/call-total", CallTotal)]
    + StaticFile("/favicon.ico")

  /** `main` up to serving: the required flags are checked, sender first,
      then the configuration is built and the logger initialised. */
  function Main(flags: map<string, string>, env: map<string, string>): Boot {
    var from := Flag(flags, "from", "");
    var baseUrl := Flag(flags, "url", "");
    var logLevel := Flag(flags, "loglevel", "info");
    if from == "" then Aborted(MISSING_FROM)
    else if baseUrl == "" then Aborted(MISSING_URL)
    else
      var accountSid := Getenv(env, ACCOUNT_SID_ENV);
      var authToken := Getenv(env, ACCOUNT_AUTH_TOKEN_ENV);
      var config := CallbackConfiguration(accountSid, from, baseUrl);
      match Logging.InitializeLogger(logLevel)
      case Failure(e) => Aborted(LOGGER_FAILED + e)
      case Success(level) => Started(config, authToken, level, ROUTES)
  }

  /** Start-up refuses a missing sender before it looks at the URL, then a
      missing URL, then a bad level; otherwise it starts with the flags'
      values and the account from the environment. */
  lemma MainChecks(flags: map<string, string>, env: map<string, string>)
    ensures Flag(flags, "from", "") == "" ==> Main(flags, env) == Aborted(MISSING_FROM)
    ensures Flag(flags, "from", "") != "" && Flag(flags, "url", "") == "" ==> Main(flags, env) == Aborted(MISSING_URL)
    ensures Main(flags, env).Started? <==>
      && Flag(flags, "from", "") != "" && Flag(flags, "url", "") != ""
      && Logging.InitializeLogger(Flag(flags, "loglevel", "info")).Success?
    ensures Main(flags, env).Started? ==>
      var b := Main(flags, env);
      && b.config.accountSid == Getenv(env, ACCOUNT_SID_ENV)
      && b.config.accountPhoneNumber == flags["from"]
      && b.config.baseUrl == flags["url"]
      && b.authToken == Getenv(env, ACCOUNT_AUTH_TOKEN_ENV)
      && Logging.LevelName(b.level) == Flag(flags, "loglevel", "info")
  {
    Logging.InitializeLoggerAccepts(Flag(flags, "loglevel", "info"));
  }

  /** A bad level stops start-up with the logger error. */
  lemma BadLevelAborts(flags: map<string, string>, env: map<string, string>)
    requires Flag(flags, "from", "") != "" && Flag(flags, "url", "") != ""
    requires Flag(flags, "loglevel", "info") !in Logging.LEVEL_NAMES
    ensures Main(flags, env) == Aborted(LOGGER_FAILED + Logging.INVALID_LEVEL_ERROR)
  {
    Logging.InitializeLoggerAccepts(Flag(flags, "loglevel", "info"));
  }

  /** Without a `-loglevel` flag the default "info" is used and accepted. */
  lemma DefaultLevelIsInfo(from: string, url: string, env: map<string, string>)
    requires from != "" && url != ""
    ensures Main(map["from" := from, "url" := url], env).Started?
    ensures Main(map["from" := from, "url" := url], env).level == Logging.InfoLevel
  {
  }

  /** The status callback the calls are given is a route the server
      registers, and it reaches the call-event handler. */
  lemma CallbackIsRouted(flags: map<string, string>, env: map<string, string>)
    requires Main(flags, env).Started?
    ensures var b := Main(flags, env);
      Lookup(b.routes, b.config.statusCallbackMethod, b.config.statusCallbackPath) == Some(HandleCallEvent)
  {
    LookupFinds(ROUTES, "POST", "/call-event", 1);
  }

  /** The routes reach the handlers they are registered for. */
  lemma RoutesReachHandlers()
    ensures Lookup(ROUTES, "POST", "/sms") == Some(HandleSms)
    ensures Lookup(ROUTES, "GET", "/call-total") == Some(CallTotal)
    ensures Lookup(ROUTES, "GET", "/favicon.ico") == Some(Favicon)
    ensures Lookup(ROUTES, "GET", "/sms") == None
    ensures Lookup(ROUTES, "GET", "/ping") == None
  {
    LookupFinds(ROUTES, "POST", "/sms", 0);
    LookupFinds(ROUTES, "GET", "/call-total", 2);
    LookupFinds(ROUTES, "GET", "/favicon.ico", 3);
    LookupMisses(ROUTES, "GET", "/sms");
    LookupMisses(ROUTES, "GET", "/ping");
  }
}
