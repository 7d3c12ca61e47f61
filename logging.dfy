/** `initializeLogger`, which both entry points define identically: the
    level name chosen on the command line or in the environment selects the
    production logger's level. */
module Logging {
  import opened Results

  datatype Level = DebugLevel | InfoLevel | WarnLevel | ErrorLevel | PanicLevel | FatalLevel

  const INVALID_LEVEL_ERROR: string := "invalid log level argument"

  /** The name that selects each level. */
  function LevelName(l: Level): string {
    match l
    case DebugLevel => "debug"
    case InfoLevel => "info"
    case WarnLevel => "warn"
    case ErrorLevel => "error"
    case PanicLevel => "panic"
    case FatalLevel => "fatal"
  }

  const LEVEL_NAMES: set<string> := {"debug", "info", "warn", "error", "panic", "fatal"}

  /** The level switch: one of the six lower-case names, or the error.
      Building the logger from the configuration is taken to succeed. */
  function InitializeLogger(logLevel: string): Result<Level, string> {
    match logLevel
    case "debug" => Success(DebugLevel)
    case "info" => Success(InfoLevel)
    case "warn" => Success(WarnLevel)
    case "error" => Success(ErrorLevel)
    case "panic" => Success(PanicLevel)
    case "fatal" => Success(FatalLevel)
    case _ => Failure(INVALID_LEVEL_ERROR)
  }

  /** Each level is selected by its own name, and by no other. */
  lemma LevelNameSelects(l: Level)
    ensures InitializeLogger(LevelName(l)) == Success(l)
    ensures LevelName(l) in LEVEL_NAMES
  {
  }

  /** A name is accepted exactly when it is one of the six, and then it is
      the name of the level chosen; everything else gets the fixed error. */
  lemma InitializeLoggerAccepts(logLevel: string)
    ensures InitializeLogger(logLevel).Success? <==> logLevel in LEVEL_NAMES
    ensures InitializeLogger(logLevel).Success? ==> LevelName(InitializeLogger(logLevel).value) == logLevel
    ensures InitializeLogger(logLevel).Failure? ==> InitializeLogger(logLevel).error == INVALID_LEVEL_ERROR
  {
  }

  /** Distinct levels have distinct names. */
  lemma LevelNameInjective(a: Level, b: Level)
    ensures LevelName(a) == LevelName(b) ==> a == b
  {
    LevelNameSelects(a);
    LevelNameSelects(b);
  }

  /** The empty name and upper-case spellings are refused; the command-line
      default "info" is accepted. */
  lemma LoggerExamples()
    ensures InitializeLogger("") == Failure(INVALID_LEVEL_ERROR)
    ensures InitializeLogger("INFO") == Failure(INVALID_LEVEL_ERROR)
    ensures InitializeLogger("Debug") == Failure(INVALID_LEVEL_ERROR)
    ensures InitializeLogger("info") == Success(InfoLevel)
  {
  }
}
