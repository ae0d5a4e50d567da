/**
 Logging configuration (src/docextractors/loggingconfig.py).

 The root logger's level is resolved from a verbosity count (the number of -v
 flags) and, only when that count is 0, from the LOG_LEVEL configuration
 value. The `.env` contents are a parameter, as in module Config.
 */
module LoggingConfig {
  import opened Wrappers
  import Config

  // The numeric levels of Python's logging module.
  const DEBUG: int := 10
  const INFO: int := 20
  const WARNING: int := 30
  const ERROR: int := 40
  const CRITICAL: int := 50

  const StandardLevels: set<int> := {DEBUG, INFO, WARNING, ERROR, CRITICAL}

  /** The configuration key consulted for the default level. */
  const LogLevelKey: string := "LOG_LEVEL"

  // Terminal colour codes of CustomFormatter.
  const Esc: char := 27 as char
  const Grey: string := [Esc] + "[38;20m"
  const Yellow: string := [Esc] + "[33;20m"
  const Red: string := [Esc] + "[31;20m"
  const BoldRed: string := [Esc] + "[31;1m"
  const Reset: string := [Esc] + "[0m"

  const LogFormat: string := "%(asctime)s %(levelname)s %(module)s::%(funcName)s:%(lineno)d - %(message)s"

  /** `CustomFormatter.FORMATS`. */
  const Formats: map<int, string> := map[
    DEBUG := Grey + LogFormat + Reset,
    INFO := Grey + LogFormat + Reset,
    WARNING := Yellow + LogFormat + Reset,
    ERROR := Red + LogFormat + Reset,
    CRITICAL := BoldRed + LogFormat + Reset
  ]

  /** `FORMATS.get(levelno)`: the format string used for a record of that level. */
  function FormatFor(levelno: int): (r: Option<string>)
    ensures r.Some? <==> levelno in StandardLevels
    ensures levelno == DEBUG || levelno == INFO ==> r == Some(Grey + LogFormat + Reset)
    ensures levelno == WARNING ==> r == Some(Yellow + LogFormat + Reset)
    ensures levelno == ERROR ==> r == Some(Red + LogFormat + Reset)
    ensures levelno == CRITICAL ==> r == Some(BoldRed + LogFormat + Reset)
  {
    if levelno in Formats then Some(Formats[levelno]) else None
  }

  /** Two standard levels share a format exactly when both are DEBUG or INFO
      (or they are the same level): WARNING, ERROR and CRITICAL each have a colour
      of their own. */
  lemma FormatsDistinguishSeverity(a: int, b: int)
    requires a in StandardLevels && b in StandardLevels
    ensures FormatFor(a) == FormatFor(b) <==> a == b || (a in {DEBUG, INFO} && b in {DEBUG, INFO})
  {
    var g, y, r, br := Grey + LogFormat + Reset, Yellow + LogFormat + Reset,
                       Red + LogFormat + Reset, BoldRed + LogFormat + Reset;
    assert g[3] == '8' && y[3] == '3' && r[3] == '1' && br[3] == '1';
    assert r[5] == '2' && br[5] == '1';
  }

  /** The inner `get_env_log_level`: a configured "INFO" counts as one -v,
      "DEBUG" as two, anything else (or nothing) as none. */
  function EnvLogLevel(configured: Option<string>): (n: int)
    ensures n in {0, 1, 2}
    ensures n == 1 <==> configured == Some("INFO")
    ensures n == 2 <==> configured == Some("DEBUG")
  {
    match configured
    case Some(s) => if s == "" then 0 else if s == "INFO" then 1 else if s == "DEBUG" then 2 else 0
    case None => 0
  }

  /** `_get_log_level(verbosity)`: `verbosity or get_env_log_level()`, mapped
      through {0: WARNING, 1: INFO, 2: DEBUG} with DEBUG as the default. */
  function ResolveLogLevel(verbosity: int, dotenv: Config.DotEnv): (level: int)
    ensures level in {DEBUG, INFO, WARNING}
    ensures verbosity == 1 ==> level == INFO
    ensures verbosity != 0 && verbosity != 1 ==> level == DEBUG
  {
    var count := if verbosity != 0 then verbosity else EnvLogLevel(Config.GetConfig(dotenv, LogLevelKey));
    if count == 0 then WARNING
    else if count == 1 then INFO
    else DEBUG
  }

  /** No LOG_LEVEL value to go by: absent, `None`, or the empty string. */
  predicate NoConfiguredLevel(dotenv: Config.DotEnv) {
    Config.GetConfig(dotenv, LogLevelKey) in {None, Some("")}
  }

  /** With no -v flag the level comes from LOG_LEVEL: exactly "INFO" gives INFO,
      exactly "DEBUG" gives DEBUG, and everything else, including no value, gives
      WARNING. */
  lemma ZeroVerbosityFollowsConfig(dotenv: Config.DotEnv)
    ensures var configured := Config.GetConfig(dotenv, LogLevelKey);
            ResolveLogLevel(0, dotenv) ==
              if configured == Some("INFO") then INFO
              else if configured == Some("DEBUG") then DEBUG
              else WARNING
    ensures NoConfiguredLevel(dotenv) ==> ResolveLogLevel(0, dotenv) == WARNING
  {
  }

  /** LOG_LEVEL is consulted only when the verbosity is 0. */
  lemma VerbosityOverridesConfig(verbosity: int, dotenv1: Config.DotEnv, dotenv2: Config.DotEnv)
    requires verbosity != 0
    ensures ResolveLogLevel(verbosity, dotenv1) == ResolveLogLevel(verbosity, dotenv2)
  {
  }

  /** Without LOG_LEVEL, more -v flags never give a less verbose (numerically
      higher) level. */
  lemma MoreVerbosityIsNoLessVerbose(v1: int, v2: int, dotenv: Config.DotEnv)
    requires NoConfiguredLevel(dotenv)
    requires 0 <= v1 <= v2
    ensures ResolveLogLevel(v2, dotenv) <= ResolveLogLevel(v1, dotenv)
  {
  }

  /** With LOG_LEVEL set to "DEBUG", a single -v lowers the verbosity from
      DEBUG to INFO: the order above needs its precondition. */
  lemma ExplicitVerbosityCanLowerConfiguredLevel(dotenv: Config.DotEnv)
    requires Config.GetConfig(dotenv, LogLevelKey) == Some("DEBUG")
    ensures ResolveLogLevel(0, dotenv) == DEBUG
    ensures ResolveLogLevel(1, dotenv) == INFO
    ensures ResolveLogLevel(1, dotenv) > ResolveLogLevel(0, dotenv)
  {
  }

  /** The root logger as configured when loggingconfig is imported. */
  class RootLogger {
    var level: int
    var handlers: nat
    var propagate: bool

    ghost predicate Valid()
      reads this
    {
      level in {DEBUG, INFO, WARNING}
    }

    /** Import-time configuration: the level resolved from the -v count found
        on the command line, one stderr handler, no propagation. */
    constructor (verbosity: int, dotenv: Config.DotEnv)
      ensures Valid()
      ensures level == ResolveLogLevel(verbosity, dotenv)
      ensures handlers == 1 && !propagate
    {
      level := ResolveLogLevel(verbosity, dotenv);
      handlers := 1;
      propagate := false;
    }

    /** `get_log_level()`. */
    method GetLogLevel() returns (l: int)
      requires Valid()
      ensures l == level
      ensures l in {DEBUG, INFO, WARNING}
    {
      l := level;
    }

    /** `set_log_level(verbosity)`: only the level changes. */
    method SetLogLevel(verbosity: int, dotenv: Config.DotEnv)
      requires Valid()
      modifies this`level
      ensures Valid()
      ensures level == ResolveLogLevel(verbosity, dotenv)
    {
      level := ResolveLogLevel(verbosity, dotenv);
    }
  }

  /** After `set_log_level(v)`, `get_log_level()` returns `_get_log_level(v)`,
      and the handlers and propagation flag are what they were. */
  method SetThenGet(logger: RootLogger, verbosity: int, dotenv: Config.DotEnv) returns (l: int)
    requires logger.Valid()
    modifies logger
    ensures l == ResolveLogLevel(verbosity, dotenv)
    ensures logger.handlers == old(logger.handlers) && logger.propagate == old(logger.propagate)
  {
    logger.SetLogLevel(verbosity, dotenv);
    l := logger.GetLogLevel();
  }
}
