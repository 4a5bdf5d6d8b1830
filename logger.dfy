/**
 * DefaultApiLogger of the current revision (api-logger.ts): a level threshold and a
 * context prefix fixed at construction, and one guarded output call per log method.
 * Timestamps are a parameter; the console write is the returned line.
 */
module Logger {
  import opened Wrappers

  /** LoggerLevel; its position in LoggerLevelMap is Rank. */
  datatype Level = Debug | Info | Warn | Error | Silent

  function Rank(l: Level): nat
  {
    match l
    case Debug => 0
    case Info => 1
    case Warn => 2
    case Error => 3
    case Silent => 4
  }

  function LevelName(l: Level): string
  {
    match l
    case Debug => "debug"
    case Info => "info"
    case Warn => "warn"
    case Error => "error"
    case Silent => "silent"
  }

  /** The levels are totally ordered debug < info < warn < error < silent. */
  lemma LevelOrder(a: Level, b: Level)
    ensures Rank(Debug) < Rank(Info) < Rank(Warn) < Rank(Error) < Rank(Silent)
    ensures Rank(a) == Rank(b) ==> a == b
    ensures Rank(a) <= Rank(b) || Rank(b) <= Rank(a)
  {
  }

  /** A call at level `call` is written when the configured level is at or below it. */
  predicate Emits(configured: Level, call: Level)
  {
    Rank(configured) <= Rank(call)
  }

  /** Configured `silent` writes nothing; configured `debug` writes every call. */
  lemma EmitsExtremes(call: Level)
    requires call != Silent
    ensures !Emits(Silent, call)
    ensures Emits(Debug, call)
  {
  }

  /** If a level is written, every higher level is written too. */
  lemma EmitsMonotone(configured: Level, a: Level, b: Level)
    requires Emits(configured, a) && Rank(a) <= Rank(b)
    ensures Emits(configured, b)
  {
  }

  const DEFAULT_CONTEXT: string := "[next-api-handler]"

  /** The level used when none is configured, from the runtime environment name. */
  function DefaultLevel(env: string): (l: Level)
    ensures env == "test" ==> l == Silent
    ensures env == "development" ==> l == Info
    ensures env != "test" && env != "development" ==> l == Error
  {
    if env == "test" then Silent
    else if env == "development" then Info
    else Error
  }

  /** DefaultApiLoggerOption. */
  datatype LoggerOption = LoggerOption(context: Option<string>, loggerLevel: Option<Level>)

  /** A constructed DefaultApiLogger: its readonly context and level. */
  datatype DefaultApiLogger = DefaultApiLogger(context: string, level: Level)

  /**
   * `new DefaultApiLogger(option)`: an explicit level wins over the environment's
   * default; an absent or empty context becomes "[next-api-handler]".
   */
  function NewLogger(option: LoggerOption, env: string): (l: DefaultApiLogger)
    ensures option.loggerLevel.Some? ==> l.level == option.loggerLevel.value
    ensures option.loggerLevel.None? ==> l.level == DefaultLevel(env)
    ensures option.context.Some? && option.context.value != "" ==> l.context == option.context.value
    ensures option.context.None? || option.context.value == "" ==> l.context == DEFAULT_CONTEXT
  {
    DefaultApiLogger(
      if option.context.Some? && option.context.value != "" then option.context.value else DEFAULT_CONTEXT,
      option.loggerLevel.GetOr(DefaultLevel(env)))
  }

  /** One console line: the console method it goes to and its text. */
  datatype Line = Line(channel: Level, text: string)

  /** The text a template literal makes of an absent message. */
  function MessageText(message: Option<string>): string
  {
    message.GetOr("undefined")
  }

  /**
   * `logger.debug/info/warn/error(message)`: a line on the console method of the call's
   * level, prefixed with context, level and timestamp, exactly when the configured level
   * lets that call through.
   */
  function Log(logger: DefaultApiLogger, call: Level, message: Option<string>, timestamp: string): (r: Option<Line>)
    requires call != Silent
    ensures r.Some? <==> Emits(logger.level, call)
    ensures r.Some? ==> r.value.channel == call
    ensures r.Some? ==>
              r.value.text == logger.context + " " + LevelName(call) + " " + timestamp + " " + MessageText(message)
  {
    if Rank(logger.level) <= Rank(call) then
      Some(Line(call, logger.context + " " + LevelName(call) + " " + timestamp + " " + MessageText(message)))
    else None
  }

  /** Under the test environment a logger with no configured level writes nothing. */
  lemma TestEnvironmentIsQuiet(option: LoggerOption, call: Level, message: Option<string>, timestamp: string)
    requires option.loggerLevel.None? && call != Silent
    ensures Log(NewLogger(option, "test"), call, message, timestamp).None?
  {
  }
}

/**
 * DefaultApiLogger of the older revision (src/lib/api-logger.ts). Its level order, guard
 * and defaults are the current revision's, so it is built from the same definitions.
 */
module LegacyLogger {
  import opened Wrappers
  import L = Logger

  /** `new DefaultApiLogger(option)` of the older revision. */
  function NewLogger(option: L.LoggerOption, env: string): (l: L.DefaultApiLogger)
    ensures option.loggerLevel.Some? ==> l.level == option.loggerLevel.value
    ensures option.loggerLevel.None? && env == "test" ==> l.level == L.Silent
    ensures option.loggerLevel.None? && env == "development" ==> l.level == L.Info
    ensures option.loggerLevel.None? && env != "test" && env != "development" ==> l.level == L.Error
    ensures option.context.Some? && option.context.value != "" ==> l.context == option.context.value
    ensures option.context.None? || option.context.value == "" ==> l.context == "[next-api-handler]"
  {
    L.NewLogger(option, env)
  }

  /** A log call of the older logger: written iff the configured level is at or below the call's. */
  function Log(logger: L.DefaultApiLogger, call: L.Level, message: Option<string>, timestamp: string): (r: Option<L.Line>)
    requires call != L.Silent
    ensures r.Some? <==> L.Rank(logger.level) <= L.Rank(call)
    ensures r.Some? ==> r.value.channel == call
  {
    L.Log(logger, call, message, timestamp)
  }
}
