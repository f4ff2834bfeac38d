/** The logger-level registry: the three named loggers of kaplat4/main.py:109-117 and the
    level each one currently records from. Only the name-to-level map is modelled. */
module Loggers {
  import opened Wrappers

  /** The three levels the service accepts (Python's logging.ERROR, INFO and DEBUG). */
  datatype Level = Error | Info | Debug

  /** `logging.getLevelName` of each level. */
  function LevelName(l: Level): string {
    match l
    case Error => "ERROR"
    case Info => "INFO"
    case Debug => "DEBUG"
  }

  /** `logger_level not in {"ERROR", "INFO", "DEBUG"}`, then `getattr(logging, logger_level)`:
      the exact upper-case names only. */
  function ParseLevel(s: Option<string>): (r: Option<Level>)
    ensures r.Some? ==> s == Some(LevelName(r.value))
  {
    match s
    case Some("ERROR") => Some(Error)
    case Some("INFO") => Some(Info)
    case Some("DEBUG") => Some(Debug)
    case _ => None
  }

  /** Every level's name is accepted and read back as that level. */
  lemma ParseLevelName(l: Level)
    ensures ParseLevel(Some(LevelName(l))) == Some(l)
  {
  }

  const RequestLogger := "request-logger"
  const StackLogger := "stack-logger"
  const IndependentLogger := "independent-logger"

  /** The keys of `ALL_LOGGERS`. */
  const LoggerNames: set<string> := {RequestLogger, StackLogger, IndependentLogger}

  /** The levels the three loggers are built with. */
  function InitialLevels(): (m: map<string, Level>)
    ensures m.Keys == LoggerNames
    ensures m[RequestLogger] == Info && m[StackLogger] == Info && m[IndependentLogger] == Debug
  {
    map[RequestLogger := Info, StackLogger := Info, IndependentLogger := Debug]
  }

  /** Python's f-string rendering of a query value that may be absent. */
  function Show(s: Option<string>): string {
    match s
    case Some(v) => v
    case None => "None"
  }

  /** The 404 text for a name that is not registered. */
  function NotFoundText(name: Option<string>): string {
    "Logger '" + Show(name) + "' not found"
  }

  const InvalidLevelText := "Invalid logger level"
}
