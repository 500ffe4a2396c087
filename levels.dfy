/**
 * Yii log levels and the two fixed tables that translate them for Sentry:
 * `getLevelName` (a severity name, default "error"; the same table in both revisions of
 * the target) and `getLogLevel` (an SDK severity, default info).
 */
module Levels {
  import opened YiiLog
  import opened SentrySdk

  /** `getLevelName`: a six-entry table with "error" for every level not in it. */
  function LevelName(level: Level): (name: string)
    ensures name in {"info", "error", "warning", "debug"}
  {
    match level
    case LevelError => "error"
    case LevelWarning => "warning"
    case LevelInfo => "info"
    case LevelTrace => "debug"
    case LevelProfileBegin => "debug"
    case LevelProfileEnd => "debug"
    case _ => "error"
  }

  /** `getLogLevel`: a switch whose default branch is shared with LEVEL_INFO. */
  function LogLevel(level: Level): (s: Severity)
    ensures s == Debug <==> level in {LevelProfile, LevelProfileBegin, LevelProfileEnd, LevelTrace}
    ensures s == Warning <==> level == LevelWarning
    ensures s == Error <==> level == LevelError
  {
    match level
    case LevelProfile => Debug
    case LevelProfileBegin => Debug
    case LevelProfileEnd => Debug
    case LevelTrace => Debug
    case LevelWarning => Warning
    case LevelError => Error
    case LevelInfo => Info
    case Unlisted(_) => Info
  }

  /** The table of `getLevelName`, entry by entry, and its default. */
  lemma LevelNameTable(level: Level)
    ensures LevelName(LevelError) == "error"
    ensures LevelName(LevelWarning) == "warning"
    ensures LevelName(LevelInfo) == "info"
    ensures LevelName(LevelTrace) == "debug"
    ensures LevelName(LevelProfileBegin) == "debug"
    ensures LevelName(LevelProfileEnd) == "debug"
    ensures level !in {LevelError, LevelWarning, LevelInfo, LevelTrace, LevelProfileBegin, LevelProfileEnd}
            ==> LevelName(level) == "error"
  {
  }

  /** Every level that `getLogLevel` does not send to debug, warning or error is info,
      including every unlisted level. */
  lemma LogLevelDefault(level: Level)
    ensures LogLevel(level) == Info <==> level == LevelInfo || level.Unlisted?
  {
  }

  /** The two tables agree exactly on the levels other than LEVEL_PROFILE and the
      unlisted ones: getLevelName sends those to "error", getLogLevel to debug or info. */
  lemma LevelTablesAgree(level: Level)
    ensures SeverityName(LogLevel(level)) == LevelName(level)
            <==> !(level == LevelProfile || level.Unlisted?)
  {
  }
}
