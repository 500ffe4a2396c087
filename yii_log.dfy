/**
 * What the framework's logger hands a log target: its level constants and the buffered
 * message tuple `[$text, $level, $category, $timestamp, $traces]`.
 */
module YiiLog {
  import opened PhpValues

  /** The level constants of `yii\log\Logger`, taken as distinct values, and every other
      level a caller may pass. `Unlisted(code)` stands for a level equal to none of the
      seven constants. */
  datatype Level =
    | LevelError
    | LevelWarning
    | LevelInfo
    | LevelTrace
    | LevelProfile
    | LevelProfileBegin
    | LevelProfileEnd
    | Unlisted(code: int)

  /** One call-site record of a backtrace. */
  datatype TraceFrame = TraceFrame(file: string, line: int)

  /** One buffered log message. `traces` is None when the slot does not hold an array. */
  datatype Record = Record(
    text: Value,
    level: Level,
    category: string,
    timestamp: real,
    traces: Option<seq<TraceFrame>>)
}
