/**
 * The public options both revisions of the log target share: `$context` (append the
 * context dump to extra) and `$extraCallback` (rewrite extra from the raw payload).
 */
module TargetOptions {
  import opened PhpValues

  /** `$extraCallback`: called with a payload and the current extra; its result replaces
      the extra. */
  type ExtraCallback = (Value, map<string, Value>) -> map<string, Value>

  /** The options `$context` and `$extraCallback` (None when not callable). */
  datatype Options = Options(context: bool, extraCallback: Option<ExtraCallback>)
}
