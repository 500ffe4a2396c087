# Yii2 Sentry log target, modelled in Dafny

This project models the log target of the `notamedia/yii2-sentry` package: the piece of a
Yii2 application that takes the logger's buffered messages and forwards them to Sentry.
Both revisions of the target are modelled.

- **The SDK-based target** (`src/SentryTarget.php`). `parseText` splits a loosely typed
  payload (a string, an array or a Throwable) into message, tags, exception, breadcrumb
  type and extra. `collect` adds one breadcrumb per message to the SDK's trail. `export`
  assembles a `$data` record per message: category tag merged with caller tags, context
  entry, user data, and the extra callback. It then delivers the record inside a fresh
  scope (only truthy tags are set), as an exception capture for a Throwable payload and
  as an event capture otherwise. `getLevelName` and `getLogLevel` are the two level tables.
- **The Raven-based target** (`SentryTarget.php` at the repository root). `collect`
  creates the Raven client lazily, once. `export` recognises only the `msg` key, lets the
  category override a caller tag of the same name, and makes one `capture` call per
  message. A Throwable payload gets an extra `captureException` call first.

Modules, one per concern:

| file | module | contents |
|---|---|---|
| php_values.dfy | PhpValues | PHP values (`Value`), `isset`, truthiness, `(string)` and `(array)` casts |
| yii_log.dfy | YiiLog | Yii level constants, backtrace frames, the buffered message tuple |
| sentry_sdk.dfy | SentrySdk | the SDK as a recording sink: `Hub` (trail and captures), `Scope` |
| levels.dfy | Levels | `getLevelName`, `getLogLevel` |
| normalizer.dfy | Normalizer | `parseText` |
| sentry_target.dfy | SentryTarget | the SDK-based target: data assembly, `collect`, `export` |
| target_options.dfy | TargetOptions | the `$context` and `$extraCallback` options both revisions share |
| legacy_target.dfy | LegacySentryTarget | the Raven-based target and its client |

The imperative parts are classes and loops, as in the source. `SentryTarget.Target` and
`LegacySentryTarget.Target` hold the buffer `messages`. The legacy target also holds the
lazily created `client`. The loops of the source stay loops: `SentryTarget.Target.AddBreadcrumbs`
(the `foreach` of `collect`), `SentryTarget.ApplyTags` (the tag loop) and both `Export`
methods. The legacy `Collect` has no loop, as in the source. Each loop is proved equal to
a pure specification function (`CollectBreadcrumbs`, `TruthyTags`, `ExportPass`,
`ExportCalls`), and the lemmas beside those functions state what the source promises.

Inputs the target reads from the framework are parameters:
- the request's client IP;
- the logged-in identity's id;
- the dump of the parent `Target::getContextMessage()`.

These three form `Environment` in the SDK-based target; the legacy target takes the dump
as `contextDump`. The parent `Target::collect`'s decision to export now is the `flush`
parameter.

Behaviour of the code worth noting:
- For a Throwable payload, the SDK-based `parseText` uses `(string)$text`, i.e. the
  Throwable's `__toString()`. Only the legacy target uses `getMessage()`.
- `collect` adds a breadcrumb for every incoming message, including the one whose flush
  exports the buffer.
- `getLogLevel` (used for events and breadcrumbs) defaults to info. Only the deprecated
  `getLevelName` defaults to error.
- For a Throwable payload, `parseText` yields no exception. The exception capture comes
  from `export` testing the payload itself. The breadcrumb of such a record therefore has
  no `exception` metadata.
- Only a Throwable payload is delivered as an exception capture. An array whose
  `exception` key holds a Throwable is delivered as an event, with that exception in the
  hint.
- The exception capture passes only the Throwable. Message, extra and stack trace are not
  passed (`SentryTarget.ExceptionCaptureIgnoresExtra`).
- `Scope::setTag(string $key, string $value)` refuses an array with a TypeError (the file
  is not in strict mode, so ints, bools and Throwables are coerced). A truthy caller tag
  holding an array therefore ends the export at that record, without its capture
  (`SentryTarget.ScopeRaisesOnCallerTags`, `SentryTarget.ArrayTagScenario`).
- In the legacy target, the extra callback receives `$context` after a set `tags` was
  unset from it (SentryTarget.php:76, 89); `msg` is still there
  (`LegacySentryTarget.RecordExtra`, `LegacySentryTarget.CallbackPayloadScenario`).
- When an export raises, the parent `Target::collect` does not reach the line that empties
  the buffer. Both targets' `ParentCollect` keep the buffer then.

`LegacySentryTarget.CollectAndExportScenario` replays the collect-then-export flow of
tests/unit/SentryTargetTest.php:68-96 against the contracts: two messages are buffered
without a flush, the client is then set, and the export makes two `capture` calls.

## Model

| member | source | states |
|---|---|---|
| Levels.LevelName | src/SentryTarget.php:279-291 | every level, listed or not, gets one of the names info, error, warning, debug |
| Levels.LevelNameTable | SentryTarget.php:110-122 | the six table entries (ERROR, WARNING, INFO, TRACE, PROFILE_BEGIN, PROFILE_END) and "error" for every other level; the legacy table is the same one |
| Levels.LogLevel | src/SentryTarget.php:300-316 | debug exactly for PROFILE, PROFILE_BEGIN, PROFILE_END and TRACE; warning exactly for WARNING; error exactly for ERROR |
| Levels.LogLevelDefault | src/SentryTarget.php:312-314 | info exactly for INFO and every unlisted level |
| Levels.LevelTablesAgree | src/SentryTarget.php:279-316 | the two tables give the same name exactly on the levels other than PROFILE and the unlisted ones |
| Normalizer.ParseText | src/SentryTarget.php:201-238 | a non-array payload gives its string form, no tags, no exception, default type, empty extra; for an array, tags are the cast `tags` value when set, type is the `type` value when set, and an exception is lifted exactly when the `exception` key holds a Throwable |
| Normalizer.MessageKeys | src/SentryTarget.php:209-217 | `message` wins over `msg` when both are set; `msg` alone gives the message; neither gives ""; a set key never stays in extra |
| Normalizer.ExtraKeepsTheRest | src/SentryTarget.php:219-233 | extra is the payload minus exactly the consumed keys: a key stays with its value iff it is not consumed; null-valued keys and a non-Throwable `exception` stay |
| SentryTarget.UserData | src/SentryTarget.php:146-157 | `ip_address` is present iff the request has a truthy IP; `id` is present iff there is an identity; nothing else |
| SentryTarget.MergeTags | src/SentryTarget.php:162 | caller tags override the base on a collision; all keys of both are kept |
| SentryTarget.TruthyTags | src/SentryTarget.php:172-176 | a tag reaches the scope iff its value is truthy, and it keeps its value |
| SentryTarget.BuildStacktrace | src/SentryTarget.php:245-251 | no stack trace iff the traces are not an array or are empty; otherwise it is built from those frames |
| SentryTarget.RunExtraCallback | src/SentryTarget.php:261-268 | only extra changes: it becomes the callback's result on (payload, extra) when a callback is set; with no callback the data is unchanged |
| SentryTarget.AssembledData | src/SentryTarget.php:139-168 | the assembled record takes message and exception from parseText and user data from the environment; tags are {category} overridden by the caller tags; extra is parseText's extra plus the context entry, then handed to the callback |
| SentryTarget.CategoryTag | src/SentryTarget.php:141-162 | the category key is always present; its value is the record's category unless the caller tags carry their own |
| SentryTarget.ContextEntry | src/SentryTarget.php:164-166 | with the context option, extra["context"] is the dump, overwriting any payload key of that name; every other key is the payload minus the consumed keys |
| SentryTarget.CaptureChoice | src/SentryTarget.php:170-191 | exception capture iff the payload is a Throwable; otherwise an event with the parsed message, getLogLevel(level) and the timestamp, and the assembled exception, extra and stack trace as hint; the scope holds exactly the truthy tags and the user data |
| SentryTarget.ExceptionCaptureIgnoresExtra | src/SentryTarget.php:178-179 | an exception capture is the same whatever the context option and callback are |
| SentryTarget.ScopeRaisesOnCallerTags | src/SentryTarget.php:162-176 | the scope callback raises exactly when a caller tag is truthy and an array (the category tag is a string); a payload that is not an array never raises |
| SentryTarget.RecordOutcome | src/SentryTarget.php:159-192 | a record yields no capture exactly when its scope callback raises, and otherwise its capture |
| SentryTarget.RunPassAt | src/SentryTarget.php:136-193 | a pass captures a prefix of the outcomes in order; it completes iff that prefix is all of them, and otherwise the next outcome is a raise |
| SentryTarget.ExportPassAt | src/SentryTarget.php:136-193 | the export captures the i-th message as the i-th capture, for a prefix of the buffer in which nothing raises; it completes iff the prefix is the whole buffer, and otherwise stops at the message that raised |
| SentryTarget.ExportPassCompletes | src/SentryTarget.php:136-193 | an export completes iff no buffered message raises, and then makes exactly one capture per message, in order |
| SentryTarget.RunPassAppend | src/SentryTarget.php:136-193 | a pass over a concatenation runs the second part only if the first completed |
| SentryTarget.ExportPassSnoc | src/SentryTarget.php:136-193 | one more message after a completed pass either raises or appends exactly its capture |
| SentryTarget.ExportPassStep | src/SentryTarget.php:136-193 | after a completed prefix, the next message appends its capture, or raises and decides the whole pass |
| SentryTarget.ExportPassStops | src/SentryTarget.php:136-193 | once a prefix raised, no later message is captured |
| SentryTarget.Metadata | src/SentryTarget.php:113-121 | breadcrumb metadata has tags, exception, extra each iff non-empty, holding the parsed value, and no other key |
| SentryTarget.TextBreadcrumb | src/SentryTarget.php:109-126 | a plain-text message's breadcrumb carries the text, the default type, no metadata and getLogLevel's severity |
| SentryTarget.CollectBreadcrumbsAt | src/SentryTarget.php:108-127 | exactly one breadcrumb per collected message, in input order |
| SentryTarget.CollectBreadcrumbsSnoc | src/SentryTarget.php:108-127 | collecting one more message appends exactly its breadcrumb |
| SentryTarget.MakeBreadcrumb | src/SentryTarget.php:109-125 | the loop body builds exactly the breadcrumb of the record: getLogLevel severity, parsed type and message, category, metadata, timestamp |
| SentryTarget.ApplyTags | src/SentryTarget.php:172-176 | the tag loop fails exactly when a truthy tag is an array; otherwise it sets exactly the truthy tags on the scope; the user is unchanged either way |
| SentryTarget.Target.constructor | src/SentryTarget.php:65-93 | a new target has the given options, is bound to the given hub, and has an empty buffer |
| SentryTarget.Target.AssembleRecord | src/SentryTarget.php:139-168 | the step-by-step build of `$data` yields exactly the assembled record |
| SentryTarget.Target.ExportRecord | src/SentryTarget.php:137-192 | the loop body fails exactly when the record's scope callback raises; otherwise it appends exactly the record's capture, made in a fresh scope that sees the current trail; the trail is unchanged |
| SentryTarget.Target.Deliver | src/SentryTarget.php:170-191 | a fresh scope gets the user data and the tags; if no tag is refused, exactly one capture is appended, made from the assembled data |
| SentryTarget.Target.Export | src/SentryTarget.php:134-194 | the captures grow by the export pass over the buffer, and `completed` says whether it ran to the end; no breadcrumb is added |
| SentryTarget.Target.ParentCollect | src/SentryTarget.php:128 | the parent buffers the messages; a flush runs the export pass over the whole buffer and empties it unless the export raised |
| SentryTarget.Target.AddBreadcrumbs | src/SentryTarget.php:108-127 | the trail grows by one breadcrumb per incoming message, in order; no capture is made |
| SentryTarget.Target.Collect | src/SentryTarget.php:106-129 | the trail grows by one breadcrumb per incoming message, in order; a flush then runs the export pass over the whole buffer with those breadcrumbs visible |
| SentryTarget.InvalidRequestScenario | src/SentryTarget.php:139-191 | `{"msg": "Invalid request"}` at WARNING under "UI" becomes an event with that message, warning, and the single tag category = "UI" |
| SentryTarget.ArrayTagScenario | src/SentryTarget.php:172-176 | a caller tag holding a non-empty array raises, and the export pass over that record captures nothing and does not complete |
| SentryTarget.EmptyArrayTagScenario | src/SentryTarget.php:172-176 | a caller tag holding an empty array is skipped as falsy, so nothing raises |
| SentryTarget.TagMergeScenario | src/SentryTarget.php:162 | tags {"t": "v"} under category "cat" merge to {"category": "cat", "t": "v"} |
| SentryTarget.ConnectionErrorScenario | src/SentryTarget.php:108-179 | a Throwable at ERROR is delivered as an exception capture; its breadcrumb has severity error, the Throwable's string form and no metadata |
| SentrySdk.Hub.AddBreadcrumb | src/SentryTarget.php:126 | the trail grows by exactly that breadcrumb |
| SentrySdk.Hub.CaptureException | src/SentryTarget.php:179 | one exception capture is recorded, with the scope's user and tags and the current trail |
| SentrySdk.Hub.CaptureEvent | src/SentryTarget.php:181-190 | one event capture is recorded, with its hint, the scope's user and tags and the current trail |
| SentrySdk.Scope.SetUser | src/SentryTarget.php:170 | the scope's user becomes the given data |
| SentrySdk.Scope.SetTag | src/SentryTarget.php:174 | the scope gains or updates exactly that tag |
| LegacySentryTarget.SplitPayload | SentryTarget.php:66-82 | Throwable: its message, no tags, no extra. Array with a set `msg`: the `msg` value, `tags` when set, extra = payload minus `msg` and a set `tags`, and the payload the callback later sees is the array minus a set `tags`. Anything else: the payload itself, no tags, no extra. Outside the msg branch the callback sees the payload unchanged |
| LegacySentryTarget.MergeCategory | SentryTarget.php:97 | the category always maps to the record's category and overrides a caller tag; other caller tags are kept; a non-array tags value raises |
| LegacySentryTarget.RecordRaises | SentryTarget.php:72-97 | a record raises iff it is an array with a set `msg` and a set, non-array `tags` |
| LegacySentryTarget.ThrowableRecord | SentryTarget.php:69-100 | a Throwable gives two calls: captureException with it, then capture whose message is its message and whose tags are just the category |
| LegacySentryTarget.OtherRecord | SentryTarget.php:72-100 | any other payload gives one capture with getLevelName, timestamp, traces and a category tag that maps to the record's category. The description is `msg` for an array with a set `msg`; otherwise it is the payload itself and there are no caller tags |
| LegacySentryTarget.RecordExtra | SentryTarget.php:67-90 | the extra is the payload minus `msg` and a set `tags` for an array with a set `msg`, else empty, plus the context dump when the option is on; a callback is called with that array and the payload minus a set `tags` (keeping `msg`), and its result is the extra |
| LegacySentryTarget.CallbackPayloadScenario | SentryTarget.php:74-89 | with `{"msg": "m", "tags": {"a": "b"}}`, a callback that stores its payload argument stores `{"msg": "m"}` |
| LegacySentryTarget.Outcomes | SentryTarget.php:65-101 | one outcome per buffered message |
| LegacySentryTarget.OutcomesAppend | SentryTarget.php:65-101 | the outcomes of a concatenated buffer are the concatenated outcomes |
| LegacySentryTarget.RunPassAppend | SentryTarget.php:65-101 | a pass over a concatenation runs the second part only if the first completed |
| LegacySentryTarget.RunPassCompletes | SentryTarget.php:65-101 | a pass completes iff no outcome raises |
| LegacySentryTarget.ExportStep | SentryTarget.php:65-101 | after a completed prefix, the next record's calls are appended and decide whether the pass is still complete |
| LegacySentryTarget.ExportStops | SentryTarget.php:65-101 | once a prefix raised, no later record makes a call |
| LegacySentryTarget.ExportCompletes | SentryTarget.php:65-101 | an export pass completes iff no buffered record raises |
| LegacySentryTarget.CapturesAppend | SentryTarget.php:100 | the capture calls of a concatenation are the concatenated capture calls |
| LegacySentryTarget.RecordCaptures | SentryTarget.php:69-100 | a record that does not raise makes exactly one capture call, with its data and traces |
| LegacySentryTarget.RunPassCaptures | SentryTarget.php:65-101 | the capture calls of a completed pass are those of its records, in order |
| LegacySentryTarget.CapturesOfSingles | SentryTarget.php:65-101 | records with one capture each yield exactly one capture per record, in order |
| LegacySentryTarget.OneCapturePerMessage | SentryTarget.php:65-101 | a completed export makes exactly one capture per buffered message, the i-th with the i-th message's data and traces |
| LegacySentryTarget.RavenClient.constructor | SentryTarget.php:46 | a new client has the configured DSN and options and no calls |
| LegacySentryTarget.RavenClient.CaptureException | SentryTarget.php:70 | records exactly one captureException call |
| LegacySentryTarget.RavenClient.Capture | SentryTarget.php:100 | records exactly one capture call |
| LegacySentryTarget.Target.constructor | SentryTarget.php:19-38 | a new target has the given options, no client and an empty buffer |
| LegacySentryTarget.Target.ExportRecord | SentryTarget.php:66-100 | the loop body makes exactly the record's calls, or none when it raises, and reports which; the callback gets the payload minus a set `tags` |
| LegacySentryTarget.Target.Export | SentryTarget.php:63-102 | the client's calls grow by the pure export pass; a raising record ends it and is reported |
| LegacySentryTarget.Target.ParentCollect | SentryTarget.php:49 | the parent buffers the messages; a flush exports them and empties the buffer unless the export raised |
| LegacySentryTarget.Target.Collect | SentryTarget.php:43-50 | the client is created only when unset and kept by every later collect, before the parent buffers and possibly exports |

## Left out

- SentryTarget.Target.ParentCollect: the parent `Target::collect` is not part of this model. Its level/category filter is left out: every incoming message is buffered. Its `exportInterval`/final decision is the `flush` parameter. What happens after an export raises (the framework's log dispatcher catches it and disables the target) is left out. Because this target's `getContextMessage` returns '', the parent adds no context message; that override is not modelled separately.
- LegacySentryTarget.Target.ParentCollect: the same as above.
- `Target::getContextMessage()` of the parent (the dump of globals, `maskVars`/`logVars`) is the `contextDump` input, not a computation.
- Request IP and identity lookup, including the swallowed Throwable, are inputs (`Environment.userIp`, `Environment.identityId`); the lookup is not modelled.
- The SDK is a recording sink. Left out: `ClientBuilder`, `SentrySdk::init`, the integration filter in the constructor, `StacktraceBuilder::buildFromBacktrace` (only its guard is modelled), `EventHint::fromArray` beyond its defaults, the trail's size limit, and whatever an outer scope set. Each `withScope` is a fresh, empty scope that sees the hub's trail.
- `Raven_Client` internals (its constructor and what `capture` sends) are a recording sink.
- PHP values are null, booleans, integers, strings, Throwables and string-keyed arrays. Left out:
  - floats (a payload value such as `0.5`, and the falsy tag value `0.0`, cannot be represented);
  - integer and numeric-string keys;
  - the key order of PHP arrays, so the order in which tags are set is not modelled;
  - the recursive and integer-key rules of `ArrayHelper::merge`;
  - other objects.
- PhpValues.ToPhpString: `(string)` on an array gives "Array". The notice PHP raises, which the framework's error handler may turn into an exception, is left out.
- PhpValues.CastToArray: `(array)` on a Throwable gives the empty map. PHP lists the object's properties, which are left out.
- The extra callback is a total function returning an array. A callback that throws, or that returns something else, is left out.
- SentrySdk.Scope.SetTag: the tag value is stored as the PHP value. The SDK holds its string coercion, which only matters for what the SDK sends.
- Non-string breadcrumb types (`type` values), and the type errors the SDK may raise on them, are not checked.
- Timestamps are opaque `real` values that are only passed through.
- LegacySentryTarget.MergeCategory: a non-array `tags` value is modelled as `array_merge` raising. PHP 8 raises a TypeError; under PHP 7 it is a warning that the framework's error handler turns into an exception.
- src/Component.php, src/SentryComponent.php, src/assets/*, the test commands and fixtures are not part of this model. They only configure the SDK or the browser assets.
