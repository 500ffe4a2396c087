/**
 * The vendor SDK as an opaque sink. It does nothing but record what the log target hands
 * it: the breadcrumb trail (`\Sentry\addBreadcrumb`), and every capture together with the
 * user and tags of the scope it was made in and the trail visible at that moment.
 */
module SentrySdk {
  import opened PhpValues
  import opened YiiLog

  /** The SDK severities the target produces. */
  datatype Severity = Debug | Info | Warning | Error

  /** The string form of an SDK severity, as the SDK spells it. */
  function SeverityName(s: Severity): string {
    match s
    case Debug => "debug"
    case Info => "info"
    case Warning => "warning"
    case Error => "error"
  }

  /** A stack trace the SDK built from the given backtrace (the building itself is the
      SDK's and is not modelled). */
  datatype Stacktrace = Stacktrace(frames: seq<TraceFrame>)

  /** `new Breadcrumb(level, type, category, message, metadata, timestamp)`. */
  datatype Breadcrumb = Breadcrumb(
    level: Severity,
    kind: Value,
    category: string,
    message: string,
    metadata: map<string, Value>,
    timestamp: real)

  /** The fields the target sets on `Event::createEvent()`. */
  datatype Event = Event(message: string, level: Severity, timestamp: real)

  /** `EventHint::fromArray`: an absent key reads as null (as the empty array for extra). */
  datatype Hint = Hint(exception: Option<Value>, extra: map<string, Value>, stacktrace: Option<Stacktrace>)

  /** A delivered capture with the state of its scope. */
  datatype Capture =
    | ExceptionCapture(exception: Value, user: map<string, Value>, tags: map<string, Value>, trail: seq<Breadcrumb>)
    | EventCapture(event: Event, hint: Hint, user: map<string, Value>, tags: map<string, Value>, trail: seq<Breadcrumb>)

  /** The isolated scope that `\Sentry\withScope` opens for one record. */
  class Scope {
    var user: map<string, Value>
    var tags: map<string, Value>

    constructor ()
      ensures user == map[] && tags == map[]
    {
      user := map[];
      tags := map[];
    }

    method SetUser(u: map<string, Value>)
      modifies this
      ensures user == u && tags == old(tags)
    {
      user := u;
    }

    method SetTag(key: string, value: Value)
      modifies this
      ensures tags == old(tags)[key := value] && user == old(user)
    {
      tags := tags[key := value];
    }
  }

  /** The SDK's current hub: the breadcrumb trail and the captures delivered so far. */
  class Hub {
    var breadcrumbs: seq<Breadcrumb>
    var captures: seq<Capture>

    constructor ()
      ensures breadcrumbs == [] && captures == []
    {
      breadcrumbs := [];
      captures := [];
    }

    method AddBreadcrumb(b: Breadcrumb)
      modifies this
      ensures breadcrumbs == old(breadcrumbs) + [b] && captures == old(captures)
    {
      breadcrumbs := breadcrumbs + [b];
    }

    method CaptureException(exception: Value, scope: Scope)
      modifies this
      ensures breadcrumbs == old(breadcrumbs)
      ensures captures == old(captures) + [ExceptionCapture(exception, scope.user, scope.tags, breadcrumbs)]
    {
      captures := captures + [ExceptionCapture(exception, scope.user, scope.tags, breadcrumbs)];
    }

    method CaptureEvent(event: Event, hint: Hint, scope: Scope)
      modifies this
      ensures breadcrumbs == old(breadcrumbs)
      ensures captures == old(captures) + [EventCapture(event, hint, scope.user, scope.tags, breadcrumbs)]
    {
      captures := captures + [EventCapture(event, hint, scope.user, scope.tags, breadcrumbs)];
    }
  }
}
