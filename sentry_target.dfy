/**
 * The SDK-based log target (src/SentryTarget.php): per record it assembles the `$data`
 * record (message, tags, extra, user data, exception) and delivers it inside its own
 * scope, as an exception capture for a Throwable payload and as an event capture for
 * anything else; `collect` first adds one breadcrumb per record to the hub's trail.
 */
module SentryTarget {
  import opened PhpValues
  import opened YiiLog
  import opened Levels
  import opened SentrySdk
  import opened Normalizer
  import opened TargetOptions

  /** What the target reads from the framework during an export: the client IP of a web
      request (None outside one), the id of the logged-in identity (None when there is no
      user component, no identity, or the lookup threw), and the dump produced by the
      parent `Target::getContextMessage()`. */
  datatype Environment = Environment(userIp: Option<string>, identityId: Option<Value>, contextDump: string)

  /** The per-record `$data` array. */
  datatype Data = Data(
    message: string,
    tags: map<string, Value>,
    extra: map<string, Value>,
    userData: map<string, Value>,
    exception: Option<Value>)

  /** `$data['userData']`: the IP when the request has a truthy one, the identity id when
      there is an identity. */
  function UserData(env: Environment): (u: map<string, Value>)
    ensures "ip_address" in u <==> env.userIp.Some? && Truthy(Str(env.userIp.value))
    ensures "ip_address" in u ==> u["ip_address"] == Str(env.userIp.value)
    ensures "id" in u <==> env.identityId.Some?
    ensures "id" in u ==> u["id"] == env.identityId.value
    ensures u.Keys <= {"ip_address", "id"}
  {
    var withIp :=
      if env.userIp.Some? && Truthy(Str(env.userIp.value)) then map["ip_address" := Str(env.userIp.value)]
      else map[];
    if env.identityId.Some? then withIp["id" := env.identityId.value] else withIp
  }

  /** `ArrayHelper::merge` on string-keyed arrays of scalars: a key of `over` replaces the
      same key of `base`, every other key of either is kept. */
  function MergeTags(base: map<string, Value>, over: map<string, Value>): (r: map<string, Value>)
    ensures r.Keys == base.Keys + over.Keys
    ensures forall k :: k in over ==> r[k] == over[k]
    ensures forall k :: k in base && k !in over ==> r[k] == base[k]
  {
    base + over
  }

  /** The tags that reach the scope: only those whose value is truthy. */
  function TruthyTags(tags: map<string, Value>): (r: map<string, Value>)
    ensures forall k :: k in r <==> k in tags && Truthy(tags[k])
    ensures forall k :: k in r ==> r[k] == tags[k]
  {
    map k | k in tags && Truthy(tags[k]) :: tags[k]
  }

  /** `buildStacktrace`, reduced to its guard: no stack trace unless the traces are a
      non-empty array; otherwise the SDK builds one from exactly those frames. */
  function BuildStacktrace(traces: Option<seq<TraceFrame>>): (r: Option<Stacktrace>)
    ensures r.None? <==> traces.None? || traces.value == []
    ensures r.Some? ==> r.value.frames == traces.value
  {
    if traces.Some? && traces.value != [] then Some(Stacktrace(traces.value)) else None
  }

  /** `runExtraCallback`: only `extra` may change, and it is the callback's result when a
      callback is configured. */
  function RunExtraCallback(callback: Option<ExtraCallback>, text: Value, data: Data): (r: Data)
    ensures r.message == data.message && r.tags == data.tags
    ensures r.userData == data.userData && r.exception == data.exception
    ensures callback.None? ==> r == data
    ensures callback.Some? ==> r.extra == callback.value(text, data.extra)
  {
    if callback.Some? then data.(extra := callback.value(text, data.extra)) else data
  }

  /** The `$data` array of one record as `export` leaves it just before delivery. */
  function AssembleData(opts: Options, env: Environment, rec: Record): (d: Data)
  {
    var initial := Data("", map["category" := Str(rec.category)], map[], UserData(env), None);
    var p := ParseText(rec.text);
    var parsed := initial.(message := p.message, exception := p.exception, extra := p.extra);
    var merged := parsed.(tags := MergeTags(parsed.tags, p.tags));
    var withContext :=
      if opts.context then merged.(extra := merged.extra["context" := Str(env.contextDump)]) else merged;
    RunExtraCallback(opts.extraCallback, rec.text, withContext)
  }

  /** The extra that `export` hands to the callback (or delivers when there is none). */
  function ExtraBeforeCallback(opts: Options, env: Environment, rec: Record): (extra: map<string, Value>)
  {
    var p := ParseText(rec.text);
    if opts.context then p.extra["context" := Str(env.contextDump)] else p.extra
  }

  /** The assembled record: the message, exception and tags come from parseText, with the
      category tag as the base that caller tags override; the user data comes from the
      environment; the extra is parseText's extra with the context entry written over any
      payload key of that name, then replaced by the callback's result if there is one. */
  lemma AssembledData(opts: Options, env: Environment, rec: Record)
    ensures AssembleData(opts, env, rec).message == ParseText(rec.text).message
    ensures AssembleData(opts, env, rec).exception == ParseText(rec.text).exception
    ensures AssembleData(opts, env, rec).userData == UserData(env)
    ensures AssembleData(opts, env, rec).tags == map["category" := Str(rec.category)] + ParseText(rec.text).tags
    ensures opts.extraCallback.None? ==> AssembleData(opts, env, rec).extra == ExtraBeforeCallback(opts, env, rec)
    ensures opts.extraCallback.Some? ==>
              AssembleData(opts, env, rec).extra == opts.extraCallback.value(rec.text, ExtraBeforeCallback(opts, env, rec))
  {
  }

  /** Tags: the category is always a key; its value is the record's category unless the
      payload's tags name a category of their own. */
  lemma CategoryTag(opts: Options, env: Environment, rec: Record)
    ensures "category" in AssembleData(opts, env, rec).tags
    ensures AssembleData(opts, env, rec).tags.Keys == {"category"} + ParseText(rec.text).tags.Keys
    ensures AssembleData(opts, env, rec).tags["category"] ==
              if "category" in ParseText(rec.text).tags then ParseText(rec.text).tags["category"]
              else Str(rec.category)
  {
    AssembledData(opts, env, rec);
  }

  /** With the context option on, the extra that reaches the callback (or the event) holds
      the context dump under "context", whatever the payload held there; apart from that
      key it is the payload minus the keys parseText consumes. */
  lemma ContextEntry(opts: Options, env: Environment, rec: Record, k: string)
    requires rec.text.Arr?
    ensures opts.context ==> ExtraBeforeCallback(opts, env, rec)["context"] == Str(env.contextDump)
    ensures k != "context" || !opts.context ==>
              (k in ExtraBeforeCallback(opts, env, rec) <==> k in rec.text.entries && k !in ConsumedKeys(rec.text.entries))
    ensures k != "context" || !opts.context ==>
              k in ExtraBeforeCallback(opts, env, rec) ==> ExtraBeforeCallback(opts, env, rec)[k] == rec.text.entries[k]
  {
    ExtraKeepsTheRest(rec.text.entries, k);
  }

  /** The capture `export` makes for one record, inside a fresh scope that holds the
      record's user data and truthy tags and sees the given breadcrumb trail. */
  function RecordCapture(opts: Options, env: Environment, trail: seq<Breadcrumb>, rec: Record): (c: Capture)
  {
    CaptureFrom(AssembleData(opts, env, rec), trail, rec)
  }

  /** The capture made from an assembled `$data` array inside the scope. */
  function CaptureFrom(d: Data, trail: seq<Breadcrumb>, rec: Record): (c: Capture)
  {
    if rec.text.Throwable? then
      ExceptionCapture(rec.text, d.userData, TruthyTags(d.tags), trail)
    else
      EventCapture(
        Event(d.message, LogLevel(rec.level), rec.timestamp),
        Hint(d.exception, d.extra, BuildStacktrace(rec.traces)),
        d.userData, TruthyTags(d.tags), trail)
  }

  /** The capture choice: a Throwable payload is captured as that exception; any other
      payload as an event carrying the parsed message, getLogLevel of the level, the
      timestamp, and the assembled extra and exception as its hint. Tags in the scope are
      exactly the truthy assembled tags, user data exactly the environment's. */
  lemma CaptureChoice(opts: Options, env: Environment, trail: seq<Breadcrumb>, rec: Record)
    ensures RecordCapture(opts, env, trail, rec).ExceptionCapture? <==> rec.text.Throwable?
    ensures rec.text.Throwable? ==> RecordCapture(opts, env, trail, rec).exception == rec.text
    ensures !rec.text.Throwable? ==>
              RecordCapture(opts, env, trail, rec).event == Event(ParseText(rec.text).message, LogLevel(rec.level), rec.timestamp)
    ensures !rec.text.Throwable? ==>
              RecordCapture(opts, env, trail, rec).hint ==
              Hint(ParseText(rec.text).exception, AssembleData(opts, env, rec).extra, BuildStacktrace(rec.traces))
    ensures RecordCapture(opts, env, trail, rec).tags == TruthyTags(AssembleData(opts, env, rec).tags)
    ensures RecordCapture(opts, env, trail, rec).user == UserData(env)
    ensures RecordCapture(opts, env, trail, rec).trail == trail
  {
    AssembledData(opts, env, rec);
  }

  /** An exception capture depends on neither the context option nor the callback. */
  lemma ExceptionCaptureIgnoresExtra(opts: Options, opts': Options, env: Environment, trail: seq<Breadcrumb>, rec: Record)
    requires rec.text.Throwable?
    ensures RecordCapture(opts, env, trail, rec) == RecordCapture(opts', env, trail, rec)
  {
    AssembledData(opts, env, rec);
    AssembledData(opts', env, rec);
  }

  /** `Scope::setTag(string $key, string $value)` outside strict mode: an int, a bool, a
      string or a Throwable (through `__toString`) is coerced to a string; an array is
      refused with a TypeError. */
  predicate SetTagRaises(v: Value)
  {
    v.Arr?
  }

  /** The tag loop raises exactly when one of the tags it passes on (a truthy one) is
      refused by `setTag`. */
  predicate TagsRaise(tags: map<string, Value>)
  {
    exists k :: k in tags && Truthy(tags[k]) && SetTagRaises(tags[k])
  }

  /** Whether the scope callback of one record raises before its capture. */
  predicate ScopeRaises(opts: Options, env: Environment, rec: Record)
  {
    TagsRaise(AssembleData(opts, env, rec).tags)
  }

  /** Only the caller's tags can make the scope callback raise: the category tag is always
      a string, and a payload that is not an array has no tags. */
  lemma ScopeRaisesOnCallerTags(opts: Options, env: Environment, rec: Record)
    ensures ScopeRaises(opts, env, rec) <==> TagsRaise(ParseText(rec.text).tags)
    ensures !rec.text.Arr? ==> !ScopeRaises(opts, env, rec)
  {
    AssembledData(opts, env, rec);
    var caller := ParseText(rec.text).tags;
    var tags := AssembleData(opts, env, rec).tags;
    if TagsRaise(caller) {
      var k :| k in caller && Truthy(caller[k]) && SetTagRaises(caller[k]);
      assert tags[k] == caller[k];
    }
    if ScopeRaises(opts, env, rec) {
      var k :| k in tags && Truthy(tags[k]) && SetTagRaises(tags[k]);
      assert k in caller;
    }
  }

  /** What the scope callback of one record delivers: its capture, or None when it
      raises first. */
  function RecordOutcome(opts: Options, env: Environment, trail: seq<Breadcrumb>, rec: Record): (o: Option<Capture>)
    ensures o.None? <==> ScopeRaises(opts, env, rec)
    ensures o.Some? ==> o.value == RecordCapture(opts, env, trail, rec)
  {
    if ScopeRaises(opts, env, rec) then None else Some(RecordCapture(opts, env, trail, rec))
  }

  /** The outcome of an export pass: the captures made and whether it ran to the end. */
  datatype Pass = Pass(captures: seq<Capture>, completed: bool)

  /** A pass over per-record outcomes, in order: each capture is made in turn, and a
      record that raises (None) ends the pass. */
  function RunPass(os: seq<Option<Capture>>): (r: Pass)
  {
    if os == [] then Pass([], true)
    else if os[0].None? then Pass([], false)
    else
      var rest := RunPass(os[1..]);
      Pass([os[0].value] + rest.captures, rest.completed)
  }

  /** `f` applied to every element, in order. */
  function Each<A, B>(f: A -> B, xs: seq<A>): (ys: seq<B>)
    ensures |ys| == |xs|
    ensures forall i :: 0 <= i < |xs| ==> ys[i] == f(xs[i])
  {
    seq(|xs|, i requires 0 <= i < |xs| => f(xs[i]))
  }

  lemma EachAppend<A, B>(f: A -> B, a: seq<A>, b: seq<A>)
    ensures Each(f, a + b) == Each(f, a) + Each(f, b)
  {
    forall i | 0 <= i < |a + b|
      ensures Each(f, a + b)[i] == (Each(f, a) + Each(f, b))[i]
    {
      if i < |a| {
        assert (a + b)[i] == a[i];
      } else {
        assert (a + b)[i] == b[i - |a|];
      }
    }
  }

  /** The per-record outcomes of a buffer. */
  function Outcomes(opts: Options, env: Environment, trail: seq<Breadcrumb>, ms: seq<Record>): (os: seq<Option<Capture>>)
    ensures |os| == |ms|
    ensures forall i :: 0 <= i < |ms| ==> os[i] == RecordOutcome(opts, env, trail, ms[i])
  {
    Each((rec: Record) => RecordOutcome(opts, env, trail, rec), ms)
  }

  /** `export` of a buffer. */
  function ExportPass(opts: Options, env: Environment, trail: seq<Breadcrumb>, ms: seq<Record>): (r: Pass)
  {
    RunPass(Outcomes(opts, env, trail, ms))
  }

  /** A pass makes the captures of a prefix of the outcomes, in order; it completes exactly
      when that prefix is everything, and otherwise the next outcome is a raise. */
  lemma {:induction false} RunPassAt(os: seq<Option<Capture>>)
    ensures |RunPass(os).captures| <= |os|
    ensures forall i :: 0 <= i < |RunPass(os).captures| ==> os[i] == Some(RunPass(os).captures[i])
    ensures RunPass(os).completed <==> |RunPass(os).captures| == |os|
    ensures !RunPass(os).completed ==> os[|RunPass(os).captures|].None?
  {
    if os != [] && os[0].Some? {
      RunPassAt(os[1..]);
      assert forall i :: 1 <= i < |os| ==> os[i] == os[1..][i - 1];
    }
  }

  /** The pass captures a prefix of the buffer, one capture per message, the i-th for the
      i-th, and no message of that prefix raises; it completes exactly when the prefix is
      the whole buffer, and otherwise the next message is the one that raised. */
  lemma ExportPassAt(opts: Options, env: Environment, trail: seq<Breadcrumb>, ms: seq<Record>)
    ensures |ExportPass(opts, env, trail, ms).captures| <= |ms|
    ensures forall i :: 0 <= i < |ExportPass(opts, env, trail, ms).captures| ==>
              ExportPass(opts, env, trail, ms).captures[i] == RecordCapture(opts, env, trail, ms[i])
              && !ScopeRaises(opts, env, ms[i])
    ensures ExportPass(opts, env, trail, ms).completed <==> |ExportPass(opts, env, trail, ms).captures| == |ms|
    ensures !ExportPass(opts, env, trail, ms).completed ==>
              ScopeRaises(opts, env, ms[|ExportPass(opts, env, trail, ms).captures|])
  {
    RunPassAt(Outcomes(opts, env, trail, ms));
  }

  /** A pass completes exactly when no buffered message raises, and then makes one capture
      per message. */
  lemma ExportPassCompletes(opts: Options, env: Environment, trail: seq<Breadcrumb>, ms: seq<Record>)
    ensures ExportPass(opts, env, trail, ms).completed <==> forall i :: 0 <= i < |ms| ==> !ScopeRaises(opts, env, ms[i])
    ensures ExportPass(opts, env, trail, ms).completed ==>
              |ExportPass(opts, env, trail, ms).captures| == |ms|
              && forall i :: 0 <= i < |ms| ==> ExportPass(opts, env, trail, ms).captures[i] == RecordCapture(opts, env, trail, ms[i])
  {
    ExportPassAt(opts, env, trail, ms);
  }

  /** A pass over a concatenation runs the second part only if the first completed. */
  lemma {:induction false} RunPassAppend(a: seq<Option<Capture>>, b: seq<Option<Capture>>)
    ensures RunPass(a + b) ==
              if RunPass(a).completed then Pass(RunPass(a).captures + RunPass(b).captures, RunPass(b).completed)
              else RunPass(a)
  {
    if a == [] {
      assert a + b == b;
    } else {
      assert (a + b)[0] == a[0];
      assert (a + b)[1..] == a[1..] + b;
      RunPassAppend(a[1..], b);
    }
  }

  lemma OutcomesAppend(opts: Options, env: Environment, trail: seq<Breadcrumb>, a: seq<Record>, b: seq<Record>)
    ensures Outcomes(opts, env, trail, a + b) == Outcomes(opts, env, trail, a) + Outcomes(opts, env, trail, b)
  {
    EachAppend((rec: Record) => RecordOutcome(opts, env, trail, rec), a, b);
  }

  /** One more message after a completed pass: it raises, or its capture is appended. */
  lemma ExportPassSnoc(opts: Options, env: Environment, trail: seq<Breadcrumb>, ms: seq<Record>, m: Record)
    requires ExportPass(opts, env, trail, ms).completed
    ensures ExportPass(opts, env, trail, ms + [m]) ==
              if ScopeRaises(opts, env, m) then Pass(ExportPass(opts, env, trail, ms).captures, false)
              else Pass(ExportPass(opts, env, trail, ms).captures + [RecordCapture(opts, env, trail, m)], true)
  {
    var oa, ob := Outcomes(opts, env, trail, ms), Outcomes(opts, env, trail, [m]);
    OutcomesAppend(opts, env, trail, ms, [m]);
    assert ob == [RecordOutcome(opts, env, trail, m)];
    assert ob[1..] == [];
    RunPassAppend(oa, ob);
  }

  /** One more message of the buffer after a completed prefix: its capture is appended,
      or it raises and the pass over the whole buffer ends there. */
  lemma ExportPassStep(opts: Options, env: Environment, trail: seq<Breadcrumb>, ms: seq<Record>, i: nat)
    requires i < |ms|
    requires ExportPass(opts, env, trail, ms[..i]).completed
    ensures !ScopeRaises(opts, env, ms[i]) ==>
              ExportPass(opts, env, trail, ms[..i + 1])
              == Pass(ExportPass(opts, env, trail, ms[..i]).captures + [RecordCapture(opts, env, trail, ms[i])], true)
    ensures ScopeRaises(opts, env, ms[i]) ==>
              ExportPass(opts, env, trail, ms) == Pass(ExportPass(opts, env, trail, ms[..i]).captures, false)
  {
    assert ms[..i + 1] == ms[..i] + [ms[i]];
    ExportPassSnoc(opts, env, trail, ms[..i], ms[i]);
    if ScopeRaises(opts, env, ms[i]) {
      ExportPassStops(opts, env, trail, ms, i + 1);
    }
  }

  /** Once a prefix raised, nothing after it is captured. */
  lemma ExportPassStops(opts: Options, env: Environment, trail: seq<Breadcrumb>, ms: seq<Record>, j: nat)
    requires j <= |ms|
    requires !ExportPass(opts, env, trail, ms[..j]).completed
    ensures ExportPass(opts, env, trail, ms) == ExportPass(opts, env, trail, ms[..j])
  {
    assert ms[..j] + ms[j..] == ms;
    OutcomesAppend(opts, env, trail, ms[..j], ms[j..]);
    RunPassAppend(Outcomes(opts, env, trail, ms[..j]), Outcomes(opts, env, trail, ms[j..]));
  }

  /** The breadcrumb metadata of `collect`: each of tags, exception and extra appears only
      when it is non-empty, and then holds the parsed value. */
  function Metadata(p: Parsed): (md: map<string, Value>)
    ensures "tags" in md <==> p.tags != map[]
    ensures "exception" in md <==> p.exception.Some?
    ensures "extra" in md <==> p.extra != map[]
    ensures md.Keys <= {"tags", "exception", "extra"}
    ensures "tags" in md ==> md["tags"] == Arr(p.tags)
    ensures "exception" in md ==> md["exception"] == p.exception.value
    ensures "extra" in md ==> md["extra"] == Arr(p.extra)
  {
    var withTags := if p.tags != map[] then map["tags" := Arr(p.tags)] else map[];
    var withException := if p.exception.Some? then withTags["exception" := p.exception.value] else withTags;
    if p.extra != map[] then withException["extra" := Arr(p.extra)] else withException
  }

  /** The breadcrumb `collect` adds for one record. */
  function BreadcrumbFor(rec: Record): (b: Breadcrumb)
  {
    var p := ParseText(rec.text);
    Breadcrumb(LogLevel(rec.level), p.kind, rec.category, p.message, Metadata(p), rec.timestamp)
  }

  /** A plain-text record's breadcrumb: the text itself, default type, no metadata, and
      getLogLevel's severity. */
  lemma TextBreadcrumb(rec: Record)
    requires rec.text.Str?
    ensures BreadcrumbFor(rec) == Breadcrumb(LogLevel(rec.level), DefaultType, rec.category, rec.text.s, map[], rec.timestamp)
  {
  }

  /** The breadcrumbs `collect` adds for a batch, in batch order. */
  function CollectBreadcrumbs(ms: seq<Record>): (trail: seq<Breadcrumb>)
  {
    if ms == [] then [] else [BreadcrumbFor(ms[0])] + CollectBreadcrumbs(ms[1..])
  }

  /** One breadcrumb per collected message, in input order. */
  lemma {:induction false} CollectBreadcrumbsAt(ms: seq<Record>)
    ensures |CollectBreadcrumbs(ms)| == |ms|
    ensures forall i :: 0 <= i < |ms| ==> CollectBreadcrumbs(ms)[i] == BreadcrumbFor(ms[i])
  {
    if ms != [] {
      CollectBreadcrumbsAt(ms[1..]);
    }
  }

  lemma {:induction false} CollectBreadcrumbsSnoc(ms: seq<Record>, m: Record)
    ensures CollectBreadcrumbs(ms + [m]) == CollectBreadcrumbs(ms) + [BreadcrumbFor(m)]
  {
    if ms == [] {
      assert ms + [m] == [m];
    } else {
      assert (ms + [m])[1..] == ms[1..] + [m];
      CollectBreadcrumbsSnoc(ms[1..], m);
    }
  }

  /** The loop body of `collect` for one record: parse it, gather the non-empty parts as
      metadata, and build the breadcrumb. */
  method MakeBreadcrumb(rec: Record) returns (bc: Breadcrumb)
    ensures bc == BreadcrumbFor(rec)
  {
    var p := ParseText(rec.text);
    var metadata := map[];
    if p.tags != map[] {
      metadata := metadata["tags" := Arr(p.tags)];
    }
    if p.exception.Some? {
      metadata := metadata["exception" := p.exception.value];
    }
    if p.extra != map[] {
      metadata := metadata["extra" := Arr(p.extra)];
    }
    bc := Breadcrumb(LogLevel(rec.level), p.kind, rec.category, p.message, metadata, rec.timestamp);
  }

  /** Adding one more tag to the ones already visited adds it to the truthy ones exactly
      when it is truthy. */
  lemma TruthyTagsStep(tags: map<string, Value>, remaining: set<string>, k: string)
    requires k in remaining && remaining <= tags.Keys
    ensures TruthyTags(tags - (remaining - {k})) ==
              if Truthy(tags[k]) then TruthyTags(tags - remaining)[k := tags[k]] else TruthyTags(tags - remaining)
  {
    assert tags - (remaining - {k}) == (tags - remaining)[k := tags[k]];
  }

  /** The `foreach` over the merged tags: set every truthy tag on the scope. It stops
      with `ok` false at a truthy tag that `setTag` refuses; the scope is then abandoned. */
  method ApplyTags(scope: Scope, tags: map<string, Value>) returns (ok: bool)
    modifies scope
    ensures ok <==> !TagsRaise(tags)
    ensures ok ==> scope.tags == old(scope.tags) + TruthyTags(tags)
    ensures scope.user == old(scope.user)
  {
    var remaining := tags.Keys;
    while remaining != {}
      invariant remaining <= tags.Keys
      invariant forall k :: k in tags && k !in remaining ==> !(Truthy(tags[k]) && SetTagRaises(tags[k]))
      invariant scope.tags == old(scope.tags) + TruthyTags(tags - remaining)
      invariant scope.user == old(scope.user)
      decreases remaining
    {
      var k :| k in remaining;
      TruthyTagsStep(tags, remaining, k);
      if Truthy(tags[k]) {
        if SetTagRaises(tags[k]) {
          // the TypeError leaves the scope callback
          return false;
        }
        scope.SetTag(k, tags[k]);
      }
      remaining := remaining - {k};
    }
    assert tags - remaining == tags;
    ok := true;
  }

  class Target {
    var context: bool
    var extraCallback: Option<ExtraCallback>
    /** The parent's buffer `$this->messages`. */
    var messages: seq<Record>
    /** The hub the constructor binds the SDK client to. */
    const hub: Hub

    constructor (context: bool, extraCallback: Option<ExtraCallback>, hub: Hub)
      ensures this.context == context && this.extraCallback == extraCallback
      ensures this.hub == hub && messages == []
    {
      this.context := context;
      this.extraCallback := extraCallback;
      this.hub := hub;
      messages := [];
    }

    function CurrentOptions(): Options
      reads this
    {
      Options(context, extraCallback)
    }

    /** The `$data` array of one record, built as `export` builds it: the initial array and
        user data outside the scope, then parseText, the tag merge, the context entry and
        the callback inside it. */
    method AssembleRecord(rec: Record, env: Environment) returns (data: Data)
      ensures data == AssembleData(CurrentOptions(), env, rec)
    {
      data := Data("", map["category" := Str(rec.category)], map[], UserData(env), None);
      // inside withScope
      var p := ParseText(rec.text);
      data := data.(message := p.message, exception := p.exception, extra := p.extra);
      data := data.(tags := MergeTags(data.tags, p.tags));
      if context {
        data := data.(extra := data.extra["context" := Str(env.contextDump)]);
      }
      data := RunExtraCallback(extraCallback, rec.text, data);
    }

    /** The body of the `foreach` in `export` for one record; `ok` is false when the scope
        callback raises, before any capture. */
    method ExportRecord(rec: Record, env: Environment) returns (ok: bool)
      modifies hub
      ensures ok == !ScopeRaises(CurrentOptions(), env, rec)
      ensures hub.captures == old(hub.captures) + if ok then [RecordCapture(CurrentOptions(), env, hub.breadcrumbs, rec)] else []
      ensures hub.breadcrumbs == old(hub.breadcrumbs)
    {
      var data := AssembleRecord(rec, env);
      ok := Deliver(rec, data);
    }

    /** The rest of the scope callback: user, tags, then the capture, unless a tag is
        refused first. */
    method Deliver(rec: Record, data: Data) returns (ok: bool)
      modifies hub
      ensures ok == !TagsRaise(data.tags)
      ensures hub.captures == old(hub.captures) + if ok then [CaptureFrom(data, hub.breadcrumbs, rec)] else []
      ensures hub.breadcrumbs == old(hub.breadcrumbs)
    {
      var scope := new Scope();
      scope.SetUser(data.userData);
      ok := ApplyTags(scope, data.tags);
      if !ok {
        return;
      }
      assert scope.tags == TruthyTags(data.tags);
      if rec.text.Throwable? {
        hub.CaptureException(rec.text, scope);
      } else {
        var event := Event(data.message, LogLevel(rec.level), rec.timestamp);
        hub.CaptureEvent(event, Hint(data.exception, data.extra, BuildStacktrace(rec.traces)), scope);
      }
    }

    /** `export`: one capture per buffered message, in buffer order; `completed` is false
        when a record raised, which ends the pass. */
    method Export(env: Environment) returns (completed: bool)
      modifies hub
      ensures hub.captures == old(hub.captures) + ExportPass(CurrentOptions(), env, hub.breadcrumbs, messages).captures
      ensures completed == ExportPass(CurrentOptions(), env, hub.breadcrumbs, messages).completed
      ensures hub.breadcrumbs == old(hub.breadcrumbs)
    {
      ghost var opts, trail := CurrentOptions(), hub.breadcrumbs;
      var i := 0;
      while i < |messages|
        invariant 0 <= i <= |messages|
        invariant hub.breadcrumbs == trail
        invariant ExportPass(opts, env, trail, messages[..i]).completed
        invariant hub.captures == old(hub.captures) + ExportPass(opts, env, trail, messages[..i]).captures
      {
        ExportPassStep(opts, env, trail, messages, i);
        var ok := ExportRecord(messages[i], env);
        if !ok {
          // the exception leaves export
          return false;
        }
        i := i + 1;
      }
      assert messages[..i] == messages;
      completed := true;
    }

    /** The parent `Target::collect`: buffer the messages and, when it decides to flush,
        export; the buffer is emptied only if the export did not raise. */
    method ParentCollect(incoming: seq<Record>, flush: bool, env: Environment) returns (completed: bool)
      modifies this, hub
      ensures hub.breadcrumbs == old(hub.breadcrumbs)
      ensures context == old(context) && extraCallback == old(extraCallback)
      ensures flush ==> hub.captures == old(hub.captures) + ExportPass(CurrentOptions(), env, hub.breadcrumbs, old(messages) + incoming).captures
      ensures flush ==> completed == ExportPass(CurrentOptions(), env, hub.breadcrumbs, old(messages) + incoming).completed
      ensures !flush ==> completed && hub.captures == old(hub.captures)
      ensures messages == if flush && completed then [] else old(messages) + incoming
    {
      messages := messages + incoming;
      completed := true;
      if flush {
        completed := Export(env);
        if completed {
          messages := [];
        }
      }
    }

    /** The `foreach` of `collect`: one breadcrumb per incoming message, in order. */
    method AddBreadcrumbs(incoming: seq<Record>)
      modifies hub
      ensures hub.breadcrumbs == old(hub.breadcrumbs) + CollectBreadcrumbs(incoming)
      ensures hub.captures == old(hub.captures)
    {
      var i := 0;
      while i < |incoming|
        invariant 0 <= i <= |incoming|
        invariant hub.breadcrumbs == old(hub.breadcrumbs) + CollectBreadcrumbs(incoming[..i])
        invariant hub.captures == old(hub.captures)
      {
        var bc := MakeBreadcrumb(incoming[i]);
        hub.AddBreadcrumb(bc);
        CollectBreadcrumbsSnoc(incoming[..i], incoming[i]);
        assert incoming[..i + 1] == incoming[..i] + [incoming[i]];
        i := i + 1;
      }
      assert incoming[..i] == incoming;
    }

    /** `collect`: one breadcrumb per incoming message, in order, then the parent's
        buffering; a flush then runs the export pass over the whole buffer with the whole
        trail, these breadcrumbs included, visible. */
    method Collect(incoming: seq<Record>, flush: bool, env: Environment) returns (completed: bool)
      modifies this, hub
      ensures hub.breadcrumbs == old(hub.breadcrumbs) + CollectBreadcrumbs(incoming)
      ensures context == old(context) && extraCallback == old(extraCallback)
      ensures flush ==> hub.captures == old(hub.captures) + ExportPass(CurrentOptions(), env, hub.breadcrumbs, old(messages) + incoming).captures
      ensures flush ==> completed == ExportPass(CurrentOptions(), env, hub.breadcrumbs, old(messages) + incoming).completed
      ensures !flush ==> completed && hub.captures == old(hub.captures)
      ensures messages == if flush && completed then [] else old(messages) + incoming
    {
      AddBreadcrumbs(incoming);
      completed := ParentCollect(incoming, flush, env);
    }
  }

  /** A scenario: `{"msg": "Invalid request"}` logged at WARNING under category "UI" is
      delivered as an event with that message, severity warning and the single tag
      category = "UI". */
  lemma InvalidRequestScenario(opts: Options, env: Environment, trail: seq<Breadcrumb>, ts: real)
    ensures var rec := Record(Arr(map["msg" := Str("Invalid request")]), LevelWarning, "UI", ts, None);
            var c := RecordCapture(opts, env, trail, rec);
            c.EventCapture? && c.event == Event("Invalid request", Warning, ts) && c.tags == map["category" := Str("UI")]
  {
    var rec := Record(Arr(map["msg" := Str("Invalid request")]), LevelWarning, "UI", ts, None);
    CaptureChoice(opts, env, trail, rec);
    AssembledData(opts, env, rec);
    assert ParseText(rec.text).tags == map[];
    assert TruthyTags(map["category" := Str("UI")]) == map["category" := Str("UI")];
  }

  /** A scenario: a caller tag holding a non-empty array is refused by `setTag`, so the
      record is not captured and the export pass ends at it. */
  lemma ArrayTagScenario(opts: Options, env: Environment, trail: seq<Breadcrumb>, ts: real)
    ensures var bad := Record(Arr(map["msg" := Str("m"), "tags" := Arr(map["t" := Arr(map["0" := Str("x")])])]), LevelInfo, "cat", ts, None);
            ScopeRaises(opts, env, bad) && ExportPass(opts, env, trail, [bad]) == Pass([], false)
  {
    var bad := Record(Arr(map["msg" := Str("m"), "tags" := Arr(map["t" := Arr(map["0" := Str("x")])])]), LevelInfo, "cat", ts, None);
    ScopeRaisesOnCallerTags(opts, env, bad);
    var t := ParseText(bad.text).tags;
    assert t == map["t" := Arr(map["0" := Str("x")])];
    assert "0" in t["t"].entries;
    assert "t" in t && Truthy(t["t"]) && SetTagRaises(t["t"]);
    ExportPassAt(opts, env, trail, [bad]);
  }

  /** A scenario: a caller tag holding an empty array is falsy, so the loop skips it and
      nothing raises. */
  lemma EmptyArrayTagScenario(opts: Options, env: Environment, ts: real)
    ensures var empty := Record(Arr(map["msg" := Str("m"), "tags" := Arr(map["t" := Arr(map[])])]), LevelInfo, "cat", ts, None);
            !ScopeRaises(opts, env, empty)
  {
    var empty := Record(Arr(map["msg" := Str("m"), "tags" := Arr(map["t" := Arr(map[])])]), LevelInfo, "cat", ts, None);
    ScopeRaisesOnCallerTags(opts, env, empty);
    assert ParseText(empty.text).tags == map["t" := Arr(map[])];
  }

  /** A scenario: tags {"t": "v"} under category "cat" merge to {"category": "cat", "t": "v"}. */
  lemma TagMergeScenario(opts: Options, env: Environment, ts: real, msg: Value)
    ensures var rec := Record(Arr(map["msg" := msg, "tags" := Arr(map["t" := Str("v")])]), LevelInfo, "cat", ts, None);
            AssembleData(opts, env, rec).tags == map["category" := Str("cat"), "t" := Str("v")]
  {
    var rec := Record(Arr(map["msg" := msg, "tags" := Arr(map["t" := Str("v")])]), LevelInfo, "cat", ts, None);
    AssembledData(opts, env, rec);
  }

  /** A scenario: a Throwable logged at ERROR under "dbms" is delivered as an exception
      capture of that Throwable, while its breadcrumb still carries severity error and the
      Throwable's string form. */
  lemma ConnectionErrorScenario(opts: Options, env: Environment, trail: seq<Breadcrumb>, ts: real, rendered: string)
    ensures var rec := Record(Throwable("Connection error", rendered), LevelError, "dbms", ts, None);
            RecordCapture(opts, env, trail, rec).ExceptionCapture?
            && RecordCapture(opts, env, trail, rec).exception == rec.text
            && BreadcrumbFor(rec).level == Error
            && BreadcrumbFor(rec).message == rendered
            && BreadcrumbFor(rec).metadata == map[]
  {
    var rec := Record(Throwable("Connection error", rendered), LevelError, "dbms", ts, None);
    CaptureChoice(opts, env, trail, rec);
  }
}
