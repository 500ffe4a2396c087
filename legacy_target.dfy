/**
 * The older, Raven-based log target (SentryTarget.php at the repository root). `collect`
 * creates the Raven client once, on first use; `export` turns every buffered message into
 * one `capture` call, preceded by a `captureException` call when the payload is a
 * Throwable.
 */
module LegacySentryTarget {
  import opened PhpValues
  import opened YiiLog
  import opened Levels
  import opened TargetOptions

  /** The `$data` array handed to `capture`. */
  datatype LegacyData = LegacyData(
    level: string,
    timestamp: real,
    message: Value,
    extra: map<string, Value>,
    tags: map<string, Value>)

  /** A call made on the Raven client. */
  datatype RavenCall =
    | CaptureExceptionCall(exception: Value)
    | CaptureCall(data: LegacyData, traces: Option<seq<TraceFrame>>)

  /** `\Raven_Client`, as a sink that records the calls made on it. */
  class RavenClient {
    const dsn: string
    const options: map<string, Value>
    var calls: seq<RavenCall>

    constructor (dsn: string, options: map<string, Value>)
      ensures this.dsn == dsn && this.options == options && calls == []
    {
      this.dsn := dsn;
      this.options := options;
      calls := [];
    }

    method CaptureException(exception: Value)
      modifies this
      ensures calls == old(calls) + [CaptureExceptionCall(exception)]
    {
      calls := calls + [CaptureExceptionCall(exception)];
    }

    method Capture(data: LegacyData, traces: Option<seq<TraceFrame>>)
      modifies this
      ensures calls == old(calls) + [CaptureCall(data, traces)]
    {
      calls := calls + [CaptureCall(data, traces)];
    }
  }

  /** The first half of the loop body: the description, the caller's tags (still a raw
      value), the extra before context and callback, and `$context` as the callback later
      sees it (with a set `tags` already unset when `msg` is set). */
  datatype Split = Split(description: Value, tags: Value, extra: map<string, Value>, payload: Value)

  function SplitPayload(text: Value): (r: Split)
    ensures text.Throwable? ==> r == Split(Str(text.message), Arr(map[]), map[], text)
    ensures !text.Throwable? && !(text.Arr? && IsSet(text.entries, "msg")) ==> r == Split(text, Arr(map[]), map[], text)
    ensures text.Arr? && IsSet(text.entries, "msg") ==>
              r.description == text.entries["msg"]
              && r.tags == (if IsSet(text.entries, "tags") then text.entries["tags"] else Arr(map[]))
              && (forall k :: k in r.extra <==>
                    k in text.entries && k != "msg" && !(k == "tags" && IsSet(text.entries, "tags")))
              && (forall k :: k in r.extra ==> r.extra[k] == text.entries[k])
              && r.payload == (if IsSet(text.entries, "tags") then Arr(text.entries - {"tags"}) else text)
  {
    if text.Throwable? then
      Split(Str(text.message), Arr(map[]), map[], text)
    else if text.Arr? && IsSet(text.entries, "msg") then
      var c := text.entries;
      var (tags, c') := if IsSet(c, "tags") then (c["tags"], c - {"tags"}) else (Arr(map[]), c);
      Split(c["msg"], tags, c' - {"msg"}, Arr(c'))
    else
      Split(text, Arr(map[]), map[], text)
  }

  /** `array_merge($tags, ['category' => $category])`: the category overrides a caller tag
      of that name. A non-array `$tags` makes array_merge raise (None). */
  function MergeCategory(tags: Value, category: string): (r: Option<map<string, Value>>)
    ensures r.Some? <==> tags.Arr?
    ensures r.Some? ==> r.value.Keys == tags.entries.Keys + {"category"} && r.value["category"] == Str(category)
    ensures r.Some? ==> forall k :: k in tags.entries && k != "category" ==> r.value[k] == tags.entries[k]
  {
    if tags.Arr? then Some(tags.entries + map["category" := Str(category)]) else None
  }

  /** The extra of one record: the context entry goes in first, then the callback, if
      any, replaces the whole array with its result on (the trimmed payload, that array). */
  function LegacyExtra(opts: Options, contextDump: string, split: Split): (extra: map<string, Value>)
  {
    var withContext := if opts.context then split.extra["context" := Str(contextDump)] else split.extra;
    if opts.extraCallback.Some? then opts.extraCallback.value(split.payload, withContext) else withContext
  }

  /** The `$data` array of one record, or None when building it raises. */
  function RecordData(opts: Options, contextDump: string, rec: Record): (data: Option<LegacyData>)
  {
    var split := SplitPayload(rec.text);
    var extra := LegacyExtra(opts, contextDump, split);
    var tags := MergeCategory(split.tags, rec.category);
    if tags.None? then None
    else Some(LegacyData(LevelName(rec.level), rec.timestamp, split.description, extra, tags.value))
  }

  /** The client calls of one record, or None when the record raises before any call. */
  function RecordCalls(opts: Options, contextDump: string, rec: Record): (calls: Option<seq<RavenCall>>)
  {
    var data := RecordData(opts, contextDump, rec);
    if data.None? then None
    else Some((if rec.text.Throwable? then [CaptureExceptionCall(rec.text)] else []) + [CaptureCall(data.value, rec.traces)])
  }

  /** A record raises exactly when its payload is an array with a set msg whose set tags
      value is not an array. */
  lemma RecordRaises(opts: Options, contextDump: string, rec: Record)
    ensures RecordCalls(opts, contextDump, rec).None? <==>
              rec.text.Arr? && IsSet(rec.text.entries, "msg") && IsSet(rec.text.entries, "tags")
              && !rec.text.entries["tags"].Arr?
  {
  }

  /** A Throwable payload: two calls, `captureException` with the Throwable and then
      `capture` whose message is the Throwable's message. */
  lemma ThrowableRecord(opts: Options, contextDump: string, rec: Record)
    requires rec.text.Throwable?
    ensures RecordCalls(opts, contextDump, rec).Some?
    ensures |RecordCalls(opts, contextDump, rec).value| == 2
    ensures RecordCalls(opts, contextDump, rec).value[0] == CaptureExceptionCall(rec.text)
    ensures RecordCalls(opts, contextDump, rec).value[1].CaptureCall?
    ensures RecordCalls(opts, contextDump, rec).value[1].data.message == Str(rec.text.message)
    ensures RecordCalls(opts, contextDump, rec).value[1].data.tags == map["category" := Str(rec.category)]
  {
  }

  /** Any other payload: one `capture` call, whose data carries getLevelName of the level,
      the timestamp, the description, and tags that always map category to the record's
      category; the description and caller tags are the msg and tags entries of an array
      with a set msg, and otherwise the payload itself and no tags. Without a callback the
      extra is the payload minus msg and a set tags, with the context dump under "context"
      when the option is on; a callback gets that array together with the payload minus a
      set tags (msg stays), and its result is the extra. */
  lemma OtherRecord(opts: Options, contextDump: string, rec: Record)
    requires !rec.text.Throwable?
    requires RecordCalls(opts, contextDump, rec).Some?
    ensures var calls := RecordCalls(opts, contextDump, rec).value;
            var d := calls[0].data;
            |calls| == 1 && calls[0].CaptureCall? && calls[0].traces == rec.traces
            && d.level == LevelName(rec.level) && d.timestamp == rec.timestamp
            && d.tags["category"] == Str(rec.category)
            && (if rec.text.Arr? && IsSet(rec.text.entries, "msg")
                then d.message == rec.text.entries["msg"]
                else d.message == rec.text && d.tags == map["category" := Str(rec.category)])
  {
  }

  /** The extra of a record that does not raise, spelled out from the payload: an array
      with a set msg contributes itself minus msg and a set tags, any other payload
      nothing; the context option adds the dump under "context"; a callback is called with
      that array and `$context` as it stands then, i.e. minus a set tags, msg kept. */
  lemma RecordExtra(opts: Options, contextDump: string, rec: Record)
    requires RecordData(opts, contextDump, rec).Some?
    ensures var withMsg := rec.text.Arr? && IsSet(rec.text.entries, "msg");
            var hasTags := withMsg && IsSet(rec.text.entries, "tags");
            var base := if withMsg then rec.text.entries - {"msg"} - (if hasTags then {"tags"} else {}) else map[];
            var withContext := if opts.context then base["context" := Str(contextDump)] else base;
            var seen := if hasTags then Arr(rec.text.entries - {"tags"}) else rec.text;
            RecordData(opts, contextDump, rec).value.extra
            == if opts.extraCallback.Some? then opts.extraCallback.value(seen, withContext) else withContext
  {
    if rec.text.Arr? && IsSet(rec.text.entries, "msg") {
      var m := rec.text.entries;
      assert SplitPayload(rec.text).extra == m - {"msg"} - (if IsSet(m, "tags") then {"tags"} else {});
    }
  }

  /** A scenario: `{"msg": "m", "tags": {"a": "b"}}` with a callback that stores the payload
      it is given; the stored payload no longer has its tags. */
  lemma CallbackPayloadScenario(contextDump: string, ts: real)
    ensures var rec := Record(Arr(map["msg" := Str("m"), "tags" := Arr(map["a" := Str("b")])]), LevelInfo, "cat", ts, None);
            var opts := Options(false, Some((t: Value, e: map<string, Value>) => map["seen" := t]));
            RecordData(opts, contextDump, rec).Some?
            && RecordData(opts, contextDump, rec).value.extra == map["seen" := Arr(map["msg" := Str("m")])]
  {
    var m := map["msg" := Str("m"), "tags" := Arr(map["a" := Str("b")])];
    assert m - {"tags"} == map["msg" := Str("m")];
  }

  /** The outcome of one export pass: the calls made and whether it ran to the end. */
  datatype ExportResult = ExportResult(calls: seq<RavenCall>, completed: bool)

  /** A pass over per-record outcomes, in order: the calls of each record are made in
      turn, and a record that raises (None) ends the pass. */
  function RunPass(outcomes: seq<Option<seq<RavenCall>>>): (r: ExportResult)
  {
    if outcomes == [] then ExportResult([], true)
    else if outcomes[0].None? then ExportResult([], false)
    else
      var rest := RunPass(outcomes[1..]);
      ExportResult(outcomes[0].value + rest.calls, rest.completed)
  }

  /** The per-record outcomes of a buffer. */
  function Outcomes(opts: Options, contextDump: string, ms: seq<Record>): (os: seq<Option<seq<RavenCall>>>)
    ensures |os| == |ms|
  {
    seq(|ms|, i requires 0 <= i < |ms| => RecordCalls(opts, contextDump, ms[i]))
  }

  lemma OutcomesAppend(opts: Options, contextDump: string, a: seq<Record>, b: seq<Record>)
    ensures Outcomes(opts, contextDump, a + b) == Outcomes(opts, contextDump, a) + Outcomes(opts, contextDump, b)
  {
    var os, oa, ob := Outcomes(opts, contextDump, a + b), Outcomes(opts, contextDump, a), Outcomes(opts, contextDump, b);
    forall i | 0 <= i < |a + b|
      ensures os[i] == (oa + ob)[i]
    {
      if i < |a| {
        assert (a + b)[i] == a[i];
      } else {
        assert (a + b)[i] == b[i - |a|];
      }
    }
  }

  /** `export` of a buffer. */
  function ExportCalls(opts: Options, contextDump: string, ms: seq<Record>): (r: ExportResult)
  {
    RunPass(Outcomes(opts, contextDump, ms))
  }

  /** Running a concatenation: the second part runs only if the first completed. */
  lemma {:induction false} RunPassAppend(a: seq<Option<seq<RavenCall>>>, b: seq<Option<seq<RavenCall>>>)
    ensures RunPass(a + b) ==
              if RunPass(a).completed then ExportResult(RunPass(a).calls + RunPass(b).calls, RunPass(b).completed)
              else RunPass(a)
  {
    if a == [] {
      assert a + b == b;
    } else {
      assert (a + b)[0] == a[0];
      assert (a + b)[1..] == a[1..] + b;
      RunPassAppend(a[1..], b);
    }
  }

  /** A pass completes exactly when no record raises. */
  lemma {:induction false} RunPassCompletes(os: seq<Option<seq<RavenCall>>>)
    ensures RunPass(os).completed <==> forall i :: 0 <= i < |os| ==> os[i].Some?
  {
    if os != [] {
      RunPassCompletes(os[1..]);
      assert forall i :: 1 <= i < |os| ==> os[i] == os[1..][i - 1];
    }
  }

  /** One more record after a completed prefix: its calls are appended, and it decides
      whether the pass is still complete. */
  lemma ExportStep(opts: Options, contextDump: string, ms: seq<Record>, i: nat)
    requires i < |ms|
    requires ExportCalls(opts, contextDump, ms[..i]).completed
    ensures var prefix := ExportCalls(opts, contextDump, ms[..i]).calls;
            var here := RecordCalls(opts, contextDump, ms[i]);
            ExportCalls(opts, contextDump, ms[..i + 1])
            == if here.Some? then ExportResult(prefix + here.value, true) else ExportResult(prefix, false)
  {
    var oa, ob := Outcomes(opts, contextDump, ms[..i]), Outcomes(opts, contextDump, [ms[i]]);
    assert ms[..i + 1] == ms[..i] + [ms[i]];
    OutcomesAppend(opts, contextDump, ms[..i], [ms[i]]);
    assert ob == [RecordCalls(opts, contextDump, ms[i])];
    assert ob[1..] == [];
    RunPassAppend(oa, ob);
  }

  /** A prefix that raised decides the whole pass: nothing after it runs. */
  lemma ExportStops(opts: Options, contextDump: string, ms: seq<Record>, j: nat)
    requires j <= |ms|
    requires !ExportCalls(opts, contextDump, ms[..j]).completed
    ensures ExportCalls(opts, contextDump, ms) == ExportCalls(opts, contextDump, ms[..j])
  {
    assert ms[..j] + ms[j..] == ms;
    OutcomesAppend(opts, contextDump, ms[..j], ms[j..]);
    RunPassAppend(Outcomes(opts, contextDump, ms[..j]), Outcomes(opts, contextDump, ms[j..]));
  }

  /** An export pass completes exactly when no buffered record raises. */
  lemma ExportCompletes(opts: Options, contextDump: string, ms: seq<Record>)
    ensures ExportCalls(opts, contextDump, ms).completed <==>
              forall i :: 0 <= i < |ms| ==> RecordCalls(opts, contextDump, ms[i]).Some?
  {
    var os := Outcomes(opts, contextDump, ms);
    RunPassCompletes(os);
    assert forall i :: 0 <= i < |ms| ==> os[i] == RecordCalls(opts, contextDump, ms[i]);
  }

  /** The `capture` calls among a sequence of client calls, in order. */
  function Captures(calls: seq<RavenCall>): (captures: seq<RavenCall>)
  {
    if calls == [] then []
    else (if calls[0].CaptureCall? then [calls[0]] else []) + Captures(calls[1..])
  }

  lemma {:induction false} CapturesAppend(a: seq<RavenCall>, b: seq<RavenCall>)
    ensures Captures(a + b) == Captures(a) + Captures(b)
  {
    if a == [] {
      assert a + b == b;
    } else {
      assert (a + b)[0] == a[0];
      assert (a + b)[1..] == a[1..] + b;
      CapturesAppend(a[1..], b);
    }
  }

  /** Each record that does not raise makes exactly one `capture` call. */
  lemma RecordCaptures(opts: Options, contextDump: string, rec: Record)
    requires RecordCalls(opts, contextDump, rec).Some?
    ensures Captures(RecordCalls(opts, contextDump, rec).value)
            == [CaptureCall(RecordData(opts, contextDump, rec).value, rec.traces)]
  {
    var c := RecordCalls(opts, contextDump, rec).value;
    var first := CaptureCall(RecordData(opts, contextDump, rec).value, rec.traces);
    assert Captures([first]) == [first] by {
      assert [first][1..] == [];
    }
    if rec.text.Throwable? {
      assert c == [CaptureExceptionCall(rec.text)] + [first];
      assert c[1..] == [first];
      assert Captures(c) == Captures(c[1..]);
    } else {
      assert c == [first];
    }
  }

  /** The `capture` calls of a completed pass over outcomes, as their concatenation. */
  function CapturesOf(os: seq<Option<seq<RavenCall>>>): (captures: seq<RavenCall>)
    requires forall i :: 0 <= i < |os| ==> os[i].Some?
  {
    if os == [] then [] else Captures(os[0].value) + CapturesOf(os[1..])
  }

  lemma {:induction false} RunPassCaptures(os: seq<Option<seq<RavenCall>>>)
    requires forall i :: 0 <= i < |os| ==> os[i].Some?
    ensures Captures(RunPass(os).calls) == CapturesOf(os)
  {
    if os != [] {
      CapturesAppend(os[0].value, RunPass(os[1..]).calls);
      RunPassCaptures(os[1..]);
    }
  }

  /** When each outcome makes exactly one `capture` call, their concatenation lists those
      calls in order. */
  lemma {:induction false} CapturesOfSingles(os: seq<Option<seq<RavenCall>>>)
    requires forall i :: 0 <= i < |os| ==> os[i].Some? && |Captures(os[i].value)| == 1
    ensures |CapturesOf(os)| == |os|
    ensures forall i :: 0 <= i < |os| ==> CapturesOf(os)[i] == Captures(os[i].value)[0]
  {
    if os != [] {
      CapturesOfSingles(os[1..]);
      assert forall i :: 1 <= i < |os| ==> os[i] == os[1..][i - 1];
    }
  }

  /** A completed pass makes exactly one `capture` call per buffered message, the i-th
      for the i-th message, carrying that message's data and traces. */
  lemma OneCapturePerMessage(opts: Options, contextDump: string, ms: seq<Record>)
    requires ExportCalls(opts, contextDump, ms).completed
    ensures |Captures(ExportCalls(opts, contextDump, ms).calls)| == |ms|
    ensures forall i :: 0 <= i < |ms| ==>
              RecordData(opts, contextDump, ms[i]).Some?
              && Captures(ExportCalls(opts, contextDump, ms).calls)[i]
                 == CaptureCall(RecordData(opts, contextDump, ms[i]).value, ms[i].traces)
  {
    var os := Outcomes(opts, contextDump, ms);
    ExportCompletes(opts, contextDump, ms);
    RunPassCaptures(os);
    forall i | 0 <= i < |ms|
      ensures os[i].Some? && Captures(os[i].value) == [CaptureCall(RecordData(opts, contextDump, ms[i]).value, ms[i].traces)]
    {
      RecordCaptures(opts, contextDump, ms[i]);
    }
    CapturesOfSingles(os);
  }

  class Target {
    const dsn: string
    const clientOptions: map<string, Value>
    var context: bool
    var extraCallback: Option<ExtraCallback>
    /** `$this->client`, null until the first `collect`. */
    var client: RavenClient?
    /** The parent's buffer `$this->messages`. */
    var messages: seq<Record>

    constructor (dsn: string, clientOptions: map<string, Value>, context: bool, extraCallback: Option<ExtraCallback>)
      ensures this.dsn == dsn && this.clientOptions == clientOptions
      ensures this.context == context && this.extraCallback == extraCallback
      ensures client == null && messages == []
    {
      this.dsn := dsn;
      this.clientOptions := clientOptions;
      this.context := context;
      this.extraCallback := extraCallback;
      client := null;
      messages := [];
    }

    function CurrentOptions(): Options
      reads this
    {
      Options(context, extraCallback)
    }

    /** The body of the `foreach` in `export` for one record; `ok` is false when the
        record raises. */
    method ExportRecord(rec: Record, contextDump: string) returns (ok: bool)
      requires client != null
      modifies client
      ensures ok == RecordCalls(CurrentOptions(), contextDump, rec).Some?
      ensures client.calls == old(client.calls) + if ok then RecordCalls(CurrentOptions(), contextDump, rec).value else []
    {
      var tags: Value := Arr(map[]);
      var extra: map<string, Value> := map[];
      var description: Value;
      var payload := rec.text;
      if rec.text.Throwable? {
        client.CaptureException(rec.text);
        description := Str(rec.text.message);
      } else if rec.text.Arr? && IsSet(rec.text.entries, "msg") {
        var c := rec.text.entries;
        description := c["msg"];
        if IsSet(c, "tags") {
          tags := c["tags"];
          c := c - {"tags"};
        }
        extra := c - {"msg"};
        payload := Arr(c);
      } else {
        description := rec.text;
      }
      assert Split(description, tags, extra, payload) == SplitPayload(rec.text);
      if context {
        extra := extra["context" := Str(contextDump)];
      }
      if extraCallback.Some? {
        // the callback sees `$context` after its `tags` were unset
        extra := extraCallback.value(payload, extra);
      }
      if !tags.Arr? {
        // array_merge raises before any call on the client
        return false;
      }
      var data := LegacyData(LevelName(rec.level), rec.timestamp, description, extra, tags.entries + map["category" := Str(rec.category)]);
      client.Capture(data, rec.traces);
      ok := true;
    }

    /** `export`: the records in buffer order. `completed` is false when a record raised,
        which ends the pass. */
    method Export(contextDump: string) returns (completed: bool)
      requires client != null
      modifies client
      ensures client.calls == old(client.calls) + ExportCalls(CurrentOptions(), contextDump, messages).calls
      ensures completed == ExportCalls(CurrentOptions(), contextDump, messages).completed
    {
      var i := 0;
      while i < |messages|
        invariant 0 <= i <= |messages|
        invariant ExportCalls(CurrentOptions(), contextDump, messages[..i]).completed
        invariant client.calls == old(client.calls) + ExportCalls(CurrentOptions(), contextDump, messages[..i]).calls
      {
        ExportStep(CurrentOptions(), contextDump, messages, i);
        var ok := ExportRecord(messages[i], contextDump);
        if !ok {
          // the exception leaves export
          ExportStops(CurrentOptions(), contextDump, messages, i + 1);
          return false;
        }
        i := i + 1;
      }
      assert messages[..i] == messages;
      completed := true;
    }

    /** The parent `Target::collect`: buffer the messages and, when it decides to flush,
        export; the buffer is emptied only if the export did not raise. */
    method ParentCollect(incoming: seq<Record>, flush: bool, contextDump: string) returns (completed: bool)
      requires client != null
      modifies this, client
      ensures client == old(client) && context == old(context) && extraCallback == old(extraCallback)
      ensures flush ==> client.calls == old(client.calls) + ExportCalls(CurrentOptions(), contextDump, old(messages) + incoming).calls
      ensures flush ==> completed == ExportCalls(CurrentOptions(), contextDump, old(messages) + incoming).completed
      ensures flush ==> messages == if completed then [] else old(messages) + incoming
      ensures !flush ==> completed && messages == old(messages) + incoming && client.calls == old(client.calls)
    {
      messages := messages + incoming;
      completed := true;
      if flush {
        completed := Export(contextDump);
        if completed {
          messages := [];
        }
      }
    }

    /** `collect`: create the client if there is none yet (a later collect keeps the same
        one), then let the parent buffer and possibly export. */
    method Collect(incoming: seq<Record>, flush: bool, contextDump: string) returns (completed: bool)
      modifies this, client
      ensures client != null
      ensures old(client) != null ==> client == old(client)
      ensures old(client) == null ==> fresh(client) && client.dsn == dsn && client.options == clientOptions
      ensures context == old(context) && extraCallback == old(extraCallback)
      ensures var before := if old(client) == null then [] else old(client.calls);
              client.calls == before + (if flush then ExportCalls(CurrentOptions(), contextDump, old(messages) + incoming).calls else [])
      ensures flush ==> completed == ExportCalls(CurrentOptions(), contextDump, old(messages) + incoming).completed
      ensures !flush ==> completed
      ensures messages == if flush && completed then [] else old(messages) + incoming
    {
      if client == null {
        client := new RavenClient(dsn, clientOptions);
      }
      completed := ParentCollect(incoming, flush, contextDump);
    }
  }

  /** The collect-then-export flow of the unit test: two plain-text INFO messages are
      buffered without a flush, the client now exists, and exporting them makes exactly
      two `capture` calls on it. */
  method CollectAndExportScenario(ts: real)
  {
    var target := new Target("", map[], true, None);
    var ms := [Record(Str("test"), LevelInfo, "test", ts, Some([])), Record(Str("test 2"), LevelInfo, "test 2", ts, Some([]))];
    var completed := target.Collect(ms, false, "");
    assert |target.messages| == 2 && target.client != null;
    var client := target.client;
    assert client.calls == [];
    RecordRaises(target.CurrentOptions(), "", ms[0]);
    RecordRaises(target.CurrentOptions(), "", ms[1]);
    ExportCompletes(target.CurrentOptions(), "", target.messages);
    ghost var pass := ExportCalls(target.CurrentOptions(), "", target.messages);
    completed := target.Export("");
    assert client.calls == [] + pass.calls == pass.calls;
    OneCapturePerMessage(target.CurrentOptions(), "", target.messages);
    assert completed && |Captures(client.calls)| == 2;
  }
}
