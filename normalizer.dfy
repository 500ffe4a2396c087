/**
 * `parseText` of the SDK-based target: the total split of a log payload into
 * (message, tags, exception, breadcrumb type, extra).
 */
module Normalizer {
  import opened PhpValues

  /** `Breadcrumb::TYPE_DEFAULT`. */
  const DefaultType: Value := Str("default")

  datatype Parsed = Parsed(
    message: string,
    tags: map<string, Value>,
    exception: Option<Value>,
    kind: Value,
    extra: map<string, Value>)

  /** The keys of an array payload that parseText takes out of it: each of msg, message,
      tags and type when set, and exception only when it holds a Throwable. */
  function ConsumedKeys(m: map<string, Value>): (ks: set<string>)
    ensures ks <= m.Keys
  {
    (set k | k in {"msg", "message", "tags", "type"} && IsSet(m, k))
    + (if "exception" in m && m["exception"].Throwable? then {"exception"} else {})
  }

  /** parseText. An array payload is worked through key by key, each recognised key being
      removed from the working copy that finally becomes `extra`; anything else is
      rendered with `(string)`. */
  function ParseText(text: Value): (r: Parsed)
    ensures !text.Arr? ==> r == Parsed(ToPhpString(text), map[], None, DefaultType, map[])
    ensures text.Arr? && IsSet(text.entries, "tags") ==> r.tags == CastToArray(text.entries["tags"])
    ensures text.Arr? && !IsSet(text.entries, "tags") ==> r.tags == map[]
    ensures text.Arr? ==> r.kind == if IsSet(text.entries, "type") then text.entries["type"] else DefaultType
    ensures r.exception.Some? <==> text.Arr? && "exception" in text.entries && text.entries["exception"].Throwable?
    ensures r.exception.Some? ==> r.exception.value == text.entries["exception"]
  {
    match text
    case Arr(t0) =>
      var (message1, t1) :=
        if IsSet(t0, "msg") then (ToPhpString(t0["msg"]), t0 - {"msg"}) else ("", t0);
      var (message, t2) :=
        if IsSet(t1, "message") then (ToPhpString(t1["message"]), t1 - {"message"}) else (message1, t1);
      var (tags, t3) :=
        if IsSet(t2, "tags") then (CastToArray(t2["tags"]), t2 - {"tags"}) else (map[], t2);
      var (kind, t4) :=
        if IsSet(t3, "type") then (t3["type"], t3 - {"type"}) else (DefaultType, t3);
      var (exception, t5) :=
        if IsSet(t4, "exception") && t4["exception"].Throwable? then (Some(t4["exception"]), t4 - {"exception"})
        else (None, t4);
      Parsed(message, tags, exception, kind, t5)
    case _ =>
      Parsed(ToPhpString(text), map[], None, DefaultType, map[])
  }

  /** Message keys: `message` wins over `msg` when both are set, `msg` is used when it is
      the only one set, and the message is empty when neither is. Neither key is left in
      extra once set. */
  lemma MessageKeys(m: map<string, Value>)
    ensures IsSet(m, "message") ==> ParseText(Arr(m)).message == ToPhpString(m["message"])
    ensures !IsSet(m, "message") && IsSet(m, "msg") ==> ParseText(Arr(m)).message == ToPhpString(m["msg"])
    ensures !IsSet(m, "message") && !IsSet(m, "msg") ==> ParseText(Arr(m)).message == ""
    ensures IsSet(m, "msg") ==> "msg" !in ParseText(Arr(m)).extra
    ensures IsSet(m, "message") ==> "message" !in ParseText(Arr(m)).extra
  {
  }

  /** Nothing but the consumed keys leaves an array payload, and nothing is added: every
      other key keeps its value in extra. In particular a null-valued msg or message, and
      an exception key that does not hold a Throwable, stay in extra. */
  lemma ExtraKeepsTheRest(m: map<string, Value>, k: string)
    ensures ParseText(Arr(m)).extra == m - ConsumedKeys(m)
    ensures k in ParseText(Arr(m)).extra <==> k in m && k !in ConsumedKeys(m)
    ensures k in ParseText(Arr(m)).extra ==> ParseText(Arr(m)).extra[k] == m[k]
    ensures k in m && m[k] == Null ==> k in ParseText(Arr(m)).extra
    ensures "exception" in m && !m["exception"].Throwable? ==>
              "exception" in ParseText(Arr(m)).extra && ParseText(Arr(m)).exception == None
  {
    var extra := ParseText(Arr(m)).extra;
    var ks := ConsumedKeys(m);
    forall j | j in m
      ensures j in extra <==> j !in ks
    {
      if j == "exception" {
        assert j in extra <==> !m[j].Throwable?;
      } else if j in {"msg", "message", "tags", "type"} {
        assert j in extra <==> !IsSet(m, j);
      }
    }
    assert extra.Keys == m.Keys - ks;
  }
}
