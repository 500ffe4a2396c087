/**
 * The slice of PHP's dynamic values that a log record's payload is made of, with the
 * three language rules the log target relies on: `isset` on an array key, truthiness
 * (`if ($v)`, `empty($v)`, `array_filter`) and the `(string)` / `(array)` casts.
 * Arrays have string keys only.
 */
module PhpValues {

  datatype Option<+T> = None | Some(value: T)

  /** A PHP value as it can appear in a log payload. A `Throwable` carries what its
      `getMessage()` returns and what its `__toString()` returns. */
  datatype Value =
    | Null
    | Bool(b: bool)
    | Int(i: int)
    | Str(s: string)
    | Throwable(message: string, rendered: string)
    | Arr(entries: map<string, Value>)

  /** `isset($m[k])`: the key is present and does not hold null. */
  predicate IsSet(m: map<string, Value>, k: string) {
    k in m && m[k] != Null
  }

  /** PHP truthiness; `empty($v)` is its negation. Objects are always truthy. */
  predicate Truthy(v: Value) {
    match v
    case Null => false
    case Bool(b) => b
    case Int(i) => i != 0
    case Str(s) => s != "" && s != "0"
    case Throwable(_, _) => true
    case Arr(m) => m != map[]
  }

  function DigitChar(d: int): char
    requires 0 <= d < 10
  {
    "0123456789"[d]
  }

  /** Decimal digits of a natural number, most significant first. */
  function NatToDecimal(n: nat): (r: string)
    ensures |r| > 0
    decreases n
  {
    if n < 10 then [DigitChar(n)] else NatToDecimal(n / 10) + [DigitChar(n % 10)]
  }

  /** `(string)` on a value: null and false give "", true gives "1", integers their
      decimal form, a Throwable its `__toString()` and an array the word "Array". */
  function ToPhpString(v: Value): (r: string)
    ensures v.Str? ==> r == v.s
    ensures v.Throwable? ==> r == v.rendered
    ensures v.Null? || v == Bool(false) ==> r == ""
  {
    match v
    case Null => ""
    case Bool(b) => if b then "1" else ""
    case Int(i) => if i < 0 then "-" + NatToDecimal(-i) else NatToDecimal(i)
    case Str(s) => s
    case Throwable(_, rendered) => rendered
    case Arr(_) => "Array"
  }

  /** `(array)` on a value: an array is kept, null gives the empty array and any other
      scalar becomes the one-element list `[0 => v]` (key 0 written as "0"). */
  function CastToArray(v: Value): (r: map<string, Value>)
    ensures v.Arr? ==> r == v.entries
    ensures v.Null? || v.Throwable? ==> r == map[]
    ensures !v.Arr? && !v.Null? && !v.Throwable? ==> r == map["0" := v]
  {
    match v
    case Arr(m) => m
    case Null => map[]
    case Throwable(_, _) => map[]
    case _ => map["0" := v]
  }
}
