/** The JavaScript notions the billing service relies on: values read from
    request bodies and records, truthiness, thrown errors, number-to-string
    conversion and the string methods it calls. */
module Js {

  datatype Option<+T> = None | Some(value: T) {
    /** `x || d` for an optional field whose present values are all truthy
        or, like a retry counter, agree with the default when falsy. */
    function GetOr(default: T): T {
      if Some? then value else default
    }
  }

  /** A thrown `Error`: its message and the `statusCode` property some
      throwers attach to it. */
  datatype Error = Error(message: string, statusCode: Option<int>)

  /** A call that either returns a value or throws. */
  datatype Result<+T> = Ok(value: T) | Err(error: Error)

  /** A JavaScript value as read from a JSON body or a record property.
      A property that is not there reads as Undefined. Numbers are integers;
      arrays and objects are not among the values.
      Timestamps are represented by `Num` holding milliseconds since the
      epoch; a `Str` stands for a string that is not a date. */
  datatype Value = Undefined | Null | Bool(b: bool) | Num(n: int) | Str(s: string)

  /** What `if (v)` and `v || d` test: everything except the falsy values
      undefined, null, false, 0 and "". */
  predicate Truthy(v: Value)
    ensures !Truthy(v) <==> v in {Undefined, Null, Bool(false), Num(0), Str("")}
  {
    match v
    case Undefined => false
    case Null => false
    case Bool(b) => b
    case Num(n) => n != 0
    case Str(s) => s != ""
  }

  /** `v === undefined || v === null` */
  predicate Nullish(v: Value) {
    v == Undefined || v == Null
  }

  /** The property read `obj[key]` on a plain JSON object. */
  function Get(obj: map<string, Value>, key: string): Value {
    if key in obj then obj[key] else Undefined
  }

  const MS_PER_HOUR: int := 60 * 60 * 1000
  const MS_PER_DAY: int := 24 * MS_PER_HOUR

  /** The largest distance from the epoch, in milliseconds, that a `Date` can hold. */
  const MAX_TIME: int := 8_640_000_000_000_000

  /** `new Date(v).getTime()`, with None for NaN (an invalid date). */
  function TimeOf(v: Value): (t: Option<int>)
    ensures t.Some? ==> -MAX_TIME <= t.value <= MAX_TIME
    ensures v.Num? && -MAX_TIME <= v.n <= MAX_TIME ==> t == Some(v.n)
    ensures v.Num? && !(-MAX_TIME <= v.n <= MAX_TIME) ==> t.None?
    ensures v.Null? ==> t == Some(0)
    ensures v.Bool? ==> t == Some(if v.b then 1 else 0)
    ensures v.Str? || v.Undefined? ==> t.None?
  {
    match v
    case Undefined => None
    case Null => Some(0)
    case Bool(b) => Some(if b then 1 else 0)
    case Num(n) => if -MAX_TIME <= n <= MAX_TIME then Some(n) else None
    case Str(_) => None
  }

  predicate IsDigit(c: char) {
    '0' <= c <= '9'
  }

  /** Decimal digits of a natural number, most significant first. */
  function NatToString(n: nat): (s: string)
    ensures |s| > 0
    ensures forall i :: 0 <= i < |s| ==> IsDigit(s[i])
  {
    var d := "0123456789"[n % 10];
    if n < 10 then [d] else NatToString(n / 10) + [d]
  }

  /** `String(i)` for an integer. */
  function IntToString(i: int): (s: string)
    ensures |s| > 0
    ensures i >= 0 ==> IsDigit(s[0])
    ensures i < 0 ==> s[0] == '-'
  {
    if i < 0 then "-" + NatToString(-i) else NatToString(i)
  }

  /** How a template literal `${v}` renders a value. */
  function ToDisplay(v: Value): string {
    match v
    case Undefined => "undefined"
    case Null => "null"
    case Bool(b) => if b then "true" else "false"
    case Num(n) => IntToString(n)
    case Str(s) => s
  }

  /** `s.startsWith(prefix)` */
  predicate StartsWith(s: string, prefix: string) {
    |prefix| <= |s| && s[..|prefix|] == prefix
  }

  /** `s.includes(part)`: `part` occurs somewhere in `s`. */
  predicate Includes(s: string, part: string)
    decreases |s|
  {
    StartsWith(s, part) || (s != [] && Includes(s[1..], part))
  }

  /** `parts.join(sep)` */
  function Join(parts: seq<string>, sep: string): string
    decreases |parts|
  {
    if parts == [] then ""
    else if |parts| == 1 then parts[0]
    else parts[0] + sep + Join(parts[1..], sep)
  }
}
