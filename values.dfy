/**
 * JavaScript values as the engine sees them: the results of `JSON.parse`, dates,
 * and the functions that instance methods bind onto records.
 */
module Values {
  import opened Wrappers
  import opened Strings

  /** Numbers are integral; NaN is represented by the absence of a number (`Option<int>`). */
  datatype Value =
    | Undefined
    | Null
    | Bool(b: bool)
    | Num(n: int)
    | Str(s: string)
    | Date(time: int)
    | Arr(items: seq<Value>)
    | Obj(fields: map<string, Value>)
    | Fn(name: string)

  type Record = map<string, Value>

  /** The tag `get-type` returns (`Object.prototype.toString` without the brackets). */
  function TypeTag(v: Value): (r: string)
    ensures |r| > 0 && 'A' <= r[0] <= 'Z'
  {
    match v
    case Undefined => "Undefined"
    case Null => "Null"
    case Bool(_) => "Boolean"
    case Num(_) => "Number"
    case Str(_) => "String"
    case Date(_) => "Date"
    case Arr(_) => "Array"
    case Obj(_) => "Object"
    case Fn(_) => "Function"
  }

  /** `a` and `b` are built by the same constructor. */
  predicate SameKind(a: Value, b: Value) {
    && a.Undefined? == b.Undefined? && a.Null? == b.Null? && a.Bool? == b.Bool?
    && a.Num? == b.Num? && a.Str? == b.Str? && a.Date? == b.Date?
    && a.Arr? == b.Arr? && a.Obj? == b.Obj? && a.Fn? == b.Fn?
  }

  /** Two values share a tag exactly when they are of the same kind. */
  lemma TypeTagIdentifiesKind(a: Value, b: Value)
    ensures TypeTag(a) in {"Undefined", "Null", "Boolean", "Number", "String", "Date", "Array", "Object", "Function"}
    ensures TypeTag(a) == TypeTag(b) <==> SameKind(a, b)
  {
  }

  /** `!!v`. */
  predicate Truthy(v: Value) {
    match v
    case Undefined => false
    case Null => false
    case Bool(b) => b
    case Num(n) => n != 0
    case Str(s) => s != ""
    case _ => true
  }

  /**
   * `a === b`. Objects, arrays, dates and functions compare by reference; the values the
   * engine compares (a regularised query against a stored record) are always distinct
   * objects, so such a comparison is false.
   */
  predicate StrictEq(a: Value, b: Value) {
    match (a, b)
    case (Undefined, Undefined) => true
    case (Null, Null) => true
    case (Bool(x), Bool(y)) => x == y
    case (Num(x), Num(y)) => x == y
    case (Str(x), Str(y)) => x == y
    case _ => false
  }

  /** `v[k]` for a property read; reads on anything but an object give `undefined`. */
  function Get(v: Value, k: string): Value {
    if v.Obj? && k in v.fields then v.fields[k] else Undefined
  }

  /** `record[k]`, `undefined` when the key is absent. */
  function Lookup(r: Record, k: string): Value {
    if k in r then r[k] else Undefined
  }

  /**
   * The parts of the JavaScript runtime that depend on floating point, the clock's time
   * zone or a regular-expression engine, supplied by the caller:
   * `parseNumber` is `Number(string)` (None for NaN or a non-integral result),
   * `dateText` is `String(new Date(ms))`, `functionText` is a function's source text,
   * `isIsoDate` is the ISO-8601 pattern test of the regulariser, and `parseDate` is
   * `new Date(string).getTime()`.
   */
  datatype Host = Host(
    parseNumber: string -> Option<int>,
    dateText: int -> string,
    functionText: string -> string,
    isIsoDate: string -> bool,
    parseDate: string -> int)

  /** `String(v)`. */
  function Text(host: Host, v: Value): string
    decreases v, 1
  {
    match v
    case Undefined => "undefined"
    case Null => "null"
    case Bool(b) => if b then "true" else "false"
    case Num(n) => DecimalText(n)
    case Str(s) => s
    case Date(t) => host.dateText(t)
    case Arr(items) => JoinTexts(host, items)
    case Obj(_) => "[object Object]"
    case Fn(name) => host.functionText(name)
  }

  /** `items.join(",")`, where `null` and `undefined` elements print as empty. */
  function JoinTexts(host: Host, items: seq<Value>): string
    decreases items, 0
  {
    if |items| == 0 then ""
    else
      var first := if items[0].Null? || items[0].Undefined? then "" else Text(host, items[0]);
      if |items| == 1 then first else first + "," + JoinTexts(host, items[1..])
  }

  /** `Number(v)`; None stands for NaN. */
  function NumberOf(host: Host, v: Value): Option<int> {
    match v
    case Undefined => None
    case Null => Some(0)
    case Bool(b) => Some(if b then 1 else 0)
    case Num(n) => Some(n)
    case Date(t) => Some(t)
    case _ => host.parseNumber(Text(host, v))
  }

  /** Any number prints with at least one digit, so it passes the `/\d+/` test. */
  lemma NumberTextHasDigit(host: Host, n: int)
    ensures ContainsDigit(Text(host, Num(n)))
  {
  }
}
