/**
  The JavaScript values a csvlog record can hold, and the parts of the
  JavaScript runtime the enrichment step calls but whose internals are not
  modelled (JSON.parse, the Date constructor, the unary plus conversion).
 */
module JsValues {
  import opened Wrappers

  /** The time value inside a Date object: milliseconds since the epoch, or
      the "Invalid Date" that `new Date(...)` yields for text it cannot read. */
  datatype Time = InvalidDate | Epoch(ms: int)

  /** A JavaScript number. Finite numbers are kept as exact reals: rounding
      to binary64 is not modelled. */
  datatype Number = NaN | Infinity(negative: bool) | Finite(value: real)

  /** A JavaScript value, as far as a record can hold one: the CSV reader
      stores strings, the coercions store Date objects and numbers, and
      JSON.parse yields null, booleans, numbers, strings, arrays and plain
      objects. */
  datatype Value =
    | Undefined
    | Null
    | Bool(b: bool)
    | Num(n: Number)
    | Str(s: string)
    | Date(t: Time)
    | Arr(items: seq<Value>)
    | Obj(props: map<string, Value>)

  /** The runtime services the enrichment step relies on, as opaque
      functions: `JSON.parse(text)` (None when it throws a SyntaxError),
      the time value of `new Date(v)` and the number `+v`. */
  datatype Runtime = Runtime(
    parseJson: string -> Option<Value>,
    toDate: Value -> Time,
    toNumber: Value -> Number)

  /** Reading `record[key]` from a plain object: a missing key reads as
      undefined. */
  function Get(m: map<string, Value>, key: string): (v: Value)
    ensures key in m ==> v == m[key]
    ensures key !in m ==> v == Undefined
  {
    if key in m then m[key] else Undefined
  }

  /** Property access `v[key]` on a value JSON.parse may return, for a key
      that no built-in prototype defines, such as `Query Text` (the only key
      index.js reads this way; `length` or `toString` would behave
      differently). Reading a property of null or undefined throws a
      TypeError (None); every other primitive, an array or a Date has no
      such property and yields undefined; a plain object yields its member
      or undefined. */
  function GetProperty(v: Value, key: string): (r: Option<Value>)
    ensures r.None? <==> v.Null? || v.Undefined?
    ensures v.Obj? ==> r == Some(Get(v.props, key))
    ensures r.Some? && !v.Obj? ==> r.value == Undefined
  {
    match v
    case Null => None
    case Undefined => None
    case Obj(props) => Some(Get(props, key))
    case _ => Some(Undefined)
  }
}
