/** The untyped JSON value an event's payload arrives as, already parsed,
    with the lookups the formatter uses on it. */
module Json {
  import opened Wrappers

  /** One more than the largest unsigned 64-bit integer. */
  const U64_LIMIT: int := 0x1_0000_0000_0000_0000

  /** A JSON number as the parser keeps it: an integer (held in its
      unsigned or signed 64-bit form) or a floating-point value. */
  datatype Number = Int(i: int) | Float(f: real)

  datatype Value =
    | Null
    | Bool(b: bool)
    | Num(n: Number)
    | Str(s: string)
    | Arr(items: seq<Value>)
    | Obj(fields: map<string, Value>)

  /** Member lookup by key: only an object has members. */
  function Get(v: Value, key: string): Option<Value> {
    if v.Obj? && key in v.fields then Some(v.fields[key]) else None
  }

  /** The text of a string value. */
  function AsStr(v: Value): Option<string> {
    if v.Str? then Some(v.s) else None
  }

  /** The elements of an array value. */
  function AsArray(v: Value): Option<seq<Value>> {
    if v.Arr? then Some(v.items) else None
  }

  /** The value of an integer that fits in an unsigned 64-bit integer;
      negative integers and floats (even integral ones) give None. */
  function AsU64(v: Value): Option<nat> {
    if v.Num? && v.n.Int? && 0 <= v.n.i < U64_LIMIT then Some(v.n.i) else None
  }
}
