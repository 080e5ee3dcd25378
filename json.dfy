/** The JavaScript values that `JSON.parse` can produce, together with the
    two pieces of JavaScript semantics the core relies on when it inspects
    them: truthiness and property access. */
module Json {
  import opened Wrappers

  /** A parsed JSON document. Objects are maps: `JSON.parse` keeps the last
      of several duplicate keys, so order and duplicates never matter. */
  datatype Value =
    | Null
    | Bool(b: bool)
    | Number(n: real)
    | Str(s: string)
    | Array(items: seq<Value>)
    | Object(fields: map<string, Value>)

  /** JavaScript truthiness of a JSON value (`NaN` cannot come out of
      `JSON.parse`, so the only falsy number is zero). */
  predicate Truthy(v: Value) {
    match v
    case Null => false
    case Bool(b) => b
    case Number(n) => n != 0.0
    case Str(s) => s != ""
    case Array(_) => true
    case Object(_) => true
  }

  /** Truthiness of a property read, where `None` is `undefined`. */
  predicate Present(p: Option<Value>) {
    p.Some? && Truthy(p.value)
  }

  /** `typeof p === 'string'` */
  predicate IsString(p: Option<Value>) {
    p.Some? && p.value.Str?
  }

  /** `typeof p === 'number'` */
  predicate IsNumber(p: Option<Value>) {
    p.Some? && p.value.Number?
  }

  /** The TypeError text V8 gives for reading a property of `null`. */
  function NullReadMessage(key: string): string {
    "Cannot read properties of null (reading '" + key + "')"
  }

  /** `v.key`: reading a property of `null` throws a TypeError; an object
      yields its own member or `undefined`; any other value has none of the
      property names the core reads, so the result is `undefined`. */
  function Property(v: Value, key: string): (r: Result<Option<Value>, string>)
    ensures r.Failure? <==> v.Null?
    ensures r.Success? && r.value.Some? <==> v.Object? && key in v.fields
    ensures r.Success? && r.value.Some? ==> r.value.value == v.fields[key]
  {
    match v
    case Null => Failure(NullReadMessage(key))
    case Object(fields) => Success(if key in fields then Some(fields[key]) else None)
    case _ => Success(None)
  }

  /** `v.key` for a value already known to be truthy (so not `null`). */
  function Member(v: Value, key: string): (p: Option<Value>)
    requires Truthy(v)
    ensures p.Some? <==> v.Object? && key in v.fields
  {
    if v.Object? && key in v.fields then Some(v.fields[key]) else None
  }
}
