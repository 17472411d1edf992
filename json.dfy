/**
 * The JSON values a request body can carry, and the two pieces of
 * JavaScript semantics the handlers apply to them: property access by
 * destructuring and truthiness.
 */
module Json {
  import opened Wrappers

  /** A parsed JSON document. Numbers are taken to be integers. */
  datatype Json =
    | JNull
    | JBool(b: bool)
    | JNum(n: int)
    | JStr(s: string)
    | JArr(items: seq<Json>)
    | JObj(fields: map<string, Json>)

  /** What `const { key } = v` yields: a `TypeError` on `null`, `undefined` for a missing key. */
  datatype Destructured = TypeError | Value(v: Option<Json>)

  function Destructure(v: Json, key: string): (r: Destructured)
    ensures r.TypeError? <==> v.JNull?
    ensures r.Value? && r.v.Some? <==> v.JObj? && key in v.fields
    ensures r.Value? && r.v.Some? ==> r.v.value == v.fields[key]
  {
    match v
    case JNull => TypeError
    case JObj(fields) => Value(if key in fields then Some(fields[key]) else None)
    case _ => Value(None)
  }

  /** JavaScript truthiness; `None` stands for `undefined`. */
  predicate Truthy(v: Option<Json>) {
    match v
    case None => false
    case Some(JNull) => false
    case Some(JBool(b)) => b
    case Some(JNum(n)) => n != 0
    case Some(JStr(s)) => s != ""
    case Some(_) => true
  }

  /** Truthiness of an optional string, as in `if (!token)` or `if (category)`. */
  predicate NonEmpty(s: Option<string>) {
    s.Some? && s.value != ""
  }
}
