/**
 * JSON values as the request handlers see them after Flask has decoded a
 * request body, and Python's truthiness test on them.
 */
module Json {

  /**
   * A decoded JSON value. Numbers keep Python's split between `int` and
   * `float`; a float is carried as an exact real and only compared with
   * zero, never computed with.
   */
  datatype Value =
    | Null
    | Bool(b: bool)
    | Int(i: int)
    | Float(x: real)
    | Str(s: string)
    | List(items: seq<Value>)
    | Object(fields: map<string, Value>)

  /** A decoded request body: a JSON object. */
  type Body = map<string, Value>

  /**
   * Python's `bool(v)`: `None`, `False`, zero, the empty string, the empty
   * list and the empty dict are falsy; everything else is truthy.
   */
  predicate Truthy(v: Value)
  {
    match v
    case Null => false
    case Bool(b) => b
    case Int(i) => i != 0
    case Float(x) => x != 0.0
    case Str(s) => s != ""
    case List(items) => items != []
    case Object(fields) => fields != map[]
  }

  /** Python's `body.get(key, default)`. */
  function Get(body: Body, key: string, default: Value): (v: Value)
    ensures key in body ==> v == body[key]
    ensures key !in body ==> v == default
  {
    if key in body then body[key] else default
  }
}
