/** The JSON values that travel between the components. A Python dict decoded
    from JSON (a request body, an article record, a sentence review) is an
    `Object`: a map from keys to values, so that `d.get(k, default)` and
    Python truthiness can be stated exactly. A JSON number with a fraction or
    an exponent decodes to a Python float, modelled as a `Real`. */
module Json {

  datatype Value =
    | Null
    | Bool(b: bool)
    | Int(i: int)
    | Real(r: real)
    | Str(s: string)
    | Arr(items: seq<Value>)
    | Obj(fields: map<string, Value>)

  type Object = map<string, Value>

  /** Python's `d.get(key, default)`. */
  function Get(o: Object, key: string, default: Value): Value
  {
    if key in o then o[key] else default
  }

  /** Python's truthiness of a decoded JSON value. */
  predicate Truthy(v: Value)
  {
    match v
    case Null => false
    case Bool(b) => b
    case Int(i) => i != 0
    case Real(r) => r != 0.0
    case Str(s) => s != ""
    case Arr(items) => items != []
    case Obj(fields) => fields != map[]
  }

  /** Python's `a or b`. */
  function Or(a: Value, b: Value): Value
  {
    if Truthy(a) then a else b
  }
}
