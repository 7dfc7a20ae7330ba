/** Parsed JSON values and the two ways the handlers read a field.

    Parsing itself (`json.loads`) is not modelled: the handlers receive it as
    a `Parser`, a partial function from text to value. */
module Json {
  import opened Wrappers

  /** A JSON value. Numbers are integers here; fractional numbers are not
      modelled. */
  datatype Value =
    | Null
    | Bool(b: bool)
    | Number(n: int)
    | Str(s: string)
    | Array(items: seq<Value>)
    | Object(fields: map<string, Value>)

  /** `json.loads`: `None` where it raises. */
  type Parser = string -> Option<Value>

  /** `v.get(key, default)`: only a JSON object has `get`; on any other value
      Python raises `AttributeError`. */
  function Get(v: Value, key: string, default: Value): (r: PyResult<Value>)
    ensures r.Raise? <==> !v.Object?
    ensures r.Ok? && key in v.fields ==> r.value == v.fields[key]
    ensures r.Ok? && key !in v.fields ==> r.value == default
  {
    match v
    case Object(fields) => Ok(if key in fields then fields[key] else default)
    case _ => Raise
  }

  /** `v[key]`: `KeyError` on an object without `key`, `TypeError` on any
      value that is not an object. */
  function Index(v: Value, key: string): (r: PyResult<Value>)
    ensures r.Ok? <==> v.Object? && key in v.fields
    ensures r.Ok? ==> r.value == v.fields[key]
  {
    if v.Object? && key in v.fields then Ok(v.fields[key]) else Raise
  }
}
