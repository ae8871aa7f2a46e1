/**
 * Decoded JSON values, as Python's `json` module hands them to the client,
 * and the two exceptions that subscripting such a value can raise.
 */
module Json {
  import opened Wrappers

  /** A decoded JSON document: `None`, `bool`, `int`, `float`, `str`, `list` or `dict`. */
  datatype Value =
    | Null
    | Bool(b: bool)
    | Int(i: int)
    | Float(r: real)
    | Str(s: string)
    | Array(items: seq<Value>)
    | Object(fields: map<string, Value>)

  /** The Python exceptions the modelled code raises. */
  datatype Error = KeyError(arg: Value) | TypeError

  /**
   * `v[key]` with a string key: a dict yields the entry or raises
   * `KeyError(key)`; every other decoded value raises `TypeError`.
   */
  function Get(v: Value, key: string): (r: Result<Value, Error>)
    ensures r.Success? <==> v.Object? && key in v.fields
    ensures r.Success? ==> r.value == v.fields[key]
    ensures r.Failure? ==> r.error == if v.Object? then KeyError(Str(key)) else TypeError
  {
    match v
    case Object(fields) =>
      if key in fields then Success(fields[key]) else Failure(KeyError(Str(key)))
    case _ => Failure(TypeError)
  }
}
