// JSON payloads as the scopes carry them: a dictionary from field names to
// scalar values, read with Python's subscript (KeyError when absent).

module Payload {
  import opened Exceptions
  import opened Strings

  datatype Value = Null | Bool(b: bool) | Int(i: int) | Str(s: string)

  type Json = map<string, Value>

  /** payload[key] */
  function Field(j: Json, key: string): (r: Result<Value>)
    ensures r.Ok? <==> key in j
    ensures r.Ok? ==> r.value == j[key]
    ensures r.Err? ==> r.error == KeyError
  {
    if key in j then Ok(j[key]) else Err(KeyError)
  }

  /** payload.get(key), None when absent */
  function FieldOrNull(j: Json, key: string): Value
  {
    if key in j then j[key] else Null
  }

  /** Python truthiness of a scalar. */
  predicate Truthy(v: Value)
  {
    match v
    case Null => false
    case Bool(b) => b
    case Int(i) => i != 0
    case Str(s) => |s| > 0
  }

  /** str(v) / "{}".format(v) */
  function Show(v: Value): string
  {
    match v
    case Null => "None"
    case Bool(b) => if b then "True" else "False"
    case Int(i) => IntToString(i)
    case Str(s) => s
  }
}
