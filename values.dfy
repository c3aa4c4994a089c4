/** Values shared by the whole model: optional values, results, and the
    JSON-shaped data that travels in transcript entries and tool arguments. */
module Values {

  datatype Option<+T> = None | Some(value: T) {
    function GetOr(default: T): T {
      match this
      case Some(v) => v
      case None => default
    }
  }

  datatype Result<+T, +E> = Ok(value: T) | Err(error: E)

  /** A JSON-like value: what a Python dict entry, a decoded argument string
      or a keyword argument can hold. */
  datatype Json =
    | JNull
    | JBool(b: bool)
    | JNum(n: int)
    | JStr(s: string)
    | JArr(items: seq<Json>)
    | JObj(fields: map<string, Json>)

  /** A Python dict with string keys: one transcript entry. */
  type Dict = map<string, Json>

  /** Python truthiness of a JSON-like value. */
  predicate Truthy(j: Json) {
    match j
    case JNull => false
    case JBool(b) => b
    case JNum(n) => n != 0
    case JStr(s) => s != ""
    case JArr(items) => items != []
    case JObj(fields) => fields != map[]
  }

  /** Python truthiness of an optional name (`None` and `""` are falsy). */
  predicate IsName(n: Option<string>) {
    n.Some? && n.value != ""
  }

  /** `str(n)` for an optional name, as an f-string renders it. */
  function PyStr(n: Option<string>): (s: string)
    ensures n.Some? ==> s == n.value
    ensures n.None? ==> s == "None"
  {
    match n
    case Some(v) => v
    case None => "None"
  }
}
