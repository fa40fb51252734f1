/** The values `json.loads` produces, with the few Python operations the benchmark code applies
    to them: truthiness, comparison with `0`, and `dict.get`. */
module JsonValue {
  import opened Base

  /** A parsed JSON value. Python keeps `int` and `float` apart; both are a `JNum` here. */
  datatype Json =
    | JNull
    | JBool(b: bool)
    | JNum(n: real)
    | JStr(s: string)
    | JArr(items: seq<Json>)
    | JObj(fields: map<string, Json>)

  /** Python truthiness: `None`, `False`, zero, and empty strings, lists and dicts are false. */
  predicate Truthy(j: Json) {
    match j
    case JNull => false
    case JBool(b) => b
    case JNum(n) => n != 0.0
    case JStr(s) => s != ""
    case JArr(items) => items != []
    case JObj(fields) => fields != map[]
  }

  /** Python `j == 0`: true for a numeric zero and for `False` (a `bool` is an `int`). */
  predicate IsZero(j: Json) {
    j == JNum(0.0) || j == JBool(false)
  }

  /** `j.get(key, default)`: `None` stands for the `AttributeError` raised when `j` is not a dict. */
  function Get(j: Json, key: string, default: Json): (r: Option<Json>)
    ensures r.Some? <==> j.JObj?
    ensures j.JObj? && key in j.fields ==> r == Some(j.fields[key])
    ensures j.JObj? && key !in j.fields ==> r == Some(default)
  {
    match j
    case JObj(fields) => Some(if key in fields then fields[key] else default)
    case _ => None
  }

  /** `key in j` for a dict. */
  predicate Has(j: Json, key: string) {
    j.JObj? && key in j.fields
  }

  /** `dict.get(key)` on a dict: the value, or `None` (JSON null) when the key is absent. */
  function Lookup(fields: map<string, Json>, key: string): Json {
    if key in fields then fields[key] else JNull
  }

  /** A dict literal with one entry. */
  function Obj1(key: string, value: Json): Json {
    JObj(map[key := value])
  }
}
