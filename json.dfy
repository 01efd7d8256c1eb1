/**
 * The values `json.loads` produces, and the two Python behaviours of them the
 * pipeline depends on: truthiness (`if not x`) and `dict.get(key, default)`.
 */
module Json {

  /** A parsed JSON document. Numbers are reals: floating point is not modelled. */
  datatype Json =
    | JNull
    | JBool(b: bool)
    | JNum(n: real)
    | JStr(s: string)
    | JArr(items: seq<Json>)
    | JObj(fields: map<string, Json>)

  /** Python truthiness of a parsed value: `None`, `False`, `0`, `""`, `[]` and `{}` are false. */
  predicate Truthy(j: Json) {
    match j
    case JNull => false
    case JBool(b) => b
    case JNum(n) => n != 0.0
    case JStr(s) => s != ""
    case JArr(items) => items != []
    case JObj(fields) => fields != map[]
  }

  /** `d.get(key, default)` on a dictionary. */
  function Get(fields: map<string, Json>, key: string, default: Json): (r: Json)
    ensures key in fields ==> r == fields[key]
    ensures key !in fields ==> r == default
  {
    if key in fields then fields[key] else default
  }

  /** Values Python's `+` and `/` accept as numbers: `bool` is a subclass of `int`. */
  predicate IsNumber(j: Json) {
    j.JNum? || j.JBool?
  }

  function NumberOf(j: Json): real
    requires IsNumber(j)
  {
    match j
    case JNum(n) => n
    case JBool(b) => if b then 1.0 else 0.0
  }
}
