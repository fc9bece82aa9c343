/** JSON values as a request body carries them, with the two Python
    operations the handlers apply to them: truth testing (`not x`) and
    `dict.get(key)`. Floating-point numbers are not modelled. */
module JsonValue {

  datatype Json =
    | JNull
    | JBool(b: bool)
    | JInt(i: int)
    | JStr(s: string)
    | JArray(items: seq<Json>)
    | JObject(fields: map<string, Json>)

  /** Python truth value of the decoded JSON value: `None`, `False`, `0`,
      the empty string, the empty list and the empty dict are false. */
  predicate Truthy(v: Json)
  {
    match v
    case JNull => false
    case JBool(b) => b
    case JInt(i) => i != 0
    case JStr(s) => s != ""
    case JArray(items) => items != []
    case JObject(fields) => fields != map[]
  }

  /** `d.get(key)` on a decoded JSON object: a missing key yields `None`. */
  function Get(fields: map<string, Json>, key: string): Json
  {
    if key in fields then fields[key] else JNull
  }
}
