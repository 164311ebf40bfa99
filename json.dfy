/**
 * JSON values as the Python (`json.loads`) and JavaScript (`JSON.parse`) code sees them,
 * with the two languages' truthiness rules.
 */
module Json {
  import opened Wrappers

  datatype Json =
    | JNull
    | JBool(b: bool)
    | JInt(i: int)
    | JFloat(f: real)
    | JStr(s: string)
    | JList(items: seq<Json>)
    | JObject(fields: map<string, Json>)

  /** Python's `bool(v)`: `None`, `False`, zero and empty containers are false. */
  predicate PyTruthy(v: Json) {
    match v
    case JNull => false
    case JBool(b) => b
    case JInt(i) => i != 0
    case JFloat(f) => f != 0.0
    case JStr(s) => s != ""
    case JList(items) => items != []
    case JObject(fields) => fields != map[]
  }

  /** JavaScript truthiness of a property that may be missing (`undefined`): containers are always true. */
  predicate JsTruthy(v: Option<Json>) {
    match v
    case None => false
    case Some(JNull) => false
    case Some(JBool(b)) => b
    case Some(JInt(i)) => i != 0
    case Some(JFloat(f)) => f != 0.0
    case Some(JStr(s)) => s != ""
    case Some(JList(_)) => true
    case Some(JObject(_)) => true
  }

  /** `key in d` for a parsed value: only objects have keys. */
  predicate HasKey(v: Json, key: string) {
    v.JObject? && key in v.fields
  }
}
