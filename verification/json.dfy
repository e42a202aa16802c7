/** JSON-shaped values, as they appear in task configurations, LLM output and rows. */
module Json {
  import opened Wrappers

  /** A JSON value. Numbers are integers only: floating point is not modelled. */
  datatype Json =
    | JNull
    | JBool(b: bool)
    | JInt(i: int)
    | JString(s: string)
    | JArray(items: seq<Json>)
    | JObject(fields: map<string, Json>)

  /** Python truthiness of the corresponding value (`if value:`). */
  predicate Truthy(j: Json) {
    match j
    case JNull => false
    case JBool(b) => b
    case JInt(i) => i != 0
    case JString(s) => s != ""
    case JArray(items) => items != []
    case JObject(fields) => fields != map[]
  }

  /** `d.get(key)` on a dict: the value, or None when the key is absent. */
  function Get(fields: map<string, Json>, key: string): Json {
    if key in fields then fields[key] else JNull
  }

  /** Python's name of the type of the corresponding value, as error messages spell it. */
  function TypeName(v: Json): string {
    match v
    case JNull => "NoneType"
    case JBool(_) => "bool"
    case JInt(_) => "int"
    case JString(_) => "str"
    case JArray(_) => "list"
    case JObject(_) => "dict"
  }

  /** Wraps an optional Python string (None or str) as a JSON value. */
  function OfOptString(s: Option<string>): (j: Json)
    ensures s.None? <==> j == JNull
  {
    match s
    case None => JNull
    case Some(t) => JString(t)
  }
}
