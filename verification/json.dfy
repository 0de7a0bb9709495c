/** A loosely typed JSON value, the shape of Python's json.loads results. */
module Json {

  datatype Json =
    | JNull
    | JBool(b: bool)
    | JInt(i: int)
    | JFloat(r: real)
    | JStr(s: string)
    | JArray(items: seq<Json>)
    | JObject(fields: map<string, Json>)

  /** dict.get(key, default). */
  function Get(fields: map<string, Json>, key: string, default: Json): Json
  {
    if key in fields then fields[key] else default
  }

  /** Python truthiness of a JSON value. */
  predicate Truthy(j: Json)
  {
    match j
    case JNull => false
    case JBool(b) => b
    case JInt(i) => i != 0
    case JFloat(r) => r != 0.0
    case JStr(s) => s != []
    case JArray(xs) => xs != []
    case JObject(m) => m != map[]
  }

  /**
   * str(j): a string is its own text; the text Python gives any other value
   * is supplied by the caller as `render`.
   */
  function Stringify(render: Json -> string, j: Json): string
  {
    if j.JStr? then j.s else render(j)
  }
}
