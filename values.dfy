/**
 * The values the client library handles: the JSON documents it sends and
 * receives, and the Python objects a caller may pass as arguments.
 */
module Values {
  import opened Wrappers

  /** A JSON document as `json.dumps` writes it and `response.json()` reads it. */
  datatype Json =
    | JNull
    | JBool(b: bool)
    | JInt(i: int)
    | JReal(r: real)
    | JStr(s: string)
    | JArr(items: seq<Json>)
    | JObj(fields: map<string, Json>)

  /** Python's truth value of the object a JSON document decodes to. */
  predicate Truthy(j: Json)
    ensures !Truthy(j) <==> j in {JNull, JBool(false), JInt(0), JReal(0.0), JStr(""), JArr([]), JObj(map[])}
  {
    match j
    case JNull => false
    case JBool(b) => b
    case JInt(i) => i != 0
    case JReal(r) => r != 0.0
    case JStr(s) => s != ""
    case JArr(items) => items != []
    case JObj(fields) => fields != map[]
  }

  /** `d.get(key, default)` on a decoded JSON object. */
  function Get(d: map<string, Json>, key: string, default: Json): (v: Json)
    ensures key in d ==> v == d[key]
    ensures key !in d ==> v == default
  {
    if key in d then d[key] else default
  }

  /**
   * A Python argument as the client receives it. `PyObject` is any other
   * object; `timestamp` is the value its `timestamp()` method returns, or
   * None when it has no such attribute.
   */
  datatype PyValue =
    | PyNone
    | PyBool(b: bool)
    | PyInt(i: int)
    | PyFloat(f: real)
    | PyStr(s: string)
    | PyDict(fields: map<string, Json>)
    | PyObject(timestamp: Option<Json>)
}
