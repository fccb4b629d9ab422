/** The JSON values `json.loads` produces, with the Python operations the
    transcript tools apply to them: `dict.get`, truthiness and `str()`. */
module Json {
  import opened Wrappers
  import opened Text

  /** A decoded JSON value; numbers are integers (floats are not modelled). */
  datatype Json =
    | JNull
    | JBool(b: bool)
    | JNum(n: int)
    | JStr(s: string)
    | JArr(items: seq<Json>)
    | JObj(fields: map<string, Json>)

  /** One line of a JSONL file: blank, not valid JSON, or a decoded value. */
  datatype JsonLine = BlankLine | Garbled | Record(value: Json)

  /** `obj.get(key)`: `None` stands for Python's `None` result of a missing key. */
  function Get(obj: Json, key: string): Option<Json>
    requires obj.JObj?
  {
    if key in obj.fields then Some(obj.fields[key]) else None
  }

  /** `obj.get(key, default)` */
  function GetOr(obj: Json, key: string, default: Json): Json
    requires obj.JObj?
  {
    if key in obj.fields then obj.fields[key] else default
  }

  /** `obj.get(key) == s` for a string `s`. */
  predicate HasString(obj: Json, key: string, s: string)
    requires obj.JObj?
  {
    key in obj.fields && obj.fields[key] == JStr(s)
  }

  /** `bool(value)` */
  predicate Truthy(j: Json) {
    match j
    case JNull => false
    case JBool(b) => b
    case JNum(n) => n != 0
    case JStr(s) => s != ""
    case JArr(items) => items != []
    case JObj(fields) => fields != map[]
  }

  /** `str(value)`; containers are printed by `repr`, which is not modelled. */
  function PyStr(j: Json, repr: Json -> string): string {
    match j
    case JNull => "None"
    case JBool(b) => if b then "True" else "False"
    case JNum(n) => IntToString(n)
    case JStr(s) => s
    case JArr(_) => repr(j)
    case JObj(_) => repr(j)
  }
}
