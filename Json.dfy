/** JSON-shaped configuration values, as the plugin's dictionaries hold them. */
module Json {
  /** A JSON value; `JNull` stands for Python's `None`. */
  datatype Value =
    | JNull
    | JBool(b: bool)
    | JInt(i: int)
    | JStr(s: string)
    | JList(items: seq<Value>)
    | JObject(fields: map<string, Value>)

  /** Python truthiness of a value. */
  predicate Truthy(v: Value)
  {
    match v
    case JNull => false
    case JBool(b) => b
    case JInt(i) => i != 0
    case JStr(s) => s != ""
    case JList(items) => items != []
    case JObject(fields) => fields != map[]
  }

  /** `d.get(key)`: the value, or None. */
  function Get(d: map<string, Value>, key: string): Value
  {
    if key in d then d[key] else JNull
  }

  /** `d.get(key, {})` where a non-dict counts as empty. */
  function Section(d: map<string, Value>, key: string): map<string, Value>
  {
    if key in d && d[key].JObject? then d[key].fields else map[]
  }
}
