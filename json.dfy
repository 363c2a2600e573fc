/** Python values as decoded from JSON, and dictionaries keyed by strings:
    the records the core passes around. Numbers are exact reals. */
module Json {
  import opened Text

  datatype Value =
    | JNull
    | JBool(b: bool)
    | JNum(n: real)
    | JStr(s: string)
    | JArr(items: seq<Value>)
    | JObj(fields: map<string, Value>)

  /** A Python `dict` with string keys. */
  type Object = map<string, Value>

  /** `d.get(k)`: the value, or None when the key is absent. */
  function Get(d: Object, k: string): Option<Value> {
    if k in d then Some(d[k]) else None
  }

  /** `d.get(k, default)`. */
  function GetOr(d: Object, k: string, default: Value): Value {
    if k in d then d[k] else default
  }

  /** Python truthiness of a value. */
  predicate Truthy(v: Value) {
    match v
    case JNull => false
    case JBool(b) => b
    case JNum(n) => n != 0.0
    case JStr(s) => s != ""
    case JArr(items) => items != []
    case JObj(fields) => fields != map[]
  }

  /** The record's `name` when it is a string, otherwise `default`
      (`t.get("name", default)` on records whose names are text). */
  function NameOr(t: Object, default: string): string {
    if "name" in t && t["name"].JStr? then t["name"].s else default
  }
}
