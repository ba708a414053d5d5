/**
 * JSON documents as the Python workflow scripts see them after `json.load`:
 * None, booleans, integers, floats, strings, lists and dicts. A float is
 * kept as the text Python's `repr` gives it.
 */
module PyJson {
  import opened Strings

  datatype Json =
    | JNull
    | JBool(b: bool)
    | JInt(i: int)
    | JFloat(repr: string)
    | JStr(s: string)
    | JList(items: seq<Json>)
    | JObject(fields: map<string, Json>)

  /** `type(v).__name__`. */
  function TypeName(v: Json): string {
    match v
    case JNull => "NoneType"
    case JBool(_) => "bool"
    case JInt(_) => "int"
    case JFloat(_) => "float"
    case JStr(_) => "str"
    case JList(_) => "list"
    case JObject(_) => "dict"
  }

  /** Python truthiness: None, False, zero, and empty strings, lists and dicts are falsy. */
  predicate Truthy(v: Json) {
    match v
    case JNull => false
    case JBool(b) => b
    case JInt(i) => i != 0
    case JFloat(r) => r != "0.0" && r != "-0.0"
    case JStr(s) => s != ""
    case JList(items) => items != []
    case JObject(fields) => fields != map[]
  }

  /** `d.get(key, default)` on a dict. */
  function GetOr(fields: map<string, Json>, key: string, default: Json): Json {
    if key in fields then fields[key] else default
  }

  /**
   * `str(v)` as an f-string renders it. Lists render their elements the
   * way `repr` does for scalars, with strings in single quotes; a dict
   * renders as `{...}`.
   */
  function PyStr(v: Json): string
    decreases v
  {
    match v
    case JNull => "None"
    case JBool(b) => if b then "True" else "False"
    case JInt(i) => IntToString(i)
    case JFloat(r) => r
    case JStr(s) => s
    case JList(items) => "[" + ReprItems(items) + "]"
    case JObject(_) => "{...}"
  }

  function ReprItems(items: seq<Json>): string
    decreases items
  {
    if |items| == 0 then ""
    else
      var first := if items[0].JStr? then "'" + items[0].s + "'" else PyStr(items[0]);
      if |items| == 1 then first else first + ", " + ReprItems(items[1..])
  }
}
