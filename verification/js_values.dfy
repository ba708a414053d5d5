/**
 * The JavaScript values the front end passes around: form values, props and
 * stored strings. Numbers are restricted to integers plus NaN.
 */
module JsValues {
  import opened Strings

  /** A browser `File`: its name, its size in bytes and its MIME type. */
  datatype FileInfo = FileInfo(name: string, size: nat, mimeType: string)

  datatype JsValue =
    | Undefined
    | Null
    | Bool(b: bool)
    | Number(n: int)
    | NaN
    | Str(s: string)
    | Array(items: seq<JsValue>)
    | Object(props: map<string, JsValue>)
    | FileObj(file: FileInfo)

  /** JavaScript truthiness: `false`, `0`, `NaN`, `""`, `null` and `undefined` are falsy. */
  predicate Truthy(v: JsValue) {
    match v
    case Undefined => false
    case Null => false
    case Bool(b) => b
    case Number(n) => n != 0
    case NaN => false
    case Str(s) => s != ""
    case _ => true
  }

  /** `x ?? y` treats exactly these two as missing. */
  predicate Nullish(v: JsValue) { v == Undefined || v == Null }

  /** A property read `obj[key]`: undefined when the key is absent. */
  function Get(props: map<string, JsValue>, key: string): JsValue {
    if key in props then props[key] else Undefined
  }

  /**
   * `String(v)`. An array renders as its elements joined by commas, with
   * `null` and `undefined` elements rendered empty.
   */
  function ToJsString(v: JsValue): string
    decreases v
  {
    match v
    case Undefined => "undefined"
    case Null => "null"
    case Bool(b) => if b then "true" else "false"
    case Number(n) => IntToString(n)
    case NaN => "NaN"
    case Str(s) => s
    case Array(items) => JoinElements(items)
    case Object(_) => "[object Object]"
    case FileObj(_) => "[object File]"
  }

  function JoinElements(items: seq<JsValue>): string
    decreases items
  {
    if |items| == 0 then ""
    else
      var first := if Nullish(items[0]) then "" else ToJsString(items[0]);
      if |items| == 1 then first else first + "," + JoinElements(items[1..])
  }

  /** `String(value || "")`, the conversion the text and date datatypes apply to raw form values. */
  function StringOrEmpty(v: JsValue): string {
    ToJsString(if Truthy(v) then v else Str(""))
  }

  /** A string survives `String(value || "")` unchanged, and every falsy value becomes empty. */
  lemma StringOrEmptyCases(v: JsValue)
    ensures v.Str? ==> StringOrEmpty(v) == v.s
    ensures !Truthy(v) ==> StringOrEmpty(v) == ""
    ensures v.Number? && v.n != 0 ==> StringOrEmpty(v) == IntToString(v.n)
  {
  }

  /** Only falsy values and arrays whose elements all render empty turn into the empty string. */
  lemma StringOrEmptyEmpty(v: JsValue)
    requires StringOrEmpty(v) == ""
    ensures !Truthy(v) || v.Array?
  {
  }
}
