/**
 * A parsed JSON document as Python sees it after `json.loads`, with the
 * handful of Python operations the transcript extraction applies to it:
 * truthiness, `key in v`, `v[key]`, `v[0]` and `v.get(key, default)`.
 * An operation that raises in Python gives None here.
 */
module PyJson {
  import opened Wrappers
  import PyText

  /** JSON numbers are integers in this model. */
  datatype Json =
    | JNull
    | JBool(b: bool)
    | JNum(n: int)
    | JStr(s: string)
    | JArr(items: seq<Json>)
    | JObj(fields: map<string, Json>)

  /** `bool(v)`: null, false, zero and empty values are false. */
  predicate Truthy(v: Json) {
    match v
    case JNull => false
    case JBool(b) => b
    case JNum(n) => n != 0
    case JStr(s) => s != ""
    case JArr(items) => items != []
    case JObj(fields) => fields != map[]
  }

  /**
   * `key in v` for a string `key`: a key test on an object, an element test on
   * a list, a substring test on a string, and a TypeError on anything else.
   */
  function Contains(v: Json, key: string): (r: Option<bool>)
    ensures r.None? <==> v.JNull? || v.JBool? || v.JNum?
    ensures v.JObj? ==> r == Some(key in v.fields)
    ensures v.JArr? ==> r == Some(JStr(key) in v.items)
  {
    match v
    case JObj(fields) => Some(key in fields)
    case JArr(items) => Some(JStr(key) in items)
    case JStr(s) => Some(PyText.HasSubstring(s, key))
    case _ => None
  }

  /** `v[key]` for a string `key`: only an object that has the key answers. */
  function Item(v: Json, key: string): (r: Option<Json>)
    ensures r.Some? <==> v.JObj? && key in v.fields
    ensures r.Some? ==> r.value == v.fields[key]
  {
    if v.JObj? && key in v.fields then Some(v.fields[key]) else None
  }

  /**
   * `v[0]`: the first element of a list, the first character of a string; an
   * object has no key 0 (JSON keys are strings) and scalars cannot be indexed.
   */
  function First(v: Json): (r: Option<Json>)
    ensures r.Some? <==> (v.JArr? && v.items != []) || (v.JStr? && v.s != "")
    ensures v.JArr? && v.items != [] ==> r == Some(v.items[0])
  {
    match v
    case JArr(items) => if items != [] then Some(items[0]) else None
    case JStr(s) => if s != "" then Some(JStr([s[0]])) else None
    case _ => None
  }

  /** `v.get(key, default)`: only objects have `get`. */
  function Get(v: Json, key: string, default: Json): (r: Option<Json>)
    ensures r.Some? <==> v.JObj?
    ensures v.JObj? ==> r == Some(if key in v.fields then v.fields[key] else default)
  {
    match v
    case JObj(fields) => Some(if key in fields then fields[key] else default)
    case _ => None
  }
}
