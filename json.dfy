/**
 * JSON values as Dash stores and Plotly event payloads carry them between the browser
 * and the Python callbacks.
 */
module JsonValues {
  import opened Wrappers
  import opened Dicts
  import opened Text

  datatype Json =
    | JNull
    | JBool(b: bool)
    | JNum(n: real)
    | JStr(s: string)
    | JArr(items: seq<Json>)
    | JObj(fields: Dict<Json>)

  /** Python truthiness: `None`, `False`, `0`, `""`, `[]` and `{}` are false. */
  predicate Truthy(j: Json) {
    match j
    case JNull => false
    case JBool(b) => b
    case JNum(n) => n != 0.0
    case JStr(s) => |s| > 0
    case JArr(a) => |a| > 0
    case JObj(f) => |f| > 0
  }

  /**
   * The number Python arithmetic sees in a value: numbers as they are, booleans as 0 and 1;
   * any other value makes `+`, `-` or `/` raise `TypeError` (`None`).
   */
  function AsNumber(j: Json): (r: Option<real>)
    ensures r.Some? <==> j.JNum? || j.JBool?
    ensures j.JNum? ==> r == Some(j.n)
  {
    match j
    case JNum(n) => Some(n)
    case JBool(b) => Some(if b then 1.0 else 0.0)
    case _ => None
  }

  /** Truthiness of an optional dictionary store value (`None` or `{}` are false). */
  predicate DictTruthy<V>(d: Option<Dict<V>>) {
    d.Some? && |d.value| > 0
  }

  /**
   * `key in j` for a string key: a dictionary's keys, a list's elements, a string's
   * substrings; on `None`, a boolean or a number Python raises `TypeError` (`None`).
   */
  function PyIn(key: string, j: Json): (r: Option<bool>)
    ensures r.None? <==> j.JNull? || j.JBool? || j.JNum?
    ensures j.JObj? ==> r == Some(key in Keys(j.fields))
  {
    match j
    case JObj(f) => Some(key in Keys(f))
    case JArr(items) => Some(JStr(key) in items)
    case JStr(s) => Some(Contains(s, key))
    case _ => None
  }

  /** `key in j` for a dropdown value, which is a string or `None`. */
  function KeyIn(key: Option<string>, j: Json): (r: Option<bool>)
    ensures key.Some? ==> r == PyIn(key.value, j)
    ensures key.None? && j.JObj? ==> r == Some(false)
  {
    match key
    case Some(k) => PyIn(k, j)
    case None =>
      match j
      case JObj(_) => Some(false)
      case JArr(items) => Some(JNull in items)
      case _ => None
  }

  /** `j[key]`: only a dictionary holding `key` answers; anything else raises. */
  function PyIndex(j: Json, key: string): (r: Option<Json>)
    ensures r.Some? <==> j.JObj? && key in Keys(j.fields)
    ensures r.Some? ==> r.value == Get(j.fields, key)
  {
    if j.JObj? && key in Keys(j.fields) then Some(Get(j.fields, key)) else None
  }

  /** `j.get(key, default)`: only dictionaries have `.get` (`AttributeError` otherwise). */
  function PyGet(j: Json, key: string, default: Json): (r: Option<Json>)
    ensures r.Some? <==> j.JObj?
    ensures j.JObj? && key in Keys(j.fields) ==> r == Some(Get(j.fields, key))
    ensures j.JObj? && key !in Keys(j.fields) ==> r == Some(default)
  {
    match j
    case JObj(f) => Some(Lookup(f, key).GetOr(default))
    case _ => None
  }
}
