/** Parsed JSON values and the few Python operations the handler applies to
    them. Where Python raises (a `TypeError`, `KeyError`, `AttributeError` or
    `IndexError`), the operation here returns `None`. */
module Json {
  import opened Wrappers
  import Strings

  /** A parsed JSON document. Objects are maps: the key order Python keeps
      only affects how a reply is printed, never a decision. */
  datatype Json =
    | JNull
    | JBool(b: bool)
    | JNum(n: real)
    | JStr(s: string)
    | JArr(items: seq<Json>)
    | JObj(fields: map<string, Json>)

  /** Python truthiness of the value the JSON decodes to: `None`, `False`,
      zero, and empty strings, lists and dicts are false. */
  predicate Truthy(v: Json) {
    match v
    case JNull => false
    case JBool(b) => b
    case JNum(n) => n != 0.0
    case JStr(s) => |s| > 0
    case JArr(items) => |items| > 0
    case JObj(fields) => |fields| > 0
  }

  /** Python's `key in v`: key lookup in a dict, element equality in a list,
      substring test in a str; `None` (a `TypeError`) for null, booleans and
      numbers. */
  function PyIn(key: string, v: Json): (r: Option<bool>)
    ensures r.None? <==> (v.JNull? || v.JBool? || v.JNum?)
    ensures v.JObj? ==> r == Some(key in v.fields)
  {
    match v
    case JObj(fields) => Some(key in fields)
    case JArr(items) => Some(JStr(key) in items)
    case JStr(s) => Some(Strings.Contains(s, key))
    case _ => None
  }

  /** Python's `v[key]` with a string key: only a dict that holds the key
      answers; a dict without it raises `KeyError` and every other value
      raises `TypeError`. */
  function PyIndexByKey(v: Json, key: string): (r: Option<Json>)
    ensures r.Some? <==> v.JObj? && key in v.fields
    ensures r.Some? ==> r.value == v.fields[key]
  {
    if v.JObj? && key in v.fields then Some(v.fields[key]) else None
  }

  /** Python's `v.get(key, default)`: defined on dicts only; every other
      value raises `AttributeError`. */
  function PyGet(v: Json, key: string, default: Json): (r: Option<Json>)
    ensures r.Some? <==> v.JObj?
    ensures v.JObj? && key !in v.fields ==> r == Some(default)
    ensures v.JObj? && key in v.fields ==> r == Some(v.fields[key])
  {
    match v
    case JObj(fields) => Some(if key in fields then fields[key] else default)
    case _ => None
  }

  /** Python's `len(v)`: characters of a str, elements of a list, keys of a
      dict; `TypeError` for everything else. */
  function PyLen(v: Json): (r: Option<nat>)
    ensures r.Some? <==> (v.JStr? || v.JArr? || v.JObj?)
    ensures v.JStr? ==> r == Some(|v.s|)
  {
    match v
    case JStr(s) => Some(|s|)
    case JArr(items) => Some(|items|)
    case JObj(fields) => Some(|fields|)
    case _ => None
  }

  /** Python's `v[0]`: the first element of a list, the first character of
      a str; `KeyError` on a dict (JSON keys are strings), `IndexError` on
      an empty list or str, `TypeError` otherwise. */
  function PyFirst(v: Json): (r: Option<Json>)
    ensures v.JArr? && |v.items| > 0 ==> r == Some(v.items[0])
    ensures r.Some? ==> (v.JArr? && |v.items| > 0) || (v.JStr? && |v.s| > 0)
  {
    match v
    case JArr(items) => if |items| > 0 then Some(items[0]) else None
    case JStr(s) => if |s| > 0 then Some(JStr(s[..1])) else None
    case _ => None
  }
}

/** What the proxy sends back to its caller. */
module Http {
  import opened Json

  /** An HTTP reply: status code and JSON body (Flask's `jsonify`). */
  datatype Reply = Reply(status: nat, body: Json)

  /** The `{'error': ..., 'message': ...}` object every categorized failure
      carries. */
  function ErrorBody(error: string, message: string): (b: Json)
    ensures b.JObj? && b.fields.Keys == {"error", "message"}
    ensures b.fields["error"] == JStr(error) && b.fields["message"] == JStr(message)
  {
    JObj(map["error" := JStr(error), "message" := JStr(message)])
  }

  /** The text under the `error` key of a reply body, when there is one. */
  function ErrorTag(r: Reply): (tag: string) {
    if r.body.JObj? && "error" in r.body.fields && r.body.fields["error"].JStr?
    then r.body.fields["error"].s
    else ""
  }

  /** Reply of the catch-all `except Exception` handler of the chat route. */
  const InternalError := Reply(500, ErrorBody("Internal server error", "An unexpected error occurred"))
}
