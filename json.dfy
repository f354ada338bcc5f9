/** JavaScript values as the join handler and the dashboard see them: the values `JSON.parse` can produce,
    how they behave under `if (x)`, `a || b`, a property read, `String(x)` and `for ... of`,
    and how a TEXT column holding JSON is stored. */
module Json {
  import opened Wrappers
  import opened Text

  /** A parsed JSON value (numbers are limited to integers in this model). Object keys are
      never `__proto__` or a built-in property name of strings or arrays. */
  datatype JValue =
    | JNull
    | JBool(b: bool)
    | JNum(n: int)
    | JStr(s: string)
    | JArr(items: seq<JValue>)
    | JObj(fields: map<string, JValue>)

  /** `if (v)`: null, false, 0 and the empty string are falsy; arrays and objects are truthy. */
  predicate Truthy(v: JValue) {
    match v
    case JNull => false
    case JBool(b) => b
    case JNum(n) => n != 0
    case JStr(s) => s != ""
    case _ => true
  }

  /** A property read that may give `undefined` (None) is truthy. */
  predicate Present(o: Option<JValue>) {
    o.Some? && Truthy(o.value)
  }

  /** `v.key`. Reading a property of null throws, hence the precondition; on a string, number,
      boolean or array the keys read here are `undefined`. */
  function Prop(v: JValue, key: string): (r: Option<JValue>)
    requires v != JNull
    ensures r.Some? <==> v.JObj? && key in v.fields
    ensures r.Some? ==> r.value == v.fields[key]
  {
    if v.JObj? && key in v.fields then Some(v.fields[key]) else None
  }

  /** `a || b`. */
  function OrElse(a: Option<JValue>, b: JValue): (r: JValue)
    ensures Present(a) ==> r == a.value
    ensures !Present(a) ==> r == b
  {
    if Present(a) then a.value else b
  }

  /** `String(v)`. An array renders as its elements joined by commas, a null element as
      nothing; every object renders as `[object Object]`. */
  function JsString(v: JValue): string
    decreases v, 1, 0
  {
    match v
    case JNull => "null"
    case JBool(b) => if b then "true" else "false"
    case JNum(n) => IntToString(n)
    case JStr(s) => s
    case JArr(_) => JoinItems(v, 0)
    case JObj(_) => "[object Object]"
  }

  function JoinItems(arr: JValue, i: nat): string
    requires arr.JArr? && i <= |arr.items|
    decreases arr, 0, |arr.items| - i
  {
    if i == |arr.items| then ""
    else
      (if i == 0 then "" else ",")
      + (if arr.items[i] == JNull then "" else JsString(arr.items[i]))
      + JoinItems(arr, i + 1)
  }

  /** `for (const x of v)`: an array yields its elements and a string its characters (code
      points, as strings of one character); any other value is not iterable and the loop
      throws (None). */
  function Iterate(v: JValue): (r: Option<seq<JValue>>)
    ensures r.Some? <==> v.JArr? || v.JStr?
    ensures v.JArr? ==> r == Some(v.items)
    ensures v.JStr? ==> |r.value| == |v.s| && forall k :: 0 <= k < |v.s| ==> r.value[k] == JStr([v.s[k]])
  {
    match v
    case JArr(items) => Some(items)
    case JStr(s) => Some(seq(|s|, k requires 0 <= k < |s| => JStr([s[k]])))
    case _ => None
  }

  /** What `JSON.parse` makes of a non-empty TEXT value. */
  datatype Parsed = Malformed | Json(value: JValue)

  /** A nullable TEXT column that is meant to hold JSON. The text itself is abstracted: all the
      code ever asks of it is whether it is truthy (non-empty) and what `JSON.parse` returns. */
  datatype Stored = SqlNull | EmptyText | JsonText(parsed: Parsed)

  /** The column value is truthy in `if (config.column)`. */
  predicate Filled(c: Stored) {
    c.JsonText?
  }

  /** The column as `JSON.stringify(v)` writes it; `JSON.parse` gives `v` back for the
      strings, nulls, arrays and objects the dashboard writes. */
  function Encode(v: JValue): (c: Stored)
    ensures Filled(c) && c.parsed == Json(v)
  {
    JsonText(Json(v))
  }
}
