/**
 * JSON values as the browser holds them after `resp.json()`, with the two
 * pieces of JavaScript semantics the client relies on: property access and
 * truthiness.  A missing property (`undefined`) is `None` in an `Option<Json>`.
 */
module Js {
  import opened Wrappers

  datatype Json =
    | JNull
    | JBool(b: bool)
    | JNum(n: real)
    | JStr(s: string)
    | JArr(items: seq<Json>)
    | JObj(fields: map<string, Json>)

  /**
   * `v.key` for a value that is not `null`: only objects carry named members of
   * their own; strings, numbers, booleans and arrays give `undefined` for the
   * keys this client reads.  Reading a property of `null` throws, and callers
   * handle that case before asking.
   */
  function Prop(v: Json, key: string): (r: Option<Json>)
    ensures r.Some? <==> v.JObj? && key in v.fields
    ensures r.Some? ==> r.value == v.fields[key]
  {
    if v.JObj? && key in v.fields then Some(v.fields[key]) else None
  }

  /**
   * JavaScript truthiness: `undefined`, `null`, `false`, `0` and `""` are falsy,
   * every other JSON value (including `[]` and `{}`) is truthy.
   */
  predicate Truthy(v: Option<Json>) {
    match v
    case None => false
    case Some(JNull) => false
    case Some(JBool(b)) => b
    case Some(JNum(n)) => n != 0.0
    case Some(JStr(s)) => s != ""
    case Some(JArr(_)) => true
    case Some(JObj(_)) => true
  }
}
