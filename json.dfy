/** Parsed JSON values, kept opaque: the model only copies them and asks whether they are truthy. */
module JsonValue {
  import opened Wrappers

  datatype Json =
    | JNull
    | JBool(b: bool)
    | JNum(n: real)
    | JStr(s: string)
    | JArr(items: seq<Json>)
    | JObj(members: seq<(string, Json)>)

  /** JavaScript truthiness of a JSON value (arrays and objects are truthy even when empty). */
  predicate Truthy(j: Json) {
    match j
    case JNull => false
    case JBool(b) => b
    case JNum(n) => n != 0.0
    case JStr(s) => s != ""
    case JArr(_) => true
    case JObj(_) => true
  }

  /** A JSON column is written only when the value is truthy (`v ? JSON.stringify(v) : null`). */
  function StoredJson(v: Option<Json>): (r: Option<Json>)
    ensures r.Some? <==> v.Some? && Truthy(v.value)
    ensures r.Some? ==> r == v
  {
    if v.Some? && Truthy(v.value) then v else None
  }
}
