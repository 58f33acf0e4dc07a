/**
 * JSON values as the JavaScript code sees them once a request or response
 * body has been parsed, together with JavaScript's notion of truthiness.
 */
module Json {
  import opened Wrappers

  /** A JSON value. A number is kept as the text JavaScript prints for it. */
  datatype Json =
    | JNull
    | JBool(b: bool)
    | JNumber(text: string)
    | JString(s: string)
    | JArray(items: seq<Json>)
    | JObject(members: map<string, Json>)

  /**
   * The falsy JSON values: null, false, 0 (also -0, which prints as "0"),
   * NaN and the empty string. Arrays and objects are always truthy.
   */
  predicate Falsy(v: Json) {
    match v
    case JNull => true
    case JBool(b) => !b
    case JNumber(t) => t == "0" || t == "NaN"
    case JString(s) => s == ""
    case JArray(_) => false
    case JObject(_) => false
  }

  /**
   * `v.key` on a value that is not null: an object's member, `undefined`
   * (None) for a missing member and for every other kind of value.
   */
  function Property(v: Json, key: string): (p: Option<Json>)
    ensures p.Some? <==> v.JObject? && key in v.members
  {
    if v.JObject? && key in v.members then Some(v.members[key]) else None
  }

  /** `v || fallback`, where a missing value reads as `undefined`. */
  function Or(v: Option<Json>, fallback: Json): (r: Json)
    ensures v.None? || Falsy(v.value) ==> r == fallback
    ensures v.Some? && !Falsy(v.value) ==> r == v.value
  {
    if v.Some? && !Falsy(v.value) then v.value else fallback
  }
}
