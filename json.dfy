/** Parsed JSON values, and the few pieces of JavaScript semantics that the
    user-data layer applies to them: property reads, truthiness and
    `Object.keys`. */
module Json {

  datatype Option<+T> = None | Some(value: T)

  /** A value as `JSON.parse` returns it. Numbers are reals: the code only
      tests their type, tests their truthiness and copies them. Object
      members form a map, because nothing in the code depends on their
      order. */
  datatype Json =
    | JNull
    | JBool(b: bool)
    | JNum(n: real)
    | JStr(s: string)
    | JArray(items: seq<Json>)
    | JObject(fields: map<string, Json>)

  /** `v[name]`, with `None` standing for `undefined`. Every name the code
      reads is a fixed identifier that is neither an array index nor
      "length", so only an object member can be found. (On `null` JavaScript
      throws instead; the callers that can meet `null` handle it first.) */
  function Prop(v: Json, name: string): (r: Option<Json>)
    ensures r.Some? <==> v.JObject? && name in v.fields
  {
    if v.JObject? && name in v.fields then Some(v.fields[name]) else None
  }

  /** JavaScript truthiness of a property read: `undefined`, `null`, `false`,
      `0` and `""` are falsy; every array and object is truthy. */
  predicate Truthy(v: Option<Json>) {
    match v
    case None => false
    case Some(JNull) => false
    case Some(JBool(b)) => b
    case Some(JNum(n)) => n != 0.0
    case Some(JStr(s)) => s != ""
    case Some(_) => true
  }

  /** The names in `Object.keys(v)` that can equal an identifier: an object's
      member names. (An array's keys are its indices, which never equal one
      of the identifiers the code compares them with.) */
  function OwnNames(v: Json): set<string> {
    if v.JObject? then v.fields.Keys else {}
  }

  /** `Object.keys(v).length` for an object or an array. */
  function KeyCount(v: Json): nat {
    match v
    case JObject(f) => |f|
    case JArray(a) => |a|
    case _ => 0
  }

  /** `typeof v === "object" && v !== null`: objects and arrays. */
  predicate IsObjectLike(v: Json) {
    v.JObject? || v.JArray?
  }
}
