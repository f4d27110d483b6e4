/**
  JSON values as the survey server sees them after `JSON.parse`, and the few
  pieces of JavaScript semantics its handler applies to them: truthiness,
  `typeof`, `Array.isArray`, optional property access (`v?.key`) and the
  nullish-coalescing operator (`??`).

  `undefined` is never produced by `JSON.parse`; where the handler can meet it
  (a missing property) it is the `None` of an `Option<Json>`.
*/
module JsValues {

  datatype Option<+T> = None | Some(value: T)

  /** A value `JSON.parse` can return. Numbers are kept as reals; objects as
      maps from key to value (key order is not modelled). */
  datatype Json =
    | JNull
    | JBool(b: bool)
    | JNumber(n: real)
    | JString(s: string)
    | JArray(items: seq<Json>)
    | JObject(fields: map<string, Json>)

  /** The outcome of `JSON.parse` on a text: it throws, or yields a value. */
  datatype Parsed = Invalid | Value(value: Json)

  /** `JSON.parse` and `JSON.stringify`, which the model treats as given. */
  datatype Codec = Codec(parse: string -> Parsed, stringify: Json -> string)

  /** `parse` reads the text `stringify` produces for `v` back as `v`. This is
      asked of one value at a time: no codec can do it for every value, since
      numbers are printed with finite precision. */
  predicate ReadsBack(codec: Codec, v: Json)
  {
    codec.parse(codec.stringify(v)) == Value(v)
  }

  /** JavaScript truthiness (`Boolean(v)`) of a parsed value. */
  predicate Truthy(v: Json)
  {
    match v
    case JNull => false
    case JBool(b) => b
    case JNumber(n) => n != 0.0
    case JString(s) => s != ""
    case JArray(_) => true
    case JObject(_) => true
  }

  /** `v?.key` for the keys this model looks up (`answers`, `id`, `entry`,
      `responses` and the like): the own property of an object, and
      `undefined` on every other value, since no string, array, number or
      boolean has such a property. This is not `?.` in general: strings and
      arrays do have properties such as `length` or `"0"`. */
  function Member(v: Json, key: string): Option<Json>
  {
    match v
    case JObject(fields) => if key in fields then Some(fields[key]) else None
    case _ => None
  }

  /** `typeof v`, where `None` stands for `undefined`. */
  function TypeOf(v: Option<Json>): string
  {
    match v
    case None => "undefined"
    case Some(JNull) => "object"
    case Some(JBool(_)) => "boolean"
    case Some(JNumber(_)) => "number"
    case Some(JString(_)) => "string"
    case Some(JArray(_)) => "object"
    case Some(JObject(_)) => "object"
  }

  /** `Array.isArray(v)`. */
  predicate IsArray(v: Option<Json>)
  {
    v.Some? && v.value.JArray?
  }

  /** `v ?? null`: `undefined` and `null` both give `null`. */
  function OrNull(v: Option<Json>): Json
  {
    match v
    case None => JNull
    case Some(x) => if x == JNull then JNull else x
  }

  /** A one-key object literal such as `{ error: "Not found" }`. */
  function Object1(key: string, value: Json): Json
  {
    JObject(map[key := value])
  }
}
