/** JSON documents as Python's json module hands them to the decoders:
    null, booleans, integers, strings, arrays and objects (dicts). */
module Json {

  datatype Json =
    | JNull
    | JBool(b: bool)
    | JInt(i: int)
    | JString(s: string)
    | JArray(elems: seq<Json>)
    | JObject(fields: map<string, Json>)

  /** Python truthiness of the value a JSON document decodes to
      (None, False, 0, "", [] and {} are falsy). */
  predicate Truthy(j: Json) {
    match j
    case JNull => false
    case JBool(b) => b
    case JInt(i) => i != 0
    case JString(s) => s != []
    case JArray(xs) => xs != []
    case JObject(m) => m != map[]
  }

  /** The value an attribute with default None ends up with after
      `if key in d: self.attr = d[key]`: the stored value, or null. */
  function Attr(m: map<string, Json>, key: string): Json {
    if key in m then m[key] else JNull
  }

  /** `m` with `key` set to `v` unless `v` is null; used to build the
      inverse (encoding) of a decoder, which leaves None attributes out. */
  function With(m: map<string, Json>, key: string, v: Json): map<string, Json> {
    if v == JNull then m else m[key := v]
  }
}
