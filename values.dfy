/** Optional results, as returned by a cache read. */
module Optional {
  datatype Option<T> = None | Some(value: T)
}

/**
 The payloads the proxy caches: the parsed JSON body of an upstream
 response, and JavaScript's notion of which of them are "truthy".
 */
module Values {

  /** A parsed JSON document. Numbers are exact reals, not IEEE doubles. */
  datatype Json =
    | JNull
    | JBool(b: bool)
    | JNumber(n: real)
    | JString(s: string)
    | JArray(items: seq<Json>)
    | JObject(fields: map<string, Json>)

  /**
   JavaScript truthiness of a JSON value: `null`, `false`, `0` and the empty
   string are falsy; every other value, including an empty array or object,
   is truthy.
   */
  predicate Truthy(v: Json) {
    match v
    case JNull => false
    case JBool(b) => b
    case JNumber(n) => n != 0.0
    case JString(s) => s != ""
    case JArray(_) => true
    case JObject(_) => true
  }
}
