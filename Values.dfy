/**
 * The JavaScript values that flow through the screen: parsed JSON request
 * bodies and response bodies. Numbers are integers here.
 */
module Values {

  /** A JSON-shaped value; the tag says which JavaScript type it has. */
  datatype Value =
    | JNull
    | JBool(b: bool)
    | JNumber(n: int)
    | JString(s: string)
    | JArray(items: seq<Value>)
    | JObject(fields: seq<(string, Value)>)

  /**
   * JavaScript truthiness, as used by `||`: null, false, 0 and the empty
   * string are falsy; every array and object, even an empty one, is truthy.
   */
  predicate Truthy(v: Value)
  {
    match v
    case JNull => false
    case JBool(b) => b
    case JNumber(n) => n != 0
    case JString(s) => s != ""
    case JArray(_) => true
    case JObject(_) => true
  }
}
