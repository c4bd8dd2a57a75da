/**
 * The parsed body of a request, as far as the route handlers look at it:
 * the JSON value of each property and JavaScript's truthiness of it.
 */
module Json {
  import opened Wrappers

  /** A JSON value; arrays and objects are only ever tested for truthiness. */
  datatype Value = Null | Bool(b: bool) | Number(n: real) | Str(s: string) | Composite

  /** An object body: property name to value. A missing property is `undefined`. */
  type Body = map<string, Value>

  /** `!!v`: false, 0, the empty string and null are falsy; objects and arrays are truthy. */
  predicate Truthy(v: Value) {
    match v
    case Null => false
    case Bool(b) => b
    case Number(n) => n != 0.0
    case Str(s) => s != ""
    case Composite => true
  }

  /** Truthiness of a property that may be `undefined`. */
  predicate TruthyProperty(body: Body, name: string) {
    name in body && Truthy(body[name])
  }
}
