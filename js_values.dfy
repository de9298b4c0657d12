/** The JavaScript values that a site-settings payload and the form's fields
    hold, with JavaScript's truthiness written out. */
module JsValues {

  /** A primitive JavaScript value. Numbers are integers in this model. */
  datatype Value = Undefined | Null | Bool(b: bool) | Int(i: int) | Str(s: string)

  /** `!!v`: false exactly for undefined, null, false, 0 and the empty string. */
  predicate Truthy(v: Value) {
    match v
    case Undefined => false
    case Null => false
    case Bool(b) => b
    case Int(i) => i != 0
    case Str(s) => s != ""
  }

  /** Reading the property `key` of an object: a missing property reads as undefined. */
  function Get(obj: map<string, Value>, key: string): Value {
    if key in obj then obj[key] else Undefined
  }
}
