/** JavaScript values as the mosaic engine sees them.

    The configuration flags of the board are plain JavaScript values: the
    TypeScript entry point passes booleans, the older `script.js` entry point
    passes the numbers `1` and `0`, and the engine only ever tests them for
    truthiness (`config.scaleNoise ? … : …`). */
module Js {

  /** A value that may be `undefined` (or, for an argument, absent). */
  datatype Option<+T> = None | Some(value: T) {
    function GetOr(default: T): (v: T) {
      match this
      case Some(v) => v
      case None => default
    }
  }

  /** The JavaScript values a configuration flag can hold once it is stored
      (the engine never stores `undefined`). NaN is not modelled. */
  datatype JsValue =
    | Null
    | Boolean(b: bool)
    | Number(n: real)
    | Text(s: string)

  /** JavaScript's ToBoolean: `null`, `false`, `0` and `""` are falsy. */
  predicate Truthy(v: JsValue): (t: bool)
    ensures !t <==> v == Null || v == Boolean(false) || v == Number(0.0) || v == Text("")
  {
    match v
    case Null => false
    case Boolean(b) => b
    case Number(n) => n != 0.0
    case Text(s) => s != ""
  }

  /** The values the TypeScript type `boolean` admits. */
  predicate IsBoolean(v: JsValue) {
    v.Boolean?
  }
}
