/**
 * The slice of JavaScript's value model that the creator-tube core relies on:
 * decoded JSON values, plain objects as key/value maps, truthiness, and the
 * Option/Result wrappers used for `undefined` and for thrown errors.
 */
module Js {

  datatype Option<+T> = None | Some(value: T)

  /** `Ok` is a normal return; `Err` carries the message of a thrown `Error`. */
  datatype Result<+T, +E> = Ok(value: T) | Err(error: E)

  /**
   * A decoded JSON value. Numbers are reals: JavaScript numbers are doubles,
   * and NaN or the infinities are not part of this model. `JsComposite`
   * stands for any array or nested object, whose contents nothing here reads.
   */
  datatype JsValue =
    | JsNull
    | JsBool(b: bool)
    | JsNumber(n: real)
    | JsString(s: string)
    | JsComposite

  /** A plain object; a key that is absent reads as `undefined`. */
  type JsObject = map<string, JsValue>

  /** JavaScript truthiness of a value (`!!v`). */
  predicate Truthy(v: JsValue) {
    match v
    case JsNull => false
    case JsBool(b) => b
    case JsNumber(n) => n != 0.0
    case JsString(s) => s != ""
    case JsComposite => true
  }

  /** Truthiness of a possibly-`undefined` value. */
  predicate TruthyField(v: Option<JsValue>) {
    v.Some? && Truthy(v.value)
  }

  /** Truthiness of an optional string (`undefined` and `""` are falsy). */
  predicate TruthyText(s: Option<string>) {
    s.Some? && s.value != ""
  }

  /** Reading `obj[key]`. */
  function Get(obj: JsObject, key: string): (v: Option<JsValue>)
    ensures v.Some? <==> key in obj
    ensures v.Some? ==> v.value == obj[key]
  {
    if key in obj then Some(obj[key]) else None
  }

  /** `Number.isInteger(x)` for finite x. */
  predicate IsInteger(x: real) {
    x.Floor as real == x
  }
}
