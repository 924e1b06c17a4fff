/** Value wrappers shared by every module of the dashboard model. */
module Common {

  /** A JavaScript value that may be `null`/`undefined` (None) or present. */
  datatype Option<+T> = None | Some(value: T)

  /** The outcome of a step that either yields a value or throws an `Error` with a message. */
  datatype Result<+T, +E> = Success(value: T) | Failure(error: E)

  /** How an awaited axios promise settled: with a value, or with a rejection whose
      `message` property may be missing (None). */
  datatype Settled<+T> = Fulfilled(value: T) | Rejected(message: Option<string>)

  /** A JSON scalar as JavaScript sees it (numbers are modelled as integers). */
  datatype JsValue = JsString(s: string) | JsBool(b: bool) | JsNumber(n: int) | JsNull | JsUndefined

  /** JavaScript truthiness of a scalar. */
  predicate Truthy(v: JsValue)
  {
    match v
    case JsString(s) => s != ""
    case JsBool(b) => b
    case JsNumber(n) => n != 0
    case JsNull => false
    case JsUndefined => false
  }

  /** `msg || fallback` for an optional message: a missing or empty message gives the fallback. */
  function MessageOr(msg: Option<string>, fallback: string): (r: string)
    ensures msg.Some? && msg.value != "" ==> r == msg.value
    ensures msg.None? || msg.value == "" ==> r == fallback
  {
    match msg
    case Some(m) => if m != "" then m else fallback
    case None => fallback
  }
}
