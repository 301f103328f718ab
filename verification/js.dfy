/** The JavaScript values the route compiler inspects, and the truthiness test it applies to them. */
module Js {

  /** A value that is either missing (`undefined` or `null`: None) or present (Some). */
  datatype Option<+T> = None | Some(value: T)

  /** A string-typed JavaScript value that may also be `null` or `undefined`. */
  type JsString = Option<string>

  /** JavaScript truthiness of a string-or-nullish value: only a non-empty string is truthy. */
  predicate Truthy(s: JsString) {
    s.Some? && s.value != ""
  }
}
