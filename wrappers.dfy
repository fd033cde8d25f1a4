/** The optional value used where the TypeScript code has `undefined` or `null`. */
module Wrappers {

  datatype Option<+T> = None | Some(value: T)

  /**
   * JavaScript truthiness of an optional string field: `undefined`, `null` and
   * the empty string are falsy, every other string is truthy.
   */
  predicate Truthy(s: Option<string>)
  {
    s.Some? && s.value != ""
  }
}
