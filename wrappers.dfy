/** Optional values, standing for the source's `null`/`undefined`/`None`. */
module Wrappers {
  datatype Option<+T> = None | Some(value: T)

  /**
   * Truthiness of an optional string, the same in JavaScript and Python:
   * present and non-empty.
   */
  predicate Truthy(s: Option<string>)
  {
    s.Some? && s.value != ""
  }
}
