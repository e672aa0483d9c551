/** JavaScript values that may be `null`. */
module Wrappers {

  datatype Option<T> = None | Some(value: T)

  /** JavaScript truthiness of a string that may be `null`: neither `null` nor `""`. */
  predicate Truthy(s: Option<string>) {
    s.Some? && s.value != ""
  }
}
