/** Nullable values and the one piece of JavaScript truthiness the store relies on. */
module Wrappers {

  /** A JavaScript value that may be `null` or `undefined` (both are `None`). */
  datatype Option<+T> = None | Some(value: T)

  /** `if (v)` on a nullable string: false for `null`, `undefined` and the empty string. */
  predicate Truthy(v: Option<string>) {
    v.Some? && v.value != ""
  }
}
