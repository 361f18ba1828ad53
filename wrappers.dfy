/** The Option type used for JavaScript's "missing / not a finite number" and for `null`. */
module Wrappers {
  datatype Option<+T> = None | Some(value: T)
}
