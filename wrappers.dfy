/** The option type standing for JavaScript's `null`-or-value. */
module Wrappers {
  datatype Option<+T> = None | Some(value: T)
}
