/** The optional-value datatype used for JavaScript's `undefined`/`null` slots. */
module Wrappers {
  datatype Option<+T> = None | Some(value: T)
}
