/** The optional value used throughout the model for JavaScript's `undefined`/`null`
    handler arguments and Java's `null` references. */
module Wrappers {

  datatype Option<+T> = None | Some(value: T)
}
