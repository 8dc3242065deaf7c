/** Small failure-carrying datatypes shared by the other modules. */
module Wrappers {

  /** A value that may be absent. */
  datatype Option<+T> = None | Some(value: T)

  /** The outcome of an action that yields no value: it passes or fails with an error. */
  datatype Outcome<+E> = Pass | Fail(error: E)
}
