/** Small value wrappers shared by the model. */
module Wrappers {

  /** An optional value; `None` stands for a Go `nil` interface value. */
  datatype Option<+T> = None | Some(value: T)

  /** The outcome of a check that returns a Go `error`: `Pass` is a `nil` error. */
  datatype Outcome<+E> = Pass | Fail(error: E)
}
