/** The optional value used throughout the model in place of JavaScript's `null`/`undefined`. */
module Wrappers {

  datatype Option<+T> = None | Some(value: T)

  /** The outcome of one storage read or write. */
  datatype IoOutcome = Succeeded | Failed
}
