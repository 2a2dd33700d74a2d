/** Option and Outcome, used for values the source may leave undefined and for
    the errors its lifecycle methods throw. */
module Wrappers {

  datatype Option<+T> = None | Some(value: T)

  /** The result of an operation that either completes or throws with a message. */
  datatype Outcome<+E> = Pass | Fail(error: E)
}
