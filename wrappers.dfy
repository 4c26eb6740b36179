/** Option for the source's nullable values and Outcome for a call that either
    completes or throws an exception before changing anything. */
module Wrappers {

  datatype Option<+T> = None | Some(value: T)

  datatype Outcome<+E> = Pass | Fail(error: E)
}
