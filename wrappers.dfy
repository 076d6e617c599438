/** Option and Result, the two failure-carrying values the model uses for
    Python's None and for exceptions raised by the workflow. */
module Wrappers {

  datatype Option<+T> = None | Some(value: T)

  datatype Result<+T, +E> = Ok(value: T) | Err(error: E)
}
