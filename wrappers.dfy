/** The Option and Result datatypes shared by the model. */
module Wrappers {

  /** A value that may be absent; used wherever the source returns `None`. */
  datatype Option<+T> = None | Some(value: T)

  /** The outcome of a computation that can fail with an error of type `E`. */
  datatype Result<+R, +E> = Ok(value: R) | Err(error: E)
}
