/** The two result shapes the model needs: a value that may be missing, and a
    computation that may be refused with a reason. */
module Wrappers {
  datatype Option<+T> = None | Some(value: T)

  datatype Result<+T, +E> = Ok(value: T) | Err(error: E)
}
