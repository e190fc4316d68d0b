/** Small datatypes shared by the other modules. */
module Prelude {

  /** A value that may be missing. */
  datatype Option<+T> = None | Some(value: T)

  /** A computed value or a thrown error. */
  datatype Result<+T, +E> = Ok(value: T) | Err(error: E)
}
