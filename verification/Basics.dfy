/** Small datatypes shared by every module. */
module Basics {

  /** A nullable column or an optional answer. */
  datatype Option<+T> = None | Some(value: T)

  /** A normal return, or the error the source raises. */
  datatype Result<+T, +E> = Ok(value: T) | Err(error: E)
}
