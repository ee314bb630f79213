/** Absent values and fallible results. */
module Wrappers {

  /** A cell that may be absent (pandas fills such a cell with NaN). */
  datatype Option<+T> = None | Some(value: T)

  /** The result of a step that can raise. */
  datatype Result<+T, +E> = Ok(value: T) | Err(error: E)

}
