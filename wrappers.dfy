/** Option, Outcome and Result: stand-ins for empty cells and for raised errors. */
module Wrappers {

  /** An optional value; `None` stands for an empty spreadsheet cell (pandas NaN). */
  datatype Option<+T> = None | Some(value: T)

  /** The outcome of a check that either passes or raises an error carrying `error`. */
  datatype Outcome<+E> = Pass | Fail(error: E)

  /** A value, or the error that was raised instead of producing it. */
  datatype Result<+T, +E> = Success(value: T) | Failure(error: E)
}
