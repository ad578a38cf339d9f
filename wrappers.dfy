/** Failure-carrying results shared by the models: `None` stands for Python's `None`,
    `Err` and `Fail` for an exception the source raises. */
module Wrappers {

  datatype Option<+T> = None | Some(value: T)

  datatype Result<+T, +E> = Ok(value: T) | Err(error: E)

  /** The outcome of an operation that returns nothing unless it raises. */
  datatype Outcome<+E> = Pass | Fail(error: E)
}
