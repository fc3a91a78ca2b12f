/** The two failure-carrying datatypes used throughout the model: a Python value
    that may be `None`, and an operation that returns a value or raises. */
module Outcomes {

  datatype Option<+T> = None | Some(value: T)

  datatype Result<+T, +E> = Ok(value: T) | Err(error: E)
}
