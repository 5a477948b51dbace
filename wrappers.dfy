/** Plain result wrappers used across the model: an optional value, a value or an error,
    and the outcome of an operation that returns nothing (a C++ `void` that may throw).
    They are ordinary datatypes matched on explicitly; none of them is used with `:-`. */
module Wrappers {

  datatype Option<+T> = None | Some(value: T)

  datatype Result<+T, +E> = Ok(value: T) | Err(error: E)

  datatype Outcome<+E> = Pass | Fail(error: E)
}
