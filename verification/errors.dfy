/** The two Python exceptions the sensor loop can raise, and a result type
    that carries either a value or one of them. */
module Errors {

  /** `ZeroDivisionError` from `calcAvg` on an empty list; `TypeError` from
      concatenating a `str` with a number. */
  datatype PyError = ZeroDivisionError | TypeError

  datatype Result<T> = Ok(value: T) | Err(error: PyError)
}
