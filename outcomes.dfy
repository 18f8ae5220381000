/** The failures the chi-squared pipeline can raise, and a result type that
    carries either a value or one of them. */
module Outcomes {

  /** Python's `ZeroDivisionError`, the only exception the core raises on
      inputs it accepts. */
  datatype Error = DivisionByZero

  datatype Result<T> = Ok(value: T) | Err(error: Error)
}
