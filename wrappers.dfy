/** Failure-carrying values that stand in for the exceptions the Python kernel raises. */
module Wrappers {

  /** The Python exception classes the kernel raises or lets escape. */
  datatype Error =
    | TypeError
    | ValueError
    | KeyError
    | AttributeError
    | RuntimeError
    | ZeroDivisionError
    | IndexError

  datatype Option<T> = None | Some(value: T)

  /** A call that returns a value or raises. */
  datatype Result<T> = Ok(value: T) | Err(error: Error)

  /** A call that returns nothing or raises. */
  datatype Outcome = Pass | Fail(error: Error)
}
