/** Failure-carrying return values: the exceptions the Python code raises are
    modelled as values so that callers (and lemmas) see the error path. */
module Wrappers {

  datatype Option<+T> = None | Some(value: T)

  datatype Result<+T, +E> = Ok(value: T) | Err(error: E)

  /** Outcome of an operation that returns nothing but may raise. */
  datatype Outcome<+E> = Pass | Fail(error: E)

  /** The Python exception classes raised by the modelled code. */
  datatype PyError =
    | ValueError(message: string)
    | TypeError(message: string)
    | AttributeError(name: string)
    | Exception(message: string)
}
