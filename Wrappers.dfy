/** Option and Result values shared by every module of the model. */
module Wrappers {

  datatype Option<+T> = None | Some(value: T)

  /** The outcome of an operation that may raise: `Err` stands for the exception. */
  datatype Result<+T, +E> = Ok(value: T) | Err(error: E)

  /** The Python exception classes the handlers can raise on malformed input. */
  datatype PyError = TypeError | IndexError | KeyError | AttributeError | ValueError | OverflowError

  /** The outcome of a call into a service that may raise. */
  datatype CallOutcome = Succeeded | Raised(message: string)
}
