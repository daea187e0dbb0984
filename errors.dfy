/** The exceptions the core raises, and the shapes its operations return them in. */
module Errors {

  /** The Python exceptions raised by `Architect` and `FeedbackLoop`, with their messages. */
  datatype Error =
    | ValueError(message: string)
    | KeyError(message: string)
    | RuntimeError(message: string)

  /** The result of an operation that returns `None` or raises. */
  datatype Outcome = Pass | Fail(error: Error)

  /** The result of an operation that returns a value or raises. */
  datatype Result<T> = Ok(value: T) | Err(error: Error)

  /**
   * An argument that the callee checks with `isinstance`: either an instance of
   * the expected class, or some other object.
   */
  datatype Candidate<T> = Instance(value: T) | NotInstance
}
