/** The conditions the core raises, and the wrappers that carry them. */
module Failures {

  /** The exception kinds that leave the core.  `ClosureThrew` stands for whatever a user
      closure throws: the core does not catch it, so it reaches the caller unchanged. */
  datatype Error = ForkFailure | MissingChild | ClosureThrew

  datatype Option<T> = None | Some(value: T)

  /** Either a value or the exception that was raised instead. */
  datatype Result<T> = Success(value: T) | Failure(error: Error)
}
