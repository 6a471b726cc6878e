/** Nullable values, the exceptions the system throws, and results that carry them. */
module Wrappers {

  /** A value that may be null. */
  datatype Option<+T> = None | Some(value: T)

  /** Why an InvalidOperationException is thrown. */
  datatype InvalidOperationReason =
    | BuildCalledTwice          // Build on a builder that was already built
    | ResolverReturnedNull      // a deferred factory resolver produced no factory
    | CreateBuilderNotCalled    // CreateServiceProvider before a factory was resolved
    | NullServiceProvider       // the factory produced no service provider

  /** The exceptions the modelled code throws or lets through. */
  datatype Exception =
    | ArgumentNull(paramName: string)
    | Argument(paramName: string)
    | InvalidOperation(reason: InvalidOperationReason)
    | InvalidCast
    | NullReference
    | NotImplemented
    | Raised(tag: nat)          // an exception thrown by user code: a callback or a driver

  /** A value, or the exception that was thrown instead of producing it. */
  datatype Result<+T> = Success(value: T) | Failure(error: Exception)

  /** Normal completion of a void operation, or the exception it threw. */
  datatype Outcome = Pass | Fail(error: Exception)
}
