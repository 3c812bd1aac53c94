/** The exceptions the object layer raises, and the result types that carry them. */
module Errors {

  /** One constructor per exception the modelled code can raise. The
      JSS-specific ones carry the HTTP status code the transport saw; the
      Python built-in ones are raised by the library as a side effect of
      indexing, unpacking or attribute access on a missing element. */
  datatype Error =
    | MethodNotAllowed                 // JSSMethodNotAllowedError
    | UnsupportedSearch(query: string) // JSSUnsupportedSearchMethodError
    | GetError(status: int)            // JSSGetError
    | ParseFailure                     // JSSGetError on a body that is not XML
    | PutError(status: int)            // JSSPutError
    | PostError(status: int)           // JSSPostError
    | DeleteError(status: int)         // JSSDeleteError
    | KeyError(key: string)
    | ValueError
    | TypeError
    | IndexError
    | AttributeError
    | UnboundLocal                     // UnboundLocalError

  /** A value, or the exception raised instead of returning it. */
  datatype Result<+T> = Success(value: T) | Failure(error: Error) {

    predicate IsFailure() {
      Failure?
    }

    function PropagateFailure<U>(): Result<U>
      requires Failure?
    {
      Failure(error)
    }

    function Extract(): T
      requires Success?
    {
      value
    }
  }

  /** Completion of a call that returns nothing (Python's `None`), or its exception. */
  datatype Outcome = Pass | Fail(error: Error) {

    predicate IsFailure() {
      Fail?
    }

    function PropagateFailure(): Outcome
      requires Fail?
    {
      this
    }
  }
}
