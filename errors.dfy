/**
 * What a formatter callback can raise. The first six constructors are the
 * client's own exception taxonomy (consul.exceptions); the rest are the
 * Python built-in exceptions that the callback bodies raise when the decoded
 * document does not have the shape a step expects.
 */
module Errors {

  datatype Exception =
    | BadRequest(message: string)
    | ACLDisabled(message: string)
    | ACLPermissionDenied(message: string)
    | NotFound(message: string)
    | ClientError(message: string)
    | ConsulException(message: string)
    | TypeError
    | AttributeError
    | KeyError
    | IndexError
    | ValueError
  {
    /** One of the kinds that `CB._status` derives from an HTTP status code. */
    predicate IsStatusError() {
      BadRequest? || ACLDisabled? || ACLPermissionDenied? || NotFound? || ClientError? || ConsulException?
    }
  }

  /** A call either returns a value or raises an exception; usable with `:-`. */
  datatype Outcome<+T> = Ok(value: T) | Raise(exception: Exception) {

    predicate IsFailure() {
      Raise?
    }

    function PropagateFailure<U>(): Outcome<U>
      requires Raise?
    {
      Raise(exception)
    }

    function Extract(): T
      requires Ok?
    {
      value
    }
  }
}
