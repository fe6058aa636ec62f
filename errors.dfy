/** The three domain error classes and the helper that re-raises an error
    under one of them (src/utils/errors/errors.ts). */
module Errors {
  import opened Wrappers

  /** One entry of an `InvalidInputError`: which input failed and why. */
  datatype FieldError = FieldError(field: string, message: string)

  /** The domain error classes; none extends another. */
  datatype ErrorClass = NotFoundError | UnknownError | InvalidInputError

  /** A thrown value. `Other` is any error that is not an instance of the
      three domain classes (a plain `Error`, a `TypeError`, ...). */
  datatype Error =
    | NotFound(message: string, cause: Option<Error>)
    | Unknown(message: string, cause: Option<Error>)
    | InvalidInput(message: string, validations: seq<FieldError>, cause: Option<Error>)
    | Other(name: string, message: string)

  /** The class an error was constructed with, if it is a domain error. */
  function ClassOf(e: Error): Option<ErrorClass> {
    match e
    case NotFound(_, _) => Some(NotFoundError)
    case Unknown(_, _) => Some(UnknownError)
    case InvalidInput(_, _, _) => Some(InvalidInputError)
    case Other(_, _) => None
  }

  /** `e instanceof C` for a domain class `C`. */
  predicate InstanceOf(e: Error, c: ErrorClass) {
    ClassOf(e) == Some(c)
  }

  /** No error is an instance of two different domain classes. */
  lemma InstanceOfUnique(e: Error, c1: ErrorClass, c2: ErrorClass)
    requires InstanceOf(e, c1) && InstanceOf(e, c2)
    ensures c1 == c2
  {
  }

  /** `new Error()`: the default cause of an `InvalidInputError`. */
  const PlainError: Error := Other("Error", "")

  /** `new NotFoundError(message)` / `new UnknownError(message)`: no cause. */
  function NewNotFoundError(message: string): (e: Error)
    ensures InstanceOf(e, NotFoundError) && e.message == message && e.cause.None?
  {
    NotFound(message, None)
  }

  function NewUnknownError(message: string): (e: Error)
    ensures InstanceOf(e, UnknownError) && e.message == message && e.cause.None?
  {
    Unknown(message, None)
  }

  /** `new InvalidInputError(message, validations)`: keeps both arguments as
      given and takes a fresh plain `Error` as its cause. */
  function NewInvalidInputError(message: string, validations: seq<FieldError>): (e: Error)
    ensures InstanceOf(e, InvalidInputError)
    ensures e.message == message && e.validations == validations
    ensures e.cause == Some(PlainError)
  {
    InvalidInput(message, validations, Some(PlainError))
  }

  /** `newErrorWithCause(C)(e)`: an error of class `C` with `e`'s message and
      `e` as its cause. Only the classes whose constructor takes
      `(message, { cause })` are meant. */
  function NewErrorWithCause(c: ErrorClass, e: Error): (r: Error)
    requires c != InvalidInputError
    ensures InstanceOf(r, c)
    ensures r.message == e.message
    ensures r.cause == Some(e)
  {
    if c.NotFoundError? then NotFound(e.message, Some(e)) else Unknown(e.message, Some(e))
  }
}
