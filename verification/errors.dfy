/** The SDK's exception hierarchy. `AltPEError` is the base class; five
    subclasses refine it, and all but `ValidationError` keep the base
    constructor `(message, status_code=None)`. `ValidationError` takes
    `(message, errors=None)` instead and so never carries a status code. */
module Errors {
  import opened Outcomes
  import opened Json

  /** The concrete class of a raised SDK error; `Base` is `AltPEError` itself. */
  datatype ErrorClass = Base | Authentication | NotFound | Validation | RateLimit | Server

  /** An SDK exception object. `errors` is the attribute only
      `ValidationError` has; it is `None` for the other classes. */
  datatype AltPEError = AltPEError(
    cls: ErrorClass,
    message: string,
    statusCode: Option<int>,
    errors: Option<Json>)

  /** `AltPEException` is kept as another name for the same class. */
  type AltPEException = AltPEError

  /** `isinstance(e, cls)`: every class is a direct subclass of the base. */
  predicate IsInstance(e: AltPEError, cls: ErrorClass) {
    cls == Base || e.cls == cls
  }

  /** The inherited base constructor, shared by `AltPEError`,
      `AuthenticationError`, `NotFoundError`, `RateLimitError` and
      `ServerError`. */
  function NewError(cls: ErrorClass, message: string, statusCode: Option<int>): (e: AltPEError)
    requires cls != Validation
    ensures e.message == message && e.statusCode == statusCode
    ensures forall c: ErrorClass :: IsInstance(e, c) <==> c == Base || c == cls
    ensures !IsInstance(e, Validation)
  {
    AltPEError(cls, message, statusCode, None)
  }

  /** `ValidationError(message, errors)`: its second argument lands in
      `errors`, and the status code is always left at `None`. */
  function NewValidationError(message: string, errors: Option<Json>): (e: AltPEError)
    ensures e.message == message && e.errors == errors
    ensures e.statusCode.None?
    ensures IsInstance(e, Validation) && IsInstance(e, Base)
  {
    AltPEError(Validation, message, None, errors)
  }

  /** Anything an SDK call can raise: an SDK error, the constructor's
      `ValueError`, a failure to decode a success body (a JSON decode error
      or a pydantic validation error, neither of them an SDK error), or the
      `AttributeError` of reading `.value` from a plain string. */
  datatype Raised =
    | AltPE(err: AltPEError)
    | ValueError(msg: string)
    | DecodeError
    | AttributeError(attr: string)

  /** An `except cls:` clause catches the exception. */
  predicate Catches(cls: ErrorClass, x: Raised) {
    x.AltPE? && IsInstance(x.err, cls)
  }
}
