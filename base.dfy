/** Shared vocabulary of the model: optional values (Python's `None`), the
    exceptions the service raises, results that carry either a value or the
    exception, `Decimal` as its coefficient/exponent pair, and the values a
    Python `dict[str, any]` holds in this code base. */
module Base {

  /** `None` or a value. */
  datatype Option<+T> = None | Some(value: T)

  /** The exception kinds the modelled code raises or lets through. The
      message is kept where the source fixes it, so that "which check failed
      first" is observable. */
  datatype Error =
    | ValueError(message: string)
    | TypeError(message: string)
    | AttributeError(message: string)
    | KeyError(key: string)
    | IndexError(message: string)
    | InvalidParameterError(message: string)
    | CredentialNotInJwtError(message: string)
    | JwtError(message: string)
    | CosmosHttpResponseError(status: int, message: string)
    | HttpException(status: int, detail: string)

  /** A call that returns a value or raises an exception. */
  datatype Result<+T> = Success(value: T) | Failure(error: Error) {
    predicate IsFailure() { Failure? }

    function PropagateFailure<U>(): Result<U>
      requires Failure?
    {
      Failure(error)
    }

    function Extract(): T
      requires Success?
    {
      value
    }
  }

  /** A check that returns nothing or raises an exception. */
  datatype Check = Pass | Fail(error: Error) {
    predicate IsFailure() { Fail? }

    function PropagateFailure<U>(): Result<U>
      requires Fail?
    {
      Failure(error)
    }
  }

  /** Python's `Decimal`, as the coefficient and exponent of its `as_tuple()`:
      `Decimal("1000.00")` is `Decimal(100000, -2)`. */
  datatype Decimal = Decimal(coefficient: int, exponent: int)

  /** A value held in a Python dictionary of this code base; `DateTime` is a
      point in time in whole seconds. */
  datatype Value =
    | Null
    | Bool(b: bool)
    | Int(i: int)
    | Str(s: string)
    | Dec(d: Decimal)
    | DateTime(seconds: int)
}
