/** The Python exception classes the worker raises or catches, with their
    base classes. `except C` and `isinstance(x, C)` both test `IsSubclass`. */
module Exceptions {
  import opened Wrappers

  datatype ExcClass =
    | BaseException
    | Exception
    | ValueError
    | LookupError
    | KeyError
    | TypeError
    | PydanticValidationError
    | HttpxError
    | CloudinaryError
    | BotocoreError
    | TelegramAPIError
    | TelegramRetryableError
    | TelegramNonRetryableError
    | TelegramRateLimited
    | TelegramBadRequest
    | TelegramForbidden
    | TelegramNotFound
    | TelegramServerError
    | TelegramTransportError

  /** Distance from `BaseException`; strictly decreases towards the root. */
  function Depth(c: ExcClass): nat {
    match c
    case BaseException => 0
    case Exception => 1
    case KeyError | PydanticValidationError => 3
    case TelegramRateLimited | TelegramServerError | TelegramTransportError => 3
    case TelegramBadRequest | TelegramForbidden | TelegramNotFound => 3
    case _ => 2
  }

  /** The direct base class. */
  function Parent(c: ExcClass): (p: Option<ExcClass>)
    ensures p.None? <==> c == BaseException
    ensures p.Some? ==> Depth(p.value) < Depth(c)
  {
    match c
    case BaseException => None
    case Exception => Some(BaseException)
    case KeyError => Some(LookupError)
    case PydanticValidationError => Some(ValueError)
    case TelegramRateLimited | TelegramServerError | TelegramTransportError =>
      Some(TelegramRetryableError)
    case TelegramBadRequest | TelegramForbidden | TelegramNotFound =>
      Some(TelegramNonRetryableError)
    case _ => Some(Exception)
  }

  /** `issubclass(c, d)`. */
  predicate IsSubclass(c: ExcClass, d: ExcClass)
    decreases Depth(c)
  {
    c == d || (Parent(c).Some? && IsSubclass(Parent(c).value, d))
  }

  /** Every class the worker meets except the root is an `Exception`, so a
      bare `except Exception` catches all of them. */
  lemma AllAreExceptions(c: ExcClass)
    requires c != BaseException
    ensures IsSubclass(c, Exception)
  {
  }

  /** No class is both retryable and non-retryable: the two Telegram bases are
      siblings under `Exception`. */
  lemma RetryableBasesDisjoint(c: ExcClass)
    ensures !(IsSubclass(c, TelegramRetryableError) && IsSubclass(c, TelegramNonRetryableError))
  {
  }
}
