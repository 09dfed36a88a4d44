/** Everything a job handler can see raised: a classified Telegram error, a
    payload validation error, or any other Python exception by class. */
module Failures {
  import opened Exceptions
  import opened Entities
  import opened TelegramErrors

  datatype Exn =
    | Telegram(err: TelegramError)
    | Invalid(problems: ValidationError)
    | Raised(cls: ExcClass, message: string)

  function ExnClass(x: Exn): ExcClass {
    match x
    case Telegram(err) => TelegramErrors.ClassOf(err)
    case Invalid(_) => PydanticValidationError
    case Raised(cls, _) => cls
  }
}
