/** The classified errors of the Telegram client and the retryability each
    one carries by its place in the exception hierarchy. */
module TelegramErrors {
  import opened Wrappers
  import opened Text
  import opened JsonValues
  import opened Exceptions

  /** One raised Telegram error. A description taken straight from a
      response body keeps its JSON value; `ApiError` holds it converted with
      `str()`. Absent optional values are `JNull`. */
  datatype TelegramError =
    | ApiError(description: string, errorCode: Json, parameters: Json)
    | RateLimited(retryAfter: Json)
    | BadRequest(desc: Json)
    | Forbidden(desc: Json)
    | NotFound(desc: Json)
    | ServerError(statusCode: int, body: Option<string>)
    | TransportError(message: string)

  /** The Python class of the raised object. */
  function ClassOf(e: TelegramError): ExcClass {
    match e
    case ApiError(_, _, _) => TelegramAPIError
    case RateLimited(_) => TelegramRateLimited
    case BadRequest(_) => TelegramBadRequest
    case Forbidden(_) => TelegramForbidden
    case NotFound(_) => TelegramNotFound
    case ServerError(_, _) => TelegramServerError
    case TransportError(_) => TelegramTransportError
  }

  /** `isinstance(e, TelegramRetryableError)`. */
  predicate IsRetryable(e: TelegramError) {
    IsSubclass(ClassOf(e), TelegramRetryableError)
  }

  /** `isinstance(e, TelegramNonRetryableError)`. */
  predicate IsNonRetryable(e: TelegramError) {
    IsSubclass(ClassOf(e), TelegramNonRetryableError)
  }

  datatype Retryability = Retryable | NonRetryable | Unclassified

  /** The retry class of each error, read off the exception hierarchy:
      rate limits, server and transport errors are retryable; bad request,
      forbidden and not found are not; the generic API error is neither,
      since it derives from `Exception` directly. */
  function Classify(e: TelegramError): (c: Retryability)
    ensures c == Retryable <==> IsRetryable(e)
    ensures c == NonRetryable <==> IsNonRetryable(e)
    ensures c == Unclassified <==> e.ApiError?
  {
    match e
    case RateLimited(_) => Retryable
    case ServerError(_, _) => Retryable
    case TransportError(_) => Retryable
    case BadRequest(_) => NonRetryable
    case Forbidden(_) => NonRetryable
    case NotFound(_) => NonRetryable
    case ApiError(_, _, _) => Unclassified
  }

  /** No error is both retryable and non-retryable. */
  lemma RetryClassesDisjoint(e: TelegramError)
    ensures !(IsRetryable(e) && IsNonRetryable(e))
  {
    RetryableBasesDisjoint(ClassOf(e));
  }

  /** `str(e)`. For the generic API error the code and a space precede the
      description exactly when a code is present. */
  function Describe(e: TelegramError): (text: string)
    ensures e.ApiError? && e.errorCode == JNull ==>
      text == "TelegramAPIError(" + e.description + ")"
    ensures e.ApiError? && e.errorCode != JNull ==>
      text == "TelegramAPIError(" + PyStr(e.errorCode) + " " + e.description + ")"
  {
    match e
    case ApiError(description, errorCode, _) =>
      var code := if errorCode != JNull then PyStr(errorCode) + " " else "";
      "TelegramAPIError(" + code + description + ")"
    case RateLimited(retryAfter) => "TelegramRateLimited(retry_after=" + PyStr(retryAfter) + ")"
    case BadRequest(description) => "TelegramBadRequest(" + PyStr(description) + ")"
    case Forbidden(description) => "TelegramForbidden(" + PyStr(description) + ")"
    case NotFound(description) => "TelegramNotFound(" + PyStr(description) + ")"
    case ServerError(statusCode, _) => "TelegramServerError(status_code=" + IntToString(statusCode) + ")"
    case TransportError(message) => "TelegramTransportError(" + message + ")"
  }
}
