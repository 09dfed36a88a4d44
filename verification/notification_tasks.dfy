/** The two notification tasks: validate the payload, dispatch, and map
    whatever was raised to Celery's verdict. The administrators' task
    retries only transient Telegram failures; the customer's task retries
    every exception. */
module NotificationTasks {
  import opened Wrappers
  import opened JsonValues
  import opened Exceptions
  import opened Entities
  import opened WorkerSettings
  import opened TelegramErrors
  import opened TelegramClient
  import opened Failures
  import opened Dispatcher
  import opened CeleryRetries

  const MaxRetries: nat := 5
  const Countdown: int := 10

  /** One attempt of a task: the Telegram requests it made and what it
      raised, if anything. */
  datatype Attempt = Attempt(requests: seq<Request>, raised: Option<Exn>)

  function Raise(err: Option<TelegramError>): Option<Exn> {
    if err.Some? then Some(Telegram(err.value)) else None
  }

  /** The `try` body of `send_notification_order_admin`. */
  function AdminAttempt(payload: map<string, Json>, s: Settings, server: Request -> Response): (a: Attempt)
    ensures ValidateOrder(payload).Failure? ==> a == Attempt([], Some(Invalid(ValidateOrder(payload).error)))
    ensures ValidateOrder(payload).Success? ==>
      var d := DispatchAdmin(ValidateOrder(payload).value, s, server);
      a.requests == d.requests && (a.raised.Some? <==> d.raised.Some?) &&
      (a.raised.Some? ==> a.raised.value == Telegram(d.raised.value))
  {
    var v := ValidateOrder(payload);
    if v.Failure? then Attempt([], Some(Invalid(v.error)))
    else
      var d := DispatchAdmin(v.value, s, server);
      Attempt(d.requests, Raise(d.raised))
  }

  /** The `try` body of `send_notification_order_user`. */
  function UserAttempt(payload: map<string, Json>, s: Settings, server: Request -> Response): (a: Attempt)
    ensures ValidateOrder(payload).Failure? ==> a == Attempt([], Some(Invalid(ValidateOrder(payload).error)))
    ensures ValidateOrder(payload).Success? ==>
      var d := DispatchUser(ValidateOrder(payload).value, s, server);
      a.requests == d.requests && (a.raised.Some? <==> d.raised.Some?) &&
      (a.raised.Some? ==> a.raised.value == Telegram(d.raised.value))
  {
    var v := ValidateOrder(payload);
    if v.Failure? then Attempt([], Some(Invalid(v.error)))
    else
      var d := DispatchUser(v.value, s, server);
      Attempt(d.requests, Raise(d.raised))
  }

  /** The `except` clauses of `send_notification_order_admin`: a broken
      payload fails at once, a retryable Telegram error is retried after
      10 seconds up to 5 times, anything else fails. */
  function AdminVerdict(raised: Option<Exn>, retries: nat): (v: Verdict)
    ensures raised.None? <==> v.Done?
    ensures v.Retry? <==> raised.Some? && IsSubclass(ExnClass(raised.value), TelegramRetryableError) && retries < MaxRetries
    ensures v.Retry? ==> v == Retry(Fixed(Countdown), raised.value)
    ensures v.Fail? ==> v.exc == raised.value
  {
    if raised.None? then Done
    else if IsSubclass(ExnClass(raised.value), PydanticValidationError) then Fail(raised.value)
    else if IsSubclass(ExnClass(raised.value), TelegramRetryableError)
    then CeleryRetry(retries, MaxRetries, raised.value, Fixed(Countdown))
    else Fail(raised.value)
  }

  /** The `except Exception` clause of `send_notification_order_user`:
      every exception is retried after 10 seconds up to 5 times. */
  function UserVerdict(raised: Option<Exn>, retries: nat): (v: Verdict)
    ensures raised.None? <==> v.Done?
    ensures v.Retry? <==> raised.Some? && ExnClass(raised.value) != BaseException && retries < MaxRetries
    ensures v.Retry? ==> v == Retry(Fixed(Countdown), raised.value)
    ensures v.Fail? ==> v.exc == raised.value
  {
    if raised.None? then Done
    else if IsSubclass(ExnClass(raised.value), Exception)
    then CeleryRetry(retries, MaxRetries, raised.value, Fixed(Countdown))
    else Fail(raised.value)
  }

  /** `send_notification_order_admin`, attempt number `retries`. */
  function SendNotificationOrderAdmin(payload: map<string, Json>, s: Settings, server: Request -> Response,
                                      retries: nat): (r: (Attempt, Verdict))
    ensures r.0 == AdminAttempt(payload, s, server)
    ensures r.1 == AdminVerdict(r.0.raised, retries)
    ensures ValidateOrder(payload).Failure? ==>
      r.0.requests == [] && r.1 == Fail(Invalid(ValidateOrder(payload).error))
    ensures r.1.Done? <==>
      ValidateOrder(payload).Success? && DispatchAdmin(ValidateOrder(payload).value, s, server).raised.None?
  {
    var a := AdminAttempt(payload, s, server);
    (a, AdminVerdict(a.raised, retries))
  }

  /** `send_notification_order_user`, attempt number `retries`. */
  function SendNotificationOrderUser(payload: map<string, Json>, s: Settings, server: Request -> Response,
                                     retries: nat): (r: (Attempt, Verdict))
    ensures r.0 == UserAttempt(payload, s, server)
    ensures r.1 == UserVerdict(r.0.raised, retries)
    ensures ValidateOrder(payload).Failure? ==>
      r.0.requests == [] && (r.1.Retry? <==> retries < MaxRetries) && !r.1.Done?
    ensures r.1.Done? <==>
      ValidateOrder(payload).Success? && DispatchUser(ValidateOrder(payload).value, s, server).raised.None?
  {
    var a := UserAttempt(payload, s, server);
    (a, UserVerdict(a.raised, retries))
  }

  /** An admin attempt is retried exactly when the payload is valid, the
      send failed with a rate limit, a server error or a transport error,
      and retries remain. */
  lemma AdminRetriesExactlyTransient(payload: map<string, Json>, s: Settings, server: Request -> Response, retries: nat)
    ensures SendNotificationOrderAdmin(payload, s, server, retries).1.Retry? <==>
      && ValidateOrder(payload).Success?
      && DispatchAdmin(ValidateOrder(payload).value, s, server).raised.Some?
      && Classify(DispatchAdmin(ValidateOrder(payload).value, s, server).raised.value) == Retryable
      && retries < MaxRetries
  {
  }

  /** A payload that fails validation makes no request and is never retried
      by the administrators' task. */
  lemma AdminInvalidPayloadFailsAtOnce(payload: map<string, Json>, s: Settings, server: Request -> Response, retries: nat)
    requires ValidateOrder(payload).Failure?
    ensures SendNotificationOrderAdmin(payload, s, server, retries) ==
      (Attempt([], Some(Invalid(ValidateOrder(payload).error))), Fail(Invalid(ValidateOrder(payload).error)))
  {
  }

  /** The customer's task, by contrast, retries an invalid payload like any
      other exception while retries remain. */
  lemma UserInvalidPayloadRetried(payload: map<string, Json>, s: Settings, server: Request -> Response, retries: nat)
    requires ValidateOrder(payload).Failure?
    ensures SendNotificationOrderUser(payload, s, server, retries).1 ==
      if retries < MaxRetries then Retry(Fixed(Countdown), Invalid(ValidateOrder(payload).error))
      else Fail(Invalid(ValidateOrder(payload).error))
  {
  }

  /** A customer who cannot be messaged (blocked bot, unknown chat, bad
      request) ends the customer's task successfully. */
  lemma UserNonRetryableIsDone(payload: map<string, Json>, s: Settings, server: Request -> Response, retries: nat)
    requires ValidateOrder(payload).Success?
    requires var d := DispatchUser(ValidateOrder(payload).value, s, server);
             |d.requests| == 1 && Post(server(d.requests[0])).Failure? &&
             IsNonRetryable(Post(server(d.requests[0])).error)
    ensures SendNotificationOrderUser(payload, s, server, retries).1 == Done
  {
  }

  /** Neither policy retries past attempt 5, so each task runs at most six
      times. */
  lemma PoliciesBounded(raised: Option<Exn>, retries: nat)
    ensures AdminVerdict(raised, retries).Retry? ==> retries < MaxRetries
    ensures UserVerdict(raised, retries).Retry? ==> retries < MaxRetries
  {
  }

  /** The whole life of the administrators' task, `attempt(k)` being what
      its `k`-th attempt raised: at most six attempts, all but the last
      retried, the last judged by the task's own `except` clauses. */
  method RunAdminTask(attempt: nat -> Option<Exn>) returns (attempts: nat, final: Verdict)
    ensures 1 <= attempts <= MaxRetries + 1
    ensures final == AdminVerdict(attempt(attempts - 1), attempts - 1) && !final.Retry?
    ensures forall k: nat | k < attempts - 1 ::
      attempt(k).Some? && IsSubclass(ExnClass(attempt(k).value), TelegramRetryableError)
  {
    attempts, final := Drive(AdminVerdict, MaxRetries, attempt);
  }

  /** The whole life of the customer's task. */
  method RunUserTask(attempt: nat -> Option<Exn>) returns (attempts: nat, final: Verdict)
    ensures 1 <= attempts <= MaxRetries + 1
    ensures final == UserVerdict(attempt(attempts - 1), attempts - 1) && !final.Retry?
    ensures forall k: nat | k < attempts - 1 :: attempt(k).Some?
  {
    attempts, final := Drive(UserVerdict, MaxRetries, attempt);
  }
}
