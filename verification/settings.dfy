/** Worker-wide configuration: the Redis/Celery connection strings with
    their fallbacks, and the values the handlers read (admin chat, bot token). */
module WorkerSettings {
  import opened Wrappers
  import opened Text
  import opened JsonValues

  /** The recognised options the modelled handlers use; credentials of the
      storage, transform and metadata services are not part of this record. */
  datatype Settings = Settings(
    redisHost: string,
    redisPort: int,
    redisBrokerDb: int,
    redisBackendDb: int,
    celeryBrokerUrl: Option<string>,
    celeryResultBackend: Option<string>,
    celeryQueue: string,
    celeryVisibilityTimeout: int,
    telegramBotToken: string,
    adminChatId: int)

  /** The settings when the environment supplies only the required values. */
  function Defaults(telegramBotToken: string, adminChatId: int): (s: Settings)
    ensures s.redisHost == "localhost" && s.redisPort == 6379
    ensures s.redisBrokerDb == 0 && s.redisBackendDb == 1
    ensures s.celeryBrokerUrl.None? && s.celeryResultBackend.None?
    ensures s.celeryQueue == "notifications" && s.celeryVisibilityTimeout == 1800
  {
    Settings("localhost", 6379, 0, 1, None, None, "notifications", 60 * 30, telegramBotToken, adminChatId)
  }

  function RedisUrl(host: string, port: int, db: int): string {
    "redis://" + host + ":" + IntToString(port) + "/" + IntToString(db)
  }

  /** `broker_url`: the explicit override when it is a non-empty string, else
      the Redis URL composed from host, port and broker database. */
  function BrokerUrl(s: Settings): (url: string)
    ensures TruthyText(s.celeryBrokerUrl) ==> url == s.celeryBrokerUrl.value
    ensures !TruthyText(s.celeryBrokerUrl) ==> url == RedisUrl(s.redisHost, s.redisPort, s.redisBrokerDb)
  {
    if TruthyText(s.celeryBrokerUrl) then s.celeryBrokerUrl.value
    else RedisUrl(s.redisHost, s.redisPort, s.redisBrokerDb)
  }

  /** `result_backend_url`: the same fallback with the backend database. */
  function ResultBackendUrl(s: Settings): (url: string)
    ensures TruthyText(s.celeryResultBackend) ==> url == s.celeryResultBackend.value
    ensures !TruthyText(s.celeryResultBackend) ==> url == RedisUrl(s.redisHost, s.redisPort, s.redisBackendDb)
  {
    if TruthyText(s.celeryResultBackend) then s.celeryResultBackend.value
    else RedisUrl(s.redisHost, s.redisPort, s.redisBackendDb)
  }

  /** The database number is the composed URL's last path segment, and it
      reads back as the same number. */
  lemma RedisUrlDatabase(host: string, port: int, db: int)
    ensures BaseName(RedisUrl(host, port, db)) == IntToString(db)
    ensures ParseInt(BaseName(RedisUrl(host, port, db))) == Some(db)
  {
    var dir := "redis://" + host + ":" + IntToString(port);
    assert RedisUrl(host, port, db) == dir + "/" + IntToString(db);
    SplitAtLastSlash(dir, IntToString(db));
    IntToStringRoundTrip(db);
  }

  /** Without overrides, broker and result backend share a URL only when
      they name the same database. */
  lemma ComposedUrlsDistinct(s: Settings)
    requires !TruthyText(s.celeryBrokerUrl) && !TruthyText(s.celeryResultBackend)
    ensures BrokerUrl(s) == ResultBackendUrl(s) <==> s.redisBrokerDb == s.redisBackendDb
  {
    RedisUrlDatabase(s.redisHost, s.redisPort, s.redisBrokerDb);
    RedisUrlDatabase(s.redisHost, s.redisPort, s.redisBackendDb);
  }

  /** An empty override is ignored, exactly like a missing one. */
  lemma EmptyOverrideFallsBack(s: Settings)
    requires s.celeryBrokerUrl == Some("")
    ensures BrokerUrl(s) == BrokerUrl(s.(celeryBrokerUrl := None))
  {
  }

  /** With defaults the broker is database 0 and the backend database 1 of
      the local Redis. */
  lemma DefaultUrls(token: string, adminChatId: int)
    ensures BrokerUrl(Defaults(token, adminChatId)) == "redis://localhost:6379/0"
    ensures ResultBackendUrl(Defaults(token, adminChatId)) == "redis://localhost:6379/1"
  {
    DefaultPortText();
    assert IntToString(0) == "0" && IntToString(1) == "1";
  }

  /** The decimal text of the default Redis port. */
  lemma DefaultPortText()
    ensures IntToString(6379) == "6379"
  {
    assert NatToDigits(6) == "6";
    assert NatToDigits(63) == "63";
    assert NatToDigits(637) == "637";
  }
}
