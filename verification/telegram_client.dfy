/** The Telegram Bot API client: the `sendMessage` payload, and the
    classification of each HTTP outcome into success or exactly one
    `TelegramError`. The HTTP exchange itself is an oracle from request to
    response. */
module TelegramClient {
  import opened Wrappers
  import opened Text
  import opened JsonValues
  import opened TelegramErrors

  /** What the POST produced: a request failure before any response, or a
      response with its status, its body decoded by `resp.json()` (`None`
      when the body is not JSON) and its raw text. */
  datatype Response =
    | RequestFailed(message: string)
    | HttpResponse(statusCode: int, json: Option<Json>, text: string)

  /** One POST to the Bot API. */
  datatype Request = Request(url: string, payload: map<string, Json>)

  /** The arguments of `send_message`. `replyMarkup` is `JNull` for `None`. */
  datatype SendArgs = SendArgs(
    chatId: int,
    text: string,
    threadId: Option<int>,
    replyMarkup: Json,
    parseMode: Option<string>,
    disableWebPagePreview: bool)

  /** `send_message(chat_id, text)` with every keyword left at its default. */
  function DefaultSendArgs(chatId: int, text: string): SendArgs {
    SendArgs(chatId, text, None, JNull, Some("HTML"), true)
  }

  function MethodUrl(token: string, apiMethod: string): string {
    "https://api.telegram.org/bot" + token + "/" + apiMethod
  }

  /** The `sendMessage` body. `chat_id`, `text` and
      `disable_web_page_preview` are always present; `parse_mode` only when
      it is a non-empty string; `message_thread_id` only for a positive
      thread id; `reply_markup` only when it is not `None`. */
  function BuildPayload(a: SendArgs): (p: map<string, Json>)
    ensures p.Keys <= {"chat_id", "text", "disable_web_page_preview", "parse_mode", "message_thread_id", "reply_markup"}
    ensures "chat_id" in p && p["chat_id"] == JInt(a.chatId)
    ensures "text" in p && p["text"] == JStr(a.text)
    ensures "disable_web_page_preview" in p && p["disable_web_page_preview"] == JBool(a.disableWebPagePreview)
    ensures "parse_mode" in p <==> TruthyText(a.parseMode)
    ensures "parse_mode" in p ==> p["parse_mode"] == JStr(a.parseMode.value)
    ensures "message_thread_id" in p <==> a.threadId.Some? && a.threadId.value > 0
    ensures "message_thread_id" in p ==> p["message_thread_id"] == JInt(a.threadId.value)
    ensures "reply_markup" in p <==> a.replyMarkup != JNull
    ensures "reply_markup" in p ==> p["reply_markup"] == a.replyMarkup
  {
    var base := map[
      "chat_id" := JInt(a.chatId),
      "text" := JStr(a.text),
      "disable_web_page_preview" := JBool(a.disableWebPagePreview)];
    var withMode := if TruthyText(a.parseMode) then base["parse_mode" := JStr(a.parseMode.value)] else base;
    var withThread :=
      if a.threadId.Some? && a.threadId.value != 0 && a.threadId.value > 0
      then withMode["message_thread_id" := JInt(a.threadId.value)]
      else withMode;
    if a.replyMarkup != JNull then withThread["reply_markup" := a.replyMarkup] else withThread
  }

  /** The arguments with the values the payload drops replaced by what
      their absence means: no thread for a non-positive id, no parse mode
      for an empty one. */
  function Normalize(a: SendArgs): SendArgs {
    a.(threadId := if a.threadId.Some? && a.threadId.value > 0 then a.threadId else None,
       parseMode := if TruthyText(a.parseMode) then a.parseMode else None)
  }

  /** Reads a `sendMessage` body back into arguments. */
  function DecodePayload(p: map<string, Json>): Option<SendArgs> {
    if && "chat_id" in p && p["chat_id"].JInt?
       && "text" in p && p["text"].JStr?
       && "disable_web_page_preview" in p && p["disable_web_page_preview"].JBool?
       && ("message_thread_id" in p ==> p["message_thread_id"].JInt?)
       && ("parse_mode" in p ==> p["parse_mode"].JStr?)
    then
      Some(SendArgs(
        p["chat_id"].n,
        p["text"].s,
        if "message_thread_id" in p then Some(p["message_thread_id"].n) else None,
        Get(p, "reply_markup"),
        if "parse_mode" in p then Some(p["parse_mode"].s) else None,
        p["disable_web_page_preview"].b))
    else None
  }

  /** The payload carries every argument except the dropped ones. */
  lemma PayloadRoundTrip(a: SendArgs)
    ensures DecodePayload(BuildPayload(a)) == Some(Normalize(a))
  {
  }

  /** `_try_json`: the decoded body when it is a JSON object, else `None`. */
  function TryJson(json: Option<Json>): (d: Option<map<string, Json>>)
    ensures d.Some? <==> json.Some? && json.value.JObj?
    ensures d.Some? ==> json.value == JObj(d.value)
  {
    if json.Some? && json.value.JObj? then Some(json.value.fields) else None
  }

  /** The description `_raise_http_error` reports: the body's `description`
      when the body is a non-empty object and that value is truthy, else the
      raw text when non-empty, else `HTTP <status>`. */
  function HttpErrorDescription(statusCode: int, data: Option<map<string, Json>>, text: string): (desc: Json)
    ensures Truthy(desc)
    ensures data.Some? && |data.value| > 0 && Truthy(Get(data.value, "description")) ==>
      desc == Get(data.value, "description")
    ensures !(data.Some? && |data.value| > 0 && Truthy(Get(data.value, "description"))) && |text| > 0 ==>
      desc == JStr(text)
    ensures !(data.Some? && |data.value| > 0 && Truthy(Get(data.value, "description"))) && |text| == 0 ==>
      desc == JStr("HTTP " + IntToString(statusCode))
  {
    var fromBody := if data.Some? && |data.value| > 0 then Get(data.value, "description") else JNull;
    if Truthy(fromBody) then fromBody
    else if |text| > 0 then JStr(text)
    else JStr("HTTP " + IntToString(statusCode))
  }

  /** `_raise_http_error`: 429 is a rate limit, 500–599 a server error,
      403 forbidden, 404 not found, and every other status a bad request. */
  function HttpError(statusCode: int, data: Option<map<string, Json>>, text: string): (e: TelegramError)
    ensures e.RateLimited? <==> statusCode == 429
    ensures e.ServerError? <==> 500 <= statusCode <= 599
    ensures e.Forbidden? <==> statusCode == 403
    ensures e.NotFound? <==> statusCode == 404
    ensures e.BadRequest? <==> statusCode !in {429, 403, 404} && !(500 <= statusCode <= 599)
    ensures !e.ApiError? && !e.TransportError?
    ensures e.ServerError? ==> e.statusCode == statusCode && e.body == Some(text)
    ensures e.BadRequest? || e.Forbidden? || e.NotFound? ==>
      e.desc == HttpErrorDescription(statusCode, data, text)
    ensures e.RateLimited? ==>
      var params := if data.Some? && |data.value| > 0 then Get(data.value, "parameters") else JNull;
      e.retryAfter == (if params.JObj? then Get(params.fields, "retry_after") else JNull)
  {
    var desc := HttpErrorDescription(statusCode, data, text);
    var params := if data.Some? && |data.value| > 0 then Get(data.value, "parameters") else JNull;
    if statusCode == 429 then
      RateLimited(if Truthy(params) && params.JObj? then Get(params.fields, "retry_after") else JNull)
    else if 500 <= statusCode <= 599 then ServerError(statusCode, Some(text))
    else if statusCode == 400 then BadRequest(desc)
    else if statusCode == 403 then Forbidden(desc)
    else if statusCode == 404 then NotFound(desc)
    else BadRequest(desc)
  }

  /** An HTTP error is retryable exactly for 429 and the 5xx range, and
      non-retryable for every other status. */
  lemma HttpErrorRetryability(statusCode: int, data: Option<map<string, Json>>, text: string)
    ensures IsRetryable(HttpError(statusCode, data, text)) <==> statusCode == 429 || 500 <= statusCode <= 599
    ensures IsNonRetryable(HttpError(statusCode, data, text)) <==> !(statusCode == 429 || 500 <= statusCode <= 599)
  {
    var e := HttpError(statusCode, data, text);
    assert Classify(e) == Retryable <==> statusCode == 429 || 500 <= statusCode <= 599;
  }

  /** `_post` on the response it got. A request failure is a transport
      error; any status of 400 or more goes to `HttpError` whatever the body
      says; below 400 an object body with `ok` exactly `false` is an API
      error, a body that is not an object is a server error, and otherwise
      the body is returned. */
  function Post(resp: Response): (r: Result<map<string, Json>, TelegramError>)
    ensures resp.RequestFailed? ==> r == Failure(TransportError(resp.message))
    ensures resp.HttpResponse? && resp.statusCode >= 400 ==>
      r == Failure(HttpError(resp.statusCode, TryJson(resp.json), resp.text))
    ensures resp.HttpResponse? && resp.statusCode < 400 && TryJson(resp.json).None? ==>
      r == Failure(ServerError(resp.statusCode, Some(resp.text)))
    ensures r.Success? <==>
      && resp.HttpResponse? && resp.statusCode < 400
      && TryJson(resp.json).Some? && Get(TryJson(resp.json).value, "ok") != JBool(false)
    ensures r.Success? ==> resp.json == Some(JObj(r.value))
    ensures r.Failure? && r.error.ApiError? ==>
      && resp.HttpResponse? && resp.statusCode < 400 && TryJson(resp.json).Some?
      && var d := TryJson(resp.json).value;
      && var desc := Get(d, "description");
      && r.error == ApiError(
           PyStr(if Truthy(desc) then desc else JStr("Unknown Telegram error")),
           Get(d, "error_code"),
           Get(d, "parameters"))
  {
    match resp
    case RequestFailed(message) => Failure(TransportError(message))
    case HttpResponse(statusCode, json, text) =>
      var data := TryJson(json);
      if statusCode >= 400 then Failure(HttpError(statusCode, data, text))
      else if data.Some? && Get(data.value, "ok") == JBool(false) then
        var desc := Get(data.value, "description");
        Failure(ApiError(
          PyStr(if Truthy(desc) then desc else JStr("Unknown Telegram error")),
          Get(data.value, "error_code"),
          Get(data.value, "parameters")))
      else if data.None? then Failure(ServerError(statusCode, Some(text)))
      else Success(data.value)
  }

  /** A 400 whose body is not JSON is a bad request carrying the raw text,
      not a server error. */
  lemma NonJson400IsBadRequest(text: string)
    requires |text| > 0
    ensures Post(HttpResponse(400, None, text)) == Failure(BadRequest(JStr(text)))
  {
  }

  /** Only the literal `false` marks an API error: `"ok": 0` or a missing
      `ok` on an object body below 400 still succeeds. */
  lemma OkMustBeLiteralFalse(statusCode: int, d: map<string, Json>, text: string)
    requires statusCode < 400
    requires Get(d, "ok") in {JNull, JInt(0), JBool(true)}
    ensures Post(HttpResponse(statusCode, Some(JObj(d)), text)) == Success(d)
  {
  }

  /** The outcome of one `send_message` call: the request made and what
      `_post` turned the response into. */
  datatype Sent = Sent(request: Request, outcome: Result<map<string, Json>, TelegramError>)

  /** `send_message`: one POST of the built payload to `sendMessage`, the
      server's answer classified by `Post`. */
  function SendMessage(server: Request -> Response, token: string, a: SendArgs): (s: Sent)
    ensures s.request.url == MethodUrl(token, "sendMessage")
    ensures s.request.payload == BuildPayload(a)
    ensures s.outcome == Post(server(s.request))
  {
    var request := Request(MethodUrl(token, "sendMessage"), BuildPayload(a));
    Sent(request, Post(server(request)))
  }
}
