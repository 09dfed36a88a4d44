/** Routing of one order event to the administrators' chat and to the
    customer: which text, which keyboard, which chat and thread, and which
    Telegram failures reach the caller. */
module Dispatcher {
  import opened Wrappers
  import opened Text
  import opened JsonValues
  import opened Enums
  import opened Entities
  import opened WorkerSettings
  import opened TelegramErrors
  import opened TelegramModels
  import opened Keyboards
  import opened TelegramClient
  import opened Templates

  /** `_is_new_order`: the event announces a new order exactly when it moves
      from `created` to `created`. */
  predicate IsNewOrder(e: OrderEntity)
    ensures IsNewOrder(e) <==> StatusName(e.oldStatus) == "created" && StatusName(e.newStatus) == "created"
  {
    StatusRoundTrip(e.oldStatus);
    StatusRoundTrip(e.newStatus);
    e.oldStatus == Created && e.newStatus == Created
  }

  /** `_render_admin_message_and_markup`'s text. */
  function AdminText(e: OrderEntity): (text: string)
    ensures IsNewOrder(e) ==> IsPrefix("<b>Новый заказ</b>", text)
    ensures !IsNewOrder(e) ==> IsPrefix("✅ <b>Статус заказа обновлён</b>\n", text)
    ensures IsInfix(e.orderId, text)
  {
    AdminTextsContainOrderId(e);
    if IsNewOrder(e) then RenderOrderMessageAdmin(e) else NotifyUpdateStatusOrderAdmin(e)
  }

  /** `_render_user_message_and_markup`'s text. */
  function UserText(e: OrderEntity): (text: string)
    ensures IsNewOrder(e) ==> IsPrefix("✅ <b>Заказ #" + e.orderId + " создан</b>", text)
    ensures !IsNewOrder(e) ==> IsPrefix("🔔 <b>Обновление по заказу #" + e.orderId + "</b>", text)
    ensures IsInfix(e.orderId, text)
  {
    UserTextsContainOrderId(e);
    if IsNewOrder(e) then NotifyNewOrderUser(e) else NotifyUpdateStatusOrderUser(e)
  }

  /** The first character of each text tells which kind of notification it
      is: for the administrators "<" (bold title) for a new order and "✅"
      for a status change. */
  lemma AdminTextKind(e: OrderEntity)
    ensures |AdminText(e)| > 0
    ensures AdminText(e)[0] == '<' <==> IsNewOrder(e)
  {
    JoinStartsWithFirst(AdminNewOrderLines(e), "\n");
    JoinStartsWithFirst(AdminUpdateLines(e), "\n");
  }

  /** For the customer: "✅" for a new order and "🔔" for a status change. */
  lemma UserTextKind(e: OrderEntity)
    ensures |UserText(e)| > 0
    ensures UserText(e)[0] == '✅' <==> IsNewOrder(e)
    ensures UserText(e)[0] == '🔔' <==> !IsNewOrder(e)
  {
    JoinStartsWithFirst(UserNewOrderLines(e), "\n");
    JoinStartsWithFirst(UserUpdateLines(e), "\n");
  }

  /** The arguments of `_send_admin`: the configured admin chat, the
      event's thread, HTML, and the admin keyboard as a dict. */
  function AdminArgs(e: OrderEntity, s: Settings): (a: SendArgs)
    ensures var p := BuildPayload(a);
      && "chat_id" in p && p["chat_id"] == JInt(s.adminChatId)
      && "text" in p && p["text"] == JStr(AdminText(e))
      && "parse_mode" in p && p["parse_mode"] == JStr("HTML")
      && "disable_web_page_preview" in p && p["disable_web_page_preview"] == JBool(true)
      && ("message_thread_id" in p <==> e.threadId.Some? && e.threadId.value > 0)
      && ("message_thread_id" in p ==> p["message_thread_id"] == JInt(e.threadId.value))
      && "reply_markup" in p && p["reply_markup"] == MarkupToDict(AdminOrderDetailsButton(e.orderId))
  {
    SendArgs(s.adminChatId, AdminText(e), e.threadId,
             MarkupToDict(AdminOrderDetailsButton(e.orderId)), Some("HTML"), true)
  }

  /** The arguments of `_send_user_best_effort`: the customer's chat, HTML,
      the customer keyboard as a dict, and never a thread. */
  function UserArgs(e: OrderEntity, chatId: int): (a: SendArgs)
    ensures var p := BuildPayload(a);
      && "chat_id" in p && p["chat_id"] == JInt(chatId)
      && "text" in p && p["text"] == JStr(UserText(e))
      && "parse_mode" in p && p["parse_mode"] == JStr("HTML")
      && "disable_web_page_preview" in p && p["disable_web_page_preview"] == JBool(true)
      && "message_thread_id" !in p
      && "reply_markup" in p && p["reply_markup"] == MarkupToDict(OrderActions(e.orderId))
  {
    SendArgs(chatId, UserText(e), None,
             MarkupToDict(OrderActions(e.orderId)), Some("HTML"), true)
  }

  /** What a dispatch did: the requests it sent, in order, and the Telegram
      error it let escape to the task, if any. */
  datatype Delivery = Delivery(requests: seq<Request>, raised: Option<TelegramError>)

  /** `dispatch_order_notification_admin`: exactly one message to the
      configured admin chat, in the event's thread when it names a positive
      one, with the admin keyboard; every failure propagates. */
  function DispatchAdmin(e: OrderEntity, s: Settings, server: Request -> Response): (d: Delivery)
    ensures |d.requests| == 1
    ensures d.requests[0].url == MethodUrl(s.telegramBotToken, "sendMessage")
    ensures "chat_id" in d.requests[0].payload && d.requests[0].payload["chat_id"] == JInt(s.adminChatId)
    ensures "text" in d.requests[0].payload && d.requests[0].payload["text"] == JStr(AdminText(e))
    ensures "parse_mode" in d.requests[0].payload && d.requests[0].payload["parse_mode"] == JStr("HTML")
    ensures "message_thread_id" in d.requests[0].payload <==> e.threadId.Some? && e.threadId.value > 0
    ensures "message_thread_id" in d.requests[0].payload ==>
      d.requests[0].payload["message_thread_id"] == JInt(e.threadId.value)
    ensures "reply_markup" in d.requests[0].payload &&
            d.requests[0].payload["reply_markup"] == MarkupToDict(AdminOrderDetailsButton(e.orderId))
    ensures d.raised.Some? <==> Post(server(d.requests[0])).Failure?
    ensures d.raised.Some? ==> d.raised.value == Post(server(d.requests[0])).error
  {
    var sent := SendMessage(server, s.telegramBotToken, AdminArgs(e, s));
    Delivery([sent.request], if sent.outcome.Failure? then Some(sent.outcome.error) else None)
  }

  /** `dispatch_order_notification_user`: nothing is sent when the event has
      no customer chat (`None` or 0); otherwise one message to that chat,
      never in a thread, with the customer keyboard. A non-retryable
      Telegram error is swallowed; any other failure propagates. */
  function DispatchUser(e: OrderEntity, s: Settings, server: Request -> Response): (d: Delivery)
    ensures |d.requests| <= 1
    ensures |d.requests| == 0 <==> !(e.telegramId.Some? && e.telegramId.value != 0)
    ensures |d.requests| == 0 ==> d.raised.None?
    ensures |d.requests| == 1 ==>
      && d.requests[0].url == MethodUrl(s.telegramBotToken, "sendMessage")
      && "chat_id" in d.requests[0].payload && d.requests[0].payload["chat_id"] == JInt(e.telegramId.value)
      && "text" in d.requests[0].payload && d.requests[0].payload["text"] == JStr(UserText(e))
      && "parse_mode" in d.requests[0].payload && d.requests[0].payload["parse_mode"] == JStr("HTML")
      && "message_thread_id" !in d.requests[0].payload
      && "reply_markup" in d.requests[0].payload
      && d.requests[0].payload["reply_markup"] == MarkupToDict(OrderActions(e.orderId))
    ensures d.raised.Some? <==>
      |d.requests| == 1 && Post(server(d.requests[0])).Failure? &&
      !IsNonRetryable(Post(server(d.requests[0])).error)
    ensures d.raised.Some? ==> d.raised.value == Post(server(d.requests[0])).error
  {
    if e.telegramId.None? || e.telegramId.value == 0 then Delivery([], None)
    else
      var sent := SendMessage(server, s.telegramBotToken, UserArgs(e, e.telegramId.value));
      var raised := if sent.outcome.Failure? && !IsNonRetryable(sent.outcome.error)
                    then Some(sent.outcome.error) else None;
      Delivery([sent.request], raised)
  }

  /** Whatever escapes the customer dispatch is retryable or an unclassified
      API error, never a non-retryable one. */
  lemma UserDispatchRaisesNoNonRetryable(e: OrderEntity, s: Settings, server: Request -> Response)
    ensures DispatchUser(e, s, server).raised.Some? ==>
      Classify(DispatchUser(e, s, server).raised.value) != NonRetryable
  {
  }

  /** The admin dispatch ignores the event's own `admin_chat_id`: the chat
      always comes from the settings. */
  lemma AdminChatFromSettings(e: OrderEntity, s: Settings, server: Request -> Response, other: Option<int>)
    ensures DispatchAdmin(e.(adminChatId := other), s, server) == DispatchAdmin(e, s, server)
  {
    var e' := e.(adminChatId := other);
    assert AdminNewOrderLines(e') == AdminNewOrderLines(e);
    assert AdminUpdateLines(e') == AdminUpdateLines(e);
    assert AdminText(e') == AdminText(e);
    assert AdminArgs(e', s) == AdminArgs(e, s);
  }

  /** The customer dispatch depends on the settings only through the bot
      token: the admin chat and the Redis options play no part. */
  lemma UserDispatchIgnoresAdminChat(e: OrderEntity, s: Settings, server: Request -> Response, chat: int)
    ensures DispatchUser(e, s.(adminChatId := chat), server) == DispatchUser(e, s, server)
  {
  }

  /** The admin and customer messages for one order never carry the same
      keyboard: the admin one opens the admin card, the customer one the
      order card and the chat. */
  lemma KeyboardsDiffer(orderId: string)
    ensures MarkupToDict(AdminOrderDetailsButton(orderId)) != MarkupToDict(OrderActions(orderId))
  {
    var admin := AdminOrderDetailsButton(orderId);
    var user := OrderActions(orderId);
    MarkupRoundTrip(admin);
    MarkupRoundTrip(user);
    assert admin.inlineKeyboard[0][0].text != user.inlineKeyboard[0][0].text;
  }
}
