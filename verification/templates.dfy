/** The four notification texts and the label tables they use. Each text is
    a list of lines joined with "\n"; the line lists are exposed so that
    their shape can be stated. */
module Templates {
  import opened Wrappers
  import opened Text
  import opened JsonValues
  import opened Enums
  import opened Entities

  /** `status or ""`, the key the label tables are looked up with. */
  function LookupKey(s: Option<string>): string {
    if s.Some? then s.value else ""
  }

  /** `_status_emoji_emoji`: an emoji per known status, "📋" for anything else. */
  function StatusEmoji(status: Option<string>): (emoji: string)
    ensures emoji == "📋" <==> LookupKey(status) !in {"created", "processing", "paid", "fulfilled", "cancelled"}
  {
    match LookupKey(status)
    case "created" => "🆕"
    case "processing" => "⏳"
    case "paid" => "💰"
    case "fulfilled" => "✅"
    case "cancelled" => "❌"
    case _ => "📋"
  }

  /** `_human_status`: a Russian label per known status; any other non-empty
      value unchanged; "Неизвестно" for `None` or "". */
  function HumanStatus(status: Option<string>): (shown: string)
    ensures shown == LookupKey(status) <==>
      TruthyText(status) && status.value !in {"created", "processing", "paid", "fulfilled", "cancelled"}
    ensures !TruthyText(status) ==> shown == "Неизвестно"
  {
    match LookupKey(status)
    case "created" => "Создан"
    case "processing" => "В обработке"
    case "paid" => "Оплачен"
    case "fulfilled" => "Выполнен"
    case "cancelled" => "Отменён"
    case _ => if TruthyText(status) then status.value else "Неизвестно"
  }

  /** `_human_delivery`: labels for courier and pickup; any other non-empty
      value unchanged; "Не указан" for `None` or "". */
  function HumanDelivery(delivery: Option<string>): (shown: string)
    ensures shown == LookupKey(delivery) <==> TruthyText(delivery) && delivery.value !in {"courier", "pickup"}
    ensures !TruthyText(delivery) ==> shown == "Не указан"
  {
    match LookupKey(delivery)
    case "courier" => "Курьер"
    case "pickup" => "Самовывоз"
    case _ => if TruthyText(delivery) then delivery.value else "Не указан"
  }

  /** A status value is shown as itself exactly when it is a non-empty string
      that is not one of the five statuses. */
  lemma HumanStatusVerbatimIff(s: string)
    ensures HumanStatus(Some(s)) == s <==>
      s != "" && s !in {"created", "processing", "paid", "fulfilled", "cancelled"}
  {
  }

  /** `None` and "" both read as unknown. */
  lemma HumanStatusMissing()
    ensures HumanStatus(None) == "Неизвестно" && HumanStatus(Some("")) == "Неизвестно"
  {
  }

  /** The fallback emoji appears exactly for values that are not statuses. */
  lemma StatusEmojiFallbackIff(s: Option<string>)
    ensures StatusEmoji(s) == "📋" <==> LookupKey(s) !in {"created", "processing", "paid", "fulfilled", "cancelled"}
  {
  }

  /** A delivery value is shown as itself exactly when it is a non-empty
      string other than courier and pickup. */
  lemma HumanDeliveryVerbatimIff(s: string)
    ensures HumanDelivery(Some(s)) == s <==> s != "" && s !in {"courier", "pickup"}
    ensures HumanDelivery(None) == "Не указан" && HumanDelivery(Some("")) == "Не указан"
  {
  }

  /** Every validated status has its own label and emoji, so neither
      fallback is reachable from an entity. */
  lemma EveryStatusLabelled(st: OrderStatus)
    ensures HumanStatus(Some(StatusName(st))) != StatusName(st)
    ensures HumanStatus(Some(StatusName(st))) != "Неизвестно"
    ensures StatusEmoji(Some(StatusName(st))) != "📋"
  {
  }

  /** `cdek` is a valid delivery method without a label: it is shown verbatim. */
  lemma CdekShownVerbatim()
    ensures HumanDelivery(Some(DeliveryName(Cdek))) == "cdek"
    ensures HumanDelivery(Some(DeliveryName(Courier))) == "Курьер"
    ensures HumanDelivery(Some(DeliveryName(Pickup))) == "Самовывоз"
  {
  }

  function StatusLabel(st: OrderStatus): string {
    HumanStatus(Some(StatusName(st)))
  }

  function EmailLine(email: string): string {
    "📧 <b>Email:</b> " + email
  }

  function AddressLine(address: string): string {
    "🗾 <b>Адрес:</b> " + address
  }

  function CommentLines(comment: string): seq<string> {
    ["", "━━━━━━━━━━━━━━━━━━━━", "", "💬 <b>Комментарий:</b>\n" + comment]
  }

  /** The lines of the admin "new order" text: six fixed lines, then an email
      line iff the email is non-empty, an address line iff the address is
      non-empty, and a four-line comment block iff the comment is non-empty. */
  function AdminNewOrderLines(e: OrderEntity): (lines: seq<string>)
    ensures |lines| == 6 + (if TruthyText(e.email) then 1 else 0)
                        + (if TruthyText(e.address) then 1 else 0)
                        + (if TruthyText(e.comment) then 4 else 0)
    ensures lines[0] == "<b>Новый заказ</b>"
    ensures lines[1] == "📦 <b>Заказ #" + e.orderId + "</b>"
    ensures lines[2] == "👤 <b>Клиент:</b> " + e.customerName
    ensures lines[3] == "📱 <b>Телефон:</b> " + e.phone
    ensures lines[4] == "💰 <b>Сумма:</b> " + e.total.text
    ensures lines[5] == "🚚 <b>Доставка:</b> " + HumanDelivery(Some(DeliveryName(e.deliveryMethod)))
    ensures TruthyText(e.email) ==> lines[6] == EmailLine(e.email.value)
    ensures TruthyText(e.address) ==>
      lines[if TruthyText(e.email) then 7 else 6] == AddressLine(e.address.value)
    ensures TruthyText(e.comment) ==> lines[|lines| - 4..] == CommentLines(e.comment.value)
  {
    var head := [
      "<b>Новый заказ</b>",
      "📦 <b>Заказ #" + e.orderId + "</b>",
      "👤 <b>Клиент:</b> " + e.customerName,
      "📱 <b>Телефон:</b> " + e.phone,
      "💰 <b>Сумма:</b> " + e.total.text,
      "🚚 <b>Доставка:</b> " + HumanDelivery(Some(DeliveryName(e.deliveryMethod)))];
    var withEmail := if TruthyText(e.email) then head + [EmailLine(e.email.value)] else head;
    var withAddress := if TruthyText(e.address) then withEmail + [AddressLine(e.address.value)] else withEmail;
    if TruthyText(e.comment) then withAddress + CommentLines(e.comment.value) else withAddress
  }

  /** The lines of the admin "status changed" text. */
  function AdminUpdateLines(e: OrderEntity): (lines: seq<string>)
    ensures |lines| == 3
    ensures lines[0] == "✅ <b>Статус заказа обновлён</b>\n"
    ensures lines[1] == "📦 Заказ: #" + e.orderId
    ensures lines[2] == StatusLabel(e.newStatus)
  {
    ["✅ <b>Статус заказа обновлён</b>\n", "📦 Заказ: #" + e.orderId, StatusLabel(e.newStatus)]
  }

  /** The lines of the customer "order created" text. */
  function UserNewOrderLines(e: OrderEntity): (lines: seq<string>)
    ensures |lines| == 2
    ensures lines[0] == "✅ <b>Заказ #" + e.orderId + " создан</b>"
  {
    ["✅ <b>Заказ #" + e.orderId + " создан</b>",
     "В ближайшее время с вами свяжется оператор. Если у вас возникнут вопросы, "
     + "вы можете написать нам, нажав соответствующую кнопку ниже."]
  }

  /** The lines of the customer "status update" text: two lines naming the
      order and the new status with its emoji, and two more iff the status
      comment is non-empty. */
  function UserUpdateLines(e: OrderEntity): (lines: seq<string>)
    ensures |lines| == if TruthyText(e.statusComment) then 4 else 2
    ensures lines[0] == "🔔 <b>Обновление по заказу #" + e.orderId + "</b>"
    ensures lines[1] == StatusEmoji(Some(StatusName(e.newStatus))) + " <b>Новый статус:</b> " + StatusLabel(e.newStatus)
    ensures TruthyText(e.statusComment) ==> lines[3] == "💬 <b>Комментарий:</b>\n" + e.statusComment.value
  {
    var head := [
      "🔔 <b>Обновление по заказу #" + e.orderId + "</b>",
      StatusEmoji(Some(StatusName(e.newStatus))) + " <b>Новый статус:</b> " + StatusLabel(e.newStatus)];
    if TruthyText(e.statusComment)
    then head + ["", "💬 <b>Комментарий:</b>\n" + e.statusComment.value]
    else head
  }

  /** `render_order_message_admin`. */
  function RenderOrderMessageAdmin(e: OrderEntity): (text: string)
    ensures IsPrefix("<b>Новый заказ</b>", text)
  {
    JoinStartsWithFirst(AdminNewOrderLines(e), "\n");
    Join(AdminNewOrderLines(e), "\n")
  }

  /** `notify_update_status_order_admin`. */
  function NotifyUpdateStatusOrderAdmin(e: OrderEntity): (text: string)
    ensures IsPrefix("✅ <b>Статус заказа обновлён</b>\n", text)
  {
    JoinStartsWithFirst(AdminUpdateLines(e), "\n");
    Join(AdminUpdateLines(e), "\n")
  }

  /** `notify_new_order_user`. */
  function NotifyNewOrderUser(e: OrderEntity): (text: string)
    ensures IsPrefix("✅ <b>Заказ #" + e.orderId + " создан</b>", text)
  {
    JoinStartsWithFirst(UserNewOrderLines(e), "\n");
    Join(UserNewOrderLines(e), "\n")
  }

  /** `notify_update_status_order_user`. */
  function NotifyUpdateStatusOrderUser(e: OrderEntity): (text: string)
    ensures IsPrefix("🔔 <b>Обновление по заказу #" + e.orderId + "</b>", text)
  {
    JoinStartsWithFirst(UserUpdateLines(e), "\n");
    Join(UserUpdateLines(e), "\n")
  }

  lemma InfixOfWrapped(t: string, a: string, b: string)
    ensures IsInfix(t, a + t + b)
  {
    InfixAt(t, a + t + b, |a|);
  }

  lemma InfixAtEnd(a: string, t: string)
    ensures IsInfix(t, a + t)
  {
    InfixAt(t, a + t, |a|);
  }

  lemma InfixAtStart(t: string, b: string)
    ensures IsInfix(t, t + b)
  {
    InfixAt(t, t + b, 0);
  }

  /** Both administrator texts name the order id. */
  lemma AdminTextsContainOrderId(e: OrderEntity)
    ensures IsInfix(e.orderId, RenderOrderMessageAdmin(e))
    ensures IsInfix(e.orderId, NotifyUpdateStatusOrderAdmin(e))
  {
    var id := e.orderId;
    InfixOfWrapped(id, "📦 <b>Заказ #", "</b>");
    JoinContainsInfix(id, AdminNewOrderLines(e), "\n", 1);
    InfixAtEnd("📦 Заказ: #", id);
    JoinContainsInfix(id, AdminUpdateLines(e), "\n", 1);
  }

  /** Both customer texts name the order id. */
  lemma UserTextsContainOrderId(e: OrderEntity)
    ensures IsInfix(e.orderId, NotifyNewOrderUser(e))
    ensures IsInfix(e.orderId, NotifyUpdateStatusOrderUser(e))
  {
    var id := e.orderId;
    InfixOfWrapped(id, "✅ <b>Заказ #", " создан</b>");
    JoinContainsInfix(id, UserNewOrderLines(e), "\n", 0);
    InfixOfWrapped(id, "🔔 <b>Обновление по заказу #", "</b>");
    JoinContainsInfix(id, UserUpdateLines(e), "\n", 0);
  }

  /** The admin update text shows the new status's label. */
  lemma AdminUpdateShowsStatus(e: OrderEntity)
    ensures IsInfix(StatusLabel(e.newStatus), NotifyUpdateStatusOrderAdmin(e))
  {
    InfixSelf(StatusLabel(e.newStatus));
    JoinContainsInfix(StatusLabel(e.newStatus), AdminUpdateLines(e), "\n", 2);
  }

  /** The customer's update text shows the new status's label. */
  lemma UserUpdateShowsStatus(e: OrderEntity)
    ensures IsInfix(StatusLabel(e.newStatus), NotifyUpdateStatusOrderUser(e))
  {
    var statusLabel := StatusLabel(e.newStatus);
    InfixAtEnd(StatusEmoji(Some(StatusName(e.newStatus))) + " <b>Новый статус:</b> ", statusLabel);
    JoinContainsInfix(statusLabel, UserUpdateLines(e), "\n", 1);
  }

  /** The customer's update text shows the new status's emoji. */
  lemma UserUpdateShowsEmoji(e: OrderEntity)
    ensures IsInfix(StatusEmoji(Some(StatusName(e.newStatus))), NotifyUpdateStatusOrderUser(e))
  {
    var emoji := StatusEmoji(Some(StatusName(e.newStatus)));
    var middle := " <b>Новый статус:</b> ";
    InfixAtStart(emoji, middle);
    InfixOfConcat(emoji, emoji + middle, StatusLabel(e.newStatus));
    JoinContainsInfix(emoji, UserUpdateLines(e), "\n", 1);
  }

  /** The customer's update text shows the status comment whenever it is
      non-empty. */
  lemma UserUpdateShowsComment(e: OrderEntity)
    requires TruthyText(e.statusComment)
    ensures IsInfix(e.statusComment.value, NotifyUpdateStatusOrderUser(e))
  {
    var lines := UserUpdateLines(e);
    InfixAtEnd("💬 <b>Комментарий:</b>\n", e.statusComment.value);
    JoinContainsInfix(e.statusComment.value, lines, "\n", 3);
  }

  /** The admin "new order" text shows the customer, phone, total and
      delivery label, and the email, address and comment whenever non-empty. */
  lemma AdminNewOrderShowsDetails(e: OrderEntity)
    ensures IsInfix(e.customerName, RenderOrderMessageAdmin(e))
    ensures IsInfix(e.phone, RenderOrderMessageAdmin(e))
    ensures IsInfix(e.total.text, RenderOrderMessageAdmin(e))
    ensures IsInfix(HumanDelivery(Some(DeliveryName(e.deliveryMethod))), RenderOrderMessageAdmin(e))
    ensures TruthyText(e.email) ==> IsInfix(EmailLine(e.email.value), RenderOrderMessageAdmin(e))
    ensures TruthyText(e.address) ==> IsInfix(AddressLine(e.address.value), RenderOrderMessageAdmin(e))
    ensures TruthyText(e.comment) ==> IsInfix(e.comment.value, RenderOrderMessageAdmin(e))
  {
    var lines := AdminNewOrderLines(e);
    InfixAtEnd("👤 <b>Клиент:</b> ", e.customerName);
    JoinContainsInfix(e.customerName, lines, "\n", 2);
    InfixAtEnd("📱 <b>Телефон:</b> ", e.phone);
    JoinContainsInfix(e.phone, lines, "\n", 3);
    InfixAtEnd("💰 <b>Сумма:</b> ", e.total.text);
    JoinContainsInfix(e.total.text, lines, "\n", 4);
    var delivery := HumanDelivery(Some(DeliveryName(e.deliveryMethod)));
    InfixAtEnd("🚚 <b>Доставка:</b> ", delivery);
    JoinContainsInfix(delivery, lines, "\n", 5);
    if TruthyText(e.email) {
      JoinContainsPart(lines, "\n", 6);
    }
    if TruthyText(e.address) {
      JoinContainsPart(lines, "\n", if TruthyText(e.email) then 7 else 6);
    }
    if TruthyText(e.comment) {
      var c := e.comment.value;
      var k := |lines| - 1;
      assert lines[k] == CommentLines(c)[3];
      InfixAtEnd("💬 <b>Комментарий:</b>\n", c);
      JoinContainsInfix(c, lines, "\n", k);
    }
  }
}
