/** The two inline keyboards attached to order notifications, and the
    callback data their buttons carry. */
module Keyboards {
  import opened Text
  import opened TelegramModels

  /** The action a callback button requests. */
  datatype CallbackAction = OrderDetails | OrderChat | AdminOrderDetails | AdminChangeStatus

  function CallbackPrefix(a: CallbackAction): string {
    match a
    case OrderDetails => "order:"
    case OrderChat => "chat:order:"
    case AdminOrderDetails => "admin:order:"
    case AdminChangeStatus => "admin:status:"
  }

  /** The callback string: the action's prefix followed by the order id verbatim. */
  function CallbackData(a: CallbackAction, orderId: string): string {
    CallbackPrefix(a) + orderId
  }

  /** `order_actions`: the customer keyboard, two rows of one button each —
      order details, then the order chat. */
  function OrderActions(orderId: string): (m: InlineKeyboardMarkup)
    ensures |m.inlineKeyboard| == 2
    ensures forall i :: 0 <= i < 2 ==> |m.inlineKeyboard[i]| == 1
    ensures m.inlineKeyboard[0][0] == InlineKeyboardButton("Подробнее", CallbackData(OrderDetails, orderId))
    ensures m.inlineKeyboard[1][0] == InlineKeyboardButton("Чат по заказу", CallbackData(OrderChat, orderId))
  {
    InlineKeyboardMarkup([
      [InlineKeyboardButton("Подробнее", "order:" + orderId)],
      [InlineKeyboardButton("Чат по заказу", "chat:order:" + orderId)]])
  }

  /** `admin_order_details_button`: the admin keyboard, two rows of one
      button each — order details, then change status. */
  function AdminOrderDetailsButton(orderId: string): (m: InlineKeyboardMarkup)
    ensures |m.inlineKeyboard| == 2
    ensures forall i :: 0 <= i < 2 ==> |m.inlineKeyboard[i]| == 1
    ensures m.inlineKeyboard[0][0] == InlineKeyboardButton("📋 Подробнее", CallbackData(AdminOrderDetails, orderId))
    ensures m.inlineKeyboard[1][0] == InlineKeyboardButton("✏️ Изменить статус", CallbackData(AdminChangeStatus, orderId))
  {
    InlineKeyboardMarkup([
      [InlineKeyboardButton("📋 Подробнее", "admin:order:" + orderId)],
      [InlineKeyboardButton("✏️ Изменить статус", "admin:status:" + orderId)]])
  }

  /** Callback strings of different actions never coincide: any two of the
      prefixes disagree at a position both of them cover. */
  lemma PrefixesDisagree(a1: CallbackAction, a2: CallbackAction, x: string, y: string)
    ensures a1 != a2 ==> CallbackPrefix(a1) + x != CallbackPrefix(a2) + y
  {
    if a1 != a2 {
      var p1, p2 := CallbackPrefix(a1), CallbackPrefix(a2);
      var k := if (a1 == AdminOrderDetails && a2 == AdminChangeStatus)
                  || (a1 == AdminChangeStatus && a2 == AdminOrderDetails) then 6 else 0;
      assert (p1 + x)[k] == p1[k] && (p2 + y)[k] == p2[k];
    }
  }

  /** Callback data is unambiguous: the string determines both the action
      and the order id. */
  lemma CallbackDataInjective(a1: CallbackAction, id1: string, a2: CallbackAction, id2: string)
    requires CallbackData(a1, id1) == CallbackData(a2, id2)
    ensures a1 == a2 && id1 == id2
  {
    PrefixesDisagree(a1, a2, id1, id2);
    var s := CallbackData(a1, id1);
    assert s[|CallbackPrefix(a1)|..] == id1;
  }
}
