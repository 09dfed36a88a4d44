/** Inline keyboard records and their `to_dict` JSON shape, with the decoder
    that reads such a dictionary back. */
module TelegramModels {
  import opened Wrappers
  import opened JsonValues

  datatype InlineKeyboardButton = InlineKeyboardButton(text: string, callbackData: string)

  datatype InlineKeyboardMarkup = InlineKeyboardMarkup(inlineKeyboard: seq<seq<InlineKeyboardButton>>)

  /** `InlineKeyboardButton.to_dict()`: exactly the keys `text` and
      `callback_data`, holding the two strings unchanged. */
  function ButtonToDict(b: InlineKeyboardButton): (j: Json)
    ensures j.JObj? && j.fields.Keys == {"text", "callback_data"}
    ensures j.fields["text"] == JStr(b.text) && j.fields["callback_data"] == JStr(b.callbackData)
  {
    JObj(map["text" := JStr(b.text), "callback_data" := JStr(b.callbackData)])
  }

  /** One row of buttons as a JSON list, button by button. */
  function RowToJson(row: seq<InlineKeyboardButton>): (items: seq<Json>)
    ensures |items| == |row|
    ensures forall i :: 0 <= i < |row| ==> items[i] == ButtonToDict(row[i])
  {
    if |row| == 0 then [] else [ButtonToDict(row[0])] + RowToJson(row[1..])
  }

  /** All rows as a JSON list of lists, row by row. */
  function RowsToJson(rows: seq<seq<InlineKeyboardButton>>): (items: seq<Json>)
    ensures |items| == |rows|
    ensures forall i :: 0 <= i < |rows| ==> items[i] == JArr(RowToJson(rows[i]))
  {
    if |rows| == 0 then [] else [JArr(RowToJson(rows[0]))] + RowsToJson(rows[1..])
  }

  /** `InlineKeyboardMarkup.to_dict()`: the single key `inline_keyboard`
      holding the rows in order, each row's buttons in order. */
  function MarkupToDict(m: InlineKeyboardMarkup): (j: Json)
    ensures j.JObj? && j.fields.Keys == {"inline_keyboard"}
    ensures j.fields["inline_keyboard"] == JArr(RowsToJson(m.inlineKeyboard))
  {
    JObj(map["inline_keyboard" := JArr(RowsToJson(m.inlineKeyboard))])
  }

  /** Reads a button dictionary back; `None` for any other shape. */
  function ButtonFromJson(j: Json): Option<InlineKeyboardButton> {
    if j.JObj? && "text" in j.fields && "callback_data" in j.fields
       && j.fields["text"].JStr? && j.fields["callback_data"].JStr?
    then Some(InlineKeyboardButton(j.fields["text"].s, j.fields["callback_data"].s))
    else None
  }

  function RowFromJson(items: seq<Json>): Option<seq<InlineKeyboardButton>> {
    if |items| == 0 then Some([])
    else
      match (ButtonFromJson(items[0]), RowFromJson(items[1..]))
      case (Some(b), Some(rest)) => Some([b] + rest)
      case _ => None
  }

  function RowsFromJson(items: seq<Json>): Option<seq<seq<InlineKeyboardButton>>> {
    if |items| == 0 then Some([])
    else
      match (items[0], RowsFromJson(items[1..]))
      case (JArr(row), Some(rest)) =>
        (match RowFromJson(row)
         case Some(r) => Some([r] + rest)
         case None => None)
      case _ => None
  }

  function MarkupFromDict(j: Json): Option<InlineKeyboardMarkup> {
    if j.JObj? && "inline_keyboard" in j.fields && j.fields["inline_keyboard"].JArr? then
      match RowsFromJson(j.fields["inline_keyboard"].items)
      case Some(rows) => Some(InlineKeyboardMarkup(rows))
      case None => None
    else None
  }

  lemma {:induction false} RowRoundTrip(row: seq<InlineKeyboardButton>)
    ensures RowFromJson(RowToJson(row)) == Some(row)
  {
    if |row| > 0 {
      var items := RowToJson(row);
      assert items[1..] == RowToJson(row[1..]);
      RowRoundTrip(row[1..]);
      assert [row[0]] + row[1..] == row;
    }
  }

  lemma {:induction false} RowsRoundTrip(rows: seq<seq<InlineKeyboardButton>>)
    ensures RowsFromJson(RowsToJson(rows)) == Some(rows)
  {
    if |rows| > 0 {
      var items := RowsToJson(rows);
      assert items[1..] == RowsToJson(rows[1..]);
      RowsRoundTrip(rows[1..]);
      RowRoundTrip(rows[0]);
      assert [rows[0]] + rows[1..] == rows;
    }
  }

  /** `to_dict` loses nothing: the markup is recovered from its dictionary. */
  lemma MarkupRoundTrip(m: InlineKeyboardMarkup)
    ensures MarkupFromDict(MarkupToDict(m)) == Some(m)
  {
    RowsRoundTrip(m.inlineKeyboard);
  }
}
