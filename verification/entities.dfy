/** The validated event entities and the variant result record, with payload
    validation modelled as a partial constructor over a field map: a schema
    names each field's kind, `Problems` lists what pydantic would complain
    about, and a payload that has no problems yields the entity. */
module Entities {
  import opened Wrappers
  import opened Text
  import opened JsonValues
  import opened Enums

  /** A `decimal.Decimal`, kept as its exact decimal text and never converted
      to binary floating point. */
  datatype Decimal = Decimal(text: string)

  function DotCount(s: string): nat {
    if |s| == 0 then 0 else (if s[0] == '.' then 1 else 0) + DotCount(s[1..])
  }

  /** A plain decimal numeral: an optional sign, then digits with at most one
      '.', and at least one digit. */
  predicate IsPlainDecimal(s: string) {
    var u := if |s| > 0 && (s[0] == '+' || s[0] == '-') then s[1..] else s;
    && (forall i :: 0 <= i < |u| ==> IsDigit(u[i]) || u[i] == '.')
    && DotCount(u) <= 1
    && u != ""
    && u != "."
  }

  lemma {:induction false} NoDotsInDigits(s: string)
    requires AllDigits(s)
    ensures DotCount(s) == 0
  {
    if |s| > 0 {
      NoDotsInDigits(s[1..]);
    }
  }

  /** The text of an integer is a plain decimal numeral. */
  lemma IntTextIsDecimal(n: int)
    ensures IsPlainDecimal(IntToString(n))
  {
    var s := IntToString(n);
    if n < 0 {
      assert s[1..] == NatToDigits(-n);
      NoDotsInDigits(NatToDigits(-n));
    } else {
      NoDotsInDigits(NatToDigits(n));
    }
  }

  /** An order status change event (`NotificationsOrderEntity`). */
  datatype OrderEntity = OrderEntity(
    orderId: string,
    telegramId: Option<int>,
    oldStatus: OrderStatus,
    newStatus: OrderStatus,
    comment: Option<string>,
    phone: string,
    customerName: string,
    total: Decimal,
    deliveryMethod: DeliveryMethod,
    email: Option<string>,
    address: Option<string>,
    statusComment: Option<string>,
    adminChatId: Option<int>,
    threadId: Option<int>,
    createdAt: string)

  /** An `image.uploaded` event (`ImageUploadedEntity`). */
  datatype ImageUploadedEntity = ImageUploadedEntity(
    imageId: int,
    productId: string,
    originalUrl: string,
    originalKey: string,
    originalFormat: string,
    originalWidth: int,
    originalHeight: int)

  /** One derived variant's metadata (`ImageVariantResult`). */
  datatype ImageVariantResult = ImageVariantResult(
    variant: string,
    storageKey: string,
    format: string,
    width: int,
    height: int,
    byteSize: int)

  /** The declared type of a model field. The optional kinds default to `None`. */
  datatype FieldKind = Str | OptStr | Int | OptInt | StatusLiteral | DeliveryLiteral | Dec

  predicate Required(k: FieldKind) {
    !(k.OptStr? || k.OptInt?)
  }

  /** Whether a decoded JSON value is accepted for a field of kind `k`. */
  predicate Fits(k: FieldKind, j: Json) {
    match k
    case Str => j.JStr?
    case OptStr => j.JNull? || j.JStr?
    case Int => j.JInt?
    case OptInt => j.JNull? || j.JInt?
    case StatusLiteral => j.JStr? && ParseStatus(j.s).Some?
    case DeliveryLiteral => j.JStr? && ParseDelivery(j.s).Some?
    case Dec => j.JInt? || (j.JStr? && IsPlainDecimal(j.s))
  }

  /** The fields the two event models declare. */
  datatype Field =
    | OrderIdField | TelegramIdField | OldStatusField | NewStatusField | CommentField
    | PhoneField | CustomerNameField | TotalField | DeliveryMethodField | EmailField
    | AddressField | StatusCommentField | AdminChatIdField | ThreadIdField | CreatedAtField
    | ImageIdField | ProductIdField | OriginalUrlField | OriginalKeyField
    | OriginalFormatField | OriginalWidthField | OriginalHeightField

  /** The payload key of a field. */
  function FieldName(f: Field): string {
    match f
    case OrderIdField => "order_id"
    case TelegramIdField => "telegram_id"
    case OldStatusField => "old_status"
    case NewStatusField => "new_status"
    case CommentField => "comment"
    case PhoneField => "phone"
    case CustomerNameField => "customer_name"
    case TotalField => "total"
    case DeliveryMethodField => "delivery_method"
    case EmailField => "email"
    case AddressField => "address"
    case StatusCommentField => "status_comment"
    case AdminChatIdField => "admin_chat_id"
    case ThreadIdField => "thread_id"
    case CreatedAtField => "created_at"
    case ImageIdField => "image_id"
    case ProductIdField => "product_id"
    case OriginalUrlField => "original_url"
    case OriginalKeyField => "original_key"
    case OriginalFormatField => "original_format"
    case OriginalWidthField => "original_width"
    case OriginalHeightField => "original_height"
  }

  /** The declared type of a field. */
  function KindOf(f: Field): FieldKind {
    match f
    case OrderIdField => Str
    case TelegramIdField => OptInt
    case OldStatusField => StatusLiteral
    case NewStatusField => StatusLiteral
    case CommentField => OptStr
    case PhoneField => Str
    case CustomerNameField => Str
    case TotalField => Dec
    case DeliveryMethodField => DeliveryLiteral
    case EmailField => OptStr
    case AddressField => OptStr
    case StatusCommentField => OptStr
    case AdminChatIdField => OptInt
    case ThreadIdField => OptInt
    case CreatedAtField => Str
    case ImageIdField => Int
    case ProductIdField => Str
    case OriginalUrlField => Str
    case OriginalKeyField => Str
    case OriginalFormatField => Str
    case OriginalWidthField => Int
    case OriginalHeightField => Int
  }

  /** The fields of `NotificationsOrderEntity`, in declaration order. */
  const OrderFields: seq<Field> := [
    OrderIdField, TelegramIdField, OldStatusField, NewStatusField, CommentField,
    PhoneField, CustomerNameField, TotalField, DeliveryMethodField, EmailField,
    AddressField, StatusCommentField, AdminChatIdField, ThreadIdField, CreatedAtField]

  /** The fields of `ImageUploadedEntity`, in declaration order. */
  const ImageUploadedFields: seq<Field> := [
    ImageIdField, ProductIdField, OriginalUrlField, OriginalKeyField,
    OriginalFormatField, OriginalWidthField, OriginalHeightField]

  function Names(schema: seq<Field>): set<string> {
    set i | 0 <= i < |schema| :: FieldName(schema[i])
  }

  /** A pydantic `ValidationError`: the unknown, missing and ill-typed fields. */
  datatype ValidationError = ValidationError(extra: set<string>, missing: set<string>, invalid: set<string>)

  function Problems(schema: seq<Field>, p: map<string, Json>, forbidExtra: bool): ValidationError {
    ValidationError(
      if forbidExtra then p.Keys - Names(schema) else {},
      set i | 0 <= i < |schema| && Required(KindOf(schema[i])) && FieldName(schema[i]) !in p :: FieldName(schema[i]),
      set i | 0 <= i < |schema| && FieldName(schema[i]) in p && !Fits(KindOf(schema[i]), p[FieldName(schema[i])])
        :: FieldName(schema[i]))
  }

  predicate NoProblems(v: ValidationError) {
    v.extra == {} && v.missing == {} && v.invalid == {}
  }

  /** Whether field `f` is acceptable in `p`: present and well typed, or
      absent and optional. */
  predicate FieldOk(p: map<string, Json>, f: Field) {
    if FieldName(f) in p then Fits(KindOf(f), p[FieldName(f)]) else !Required(KindOf(f))
  }

  /** The acceptance condition stated field by field: no unknown keys when
      they are forbidden, and every declared field acceptable. */
  predicate Conforms(schema: seq<Field>, p: map<string, Json>, forbidExtra: bool) {
    && (forbidExtra ==> p.Keys <= Names(schema))
    && (forall i | 0 <= i < |schema| :: FieldOk(p, schema[i]))
  }

  lemma ProblemsEmptyIff(schema: seq<Field>, p: map<string, Json>, forbidExtra: bool)
    ensures NoProblems(Problems(schema, p, forbidExtra)) <==> Conforms(schema, p, forbidExtra)
  {
    var v := Problems(schema, p, forbidExtra);
    if !Conforms(schema, p, forbidExtra) {
      if forbidExtra && !(p.Keys <= Names(schema)) {
        var k :| k in p.Keys && k !in Names(schema);
        assert k in v.extra;
      } else {
        var i :| 0 <= i < |schema| && !FieldOk(p, schema[i]);
        if FieldName(schema[i]) in p {
          assert FieldName(schema[i]) in v.invalid;
        } else {
          assert FieldName(schema[i]) in v.missing;
        }
      }
    }
  }

  /** Total field readers. On a conforming payload each returns the field's
      value; the fallback after `else` is never observed there. */
  function StrAt(p: map<string, Json>, f: string): string {
    if f in p && p[f].JStr? then p[f].s else ""
  }

  function IntAt(p: map<string, Json>, f: string): int {
    if f in p && p[f].JInt? then p[f].n else 0
  }

  function OptStrAt(p: map<string, Json>, f: string): Option<string> {
    if f in p && p[f].JStr? then Some(p[f].s) else None
  }

  function OptIntAt(p: map<string, Json>, f: string): Option<int> {
    if f in p && p[f].JInt? then Some(p[f].n) else None
  }

  function StatusAt(p: map<string, Json>, f: string): OrderStatus {
    var r := ParseStatus(StrAt(p, f));
    if r.Some? then r.value else Created
  }

  function DeliveryAt(p: map<string, Json>, f: string): DeliveryMethod {
    var r := ParseDelivery(StrAt(p, f));
    if r.Some? then r.value else Pickup
  }

  function DecimalOf(j: Json): Decimal
    requires Fits(Dec, j)
  {
    if j.JInt? then Decimal(IntToString(j.n)) else Decimal(j.s)
  }

  function DecimalAt(p: map<string, Json>, f: string): Decimal {
    if f in p && Fits(Dec, p[f]) then DecimalOf(p[f]) else Decimal("0")
  }

  lemma DecimalOfIsPlain(j: Json)
    requires Fits(Dec, j)
    ensures IsPlainDecimal(DecimalOf(j).text)
  {
    if j.JInt? {
      IntTextIsDecimal(j.n);
    }
  }

  function OptStrJson(o: Option<string>): Json {
    if o.Some? then JStr(o.value) else JNull
  }

  function OptIntJson(o: Option<int>): Json {
    if o.Some? then JInt(o.value) else JNull
  }

  /** The payload that describes an image event and nothing else. */
  function ImageUploadedPayload(e: ImageUploadedEntity): map<string, Json> {
    map[
      "image_id" := JInt(e.imageId),
      "product_id" := JStr(e.productId),
      "original_url" := JStr(e.originalUrl),
      "original_key" := JStr(e.originalKey),
      "original_format" := JStr(e.originalFormat),
      "original_width" := JInt(e.originalWidth),
      "original_height" := JInt(e.originalHeight)]
  }

  /** Field `f` holds `v` in the payload, or is absent and `v` is `None`. */
  predicate Denotes(p: map<string, Json>, f: string, v: Json) {
    if f in p then p[f] == v else v == JNull
  }

  /** Whether `f` is one of the order event's fields. */
  predicate IsOrderField(f: Field) {
    !(|| f.ImageIdField? || f.ProductIdField? || f.OriginalUrlField? || f.OriginalKeyField?
      || f.OriginalFormatField? || f.OriginalWidthField? || f.OriginalHeightField?)
  }

  /** The JSON value an order entity holds in field `f`: `None` is `null`, an
      enum member is its value and the total is its decimal text. Fields of
      other models hold `null`. */
  function OrderFieldJson(e: OrderEntity, f: Field): Json {
    match f
    case OrderIdField => JStr(e.orderId)
    case TelegramIdField => OptIntJson(e.telegramId)
    case OldStatusField => JStr(StatusName(e.oldStatus))
    case NewStatusField => JStr(StatusName(e.newStatus))
    case CommentField => OptStrJson(e.comment)
    case PhoneField => JStr(e.phone)
    case CustomerNameField => JStr(e.customerName)
    case TotalField => JStr(e.total.text)
    case DeliveryMethodField => JStr(DeliveryName(e.deliveryMethod))
    case EmailField => OptStrJson(e.email)
    case AddressField => OptStrJson(e.address)
    case StatusCommentField => OptStrJson(e.statusComment)
    case AdminChatIdField => OptIntJson(e.adminChatId)
    case ThreadIdField => OptIntJson(e.threadId)
    case CreatedAtField => JStr(e.createdAt)
    case _ => JNull
  }

  /** The entity holds the payload's value of order field `f`: an omitted
      optional field is `None`, and the total is present and held as the
      decimal text of the number it carries. */
  predicate OrderFieldAgrees(p: map<string, Json>, e: OrderEntity, f: Field) {
    && IsOrderField(f)
    && if f.TotalField?
       then "total" in p && Fits(Dec, p["total"]) && DecimalOf(p["total"]) == e.total
       else Denotes(p, FieldName(f), OrderFieldJson(e, f))
  }

  /** The entity holds exactly the payload's values, field by field. */
  predicate OrderAgrees(p: map<string, Json>, e: OrderEntity) {
    forall i | 0 <= i < |OrderFields| :: OrderFieldAgrees(p, e, OrderFields[i])
  }

  /** Every declared field of a conforming payload is acceptable. */
  lemma FieldOkAt(schema: seq<Field>, p: map<string, Json>, b: bool, i: nat)
    requires Conforms(schema, p, b) && i < |schema|
    ensures FieldOk(p, schema[i])
  {
  }

  /** The entity a conforming order payload describes. */
  function OrderOf(p: map<string, Json>): OrderEntity {
    OrderEntity(
      StrAt(p, "order_id"),
      OptIntAt(p, "telegram_id"),
      StatusAt(p, "old_status"),
      StatusAt(p, "new_status"),
      OptStrAt(p, "comment"),
      StrAt(p, "phone"),
      StrAt(p, "customer_name"),
      DecimalAt(p, "total"),
      DeliveryAt(p, "delivery_method"),
      OptStrAt(p, "email"),
      OptStrAt(p, "address"),
      OptStrAt(p, "status_comment"),
      OptIntAt(p, "admin_chat_id"),
      OptIntAt(p, "thread_id"),
      StrAt(p, "created_at"))
  }

  /** `NotificationsOrderEntity.model_validate(payload)`. It succeeds exactly
      when the payload conforms to the schema with unknown keys forbidden,
      and otherwise reports every problem. */
  function ValidateOrder(p: map<string, Json>): (r: Result<OrderEntity, ValidationError>)
    ensures r.Success? <==> Conforms(OrderFields, p, true)
    ensures r.Failure? ==> r.error == Problems(OrderFields, p, true) && !NoProblems(r.error)
    ensures r.Success? ==> IsPlainDecimal(r.value.total.text)
  {
    ProblemsEmptyIff(OrderFields, p, true);
    if Conforms(OrderFields, p, true) then
      FieldOkAt(OrderFields, p, true, 7);
      DecimalOfIsPlain(p["total"]);
      Success(OrderOf(p))
    else Failure(Problems(OrderFields, p, true))
  }

  /** The entity a conforming image payload describes. */
  function ImageUploadedOf(p: map<string, Json>): ImageUploadedEntity {
    ImageUploadedEntity(
      IntAt(p, "image_id"),
      StrAt(p, "product_id"),
      StrAt(p, "original_url"),
      StrAt(p, "original_key"),
      StrAt(p, "original_format"),
      IntAt(p, "original_width"),
      IntAt(p, "original_height"))
  }

  /** `ImageUploadedEntity.model_validate(payload)`: unknown keys are ignored
      and every field is required. */
  function ValidateImageUploaded(p: map<string, Json>): (r: Result<ImageUploadedEntity, ValidationError>)
    ensures r.Success? <==> Conforms(ImageUploadedFields, p, false)
    ensures r.Failure? ==> r.error == Problems(ImageUploadedFields, p, false) && !NoProblems(r.error)
  {
    ProblemsEmptyIff(ImageUploadedFields, p, false);
    if Conforms(ImageUploadedFields, p, false) then Success(ImageUploadedOf(p))
    else Failure(Problems(ImageUploadedFields, p, false))
  }

  /** The image event's fields are the ones the order event does not declare. */
  predicate IsImageField(f: Field) {
    !IsOrderField(f)
  }

  /** The JSON value an image entity holds in field `f`; fields of the other
      model hold `null`. */
  function ImageFieldJson(e: ImageUploadedEntity, f: Field): Json {
    match f
    case ImageIdField => JInt(e.imageId)
    case ProductIdField => JStr(e.productId)
    case OriginalUrlField => JStr(e.originalUrl)
    case OriginalKeyField => JStr(e.originalKey)
    case OriginalFormatField => JStr(e.originalFormat)
    case OriginalWidthField => JInt(e.originalWidth)
    case OriginalHeightField => JInt(e.originalHeight)
    case _ => JNull
  }

  /** The entity holds the payload's value of image field `f`. */
  predicate ImageFieldAgrees(p: map<string, Json>, e: ImageUploadedEntity, f: Field) {
    IsImageField(f) && Denotes(p, FieldName(f), ImageFieldJson(e, f))
  }

  /** The image entity holds exactly the payload's values, field by field. */
  predicate ImageAgrees(p: map<string, Json>, e: ImageUploadedEntity) {
    forall i | 0 <= i < |ImageUploadedFields| :: ImageFieldAgrees(p, e, ImageUploadedFields[i])
  }

  /** The image schema lists image fields only. */
  lemma ImageFieldsAreImageFields()
    ensures forall i | 0 <= i < |ImageUploadedFields| :: IsImageField(ImageUploadedFields[i])
  {
  }

  /** A key holds at most one value. */
  lemma DenotesUnique(p: map<string, Json>, k: string, v: Json, w: Json)
    requires Denotes(p, k, v) && Denotes(p, k, w)
    ensures v == w
  {
  }

  /** An acceptable image field of a payload agrees with the entity the
      payload describes. */
  lemma ConformingImageFieldAgrees(p: map<string, Json>, f: Field)
    requires IsImageField(f) && FieldOk(p, f)
    ensures ImageFieldAgrees(p, ImageUploadedOf(p), f)
  {
  }

  /** A field that agrees with an image entity is acceptable. */
  lemma AgreedImageFieldOk(p: map<string, Json>, e: ImageUploadedEntity, f: Field)
    requires ImageFieldAgrees(p, e, f)
    ensures FieldOk(p, f)
  {
  }

  /** An image entity is determined by the JSON values of its fields. */
  lemma ImageFieldJsonInjective(e: ImageUploadedEntity, e': ImageUploadedEntity)
    requires forall i | 0 <= i < |ImageUploadedFields| ::
      ImageFieldJson(e, ImageUploadedFields[i]) == ImageFieldJson(e', ImageUploadedFields[i])
    ensures e == e'
  {
    assert ImageFieldJson(e, ImageUploadedFields[0]) == ImageFieldJson(e', ImageUploadedFields[0]);
    assert ImageFieldJson(e, ImageUploadedFields[1]) == ImageFieldJson(e', ImageUploadedFields[1]);
    assert ImageFieldJson(e, ImageUploadedFields[2]) == ImageFieldJson(e', ImageUploadedFields[2]);
    assert ImageFieldJson(e, ImageUploadedFields[3]) == ImageFieldJson(e', ImageUploadedFields[3]);
    assert ImageFieldJson(e, ImageUploadedFields[4]) == ImageFieldJson(e', ImageUploadedFields[4]);
    assert ImageFieldJson(e, ImageUploadedFields[5]) == ImageFieldJson(e', ImageUploadedFields[5]);
    assert ImageFieldJson(e, ImageUploadedFields[6]) == ImageFieldJson(e', ImageUploadedFields[6]);
  }

  /** An accepted image payload and the entity built from it agree field by
      field. */
  lemma ValidatedImageAgrees(p: map<string, Json>)
    requires ValidateImageUploaded(p).Success?
    ensures ImageAgrees(p, ValidateImageUploaded(p).value)
  {
    ImageFieldsAreImageFields();
    forall i | 0 <= i < |ImageUploadedFields|
      ensures ImageFieldAgrees(p, ImageUploadedOf(p), ImageUploadedFields[i])
    {
      FieldOkAt(ImageUploadedFields, p, false, i);
      ConformingImageFieldAgrees(p, ImageUploadedFields[i]);
    }
  }

  /** Conversely, any payload that describes `e` field by field validates to
      exactly `e`, whatever other keys it holds. */
  lemma ImageAgreementValidates(p: map<string, Json>, e: ImageUploadedEntity)
    requires ImageAgrees(p, e)
    ensures ValidateImageUploaded(p) == Success(e)
  {
    forall i | 0 <= i < |ImageUploadedFields|
      ensures FieldOk(p, ImageUploadedFields[i])
    {
      AgreedImageFieldOk(p, e, ImageUploadedFields[i]);
    }
    assert Conforms(ImageUploadedFields, p, false);
    forall i | 0 <= i < |ImageUploadedFields|
      ensures ImageFieldJson(ImageUploadedOf(p), ImageUploadedFields[i]) == ImageFieldJson(e, ImageUploadedFields[i])
    {
      var f := ImageUploadedFields[i];
      ConformingImageFieldAgrees(p, f);
      DenotesUnique(p, FieldName(f), ImageFieldJson(ImageUploadedOf(p), f), ImageFieldJson(e, f));
    }
    ImageFieldJsonInjective(ImageUploadedOf(p), e);
  }

  /** The order schema lists order fields only. */
  lemma OrderFieldsAreOrderFields()
    ensures forall i | 0 <= i < |OrderFields| :: IsOrderField(OrderFields[i])
  {
  }

  /** The order schema lists exactly the fifteen order fields, so a
      property of each of them holds all along the schema. */
  lemma EveryOrderField(P: Field -> bool)
    requires P(OrderIdField) && P(TelegramIdField) && P(OldStatusField)
    requires P(NewStatusField) && P(CommentField) && P(PhoneField)
    requires P(CustomerNameField) && P(TotalField) && P(DeliveryMethodField)
    requires P(EmailField) && P(AddressField) && P(StatusCommentField)
    requires P(AdminChatIdField) && P(ThreadIdField) && P(CreatedAtField)
    ensures forall i | 0 <= i < |OrderFields| :: P(OrderFields[i])
  {
  }

  /** A property that holds all along the order schema holds of each of the
      fifteen order fields. */
  lemma OrderFieldsListed(P: Field -> bool)
    requires forall i | 0 <= i < |OrderFields| :: P(OrderFields[i])
    ensures P(OrderIdField) && P(TelegramIdField) && P(OldStatusField)
    ensures P(NewStatusField) && P(CommentField) && P(PhoneField)
    ensures P(CustomerNameField) && P(TotalField) && P(DeliveryMethodField)
    ensures P(EmailField) && P(AddressField) && P(StatusCommentField)
    ensures P(AdminChatIdField) && P(ThreadIdField) && P(CreatedAtField)
  {
    assert P(OrderFields[0]) && P(OrderFields[1]) && P(OrderFields[2]);
    assert P(OrderFields[3]) && P(OrderFields[4]) && P(OrderFields[5]);
    assert P(OrderFields[6]) && P(OrderFields[7]) && P(OrderFields[8]);
    assert P(OrderFields[9]) && P(OrderFields[10]) && P(OrderFields[11]);
    assert P(OrderFields[12]) && P(OrderFields[13]) && P(OrderFields[14]);
  }

  /** An acceptable order field of a payload agrees with the entity the
      payload describes. */
  lemma ConformingFieldAgrees(p: map<string, Json>, f: Field)
    requires IsOrderField(f) && FieldOk(p, f)
    ensures OrderFieldAgrees(p, OrderOf(p), f)
  {
  }

  /** A field that agrees with an entity is acceptable. */
  lemma AgreedFieldOk(p: map<string, Json>, e: OrderEntity, f: Field)
    requires OrderFieldAgrees(p, e, f)
    ensures FieldOk(p, f)
  {
    StatusRoundTrip(e.oldStatus);
    StatusRoundTrip(e.newStatus);
    DeliveryRoundTrip(e.deliveryMethod);
  }

  /** A payload field determines the entity's value of that field. */
  lemma AgreementUnique(p: map<string, Json>, e: OrderEntity, e': OrderEntity, f: Field)
    requires OrderFieldAgrees(p, e, f) && OrderFieldAgrees(p, e', f)
    ensures OrderFieldJson(e, f) == OrderFieldJson(e', f)
  {
  }

  /** An order entity is determined by the JSON values of its fields. */
  lemma OrderFieldJsonInjective(e: OrderEntity, e': OrderEntity)
    requires forall i | 0 <= i < |OrderFields| :: OrderFieldJson(e, OrderFields[i]) == OrderFieldJson(e', OrderFields[i])
    ensures e == e'
  {
    OrderFieldsListed(f => OrderFieldJson(e, f) == OrderFieldJson(e', f));
    SameFieldJsonSameOrder(e, e');
  }

  lemma SameFieldJsonSameOrder(e: OrderEntity, e': OrderEntity)
    requires OrderFieldJson(e, OrderIdField) == OrderFieldJson(e', OrderIdField)
    requires OrderFieldJson(e, TelegramIdField) == OrderFieldJson(e', TelegramIdField)
    requires OrderFieldJson(e, OldStatusField) == OrderFieldJson(e', OldStatusField)
    requires OrderFieldJson(e, NewStatusField) == OrderFieldJson(e', NewStatusField)
    requires OrderFieldJson(e, CommentField) == OrderFieldJson(e', CommentField)
    requires OrderFieldJson(e, PhoneField) == OrderFieldJson(e', PhoneField)
    requires OrderFieldJson(e, CustomerNameField) == OrderFieldJson(e', CustomerNameField)
    requires OrderFieldJson(e, TotalField) == OrderFieldJson(e', TotalField)
    requires OrderFieldJson(e, DeliveryMethodField) == OrderFieldJson(e', DeliveryMethodField)
    requires OrderFieldJson(e, EmailField) == OrderFieldJson(e', EmailField)
    requires OrderFieldJson(e, AddressField) == OrderFieldJson(e', AddressField)
    requires OrderFieldJson(e, StatusCommentField) == OrderFieldJson(e', StatusCommentField)
    requires OrderFieldJson(e, AdminChatIdField) == OrderFieldJson(e', AdminChatIdField)
    requires OrderFieldJson(e, ThreadIdField) == OrderFieldJson(e', ThreadIdField)
    requires OrderFieldJson(e, CreatedAtField) == OrderFieldJson(e', CreatedAtField)
    ensures e == e'
  {
    StatusNameInjective(e.oldStatus, e'.oldStatus);
    StatusNameInjective(e.newStatus, e'.newStatus);
    DeliveryNameInjective(e.deliveryMethod, e'.deliveryMethod);
    OptionJsonInjective(e, e');
  }

  lemma OptionJsonInjective(e: OrderEntity, e': OrderEntity)
    requires OrderFieldJson(e, TelegramIdField) == OrderFieldJson(e', TelegramIdField)
    requires OrderFieldJson(e, CommentField) == OrderFieldJson(e', CommentField)
    requires OrderFieldJson(e, EmailField) == OrderFieldJson(e', EmailField)
    requires OrderFieldJson(e, AddressField) == OrderFieldJson(e', AddressField)
    requires OrderFieldJson(e, StatusCommentField) == OrderFieldJson(e', StatusCommentField)
    requires OrderFieldJson(e, AdminChatIdField) == OrderFieldJson(e', AdminChatIdField)
    requires OrderFieldJson(e, ThreadIdField) == OrderFieldJson(e', ThreadIdField)
    ensures e.telegramId == e'.telegramId && e.comment == e'.comment
    ensures e.email == e'.email && e.address == e'.address
    ensures e.statusComment == e'.statusComment
    ensures e.adminChatId == e'.adminChatId && e.threadId == e'.threadId
  {
  }

  /** An accepted order payload and the entity built from it agree field by field. */
  lemma ValidatedOrderAgrees(p: map<string, Json>)
    requires ValidateOrder(p).Success?
    ensures OrderAgrees(p, ValidateOrder(p).value)
  {
    OrderFieldsAreOrderFields();
    forall i | 0 <= i < |OrderFields|
      ensures OrderFieldAgrees(p, OrderOf(p), OrderFields[i])
    {
      FieldOkAt(OrderFields, p, true, i);
      ConformingFieldAgrees(p, OrderFields[i]);
    }
  }

  /** A payload that describes `e` field by field and holds nothing else
      conforms to the order schema. */
  lemma OrderAgreementConforms(p: map<string, Json>, e: OrderEntity)
    requires p.Keys <= Names(OrderFields)
    requires OrderAgrees(p, e)
    ensures Conforms(OrderFields, p, true)
  {
    AgreedFieldsOk(p, e);
  }

  /** Agreement makes every declared field acceptable, whatever else the
      payload holds. */
  lemma AgreedFieldsOk(p: map<string, Json>, e: OrderEntity)
    requires OrderAgrees(p, e)
    ensures Conforms(OrderFields, p, false)
  {
    forall i | 0 <= i < |OrderFields|
      ensures FieldOk(p, OrderFields[i])
    {
      AgreedFieldOk(p, e, OrderFields[i]);
    }
  }

  /** A payload that describes `e` describes nothing else. */
  lemma AgreedOrderIs(p: map<string, Json>, e: OrderEntity)
    requires OrderAgrees(p, e)
    ensures OrderOf(p) == e
  {
    AgreedFieldsOk(p, e);
    forall i | 0 <= i < |OrderFields|
      ensures OrderFieldJson(OrderOf(p), OrderFields[i]) == OrderFieldJson(e, OrderFields[i])
    {
      FieldOkAt(OrderFields, p, false, i);
      ConformingFieldAgrees(p, OrderFields[i]);
      AgreementUnique(p, OrderOf(p), e, OrderFields[i]);
    }
    OrderFieldJsonInjective(OrderOf(p), e);
  }

  /** Conversely, every payload without unknown keys that describes `e`
      field by field validates to exactly `e`. */
  lemma OrderAgreementValidates(p: map<string, Json>, e: OrderEntity)
    requires p.Keys <= Names(OrderFields)
    requires OrderAgrees(p, e)
    ensures ValidateOrder(p) == Success(e)
  {
    OrderAgreementConforms(p, e);
    AgreedOrderIs(p, e);
  }


  /** The payload an image event would be sent as validates back to it. */
  lemma ImageUploadedPayloadRoundTrip(e: ImageUploadedEntity)
    ensures ValidateImageUploaded(ImageUploadedPayload(e)) == Success(e)
  {
    ImageFieldsAreImageFields();
    forall i | 0 <= i < |ImageUploadedFields|
      ensures ImageFieldAgrees(ImageUploadedPayload(e), e, ImageUploadedFields[i])
    {
      PayloadFieldAgrees(e, ImageUploadedFields[i]);
    }
    ImageAgreementValidates(ImageUploadedPayload(e), e);
  }

  lemma PayloadFieldAgrees(e: ImageUploadedEntity, f: Field)
    requires IsImageField(f)
    ensures ImageFieldAgrees(ImageUploadedPayload(e), e, f)
  {
  }

  /** `extra="forbid"`: a key outside the order schema is always rejected and
      reported as extra. */
  lemma OrderRejectsUnknownKey(p: map<string, Json>, k: string)
    requires k in p && k !in Names(OrderFields)
    ensures ValidateOrder(p).Failure? && k in ValidateOrder(p).error.extra
  {
  }

  /** A key outside `q` reads the same in `q + p` as in `p`. */
  lemma UnshadowedImageField(p: map<string, Json>, q: map<string, Json>, e: ImageUploadedEntity, f: Field)
    requires FieldName(f) !in q
    ensures FieldName(f) in q + p <==> FieldName(f) in p
    ensures FieldName(f) in p ==> (q + p)[FieldName(f)] == p[FieldName(f)]
    ensures FieldOk(q + p, f) == FieldOk(p, f)
    ensures ImageFieldAgrees(q + p, e, f) == ImageFieldAgrees(p, e, f)
  {
  }

  /** The image event has no `extra="forbid"`: keys outside its schema never
      change the outcome. */
  lemma ImageUploadedIgnoresUnknownKeys(p: map<string, Json>, q: map<string, Json>)
    requires q.Keys !! Names(ImageUploadedFields)
    ensures ValidateImageUploaded(q + p) == ValidateImageUploaded(p)
  {
    var pq := q + p;
    var e := ImageUploadedOf(p);
    forall i | 0 <= i < |ImageUploadedFields|
      ensures var k := FieldName(ImageUploadedFields[i]);
        && (k in pq <==> k in p) && (k in p ==> pq[k] == p[k])
        && FieldOk(pq, ImageUploadedFields[i]) == FieldOk(p, ImageUploadedFields[i])
        && ImageFieldAgrees(pq, e, ImageUploadedFields[i]) == ImageFieldAgrees(p, e, ImageUploadedFields[i])
    {
      assert FieldName(ImageUploadedFields[i]) in Names(ImageUploadedFields);
      UnshadowedImageField(p, q, e, ImageUploadedFields[i]);
    }
    if Conforms(ImageUploadedFields, p, false) {
      ValidatedImageAgrees(p);
      ImageAgreementValidates(pq, e);
    } else {
      var a := Problems(ImageUploadedFields, pq, false);
      var b := Problems(ImageUploadedFields, p, false);
      assert a.missing == b.missing;
      assert a.invalid == b.invalid;
    }
  }
}
