# Leaf Flow notifications worker — a Dafny model

The notifications worker is a Celery worker. It consumes three kinds of
jobs:

- **Administrator notification.** An order event is validated and rendered as
  an HTML message with an inline keyboard. The message is sent to the
  administrators' Telegram chat.
- **Customer notification.** The same event is rendered for the customer. It
  is sent to the customer's own chat when the event names one.
- **Image variants.** An "image uploaded" event has the Cloudinary service
  fetch the original and derive three WebP variants (`thumb`, `md`, `lg`). The
  worker downloads each variant, stores it in object storage next to the
  original, and registers it with the catalogue API.

This project models that core as pure functions over immutable data:

- the payload schemas and their validation (`Entities`, `Enums`);
- the settings and the Redis URLs derived from them (`WorkerSettings`);
- the Telegram Bot API client and its error hierarchy (`TelegramClient`,
  `TelegramErrors`, `Exceptions`), with the inline keyboards and their JSON
  form (`TelegramModels`, `Keyboards`);
- the message templates (`Templates`) and the dispatcher that routes an event
  (`Dispatcher`);
- the Cloudinary request and the parsing of its answer (`Cloudinary`), and the
  image processor (`ImageProcessor`);
- the three Celery tasks with their retry policies (`NotificationTasks`,
  `ImageTasks`, `CeleryRetries`).

Everything outside the process is an oracle passed in as a function:

- the Telegram HTTP server (request → response);
- Cloudinary's upload (request → answer or exception);
- the CDN download (url → bytes or exception);
- Cloudinary's destroy call (public id → exception, if any);
- object storage and the catalogue API (call → exception, if any).

A run records the calls it made, in order, together with its result, so the
contracts can speak about what was sent as well as what was returned.

Python values that arrive as JSON are modelled by `JsonValues.Json`. A
missing `dict.get` key reads as `JNull`, and Python truthiness is `Truthy`. A
raised exception is `Failures.Exn`. `isinstance`, and `except` on a class,
are read off an explicit class hierarchy (`Exceptions.IsSubclass`).

Behaviour of the code worth noting:

- **The generic API error is unclassified.** `TelegramAPIError` is raised for
  a response below 400 whose JSON object body has `"ok": false`. It derives
  from `Exception` directly, so it is neither retryable nor non-retryable
  (`TelegramErrors.Classify`). The administrators' task therefore fails it at
  once, and the customer dispatch lets it escape.
- **A status of 400 or more is classified by status alone.** Whether or not
  the body is JSON, 429 is a rate limit, 500–599 a server error, 403
  forbidden, 404 not found, and every other such status a bad request. A
  body that is not JSON only changes the description, which falls back to
  the raw text. Only a response below 400 whose body is not a JSON object is
  a server error regardless of status.
- **Sizes are not checked.** Widths and heights of variants are whatever
  `int()` makes of the service's answer; nothing enforces them to be
  positive.
- **The customer's task retries everything.** It retries every exception,
  including a payload that fails validation. Only the administrators' task
  fails an invalid payload at once.

## Model

| member | source | states |
|---|---|---|
| Enums.ParseStatus | src/notifications_worker/domain/enums.py:4 | an order status is accepted exactly when it is one of the five literals, and the accepted value spells back to the input |
| Enums.ParseDelivery | src/notifications_worker/domain/enums.py:3 | a delivery method is accepted exactly when it is `pickup`, `courier` or `cdek`, and spells back to the input |
| Enums.StatusRoundTrip | src/notifications_worker/domain/enums.py:4 | every status parses back from its wire spelling |
| Enums.DeliveryRoundTrip | src/notifications_worker/domain/enums.py:3 | every delivery method parses back from its wire spelling |
| Enums.StatusNameInjective | src/notifications_worker/domain/enums.py:4 | two statuses with the same spelling are the same status |
| Enums.DeliveryNameInjective | src/notifications_worker/domain/enums.py:3 | two delivery methods with the same spelling are the same method |
| Entities.IntTextIsDecimal | src/notifications_worker/domain/entities.py:18 | an integer total written as text is a plain decimal literal |
| Entities.DecimalOfIsPlain | src/notifications_worker/domain/entities.py:18 | every accepted total (integer or decimal text) is held as a plain decimal literal |
| Entities.ProblemsEmptyIff | src/notifications_worker/domain/entities.py:8-37 | validation reports no extra, missing or invalid field exactly when the payload conforms to the schema |
| Entities.ValidateOrder | src/notifications_worker/domain/entities.py:8-25 | an order event validates exactly when its payload conforms, unknown keys forbidden; otherwise the error lists every problem and is non-empty; an accepted total is a plain decimal |
| Entities.ValidateImageUploaded | src/notifications_worker/domain/entities.py:28-37 | an image event validates exactly when its payload conforms, unknown keys allowed; otherwise the error lists every problem |
| Entities.ValidatedOrderAgrees | src/notifications_worker/domain/entities.py:11-25 | a validated order carries, field by field, exactly the values of its payload |
| Entities.AgreedFieldsOk | src/notifications_worker/domain/entities.py:11-25 | a payload that describes some order has every declared field present and well-typed |
| Entities.OrderAgreementConforms | src/notifications_worker/domain/entities.py:8-25 | a payload without unknown keys that describes some order conforms to the forbidding schema |
| Entities.AgreedOrderIs | src/notifications_worker/domain/entities.py:11-25 | a payload describes at most one order: the one validation builds |
| Entities.OrderAgreementValidates | src/notifications_worker/domain/entities.py:8-25 | conversely, every payload without unknown keys that describes an order validates to exactly that order |
| Entities.OrderFieldJsonInjective | src/notifications_worker/domain/entities.py:11-25 | two orders that agree on every field's JSON value are equal: the schema covers the whole entity |
| Entities.OrderRejectsUnknownKey | src/notifications_worker/domain/entities.py:9 | any key outside the order schema makes validation fail and is reported as extra |
| Entities.ValidatedImageAgrees | src/notifications_worker/domain/entities.py:28-37 | a validated image event carries exactly the values of its payload |
| Entities.ImageAgreementValidates | src/notifications_worker/domain/entities.py:28-37 | every payload that describes an image event validates to exactly that event |
| Entities.ImageFieldJsonInjective | src/notifications_worker/domain/entities.py:28-37 | two image events that agree on every field's JSON value are equal |
| Entities.ImageUploadedPayloadRoundTrip | src/notifications_worker/domain/entities.py:28-37 | the payload an image event is sent as validates back to the same event |
| Entities.ImageUploadedIgnoresUnknownKeys | src/notifications_worker/domain/entities.py:28-37 | adding keys outside the image schema never changes the validation outcome, success or error |
| WorkerSettings.Defaults | src/notifications_worker/infra/settings.py:8-17 | the defaults: localhost:6379, databases 0 and 1, no URL overrides, queue `notifications`, visibility timeout 30 minutes |
| WorkerSettings.BrokerUrl | src/notifications_worker/infra/settings.py:43-45 | a non-empty override wins; otherwise the broker URL is composed from host, port and broker database |
| WorkerSettings.ResultBackendUrl | src/notifications_worker/infra/settings.py:47-49 | a non-empty override wins; otherwise the result-backend URL is composed from host, port and backend database |
| WorkerSettings.RedisUrlDatabase | src/notifications_worker/infra/settings.py:43-49 | the last path segment of a composed URL reads back as its database number |
| WorkerSettings.ComposedUrlsDistinct | src/notifications_worker/infra/settings.py:43-49 | without overrides, broker and backend URLs coincide exactly when their database numbers do |
| WorkerSettings.EmptyOverrideFallsBack | src/notifications_worker/infra/settings.py:43-45 | an empty override behaves as no override |
| WorkerSettings.DefaultUrls | src/notifications_worker/infra/settings.py:8-17 | the default broker is `redis://localhost:6379/0` and the default backend `redis://localhost:6379/1` |
| Exceptions.Parent | src/notifications_worker/infra/telegram/errors.py:5-74 | every class but the root has a base class, strictly closer to the root |
| Exceptions.AllAreExceptions | src/notifications_worker/infra/telegram/errors.py:5-74 | every class the worker meets is caught by `except Exception` |
| Exceptions.RetryableBasesDisjoint | src/notifications_worker/infra/telegram/errors.py:20-25 | no class derives from both the retryable and the non-retryable base |
| TelegramErrors.Classify | src/notifications_worker/infra/telegram/errors.py:5-74 | rate-limit, server and transport errors are retryable; bad-request, forbidden and not-found are not; the generic API error is neither |
| TelegramErrors.RetryClassesDisjoint | src/notifications_worker/infra/telegram/errors.py:20-25 | no error is both retryable and non-retryable |
| TelegramErrors.Describe | src/notifications_worker/infra/telegram/errors.py:5-17 | the generic API error's text puts the code and a space before the description exactly when a code is present |
| TelegramModels.ButtonToDict | src/notifications_worker/infra/telegram/models.py:10-11 | a button becomes an object with exactly `text` and `callback_data` |
| TelegramModels.RowsToJson | src/notifications_worker/infra/telegram/models.py:18-24 | one JSON array per keyboard row, in order, each holding the row's buttons in order |
| TelegramModels.MarkupToDict | src/notifications_worker/infra/telegram/models.py:18-24 | a keyboard becomes an object with exactly `inline_keyboard` |
| TelegramModels.RowRoundTrip | src/notifications_worker/infra/telegram/models.py:10-11 | a row read back from its JSON is the same row |
| TelegramModels.RowsRoundTrip | src/notifications_worker/infra/telegram/models.py:18-24 | the rows read back from their JSON are the same rows |
| TelegramModels.MarkupRoundTrip | src/notifications_worker/infra/telegram/models.py:18-24 | a keyboard read back from its JSON is the same keyboard |
| Keyboards.OrderActions | src/notifications_worker/infra/telegram/keyboards.py:4-10 | the customer keyboard: a "details" row and a "chat" row, each one button whose callback names the order |
| Keyboards.AdminOrderDetailsButton | src/notifications_worker/infra/telegram/keyboards.py:13-20 | the admin keyboard: a "details" row and a "change status" row, each one button whose callback names the order |
| Keyboards.PrefixesDisagree | src/notifications_worker/infra/telegram/keyboards.py:4-20 | callback strings of different actions never coincide, whatever follows the prefix |
| Keyboards.CallbackDataInjective | src/notifications_worker/infra/telegram/keyboards.py:4-20 | a callback string determines both its action and its order id |
| TelegramClient.BuildPayload | src/notifications_worker/infra/telegram/client.py:37-47 | chat, text and preview flag always; parse mode only when non-empty; thread only when positive; markup only when given; nothing else |
| TelegramClient.PayloadRoundTrip | src/notifications_worker/infra/telegram/client.py:37-47 | the payload decodes back to the arguments, except that a non-positive thread and an empty parse mode read as absent |
| TelegramClient.TryJson | src/notifications_worker/infra/telegram/client.py:78-84 | the body is kept exactly when it decoded to a JSON object |
| TelegramClient.HttpErrorDescription | src/notifications_worker/infra/telegram/client.py:91-95 | the description is the body's `description` when the body is a non-empty object and that value is truthy, else the raw text when non-empty, else `HTTP <status>`; it is never falsy |
| TelegramClient.HttpError | src/notifications_worker/infra/telegram/client.py:86-114 | 429 is a rate limit with the body's `retry_after`; 5xx a server error with the raw text; 403 forbidden; 404 not found; every other status a bad request; description as reported |
| TelegramClient.HttpErrorRetryability | src/notifications_worker/infra/telegram/client.py:86-114 | an HTTP error is retryable exactly for 429 and 5xx, non-retryable for every other status |
| TelegramClient.Post | src/notifications_worker/infra/telegram/client.py:51-76 | a request failure is a transport error; 400 and above an HTTP error whatever the body; below 400, success exactly for an object body whose `ok` is not literally false, a non-object body a server error, and `ok: false` an API error with the body's description or a fixed fallback |
| TelegramClient.NonJson400IsBadRequest | src/notifications_worker/infra/telegram/client.py:62-63 | a 400 with a non-JSON body is a bad request carrying the raw text |
| TelegramClient.OkMustBeLiteralFalse | src/notifications_worker/infra/telegram/client.py:66-71 | `ok` missing, 0 or true on an object body below 400 still succeeds |
| TelegramClient.SendMessage | src/notifications_worker/infra/telegram/client.py:27-49 | one POST of the built payload to `sendMessage`, classified by `_post` |
| Templates.HumanStatusVerbatimIff | src/notifications_worker/services/templates.py:16-24 | a status is shown verbatim exactly when it is non-empty and not one of the five labelled statuses |
| Templates.HumanStatusMissing | src/notifications_worker/services/templates.py:24 | a missing or empty status is shown as "Неизвестно" |
| Templates.StatusEmojiFallbackIff | src/notifications_worker/services/templates.py:4-13 | the clipboard fallback emoji is chosen exactly for an unknown status |
| Templates.HumanDeliveryVerbatimIff | src/notifications_worker/services/templates.py:27-33 | a delivery method is shown verbatim exactly when non-empty and unlabelled; missing or empty is "Не указан" |
| Templates.EveryStatusLabelled | src/notifications_worker/services/templates.py:4-24 | every valid status has its own label and emoji, never the fallback |
| Templates.CdekShownVerbatim | src/notifications_worker/services/templates.py:27-33 | `cdek` is valid but unlabelled, so it is shown as is; courier and pickup get Russian labels |
| Templates.StatusEmoji | src/notifications_worker/services/templates.py:4-13 | the clipboard fallback is chosen exactly for a status other than the five known ones |
| Templates.HumanStatus | src/notifications_worker/services/templates.py:16-24 | a status is shown verbatim exactly when it is non-empty and not one of the five labelled statuses; a missing or empty status is "Неизвестно" |
| Templates.HumanDelivery | src/notifications_worker/services/templates.py:27-33 | a delivery method is shown verbatim exactly when it is non-empty and neither courier nor pickup; a missing or empty one is "Не указан" |
| Templates.AdminNewOrderLines | src/notifications_worker/services/templates.py:36-56 | the admin new-order message: the bold "Новый заказ" title first, then order, customer, phone, total and delivery lines, then email, address and a separated comment block each exactly when given |
| Templates.AdminUpdateLines | src/notifications_worker/services/templates.py:59-66 | the admin status update: three lines, the order and the new status's label |
| Templates.UserNewOrderLines | src/notifications_worker/services/templates.py:69-75 | the customer new-order message: two lines, the first naming the order as created |
| Templates.UserUpdateLines | src/notifications_worker/services/templates.py:78-90 | the customer status update: order line, emoji and label line, and the comment block exactly when a comment is given |
| Templates.RenderOrderMessageAdmin | src/notifications_worker/services/templates.py:36-56 | the admin new-order text begins with its bold "Новый заказ" title |
| Templates.NotifyUpdateStatusOrderAdmin | src/notifications_worker/services/templates.py:59-66 | the admin status-update text begins with its "Статус заказа обновлён" title line |
| Templates.NotifyNewOrderUser | src/notifications_worker/services/templates.py:69-75 | the customer new-order text begins by naming the order as created |
| Templates.NotifyUpdateStatusOrderUser | src/notifications_worker/services/templates.py:78-90 | the customer status-update text begins with the bell and the order number |
| Templates.AdminTextsContainOrderId | src/notifications_worker/services/templates.py:36-66 | both admin messages contain the order id |
| Templates.UserTextsContainOrderId | src/notifications_worker/services/templates.py:69-90 | both customer messages contain the order id |
| Templates.AdminUpdateShowsStatus | src/notifications_worker/services/templates.py:59-66 | the admin update contains the new status's label |
| Templates.UserUpdateShowsStatus | src/notifications_worker/services/templates.py:78-90 | the customer update contains the new status's label |
| Templates.UserUpdateShowsEmoji | src/notifications_worker/services/templates.py:79-83 | the customer update contains the new status's emoji |
| Templates.UserUpdateShowsComment | src/notifications_worker/services/templates.py:86-88 | a given status comment appears in the customer update |
| Templates.AdminNewOrderShowsDetails | src/notifications_worker/services/templates.py:36-56 | the admin new-order message contains the customer, phone, total and delivery, and the email, address and comment when given |
| Dispatcher.IsNewOrder | src/notifications_worker/services/dispatcher.py:72-74 | an event is a new order exactly when its old and new statuses are both `created` |
| Dispatcher.AdminText | src/notifications_worker/services/dispatcher.py:43-46 | a new order gets the new-order message, any other event the status update; either way the text contains the order id |
| Dispatcher.UserText | src/notifications_worker/services/dispatcher.py:61-64 | a new order gets the "created" message, any other event the status update; either way the text contains the order id |
| Dispatcher.AdminTextKind | src/notifications_worker/services/dispatcher.py:36-51 | the admin text starts with `<` exactly for a new order (created to created) |
| Dispatcher.UserTextKind | src/notifications_worker/services/dispatcher.py:54-74 | the customer text starts with ✅ exactly for a new order and with 🔔 exactly for a status change |
| Dispatcher.DispatchAdmin | src/notifications_worker/services/dispatcher.py:16-20 | exactly one `sendMessage` to the configured admin chat, the admin text in HTML mode, in the event's own `thread_id` exactly when it is positive, the admin keyboard; the failure raised is the classified error |
| Dispatcher.DispatchUser | src/notifications_worker/services/dispatcher.py:23-33 | nothing is sent without a customer chat; otherwise one HTML message to that chat with no thread, and only a send failure that is not non-retryable escapes |
| Dispatcher.AdminArgs | src/notifications_worker/services/dispatcher.py:77-87 | `_send_admin` sends the admin text to the configured admin chat in HTML mode with previews disabled, in the event's own `thread_id` exactly when it is positive, with the admin keyboard |
| Dispatcher.UserArgs | src/notifications_worker/services/dispatcher.py:90-99 | `_send_user_best_effort` sends the customer text to the given chat in HTML mode with previews disabled, never in a thread, with the customer keyboard |
| Dispatcher.UserDispatchRaisesNoNonRetryable | src/notifications_worker/services/dispatcher.py:29-33 | whatever escapes the customer dispatch is not a non-retryable error |
| Dispatcher.AdminChatFromSettings | src/notifications_worker/services/dispatcher.py:16-20 | the admin dispatch does not depend on the event's own `admin_chat_id` |
| Dispatcher.UserDispatchIgnoresAdminChat | src/notifications_worker/services/dispatcher.py:23-33 | the customer dispatch does not depend on the configured admin chat |
| Dispatcher.KeyboardsDiffer | src/notifications_worker/services/dispatcher.py:36-69 | the admin and customer keyboards for one order are never the same JSON |
| NotificationTasks.AdminAttempt | src/notifications_worker/tasks/notifications.py:14-20 | an invalid payload raises its validation error and sends nothing; a valid one raises what the admin dispatch raised |
| NotificationTasks.UserAttempt | src/notifications_worker/tasks/notifications.py:26-31 | an invalid payload raises its validation error and sends nothing; a valid one raises what the customer dispatch raised |
| NotificationTasks.AdminVerdict | src/notifications_worker/tasks/notifications.py:12-23 | retried after 10 seconds exactly for a retryable Telegram error while fewer than 5 retries were made; every other exception fails |
| NotificationTasks.UserVerdict | src/notifications_worker/tasks/notifications.py:26-33 | every exception is retried after 10 seconds while fewer than 5 retries were made |
| NotificationTasks.SendNotificationOrderAdmin | src/notifications_worker/tasks/notifications.py:12-23 | an invalid payload sends nothing and fails at once with its validation error; the task completes exactly when the payload is valid and the admin dispatch raised nothing |
| NotificationTasks.SendNotificationOrderUser | src/notifications_worker/tasks/notifications.py:26-33 | an invalid payload sends nothing, never completes, and is retried exactly while retries remain; the task completes exactly when the payload is valid and the customer dispatch raised nothing |
| NotificationTasks.AdminRetriesExactlyTransient | src/notifications_worker/tasks/notifications.py:12-23 | the admin task retries exactly a valid payload whose send failed retryably while retries remain |
| NotificationTasks.AdminInvalidPayloadFailsAtOnce | src/notifications_worker/tasks/notifications.py:18-20 | an invalid payload fails the admin task at once, with no request |
| NotificationTasks.UserInvalidPayloadRetried | src/notifications_worker/tasks/notifications.py:32-33 | the customer task retries an invalid payload while retries remain |
| NotificationTasks.UserNonRetryableIsDone | src/notifications_worker/tasks/notifications.py:26-33 | a non-retryable send failure ends the customer task successfully |
| NotificationTasks.PoliciesBounded | src/notifications_worker/tasks/notifications.py:12-33 | neither policy retries once 5 retries were made |
| NotificationTasks.RunAdminTask | src/notifications_worker/tasks/notifications.py:12-23 | the admin task runs at most six times, every attempt but the last having raised a retryable Telegram error |
| NotificationTasks.RunUserTask | src/notifications_worker/tasks/notifications.py:26-33 | the customer task runs at most six times, every attempt but the last having raised |
| CeleryRetries.CeleryRetry | src/notifications_worker/tasks/notifications.py:22-23 | another attempt exactly while retries remain, with the given delay; otherwise the exception itself is raised |
| CeleryRetries.BackoffDelay | src/notifications_worker/tasks/images.py:13-20 | the back-off bound is exactly `min(cap, 2^retries)`: it is the cap or `2^retries`, and above neither |
| CeleryRetries.BackoffMonotone | src/notifications_worker/tasks/images.py:13-20 | the back-off bound never shrinks as retries grow |
| CeleryRetries.Drive | src/notifications_worker/tasks/images.py:13-20 | a policy that retries only below `maxRetries` runs at most `maxRetries + 1` attempts, all retried but the last |
| Cloudinary.VariantNamesEnumerateConfig | src/notifications_worker/infra/cloudinary/client.py:20-24 | exactly three variants, listed once each, in configuration order |
| Cloudinary.EagerTransformations | src/notifications_worker/infra/cloudinary/client.py:27-38 | one transformation per variant, with that variant's size and quality, WebP, crop `fit` |
| Cloudinary.TransformationsGrow | src/notifications_worker/infra/cloudinary/client.py:20-24 | later variants are strictly wider, taller and of higher quality |
| Cloudinary.FetchAndTransformRequest | src/notifications_worker/infra/cloudinary/client.py:41-62 | the upload fetches the given URL under the given public id, synchronously, overwriting, as an image, with all three transformations |
| Cloudinary.ParseEagerItem | src/notifications_worker/infra/cloudinary/client.py:96-100 | an item parses exactly when it is an object with `secure_url`, `width` and `height`; otherwise a `KeyError` (object) or `TypeError` |
| Cloudinary.ExaminedCount | src/notifications_worker/infra/cloudinary/client.py:92-94 | the parser examines as many items as there are, but at most three |
| Cloudinary.ParsePrefix | src/notifications_worker/infra/cloudinary/client.py:82-102 | the first `n` items parse exactly when each does; the result maps the `i`-th variant to the `i`-th item; a failure is the first failing item's error |
| Cloudinary.ParsePrefixLocal | src/notifications_worker/infra/cloudinary/client.py:82-102 | the parse of the first `n` items depends on nothing else |
| Cloudinary.ParseEagerResults | src/notifications_worker/infra/cloudinary/client.py:82-102 | the answer parses exactly when every examined item does; its keys are then exactly the first variant names, one per examined item; a failure is the error of the first examined item that failed |
| Cloudinary.ParseIgnoresExtraItems | src/notifications_worker/infra/cloudinary/client.py:92-94 | items appended beyond those examined never change the parse |
| Cloudinary.ParseEagerResultsFirstThree | src/notifications_worker/infra/cloudinary/client.py:92-94 | only the first three items matter |
| Cloudinary.ParseEagerResultsPositional | src/notifications_worker/infra/cloudinary/client.py:96-100 | on success the `i`-th variant holds exactly the fields of the `i`-th item |
| ImageProcessor.PublicIdInjective | src/notifications_worker/services/image_processor.py:37 | different (product, image) pairs never share a temporary public id |
| ImageProcessor.PublicId | src/notifications_worker/services/image_processor.py:37 | the temporary id lies in the directory `temp/leaf-flow/<product>` and is named by the image id |
| ImageProcessor.StorageKey | src/notifications_worker/services/image_processor.py:57-69 | a variant whose name has no `/` is stored in the original's directory as `<variant>.webp` |
| ImageProcessor.StorageKeyBesideOriginal | src/notifications_worker/services/image_processor.py:57-69 | a variant is stored in the original's directory as `<variant>.webp` |
| ImageProcessor.StorageKeysDistinct | src/notifications_worker/services/image_processor.py:57-69 | distinct variants of one original get distinct storage keys |
| ImageProcessor.StorageKeyExample | src/notifications_worker/services/image_processor.py:56-69 | for the original whose base path the source's comment gives, the thumbnail key is `public/products/pu-erh/123/thumb.webp` |
| ImageProcessor.PyInt | src/notifications_worker/services/image_processor.py:75-76 | `int()` keeps integers, maps booleans to 0 and 1, parses decimal text, and raises `ValueError` for bad text and `TypeError` otherwise |
| ImageProcessor.PyIntReadsDecimalText | src/notifications_worker/services/image_processor.py:75-76 | a number reported as decimal text reads back as that number |
| ImageProcessor.PresentNamesOfParsed | src/notifications_worker/services/image_processor.py:59-62 | when the answer names exactly the first `m` variants, the loop meets exactly those, in order |
| ImageProcessor.DownloadPrefix | src/notifications_worker/services/image_processor.py:59-80 | only downloads, one per variant the answer names, from its URL; on success one result per download, with `int()` of the reported sizes and the downloaded size |
| ImageProcessor.DownloadFailureIsLastAttempt | src/notifications_worker/services/image_processor.py:59-80 | a loop that fails was ended by its last download: the error is that download's own, or else that of `int()` on the width, or else the height, of the variant it fetched |
| ImageProcessor.DeleteFromCloudinary | src/notifications_worker/infra/cloudinary/client.py:73-79 | a failed deletion escapes only when it is not an `Exception` |
| ImageProcessor.ProcessImage | src/notifications_worker/services/image_processor.py:37-93 | the upload request always comes first and the deletion always last, with only downloads between, at most three |
| ImageProcessor.ProcessBody | src/notifications_worker/services/image_processor.py:39-89 | a failed upload is re-raised, an answer without a non-empty `eager` list raises the fixed `ValueError`, and a parse failure is re-raised, each before any download; at most three downloads otherwise |
| ImageProcessor.ProcessImageSuccess | src/notifications_worker/services/image_processor.py:39-89 | success needs a non-empty `eager` list that parsed; there is one result per examined item, the `i`-th for the `i`-th variant, stored beside the original as WebP with its byte size |
| ImageProcessor.BodySuccess | src/notifications_worker/services/image_processor.py:44-80 | the same facts about the body of the `try`, given the upload's answer |
| ImageProcessor.EagerMissingFails | src/notifications_worker/services/image_processor.py:44-47 | an answer without a usable `eager` list fails with the fixed error after the request and the deletion only |
| ImageProcessor.UploadFailurePropagates | src/notifications_worker/services/image_processor.py:39-93 | a failed upload is re-raised as is, with nothing downloaded |
| ImageProcessor.ParseFailurePropagates | src/notifications_worker/services/image_processor.py:49-50 | an `eager` item that fails to parse fails the run with the parser's error, after the request and the deletion only |
| ImageProcessor.DownloadFailurePropagates | src/notifications_worker/services/image_processor.py:59-93 | a failed download or `int()` fails the run with that error; the run made the request, the downloads up to the failing one, and the deletion |
| ImageProcessor.DeletionFailureIsHarmless | src/notifications_worker/services/image_processor.py:91-93 | a deletion failing with an ordinary exception leaves the run exactly as a successful deletion would |
| ImageTasks.UploadVariants | src/notifications_worker/tasks/images.py:59-65 | one upload per variant, in order, to its storage key as WebP; the loop completes exactly when every upload went through, and otherwise stops at the first failure with that failure |
| ImageTasks.SaveVariants | src/notifications_worker/tasks/images.py:68-69 | one registration per variant, in order; the loop completes exactly when every registration went through, and otherwise stops at the first failure with that failure |
| ImageTasks.StoreVariants | src/notifications_worker/tasks/images.py:59-81 | the uploads run in order and the first failure stops everything; registrations follow only once every upload went through, and the first failure stops them; success reports every variant name |
| ImageTasks.StoreAfter | src/notifications_worker/tasks/images.py:58-81 | the storage steps after earlier calls: those calls stay first, and the uploads, registrations, failures and report are as for `StoreVariants` |
| ImageTasks.AfterProcessing | src/notifications_worker/tasks/images.py:47-81 | a failed transformation step is re-raised and an empty one raises "No variants created", both before any upload; the transformation calls always come first; storage failures and success are as for `StoreVariants` |
| ImageTasks.CreateVariants | src/notifications_worker/tasks/images.py:38-81 | an invalid event does nothing; a failed or empty transformation step stops before any upload; a failing upload or registration is raised, after the transformation calls and every call up to it, with no registration before the last upload; a success made every call in order and reports every variant |
| ImageTasks.ProcessedVariantsArePrefix | src/notifications_worker/tasks/images.py:47-56 | a successful transformation step yields a non-empty prefix of thumb, md, lg, so "No variants created" cannot arise |
| ImageTasks.ImageVerdict | src/notifications_worker/tasks/images.py:13-20 | every exception is retried with exponential back-off capped at 300 seconds while fewer than 3 retries were made |
| ImageTasks.BackoffNeverCapped | src/notifications_worker/tasks/images.py:13-20 | with three retries the back-off bound is 1, 2 or 4 seconds, never the cap |
| ImageTasks.RunImageTask | src/notifications_worker/tasks/images.py:13-20 | the task runs at most four times, every attempt but the last having raised |

## Left out

- Logging and `print` calls: they have no effect on the outcome.
- The Celery application, its configuration and the entry point (`app.py`, `celeryconfig.py`, `__main__.py`). The broker, task routing and scheduling are likewise left out. A retry is modelled as its delay.
- The random draw of full-jitter back-off: `CeleryRetries.BackoffDelay` gives the upper bound of the uniform draw, not the draw itself.
- HTTP, Cloudinary SDK, S3 and catalogue API I/O. Each is an oracle parameter, and `src/notifications_worker/infra/s3/client.py` and `src/notifications_worker/infra/leafflow/client.py` are not part of this model beyond that. `download_variant`'s `raise_for_status` is folded into the download oracle's failure.
- Credentials and client construction: the Cloudinary settings, the S3 and catalogue credentials, and the HTTP timeouts (`infra/settings.py:23-24`). None of them affects an outcome the model states.
- Floating-point JSON numbers. `JsonValues.Json` has no float, so a float `width` or `height` (which `int()` would truncate) is not modelled.
- `JsonValues.PyStr`: exact for scalars only. For lists and objects it gives a placeholder rather than Python's `repr`.
- Pydantic's lax-mode coercion: a string for an integer field, a number for a string field, and so on. The model accepts exactly the JSON types declared. The one exception is `total`, which takes an integer or decimal text.
- `Decimal` arithmetic and normalisation: a total is kept as the decimal text it was given.
- `ImageProcessor.PyInt`: does not accept surrounding whitespace, digit-group underscores or non-ASCII Unicode decimal digits, all of which Python's `int()` allows in text.
- `TelegramErrors.Describe`: states only the generic API error's text; the other errors' texts are defined but carry no further contract.
- `CeleryRetries.BackoffDelay`: the Celery factor is fixed at 1, as the task configures it.
