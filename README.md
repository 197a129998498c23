# TasteVision restaurant ordering: a Dafny model of its decision logic

TasteVision is a restaurant storefront with an admin panel, AI-assisted product
entry and a payment gateway (Midtrans). Almost all of it is page rendering and
calls to a hosted database. This project models the small pieces of it that make
decisions:

- **Payment reconciliation, service variant** (`MidtransPaymentService`). It turns
  a gateway notification's `(transaction_status, fraud_status)` into the order's
  `(status, payment_status)` and overwrites those columns on the matching rows of
  `orders`. It also opens an order and a payment session (`createPayment`), and
  derives each item's gateway id from its name (a slug).
- **Payment reconciliation, API-route variant** (`pages/api/webhook/payment.js`).
  Its mapping ignores the fraud screening. It stores the raw gateway word as
  `payment_status` and the whole body as `payment_data`.
- **AI extraction validator** (`parseExtractionResult`). It cuts the JSON object out
  of the model's answer and checks the product fields.
- **Storefront product list**: the initial load and the realtime INSERT/UPDATE
  reducers.
- **Admin authentication**: the fixed-credential login, the token check and the
  request guard.

Files:

- `wrappers.dfy`: `Option` and `Result`.
- `orders.dfy` (module `Orders`): the `orders` row, the status words, and the one
  keyed write both reconcilers perform. `UpdateWhere` is `update(columns).eq(column, key)`.
  `OrderTable` is the table the services write through.
- `slugs.dfy` (module `Slugs`): the item-id slug.
- `payment_service.dfy` (module `PaymentService`): `packages/payment/midtrans-service.ts`.
- `payment_webhook.dfy` (module `PaymentWebhook`): `pages/api/webhook/payment.js`.
  It also holds the comparison of the two variants.
- `product_extractor.dfy` (module `ProductExtractor`): `packages/ai/product-extractor.ts`.
- `product_feed.dfy` (module `ProductFeed`): the product-list state of `apps/frontend/app/page.tsx`.
- `admin_auth.dfy` (module `AdminAuth`): `lib/auth.js`.

Some inputs are nondeterministic or belong to external services. Each of these
becomes a parameter of the operation that uses it:

- the clock (`updated_at`, as an opaque string `now`);
- the generated order id;
- the database's error replies;
- the gateway's `createTransaction`;
- `JSON.parse`;
- `jwt.sign` and `jwt.verify`;
- the environment variables.

## Where the code is looser than a reconciler should be

A payment reconciler is usually expected to reject what it does not recognise,
verify who sent a notification, and never regress a settled order. This code
does none of that, and the model follows the code:

- An unrecognised `transaction_status` is not rejected. Both variants write
  `pending` for it (`WebhookStatus`, `NotificationStatus`).
- A notification for an order that no row carries is not refused. Nothing is
  written, and the API route still answers 200 (`UnknownOrderWritesNothing`,
  `Handler`). The service still returns success.
- No signature is verified in either variant.
- A late or redelivered notification overwrites whatever is there, so a stale
  `pending` can replace `paid` (`LaterNotificationWins`).
- A failed gateway call in `createPayment` leaves the inserted pending order
  behind, with no payment url.
- A failed payment-url update is not noticed: the session is still returned
  (`CreatePayment`).
- The two variants disagree on a capture that the fraud screening did not accept.
  They also use different words for a failed transaction's order status, and key
  their updates on different columns (`midtrans_order_id` and `order_id`).
  An order opened by `createPayment` does not set `order_id` (taken to default
  to NULL), so the API route's update never selects it (`NewOrder`).

## Model

| member | source | states |
|---|---|---|
| `PaymentService.WebhookStatus` | packages/payment/midtrans-service.ts:99-113 | The order status is paid exactly for a settlement or a fraud-accepted capture. It is cancelled exactly for deny, expire or cancel. Every other status, unknown words included, gives pending/pending. The two statuses move together: paid iff paid, cancelled iff failed. |
| `PaymentService.WebhookPatch` | packages/payment/midtrans-service.ts:118-122 | The update writes `status`, `payment_status` and `updated_at` (the given time) and nothing else. The order status is pending, paid or cancelled, the payment status pending, paid or failed, and one is paid exactly when the other is. |
| `PaymentService.ApplyWebhook` | packages/payment/midtrans-service.ts:115-123 | The table keeps its keys. Rows whose `midtrans_order_id` is not the notification's order id are unchanged. Matching rows change only in `status`, `payment_status` (the mapped pair) and `updated_at`. |
| `PaymentService.LaterNotificationWins` | packages/payment/midtrans-service.ts:116-123 | Of two notifications for one order, the later one decides the whole outcome, as if the first had never arrived. |
| `PaymentService.RedeliveryIdempotent` | packages/payment/midtrans-service.ts:116-123 | Applying the same notification twice gives the same table as applying it once, up to the timestamp. |
| `PaymentService.ItemDetails` | packages/payment/midtrans-service.ts:60-65 | One gateway item per order line, in order. Its id is the slug of the name; name, price and quantity are copied. |
| `PaymentService.NewOrder` | packages/payment/midtrans-service.ts:29-43 | The inserted row is keyed by the generated id, carries it as `midtrans_order_id`, is pending on both statuses, copies the customer, items and total, and has no url, body or timestamp. It does not set `order_id` (taken to be NULL), so no update on `order_id` selects it. |
| `PaymentService.TransactionRequestFor` | packages/payment/midtrans-service.ts:50-71 | The gateway request carries the order's id, total and customer, and `ItemDetails` of its lines. Its three callbacks are distinct pages under the application url. |
| `PaymentService.MidtransPaymentService.constructor` | packages/payment/midtrans-service.ts:9-20 | The service writes through the given database handle. |
| `PaymentService.MidtransPaymentService.CreatePayment` | packages/payment/midtrans-service.ts:22-90 | A store error or an id clash fails with nothing written. Otherwise exactly one row is added, under the new id: pending/pending, with `midtrans_order_id` equal to that id, and the other rows unchanged. A gateway failure is reported and leaves that row without a url. Success happens exactly when insert and gateway succeed. It returns the gateway's url and token with the same order id. The url is stored unless its update failed, and that failure is ignored. |
| `PaymentService.MidtransPaymentService.HandleWebhook` | packages/payment/midtrans-service.ts:92-132 | An update error is rethrown with the table untouched. Otherwise the table becomes `ApplyWebhook` of the old one. The acknowledgement is `success: true`, and its status is the status written on every matching row. |
| `Slugs.Slug` | packages/payment/midtrans-service.ts:61 | An item id is no longer than the name and contains no whitespace and no upper-case letter. A name without whitespace is only lower-cased. |
| `Slugs.Lower` | packages/payment/midtrans-service.ts:61 | Lower-casing keeps the length and the whitespace positions and changes only upper-case letters. Each of those becomes the lower-case letter at the same place in the alphabet. |
| `Slugs.CollapseSpaces` | packages/payment/midtrans-service.ts:61 | Replacing whitespace runs never lengthens the string, leaves no whitespace, and adds no upper-case letter. |
| `Slugs.CollapseJoin` | packages/payment/midtrans-service.ts:61 | A word, a non-empty whitespace run, and the rest: the word is kept and the whole run becomes exactly one `-`. |
| `Slugs.CollapseFixesSpaceFree` | packages/payment/midtrans-service.ts:61 | A string without whitespace comes through the replacement unchanged. |
| `Slugs.LowerFixesLowercase` | packages/payment/midtrans-service.ts:61 | A string without upper-case letters comes through the lower-casing unchanged. |
| `Slugs.SlugIdempotent` | packages/payment/midtrans-service.ts:61 | Slugging an item id again leaves it unchanged. |
| `Orders.Status.Text` | packages/payment/midtrans-service.ts:99-112 | Each status is stored as its own word: Pending as `pending`, Paid as `paid`, Cancelled as `cancelled`, Failed as `failed`, and no two statuses share a word. |
| `Orders.Patched` | packages/payment/midtrans-service.ts:118-122 | An update object changes only the columns it names, sets each to the given value, and never moves a key column. |
| `Orders.UpdateWhere` | packages/payment/midtrans-service.ts:116-123 | `.update(...).eq(column, key)` keeps the table's keys. It patches exactly the rows whose key column equals the key, leaves every other row as it was, and keeps rows stored under their own id. |
| `Orders.LastWriteWins` | packages/payment/midtrans-service.ts:116-123 | A second keyed update that writes at least the first one's columns erases every trace of the first. |
| `Orders.NoMatchNoChange` | pages/api/webhook/payment.js:36-45 | An update whose key matches no row leaves the table as it was. |
| `Orders.UpdateByIdTouchesOneRow` | packages/payment/midtrans-service.ts:76-79 | On a table keyed by id, an update `.eq('id', key)` rewrites only the row stored under `key`, if there is one. |
| `PaymentWebhook.NotificationStatus` | pages/api/webhook/payment.js:26-34 | Paid exactly for capture or settlement, whatever the fraud screening said. Failed exactly for deny, cancel or expire. Pending for `pending` and every unrecognised word. Never cancelled. |
| `PaymentWebhook.NotificationPatch` | pages/api/webhook/payment.js:38-43 | The update writes the mapped status (pending, paid or failed, never cancelled), the raw gateway word as `payment_status`, the given time and the whole body, and not the payment url. |
| `PaymentWebhook.ApplyNotification` | pages/api/webhook/payment.js:36-44 | Only rows whose `order_id` is the notification's are touched. They get the mapped status, the raw gateway word as `payment_status`, the timestamp and the whole body as `payment_data`, and nothing else changes. |
| `PaymentWebhook.LaterNotificationWins` | pages/api/webhook/payment.js:36-44 | Of two notifications for one order, only the later shows, and redelivery is idempotent. |
| `PaymentWebhook.UnknownOrderWritesNothing` | pages/api/webhook/payment.js:36-60 | A notification for an order no row carries leaves the table exactly as it was. |
| `PaymentWebhook.AgreesWithServiceExceptUnscreenedCapture` | pages/api/webhook/payment.js:26-34 | The route's status equals the service's payment status exactly when the input is not a capture lacking fraud acceptance. On that input the route says paid and the service pending/pending. |
| `PaymentWebhook.OrderStatusDiffersOnFailure` | pages/api/webhook/payment.js:30-31 | The route's status equals the service's order status exactly off the unscreened capture and off deny/cancel/expire. On those three words the route's status is failed and the service's order status cancelled. |
| `PaymentWebhook.Handler` | pages/api/webhook/payment.js:8-69 | A non-POST request gets 405 with no write. An update error gets 500 with the error's message and no write. Otherwise the table becomes `ApplyNotification` of the old one, and the answer is 200 with the order id and the mapped status. |
| `ProductExtractor.IndexOf` | packages/ai/product-extractor.ts:58 | The first `{`: the found index holds the character and no earlier one does; none means it does not occur. |
| `ProductExtractor.LastIndexOf` | packages/ai/product-extractor.ts:58 | The last `}`: the found index holds the character and no later one does; none means it does not occur. |
| `ProductExtractor.JsonSpan` | packages/ai/product-extractor.ts:58-59 | A span exists exactly when some `{` precedes some `}`. The span runs from `{` to `}` and sits in the output with no `{` before it and no `}` after it: first `{` to last `}`. |
| `ProductExtractor.FirstFalsy` | packages/ai/product-extractor.ts:64-69 | None exactly when every required field is truthy. Otherwise it names a required field that is missing or falsy, and all fields before it are truthy. |
| `ProductExtractor.Validate` | packages/ai/product-extractor.ts:63-82 | Succeeds exactly on a valid product (four truthy fields, a positive number for price, a category among food/drink/dessert) and returns the object unchanged. A missing-field failure names a falsy required field. |
| `ProductExtractor.Extract` | packages/ai/product-extractor.ts:55-82 | No span means no JSON found, and a span that does not parse means malformed JSON. Success happens exactly when the span parses to a valid product, and yields the parsed object. |
| `ProductExtractor.ParseExtractionResult` | packages/ai/product-extractor.ts:55-87 | Success happens exactly when the span parses to a valid product, and yields that object unchanged. Every failure is the single error "Failed to parse AI extraction result". |
| `ProductExtractor.ZeroPriceRejected` | packages/ai/product-extractor.ts:64-69 | A price of 0 is falsy, so the result is the parse failure even though the field is present. |
| `ProductExtractor.OverflowedPriceAccepted` | packages/ai/product-extractor.ts:65-74 | A price that parsed to `Infinity` passes: it is truthy, a number and not `<= 0`. |
| `ProductExtractor.NegativeInfinityRejected` | packages/ai/product-extractor.ts:72-74 | A price of `-Infinity` always fails, and once the fields are present it fails on the price check. |
| `ProductFeed.Prepend` | apps/frontend/app/page.tsx:51 | INSERT yields one more entry: the new row first, then the previous list. |
| `ProductFeed.PrependAddsOneWithItsId` | apps/frontend/app/page.tsx:51 | INSERT does not deduplicate: the count of the row's id rises by one even when it was already listed. |
| `ProductFeed.ReplaceById` | apps/frontend/app/page.tsx:57-59 | UPDATE keeps the length. Every entry with the row's id becomes the row, and every other entry stays. |
| `ProductFeed.ReplaceKeepsIds` | apps/frontend/app/page.tsx:57-59 | UPDATE keeps the id at every position, so the order is unchanged. |
| `ProductFeed.ReplaceAbsentIsIdentity` | apps/frontend/app/page.tsx:57-59 | UPDATE for an id that is not listed leaves the list unchanged. |
| `ProductFeed.ReplaceIdempotent` | apps/frontend/app/page.tsx:57-59 | The same UPDATE twice has the effect of once. |
| `ProductFeed.HomePage.constructor` | apps/frontend/app/page.tsx:18-19 | The page starts with an empty list and loading. |
| `ProductFeed.HomePage.LoadProducts` | apps/frontend/app/page.tsx:27-43 | The list is replaced by the data exactly when there is no error and data is present, and kept otherwise. Loading ends either way. |
| `ProductFeed.HomePage.OnInsert` | apps/frontend/app/page.tsx:48-53 | The list becomes `Prepend` of the old list; nothing else changes. |
| `ProductFeed.HomePage.OnUpdate` | apps/frontend/app/page.tsx:54-60 | The list becomes `ReplaceById` of the old list; nothing else changes. |
| `AdminAuth.EnvOr` | lib/auth.js:11-12 | `process.env.X \|\| fallback`: an unset or empty variable gives the fallback, any other value is used as is. |
| `AdminAuth.ConfiguredCredentials` | lib/auth.js:10-13 | An unset or empty `ADMIN_EMAIL`/`ADMIN_PASSWORD` gives `admin@tastevision.com`/`admin123`; a non-empty one is used as is. |
| `AdminAuth.AuthenticateAdmin` | lib/auth.js:15-28 | Wrong credentials give "Invalid credentials". With the right ones the outcome is the signer's: the token for `{email, role: 'admin'}`, or the exception `jwt.sign` raises (an unset key), which nothing catches. |
| `AdminAuth.VerifyAdminToken` | lib/auth.js:30-37 | A token `jwt.verify` rejects is refused without an error. A decoded token is accepted exactly when its role is admin. |
| `AdminAuth.FindFirst` | lib/auth.js:41 | The index of the first occurrence: the pattern occurs there and at no earlier index; none means it occurs nowhere. |
| `AdminAuth.ReplaceFirst` | lib/auth.js:41 | Only the first occurrence is cut out and replaced; a string without the pattern is returned unchanged. |
| `AdminAuth.BearerToken` | lib/auth.js:41 | No header gives no token. A header comes through unchanged exactly when `Bearer ` occurs nowhere in it; otherwise exactly the seven characters of its first `Bearer ` are cut out, wherever that occurrence stands. |
| `AdminAuth.RequireAdminAuth` | lib/auth.js:30-49 | The handler runs, and its answer is passed through, exactly when a non-empty token is present and `verifyAdminToken` accepts it: `jwt.verify` succeeds (a throw is a plain rejection) and the decoded role is admin. A missing header or an empty token gets 401. |
| `AdminAuth.BearerPrefixStripped` | lib/auth.js:41 | A header `Bearer <t>` yields the token `t`. |
| `AdminAuth.RawHeaderIsToken` | lib/auth.js:41 | A header without `Bearer ` anywhere is itself the token. |
| `AdminAuth.FirstOccurrenceNotPrefix` | lib/auth.js:41 | The first `Bearer ` is removed wherever it stands: `x + "Bearer " + y` gives `x + y` when `x` has no `B`. |
| `AdminAuth.LoginTokenAdmitted` | lib/auth.js:15-48 | When `jwt.sign` produces a token and `jwt.verify` returns what it signed, the login succeeds and its token, sent as `Bearer <token>`, passes the guard. |
| `Orders.OrderTable.constructor` | packages/payment/midtrans-service.ts:16-19 | The table the services write through starts with the given rows, each stored under its own primary key. |

## Left out

- Page rendering, animation and layout, and every page and component outside the
  product-list state: they hold no decisions.
- Database queries, storage uploads and realtime subscriptions are services of the
  hosted database. `orders` is a map that the updates overwrite, and a failed
  update is assumed to change nothing. The products query's filter and ordering
  (`is_available`, `created_at`) are the database's work.
- The gateway's `createTransaction`, the n8n forward in `lib/midtrans.ts`, and the
  language-model calls: these are calls into external services. The gateway
  becomes a function parameter; the others are not modelled.
- `JSON.parse` and the regular-expression engine beyond the first-`{`-to-last-`}`
  span: parsing is a function parameter that yields an object or fails.
- `Date.now()`, `Math.random()` and ISO timestamps: the order id and `updated_at`
  are opaque inputs.
- The `parseFloat` price handling in `pages/api/webhook/product-upload.ts`:
  floating-point parsing.
- JWT signing and verification, including the 24-hour expiry: `jwt.sign` and
  `jwt.verify` are function parameters. Whether signing throws (for instance
  with `SUPABASE_SERVICE_ROLE_KEY` unset) is the signer's answer.
- JavaScript numbers are not doubles: a finite number is a real, already rounded
  by `parse`, and the two infinities are separate values. `JSON.parse` never
  yields `NaN`, and `-0` is the real 0.
- Concurrency and ordering of webhook deliveries, and signature verification:
  neither exists in the code.
- Missing `order_id` or `transaction_status` in a notification body: both are
  taken to be present strings. Without them both variants would filter on
  `undefined`. The API route would also store no payment status, while the
  service would still store `pending`.
- Logging (`console.log`, `console.error`) and the exact JSON text of responses:
  responses are datatypes.
- Slugs.Lower: lower-cases only the ASCII letters A–Z. JavaScript's
  `toLowerCase` also maps other Unicode letters, some to more than one character.
