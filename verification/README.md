# Crypto payment gateway for Telegram bots — a Dafny model

The service lets registered Telegram bots ask for cryptocurrency payments on behalf of their users. A bot authenticates with its token and opens a payment in a currency it is allowed to take. The service asks an external gateway ("UseGateway") for a deposit address and records the payment as `pending`. Two paths later settle it:

- a status read by the bot, which expires the payment by the clock or asks the gateway;
- a webhook the gateway pushes, authenticated with an HMAC-SHA256 signature.

An admin manages the registry of bots.

This project models that core as pure functions over immutable records:

- the payment store is a `map` from `paymentId` to `Payment`;
- the bot collection is a `seq<Bot>` in insertion order, so that `findOne` is "the first match";
- every HTTP handler is a step function from the stores, the clock, the request and the gateway's answer to a reply code and the stores afterwards.

Modules follow the source files:

| module | source |
|---|---|
| `Prelude` | `Option` and `Result` (JavaScript's `undefined` and thrown errors) |
| `JsStrings` | truthiness, `toUpperCase`, `trim`, `String.prototype.replace` with a string pattern |
| `PaymentModel` | models/Payment.js |
| `BotModel` | models/Bot.js and the `findOne` lookups on bots |
| `GatewayService` | services/useGatewayService.js |
| `BotRoutes` | routes/bots.js |
| `PaymentRoutes` | routes/payments.js |

HMAC-SHA256 (RFC 2104 over SHA-256 of FIPS 180-4) and hex decoding (Base16, section 8 of RFC 4648) are not defined here. They are the two fields of a `Crypto` value that the caller passes in. So the signature check is proved for every pair of such functions.

Points of note about the code, which the model keeps:

- The webhook overwrites the status whatever it was before. It can move a payment out of `confirmed`, `failed` or `expired` (`WebhookLeavesTerminalState`). It does not check that the payment is still `pending`.
- The webhook finds the payment by its local `paymentId`, which the gateway echoes back as `order_id`.
- The signature header carries one hex digest, optionally tagged `sha256=`. An unsigned webhook fails the check and is rejected.
- The status read scopes the lookup by the `x-bot-name` header. It does not use the authenticated bot.
- No handler uses a compare-and-set; each is modelled as one sequential step.

## Model

| member | source | states |
|---|---|---|
| JsStrings.ToUpperCase | routes/payments.js:73 | upper-casing keeps the length, changes each lower-case ASCII letter to its capital, and leaves no lower-case letter |
| JsStrings.ToUpperCaseIdempotent | routes/payments.js:73 | upper-casing an already upper-cased currency changes nothing |
| JsStrings.ToUpperCaseFixesUpper | routes/payments.js:73 | a code with no lower-case letter is its own upper case |
| JsStrings.LeadingSpace | models/Bot.js:4-8 | the length of the white-space prefix: everything before it is white space, and the next character is not |
| JsStrings.TrailingStart | models/Bot.js:4-8 | the start of the white-space suffix: everything after it is white space, and the character before it is not |
| JsStrings.Trim | models/Bot.js:4-8 | the stored name is a contiguous slice of the given name; only white space is dropped at either end, and the result neither starts nor ends with white space |
| JsStrings.TrimIdempotent | models/Bot.js:4-8 | trimming a stored name again changes nothing |
| JsStrings.TrimEmptyIff | models/Bot.js:4-8 | a name trims to the empty string exactly when it is all white space, so it then fails `required` |
| JsStrings.IndexOf | services/useGatewayService.js:77 | the result is an occurrence of the pattern with no earlier occurrence; an absent result means there is no occurrence at all |
| JsStrings.ReplaceFirst | services/useGatewayService.js:77 | only the first occurrence of the pattern is replaced; a string without one comes back unchanged |
| JsStrings.ReplaceFirstPrefix | services/useGatewayService.js:77 | removing a pattern that starts the string leaves exactly the rest |
| JsStrings.Join | routes/payments.js:80 | an empty list joins to the empty string; a non-empty join starts with the first part |
| JsStrings.JoinContains | routes/payments.js:80 | every part of the list occurs somewhere in the joined string |
| PaymentModel.ParseStatus | models/Payment.js:39-43 | a status string is accepted exactly when it is one of pending, confirmed, failed, expired |
| PaymentModel.StatusNameParses | models/Payment.js:39-43 | the stored name of every status is accepted by the enum and parses back to that status |
| PaymentModel.ParseStatusNamed | models/Payment.js:39-43 | every accepted status string is the stored name of the status it parses to |
| PaymentModel.PathError | models/Payment.js:4-55 | a path reports an error only about itself. A required String path fails `required` exactly when it is absent or empty. `amount`, `amountInCrypto` and `expiresAt` fail `required` exactly when absent. An absent or empty currency is reported as missing, and a present one outside the enum as not in the enum with its value. An unset status passes; a set one fails the enum exactly when it is not one of the four names |
| PaymentModel.Collect | models/Payment.js:3-64 | the collected errors are exactly the errors of the listed paths; when the listed paths are distinct, no two entries name the same path |
| PaymentModel.Violations | models/Payment.js:3-64 | the ValidationError has no entries exactly when every validator of the schema passes |
| PaymentModel.ViolationsExact | models/Payment.js:3-64 | every entry is its path's error, and every failing path has its entry |
| PaymentModel.FailingPath | models/Payment.js:3-64 | an invalid document always has a path that fails |
| PaymentModel.ValidationMessage | models/Payment.js:3-64 | the error message starts with "Payment validation failed: " |
| PaymentModel.ValidationMessageNamesEvery | models/Payment.js:3-64 | the message names every failing path together with its validator's message |
| PaymentModel.NewDoc | models/Payment.js:44-59 | a new document starts with a null `txHash`, null `webhookData` and `createdAt` equal to the clock |
| PaymentModel.Save | models/Payment.js:3-70 | a save succeeds exactly when the document is valid; the stored record is well formed and equals the document apart from the normalised status; `updatedAt` is the clock and `createdAt` is kept; an unset status reads back as the default `pending`; a failure carries the error of every failing path |
| PaymentModel.SaveLoadRoundTrip | models/Payment.js:67-70 | saving a loaded record unchanged succeeds and changes only `updatedAt` |
| PaymentModel.SaveWithStatus | models/Payment.js:39-43 | saving a loaded record with a new status changes just the status and `updatedAt`; a record that is not well formed fails whatever the new status |
| PaymentModel.SaveRejectsUnknownStatus | models/Payment.js:39-43 | a status outside the enum never saves |
| BotModel.NewBot | models/Bot.js:3-47 | a new bot saves exactly when its trimmed name and the other four required strings are non-empty; it is stored active, with its name trimmed, BTC/ETH/USDT when no currencies are given, and `createdAt` and `lastUsedAt` both equal to the clock |
| BotModel.View | routes/bots.js:87 | the visible part of a bot carries its name, active flag and currencies |
| BotModel.Read | models/Bot.js:14-30 | a read returns the token, API key or webhook secret only if it selected that path, and then returns the stored value |
| BotModel.ReadHidesCredentials | models/Bot.js:14-30 | a read that selects nothing is the same for bots that differ only in their credentials |
| BotModel.FindFirst | routes/bots.js:107 | `findOne` returns the first bot that matches the filter; it returns nothing exactly when no bot matches |
| BotModel.FindFirstUnique | routes/bots.js:40-49 | when names and tokens are unique, `findOne` returns the only matching bot |
| GatewayService.BuildPayload | services/useGatewayService.js:31-39 | the request body keeps currency, amount, order id, callback and return URL; its description is "Payment for order " followed by the order id; it expires 30 minutes after the clock |
| GatewayService.BuildPayloadRoundTrip | services/useGatewayService.js:31-37 | the caller's data can be read back from the body, and the description alone identifies the order |
| GatewayService.ErrorDetail | services/useGatewayService.js:45 | the detail is the gateway's non-empty response message if there is one, and otherwise the error's own message |
| GatewayService.CreatePayment | services/useGatewayService.js:29-47 | the body is always sent; a gateway answer is passed through; a failure becomes "Payment creation failed: " followed by the detail |
| GatewayService.GetPaymentStatus | services/useGatewayService.js:54-62 | the request path is `/payments/` followed by exactly the payment id asked about; a gateway answer is passed through; a failure becomes "Failed to get payment status: " followed by the detail |
| GatewayService.StatusPathNamesPayment | services/useGatewayService.js:56 | two status queries request the same path exactly when they are about the same payment id |
| GatewayService.WrappedErrorsRecoverable | services/useGatewayService.js:43-61 | dropping the prefix gives back exactly the detail, and a create failure never reads the same as a status failure |
| GatewayService.GetSupportedCurrencies | services/useGatewayService.js:93-111 | the gateway's list is passed through; on failure the list is exactly BTC, ETH, USDT, LTC, BCH, XRP, ADA, DOT, MATIC, the same codes in the same order as the Payment currency enum |
| GatewayService.VerifyAttempt | services/useGatewayService.js:71-86 | a missing key or a missing signature throws; with both present, `timingSafeEqual` throws exactly when the decoded digests differ in length, and a comparison is only reached when they agree |
| GatewayService.VerifyWebhookSignature | services/useGatewayService.js:70-87 | the check passes exactly when key and signature are present and the decoded expected digest equals the decoded received digest (with the first `sha256=` removed); every exception gives false |
| GatewayService.ReceivedDigest | services/useGatewayService.js:77 | a signature without the `sha256=` tag is kept as is; a leading tag is removed; at most one tag's length is removed |
| GatewayService.HexLacksPrefix | services/useGatewayService.js:77 | a hex digest never contains `sha256=` |
| GatewayService.HexHasNoPrefix | services/useGatewayService.js:77 | removing the tag leaves a hex digest unchanged |
| GatewayService.PrefixedAndBareAgree | services/useGatewayService.js:77 | a tagged digest and the same bare digest get the same verdict |
| GatewayService.OwnDigestVerifies | services/useGatewayService.js:72-82 | the holder of the secret passes the check with its own hex digest, with or without the tag |
| BotRoutes.AdminGuard | routes/bots.js:6-16 | the guard passes exactly when the header is non-empty and equals the configured admin id; nobody passes when no admin id is configured |
| BotRoutes.Taken | routes/bots.js:40-42 | the duplicate check finds a bot exactly when a `findOne` by the trimmed name or a `findOne` by the token finds one |
| BotRoutes.Register | routes/bots.js:19-82 | 401 without the admin; 500 for a null `useGateway`; 400 when a required value is missing; 409 when the name or token is taken; 500 when the name is only white space; otherwise 201 and exactly one bot appended, active, trimmed, with default currencies and the admin as registrar; every non-201 reply leaves the collection unchanged |
| BotRoutes.RegisterPreservesUnique | routes/bots.js:39-63 | registration keeps names and tokens unique |
| BotRoutes.List | routes/bots.js:85-101 | 401 without the admin; otherwise every bot in order, without its token or gateway keys; the collection is unchanged |
| BotRoutes.ListHidesCredentials | routes/bots.js:87 | collections that differ only in credentials produce the same listing |
| BotRoutes.SetActive | routes/bots.js:104-167 | 401 without the admin; 404 for an unknown name; otherwise 200, and the first bot with that name gets the requested active flag while every other bot is unchanged |
| BotRoutes.SetActiveIdempotent | routes/bots.js:104-167 | activating or deactivating twice is the same as doing it once |
| BotRoutes.FindFirstSameNames | routes/bots.js:107 | changing only active flags does not change which bot a name lookup finds |
| BotRoutes.SetActiveOnlyNamed | routes/bots.js:104-167 | with unique names, only the named bot changes and names and tokens stay unique |
| BotRoutes.DeactivateThenActivate | routes/bots.js:104-167 | deactivating and then reactivating an active bot restores the collection |
| PaymentRoutes.Authenticate | routes/payments.js:9-49 | a missing or empty token gives 401; so does an unknown token or an inactive bot; otherwise the request carries the name, currencies and credentials of the bot that holds the token |
| PaymentRoutes.AuthenticateIffActiveHolder | routes/payments.js:19-27 | with unique tokens, authentication succeeds exactly when some active bot holds the token |
| PaymentRoutes.CreateDoc | routes/payments.js:105-116 | the record built for the save: the fresh id, the bot's name, the user id, the upper-cased currency and the amount as given; the gateway's crypto amount or 0; the gateway's address and URL; status `pending`; expiry 1,800,000 ms after the clock |
| PaymentRoutes.CreateDocValidity | routes/payments.js:105-118 | after the input checks, the record is valid exactly when the id and bot name are non-empty, the currency is in the enum and the gateway gave an address and a URL |
| PaymentRoutes.CreateDocErrors | routes/payments.js:105-118 | with a non-empty id, a failed save names only the bot name, currency, address or URL: the paths the handler fills itself never fail |
| PaymentRoutes.NewPayment | routes/payments.js:105-118 | the stored payment loads back as exactly the record the handler built, with `updatedAt` the clock, and is well formed whenever the save's validators pass |
| PaymentRoutes.CryptoAmount | routes/payments.js:111 | the crypto amount is the gateway's value when it is non-zero, and 0 otherwise |
| PaymentRoutes.Record | routes/payments.js:105-131 | a failed save gives 500 with the validation message as details and leaves the store unchanged; the save succeeds exactly when the gateway gave an address and URL, the currency is in the enum and the bot name is non-empty; then the new payment is filed under the fresh id, nothing else changes, and the reply shows its id, currency, amounts, address and expiry |
| PaymentRoutes.Open | routes/payments.js:84-144 | the gateway is asked with the upper-cased currency, the amount, the fresh id as order id and the webhook URL; a gateway error gives 500 with the wrapped gateway message as details; a failed save gives 500 with the validation message as details; both leave the store unchanged; otherwise the store gains exactly the payment that loads back as the built record (pending, expiry 1,800,000 ms after the clock), well formed |
| PaymentRoutes.CheckInput | routes/payments.js:57-82 | the three input checks (`InputAccepted`: all fields truthy, a positive amount, the upper-cased currency among the bot's allowed ones) run in order, each with its own 400 message, the currency one listing the allowed currencies; 400 exactly when one fails, and then nothing is sent or stored; otherwise the handler goes on to the gateway |
| PaymentRoutes.Create | routes/payments.js:52-157 | the authentication reply before anything else; a falsy field, a non-positive amount and a disallowed currency each get their 400 message, the last one listing the allowed currencies; nothing is sent or stored then; the gateway is called exactly for accepted input; the store is either unchanged or grows by the one fresh record; 200 exactly when the gateway answers with an address and URL and the currency is in the enum; the store stays well formed |
| PaymentRoutes.CreateNeedsActiveBot | routes/payments.js:12-82 | a payment is only created for an active bot holding the token, in a currency that bot allows |
| PaymentRoutes.DeactivatedBotCannotCreate | routes/payments.js:19-27 | after a bot is deactivated, its token gets 401 on create and nothing is stored |
| PaymentRoutes.VisibleIffRecordMatches | routes/payments.js:164-168 | in a store filed by id, the lookup finds a payment exactly when a stored record matches both the id and the `x-bot-name` header |
| PaymentRoutes.Refresh | routes/payments.js:182-209 | a non-pending payment is shown as stored, with no query; a pending one is polled, at `/payments/<id>`, exactly when its bot exists; on a `completed` answer the reply shows it confirmed with the gateway's hash, and the store takes that record when it saves and keeps the old one when the save fails; any other answer or an error leaves the store unchanged and shows the stored record |
| PaymentRoutes.Confirm | routes/payments.js:189-193 | the reply shows the in-memory copy with the confirmed status and the answer's hash; the store takes it, with `updatedAt` the clock, exactly when the record is well formed, and is unchanged otherwise |
| PaymentRoutes.RefreshFrame | routes/payments.js:182-198 | the refresh changes no other payment, and changes the given one only from a pending, well-formed record to its confirmed copy |
| PaymentRoutes.SaveWithTxHash | routes/payments.js:189-193 | confirming a loaded record changes only status, hash and `updatedAt`; a record that is not well formed fails to save |
| PaymentRoutes.Expire | routes/payments.js:176-180 | the expiry save succeeds exactly when the record is well formed, and then stores it as expired with only `updatedAt` also changed |
| PaymentRoutes.ExpireOverdue | routes/payments.js:176-180 | an overdue payment that saves is stored and shown as expired, with no query; one that fails to save gives the catch's 500 "Failed to get payment status" (routes/payments.js:211-216) and leaves the store unchanged |
| PaymentRoutes.CheckAndRefresh | routes/payments.js:176-209 | once the payment is found: only it can change, only from pending to expired or confirmed, and well formed stays well formed; a non-pending payment is shown as stored with no query; an overdue pending payment is stored and shown as expired, or gives 500 when the save fails, and is never polled; every query asks for `/payments/<id>` |
| PaymentRoutes.PendingReadPolls | routes/payments.js:182-209 | a pending payment within its deadline is polled exactly when its bot exists; a `completed` answer is shown confirmed with the gateway's hash and stored when the record saves; any other answer leaves the store unchanged and shows the stored record |
| PaymentRoutes.ReadStatus | routes/payments.js:160-218 | 401 or 404 leave everything unchanged with no query; a found payment gets the read described by `CheckAndRefresh`; only the requested payment can change, and only from pending to expired or confirmed; a terminal payment is never changed or polled; every query asks for `/payments/<id>` |
| PaymentRoutes.ExpiryBeforeGateway | routes/payments.js:176-183 | an overdue pending payment is never polled, the read's outcome does not depend on the gateway's answer, and a well-formed one is stored as expired |
| PaymentRoutes.TargetStatus | routes/payments.js:250 | the event status `completed` becomes `confirmed`; any other event status is kept verbatim |
| PaymentRoutes.SignatureValid | routes/payments.js:225-243 | the check uses the stored webhook secret of the first bot with the payment's (trimmed) bot name and the first truthy signature header; it can only pass when a signature header is present |
| PaymentRoutes.Applied | routes/payments.js:249-252 | the saved document takes the event's mapped status, the event's hash when it is non-empty and the old hash otherwise, and the event as webhook data; every other path is the stored record's |
| PaymentRoutes.Webhook | routes/payments.js:223-282 | an unparsable body, an order whose bot is missing and a new status outside the enum each give 500 "Webhook processing failed"; an unknown order gives 404 before any signature check; a failed check gives 401; every non-200 reply leaves the store unchanged; 200 exactly when the order exists, its bot exists, the signature verifies and the new status is in the enum; then status, `txHash` (only for a non-empty hash) and `webhookData` are overwritten, and the notification is attempted exactly for a confirmed result |
| PaymentRoutes.WebhookIgnoresPriorStatus | routes/payments.js:248-254 | the reply and the result do not depend on the payment's previous status |
| PaymentRoutes.WebhookLeavesTerminalState | routes/payments.js:248-254 | a verified webhook can move a confirmed, failed or expired payment to any status the event names |
| PaymentRoutes.WebhookReplay | routes/payments.js:248-259 | redelivering an accepted webhook stores the same status, hash and data; only `updatedAt` moves, and a confirmation is notified again |
| PaymentRoutes.WebhookThenRead | routes/payments.js:176-254 | after a webhook confirms a payment, the owner's next read reports it confirmed with its hash and does not poll the gateway |

## Left out

- The HTTP server, Express routing, request logging and the health endpoint: no logic.
- The one-off TTL index migration script is pure database I/O.
- HMAC-SHA256 and hex decoding are parameters, not definitions. The constant-time property of `timingSafeEqual` is not modelled; only its equality result and its length-mismatch exception are.
- MongoDB and Mongoose I/O errors are not modelled: a `findOne` or `save` that throws for reasons other than validation. In the source these give 401 in authentication and 500 in the other handlers, except inside the status read's gateway poll (routes/payments.js:183-197): there a failing `findOne` or `save` is caught, and the read still answers 200 with the in-memory record.
- `lastUsedAt` updates on authentication are left out. They never affect a decision.
- The TTL index on `expiresAt` is left out. Its deletions are done by the storage engine, outside any handler.
- The Telegram notification after a confirming webhook is modelled only as a "notification attempted" flag. The file never imports `axios`, and the failure is caught either way.
- `getExchangeRate` is left out: no handler calls it.
- Concurrency between handlers is left out. The source has no compare-and-set, and each handler is modelled as one sequential step.
- Amounts are integers. The handlers only test `> 0` and falsiness and copy the value; floating point is not modelled.
- `Date.now()` is the integer `now` in milliseconds. One request uses one clock value. The gateway payload's `expires_at` is that integer, not its ISO-8601 rendering.
- `uuidv4()` is the `freshId` parameter. Its precondition says it is non-empty and not yet in the store.
- `JSON.parse` is an already-parsed `WebhookEvent`, or `None` when parsing throws. The event carries only `order_id`, `status` and `tx_hash`.
- A JSON `null` in the event's `status` is not modelled. It is treated like an absent status, which reads back as the `pending` default.
- An event without `order_id` is modelled as matching no payment. How the storage engine treats an undefined filter value is not part of this model.
- `x-bot-token` in the status-read filter is dropped: Payment has no such path, so the filter is taken to ignore it. A missing `x-bot-name` header matches no payment.
- `toUpperCase` is modelled for ASCII letters only, and `trim` for ASCII white space, no-break space and the byte-order mark. Other Unicode case mappings and space separators are not modelled.
- The `trim` setter is taken to apply to query filters on `name`, as it does on save.
- `telegramUserId`, `name`, `token` and `currency` are modelled as strings. A numeric JSON value, and the type errors a non-string `currency` would raise, are not modelled.
- A request body that is missing altogether, which would make the destructuring throw, is not modelled.
- A gateway answer that is `null` or not an object is not modelled: the answer is either an error or a record with the fields the handlers read. In the source, such an answer to `createPayment` makes `gatewayPayment.crypto_amount` throw a TypeError (routes/payments.js:111), which the handler's catch turns into a 500 whose details is the TypeError's message; to `getPaymentStatus`, reading `.status` throws inside the poll's try (routes/payments.js:189), and the read goes on with the local record.
- PaymentModel.Violations: the entries are listed in schema order. The order of the `path: message` entries in Mongoose's message is taken to be that order, and the texts are Mongoose's default `required` and `enum` templates.
- BotModel.NewBot: a failed save reports only the first missing path. The register handler discards the error and answers a fixed 500 message, so nothing more is observable.
