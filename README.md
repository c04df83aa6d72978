# maib payment gateway for WooCommerce — a verified model of its payment core

This project models, in Dafny, the payment core of the maib WooCommerce plugin and of the maib PHP SDK it bundles. It covers two plugin files: the current `maib-payment-gateway-for-woocommerce.php` and the legacy `wc-maib.php`.

What is modelled:

- **PHP values** (`php_value.dfy`). Decoded JSON and PHP arrays are represented as one `Value` datatype: null, booleans, exact decimal numbers, byte strings and ordered key/value arrays. The model includes `isset`, truthiness, and the `(string)` and `(int)` casts.
- **Callback signature canonicalisation** (`signature.dfy`). `sortByKeyRecursive` is modelled as `ksort` with `SORT_STRING` applied to every level. `implodeRecursive` is the accumulating loop, proved equal to a recursive definition. `$array[] = $key` is modelled with PHP's next-index rule. The digest (SHA-256 then base64) is a function parameter.
- **The SDK** (`maib_sdk.dfy`, `maib_api_request.dfy`, `maib_auth_request.dfy`).
  - URL and header construction.
  - The HTTP error classification (status ≥ 400, `getErrorMessage`).
  - The `getInstance` singleton.
  - The required parameters of each operation and every format rule of `validatePayParams`, in the order the source checks them.
  - `validateIdParam`, `validateAccessToken` and the four-way `handleResponse`.
  - The body selection of `generateToken`.
- **WooCommerce orders and WordPress transients** (`orders.dfy`, `transients.dfy`).
  - `Order` is a class with the fields the gateway updates: status, the `payment_complete` marker, notes, transaction id and transaction type.
  - `update_status` logs a note only when the status changes.
  - `TransientStore` is a class whose entries carry an expiry time. An expired entry is deleted by the read that finds it. As in WordPress, setting an existing entry again with a lifetime of 0 replaces its value and keeps its expiry.
- **The parameter array `process_payment` builds** (`pay_params.dfy`). Amounts are rounded to cents with `number_format`'s half-away-from-zero rule. Text fields are truncated byte-wise.
- **The payment lifecycle** (`gateway_spec.dfy`), as functions of the settings, the order, the token cache and the server's answers. Each also lists the requests it sends.
  - `get_access_token` / `clear_transients`.
  - `process_payment`, `process_refund`, `complete_transaction`.
  - `payment_complete`, `payment_hold`, `payment_failed`.
  - `route_callback` for both plugin variants.
  - `order_actions`.
- **The gateway object** (`gateway.dfy`).
  - `MaibPaymentGateway` updates the order objects, the cart, the transient store and a logged HTTP connection step by step.
  - Each handler is proved to end in the state the lifecycle functions describe. It is also proved to have sent exactly the requests they list.

The two plugin files are covered by one model, with `Variant = Current | Legacy` in the settings. They differ in two places:

- The HTTP-method gate of the callback: the current file accepts only POST; the legacy file accepts anything but GET.
- The callback guard: the current file acts on `pending` or `failed` orders; the legacy file acts on `pending` only.

Where the two files build the payment parameters differently, the model follows the legacy numeric form and records the current form as a finding (see below).

Three behaviours of the code are easy to miss, and the model keeps them as written:

- A failure callback delivered again to the current plugin adds two notes to an order that is already failed. The guard lets `failed` orders through (maib-payment-gateway-for-woocommerce.php:676), `payment_failed` notes the failure once more (:941-943), and the details note follows (:701-702).
- A verified callback with status "OK" and an unknown transaction type changes nothing. The `default` branch of the dispatch only logs (maib-payment-gateway-for-woocommerce.php:690-692); the failure path is taken only for a status other than "OK" (:695-698).
- A callback with a bad signature also adds a "signature invalid" note to the order it names (maib-payment-gateway-for-woocommerce.php:653-659). When no such order exists, the note call is a fatal error after "ERROR" has been echoed.

## Model

| member | source | states |
|---|---|---|
| PhpValue.StrToIntOfNatToString | maib-payment-gateway-for-woocommerce.php:649 | the `(int)` cast of an order id sent as `strval($order->get_id())` gives the id back |
| PhpValue.DigitsValueOfNatToString | maib-payment-gateway-for-woocommerce.php:340 | the decimal text of a natural number reads back as that number |
| Signature.SortEntries | maib-payment-gateway-for-woocommerce.php:708-719 | sorting one level of an array is a permutation of its entries |
| Signature.SortEntriesAscending | maib-payment-gateway-for-woocommerce.php:708-719 | with distinct keys, `ksort(SORT_STRING)` leaves the keys in strictly ascending byte order |
| Signature.AscendingUnique | maib-payment-gateway-for-woocommerce.php:708-719 | two key-ascending arrays with the same entries are equal, so the sorted order is unique |
| Signature.SortByKeyRecursive | maib-payment-gateway-for-woocommerce.php:708-719 | the recursive sort keeps the number of entries of an array and leaves scalars as they are |
| Signature.SortByKeyRecursiveCanonical | maib-payment-gateway-for-woocommerce.php:708-719 | two results that are the same tree up to key order sort to the same tree |
| Signature.SortByKeyRecursiveAscending | maib-payment-gateway-for-woocommerce.php:708-719 | after the sort the top-level keys are ascending |
| Signature.ShortListKept | maib-payment-gateway-for-woocommerce.php:708-719 | a JSON list of at most 10 elements keeps its order under `SORT_STRING` |
| Signature.LongListReordered | maib-payment-gateway-for-woocommerce.php:708-719 | a JSON list of more than 10 elements is reordered ("10" sorts before "2") |
| Signature.ImplodeRecursive | maib-payment-gateway-for-woocommerce.php:722-730 | the accumulating loop builds the same string as the recursive flattening |
| Signature.FlatIsJoinedLeaves | maib-payment-gateway-for-woocommerce.php:722-730 | flattening joins the leaves, depth-first, with `:` |
| Signature.SignedTextEndsWithKey | maib-payment-gateway-for-woocommerce.php:641-646 | the signed text is the flattened sorted result followed by `:` and the signature key (the key alone for an empty result) |
| Signature.SignedTextOrderIndependent | maib-payment-gateway-for-woocommerce.php:641-646 | the signed text does not depend on the order of keys in the notification |
| MaibSdk.EndpointsHaveNoSlash | includes/maib-sdk-php/src/MaibSdk.php:23-33 | no endpoint name contains a slash |
| MaibSdk.SplitBuildUrl | includes/maib-sdk-php/src/MaibSdk.php:116-125 | the URL built from an endpoint and optional id parses back into that endpoint and id |
| MaibSdk.BuildUrlInjective | includes/maib-sdk-php/src/MaibSdk.php:116-125 | distinct endpoint/id pairs give distinct URLs |
| MaibSdk.RequestForms | includes/maib-sdk-php/src/MaibSdk.php:70-113 | POST builds its URL without an id and carries the data; GET and DELETE carry the id in the URL and no body |
| MaibSdk.Headers | includes/maib-sdk-php/src/MaibSdk.php:144-156 | the JSON content type is present exactly for POST; the bearer header is last exactly when a token is given; nothing else |
| MaibSdk.ErrorMessage | includes/maib-sdk-php/src/MaibSdk.php:201-213 | empty body gives ""; otherwise the first error's message, or "Unknown error details." |
| MaibSdk.ReceiveReply | includes/maib-sdk-php/src/MaibSdk.php:158-185 | a transport error and any status ≥ 400 raise with the source's messages; success exactly for status < 400 with a decodable body |
| MaibSdk.Registry.GetInstance | includes/maib-sdk-php/src/MaibSdk.php:53-59 | the client is created on the first call and the same one is returned afterwards |
| MaibApi.FirstMissing | includes/maib-sdk-php/src/MaibApiRequest.php:416-422 | the first required parameter that is not set, all before it set |
| MaibApi.FirstBadField | includes/maib-sdk-php/src/MaibApiRequest.php:424-490 | the first field, in checking order, whose format rule fails |
| MaibApi.FirstBadItem | includes/maib-sdk-php/src/MaibApiRequest.php:491-512 | the first item with a failing field, all earlier items valid |
| MaibApi.FirstBadUrl | includes/maib-sdk-php/src/MaibApiRequest.php:513-524 | the first URL rule that fails, as written (guarded by the last item) |
| MaibApi.ValidatePayParams | includes/maib-sdk-php/src/MaibApiRequest.php:413-527 | no error exactly when every rule holds; a reported missing parameter is required and unset; a reported invalid one fails its rule; a reported item field fails its rule in an item preceded only by valid items |
| MaibApi.MissingReportedFirst | includes/maib-sdk-php/src/MaibApiRequest.php:416-422 | a missing required parameter is reported before any format check, naming the first missing one |
| MaibApi.NumericFieldsAreNumbers | includes/maib-sdk-php/src/MaibApiRequest.php:436-447 | validated amounts and item prices are numbers, never strings |
| MaibApi.Endpoint | includes/maib-sdk-php/src/MaibApiRequest.php:45-257 | every operation is sent to one of the SDK's fixed endpoint names |
| MaibApi.ValidateId | includes/maib-sdk-php/src/MaibApiRequest.php:393-403 | an id passes exactly when it is a string of 36 bytes; null is "missing" |
| MaibApi.HandleResponse | includes/maib-sdk-php/src/MaibApiRequest.php:346-371 | the four outcomes: result, missing result, declined with `errors[0]`, malformed |
| MaibApi.CheckArgs | includes/maib-sdk-php/src/MaibApiRequest.php:45-62 | an operation's arguments pass exactly when its own rules hold (parameter rules for data operations, the id rule for id operations) |
| MaibApi.BuildRequest | includes/maib-sdk-php/src/MaibApiRequest.php:275-344 | the request goes to the operation's endpoint (with the id for id operations), by POST exactly for data operations, bearer header last |
| MaibApi.Prepare | includes/maib-sdk-php/src/MaibApiRequest.php:45-62 | a request is built exactly when the arguments and then the token pass; otherwise the refusal names the first failure |
| MaibApi.Conclude | includes/maib-sdk-php/src/MaibApiRequest.php:275-290 | a reply yields a result exactly when it is below 400, decodable, ok and carries a result |
| MaibApi.CallSucceedsIff | includes/maib-sdk-php/src/MaibApiRequest.php:45-62 | an operation succeeds exactly when it is sent and the server's answer is good |
| MaibAuth.TokenRequestBody | includes/maib-sdk-php/src/MaibAuthRequest.php:46-73 | both null is refused; both given must be strings; the refresh token alone must be a string |
| MaibAuth.TokenRequestBodyGrant | includes/maib-sdk-php/src/MaibAuthRequest.php:53-73 | the body asks for exactly the grant the arguments name: id and secret, the refresh token, or nothing |
| MaibAuth.TokenRequest | includes/maib-sdk-php/src/MaibAuthRequest.php:75-80 | the token request is a POST to `generate-token` with the JSON content type and no bearer header |
| MaibAuth.GenerateToken | includes/maib-sdk-php/src/MaibAuthRequest.php:46-123 | argument errors send nothing; otherwise the reply is classified by the same four-way rule |
| Orders.WithNote | maib-payment-gateway-for-woocommerce.php:701-702 | adding a note appends it and changes nothing else |
| Orders.WithStatus | maib-payment-gateway-for-woocommerce.php:893 | `update_status` sets the status; a real change logs one note, setting the same status changes nothing |
| Orders.HostPaymentComplete | maib-payment-gateway-for-woocommerce.php:886 | the completion marker: true and set on the first call, false and no change afterwards |
| Orders.HostPaymentCompleteOnce | maib-payment-gateway-for-woocommerce.php:886 | a second `payment_complete` on the order is a no-op reporting false |
| Orders.UpdateStatusIdempotent | maib-payment-gateway-for-woocommerce.php:893 | setting a status twice is setting it once |
| Orders.Order.AddNote | maib-payment-gateway-for-woocommerce.php:702 | the order's new state is its old state with the note appended |
| Orders.Order.UpdateStatus | maib-payment-gateway-for-woocommerce.php:895 | the order's new state is that of `update_status` on its old state |
| Orders.Order.PaymentComplete | maib-payment-gateway-for-woocommerce.php:886 | the answer and the new state are those of the exactly-once completion marker |
| Orders.Order.SetTransaction | maib-payment-gateway-for-woocommerce.php:401-406 | payment id and transaction type are stored and nothing else about the order changes |
| Orders.Cart.Empty | maib-payment-gateway-for-woocommerce.php:892-894 | the cart is left without lines |
| Transients.Expiry | maib-payment-gateway-for-woocommerce.php:562-563 | a lifetime of 0 records no expiry; otherwise the entry expires that many seconds from now |
| Transients.GetTransient | maib-payment-gateway-for-woocommerce.php:549-550 | a live entry is returned; a missing or expired one reads as false and is gone afterwards |
| Transients.SetTransient | maib-payment-gateway-for-woocommerce.php:562-563 | the value is replaced; a non-zero lifetime sets a new expiry; a lifetime of 0 keeps the expiry of an entry already stored and makes a new one permanent; no other entry changes |
| Transients.GetAfterSet | maib-payment-gateway-for-woocommerce.php:549-563 | a stored token reads back unchanged until its lifetime, or the expiry it kept, is over |
| Transients.GetAfterExpiry | maib-payment-gateway-for-woocommerce.php:549-563 | after its lifetime a stored token reads as false and is deleted |
| Transients.ZeroLifetimeKeepsExpiry | maib-payment-gateway-for-woocommerce.php:562-563 | re-setting a stored entry with a lifetime of 0 does not extend it: past its old expiry it reads as false and is gone |
| Transients.TransientStore.Get | maib-payment-gateway-for-woocommerce.php:549-550 | the value read and the entries left are those of the read rule, an expired entry being removed |
| Transients.TransientStore.Set | maib-payment-gateway-for-woocommerce.php:562-563 | the entries become those of the store rule |
| Transients.TransientStore.Delete | maib-payment-gateway-for-woocommerce.php:149-150 | that key's entry is removed and no other |
| PayParams.CentsExact | wc-maib.php:340 | amounts with at most two decimals are sent exactly |
| PayParams.CentsNegate | wc-maib.php:340 | the two-decimal rounding is symmetric around zero (halves away from zero) |
| PayParams.ParamsRequired | wc-maib.php:339-342 | the parameter array carries the rounded total, the currency and the client IP |
| PayParams.ParamsTexts | wc-maib.php:342-344 | language as given, description truncated to 124 bytes, order id as decimal text |
| PayParams.ParamsContact | wc-maib.php:345-348 | client name truncated to 128 bytes, email as given, phone truncated to 40 bytes |
| PayParams.ParamsKeys | wc-maib.php:339-354 | the array holds exactly the fourteen keys, in the order the source writes them |
| PayParams.ParamsDelivery | wc-maib.php:348 | `delivery` is the rounded shipping total |
| PayParams.ParamsAbsent | wc-maib.php:339-354 | none of `billerId`, `billerExpiry`, `payId`, `confirmAmount`, `refundAmount` is set |
| PayParams.ParamsItemsOf | wc-maib.php:322-353 | one item per order line, in order, each built from its own line |
| PayParams.ItemFieldsAt | wc-maib.php:330-336 | each item carries id, name truncated to 128 bytes, the rounded price and the quantity, and no URL |
| PayParams.StringAmountRejected | includes/maib-sdk-php/src/MaibApiRequest.php:416-442 | with the required fields set and no earlier format field present, a string `amount` is refused as an invalid amount |
| PayParams.AmountRule | includes/maib-sdk-php/src/MaibApiRequest.php:440-485 | a rounded `amount` passes exactly from 1.00 up, a rounded `delivery` exactly from 0.00 up |
| PayParams.TextRules | includes/maib-sdk-php/src/MaibApiRequest.php:448-473 | currency, client IP, language and email pass exactly when the checkout's own values are acceptable |
| PayParams.TruncatedRules | includes/maib-sdk-php/src/MaibApiRequest.php:462-481 | truncated description, name and phone always pass; the order id passes exactly when its text has at most 36 bytes |
| PayParams.AbsentRules | includes/maib-sdk-php/src/MaibApiRequest.php:424-490 | unset fields pass; `items` passes exactly when the order has a line |
| PayParams.ItemOkIff | includes/maib-sdk-php/src/MaibApiRequest.php:491-511 | an item passes the item rules exactly when its line is acceptable |
| PayParams.ParamsFormats | includes/maib-sdk-php/src/MaibApiRequest.php:424-490 | the built array passes the field formats exactly when the checkout's fields are acceptable |
| PayParams.ParamsItemRules | includes/maib-sdk-php/src/MaibApiRequest.php:491-511 | every item passes exactly when every order line is acceptable |
| PayParams.ParamsUrlRules | includes/maib-sdk-php/src/MaibApiRequest.php:513-524 | the URL rules as written never reject the built array, since no item carries a URL |
| PayParams.ParamsAsWrittenRejected | maib-payment-gateway-for-woocommerce.php:336 | with amounts as strings, `pay` and `hold` are always refused with "invalid amount" |
| PayParams.ParamsAccepted | wc-maib.php:339-354 | with numeric amounts, `pay`/`hold` validation passes exactly when the order's total is at least 1, currency, IP, language, email, ids, shipping and lines are acceptable |
| GatewaySpec.SentBy | includes/maib-sdk-php/src/MaibApiRequest.php:45-62 | an operation sends one request exactly when its checks pass, none otherwise |
| GatewaySpec.TokenSentBy | includes/maib-sdk-php/src/MaibAuthRequest.php:46-80 | the token call sends one request exactly when its arguments are accepted |
| GatewaySpec.CachedTokenUsed | maib-payment-gateway-for-woocommerce.php:547-573 | a live cached access token is returned without any request |
| GatewaySpec.RefreshTokenPreferred | wc-maib.php:540-566 | without an access token, a cached refresh token is used alone; the secret is not sent |
| GatewaySpec.CredentialsUsed | wc-maib.php:540-566 | with nothing cached, exactly one token request with project id and secret is sent |
| GatewaySpec.TokenReused | maib-payment-gateway-for-woocommerce.php:547-573 | an obtained token is what the cache holds, and a later call within its lifetime returns it without a request |
| GatewaySpec.TokenLifetime | wc-maib.php:545-559 | a new token is the access token in the `result` of the server's reply to the token request sent; both tokens from that reply are cached with `expiresIn` and `refreshExpiresIn`, a lifetime of 0 keeping the expiry of a still-live entry |
| GatewaySpec.ClearTransients | wc-maib.php:142-150 | both token entries are removed and no other transient changes |
| GatewaySpec.ClearedCacheUsesCredentials | maib-payment-gateway-for-woocommerce.php:147-154 | after the settings are saved the next token comes from the project credentials |
| GatewaySpec.ApiCall | maib-payment-gateway-for-woocommerce.php:373-376 | an operation sends the token requests first, then its own request if the SDK lets it through |
| GatewaySpec.ApiCallSteps | maib-payment-gateway-for-woocommerce.php:373-385 | a refused operation or a failed reply leaves `$response` null |
| GatewaySpec.ApiCallComposed | maib-payment-gateway-for-woocommerce.php:373-376 | an operation call is the token lookup followed by the SDK call with that token, its request logged after the token's |
| GatewaySpec.CompleteSpec | maib-payment-gateway-for-woocommerce.php:884-907 | succeeds exactly once; then marks paid; the cart is emptied exactly when a completed status is configured, which is then set |
| GatewaySpec.HoldSpec | maib-payment-gateway-for-woocommerce.php:915-928 | succeeds exactly once; then marks paid and sets the hold status, `on-hold` by default; never empties the cart |
| GatewaySpec.FailSpec | maib-payment-gateway-for-woocommerce.php:936-952 | an order already failed only gets the note; any other is moved to the failed status, `failed` by default; returns true |
| GatewaySpec.CompletionExactlyOnce | maib-payment-gateway-for-woocommerce.php:884-928 | after either completion or hold, both are no-ops reporting false |
| GatewaySpec.FailureStatusStable | wc-maib.php:913-928 | repeating the failure handler never changes the status again |
| GatewaySpec.CallbackCases | maib-payment-gateway-for-woocommerce.php:617-705 | the callback's outcome in each case, in the order its checks run |
| GatewaySpec.ForgedCallbackHarmless | maib-payment-gateway-for-woocommerce.php:653-659 | a bad signature changes no status or marker and keeps the cart; at most the named order gets the "signature invalid" note |
| GatewaySpec.PaidOnlyByOkCallback | maib-payment-gateway-for-woocommerce.php:676-698 | an order becomes paid by a callback only with a valid signature, a guarded status, status "OK" and a known transaction type |
| GatewaySpec.GuardBlocksTransition | wc-maib.php:664-691 | outside the guarded statuses a verified callback only adds the details note |
| GatewaySpec.CallbackFrame | maib-payment-gateway-for-woocommerce.php:651 | only the order the callback names can change; without one the cart is kept |
| GatewaySpec.CallbackAtTarget | maib-payment-gateway-for-woocommerce.php:653-702 | the named order is left alone, gets the signature note, or runs the guarded transition followed by the details note |
| GatewaySpec.StepReplay | maib-payment-gateway-for-woocommerce.php:676-698 | repeating a callback's transition on the order it produced changes at most its notes and never empties the cart |
| GatewaySpec.CallbackReplayHarmless | maib-payment-gateway-for-woocommerce.php:617-705 | a second delivery of the same callback changes no status or marker and keeps the cart; each order gains at most one note, or the repeated failure and details notes in the current plugin |
| GatewaySpec.PaymentGuardsFirst | wc-maib.php:356-368 | empty credentials or an unsupported currency stop before any request and change nothing |
| GatewaySpec.PaymentRecordsPayId | wc-maib.php:398-408 | a payment redirects exactly when the guards pass and the `pay`/`hold` response has a `payId`; it then redirects to the response's `payUrl` and stores and notes that `payId` with the transaction type; otherwise the order is unchanged |
| GatewaySpec.PaymentRequestMatchesType | maib-payment-gateway-for-woocommerce.php:369-388 | `direct` sends `pay`, `twostep` sends `hold`, after the token requests |
| GatewaySpec.AsWrittenPaymentNeverSent | maib-payment-gateway-for-woocommerce.php:336-345 | with the current plugin's string amounts no payment request is ever sent |
| GatewaySpec.RefundAmount | maib-payment-gateway-for-woocommerce.php:437-438 | the refund amount is a two-decimal number, 0 when none is given |
| GatewaySpec.NoPaymentIdNoRequest | maib-payment-gateway-for-woocommerce.php:427-431 | without a payment id neither refund nor completion sends anything or changes anything |
| GatewaySpec.RefundOnlyNotes | maib-payment-gateway-for-woocommerce.php:451-465 | a refund changes the order only when done, and then by exactly one note |
| GatewaySpec.CompleteTransactionOutcome | maib-payment-gateway-for-woocommerce.php:498-517 | completion succeeds exactly on status "OK" and then sets the completed status (`processing` by default) and notes the details |
| GatewaySpec.SetEntry | wc-maib.php:1036-1037 | `$actions[$k] = $v` makes `$k` map to `$v` and keeps every other entry |
| GatewaySpec.CompleteActionOffered | wc-maib.php:1026-1041 | the "Complete Two-Step Payment" action is offered exactly for maib two-step orders and no action is lost |
| GatewaySpec.CompleteActionNeverOffered | maib-payment-gateway-for-woocommerce.php:1168-1187 | as written, the action is missing even for a maib two-step order |
| MaibGateway.Http.Send | includes/maib-sdk-php/src/MaibSdk.php:137-192 | the request is logged and answered by the server |
| MaibGateway.MaibPaymentGateway.GenerateAccessToken | maib-payment-gateway-for-woocommerce.php:578-592 | the token call's response, null on any exception; exactly its request is sent |
| MaibGateway.MaibPaymentGateway.GetAccessToken | maib-payment-gateway-for-woocommerce.php:547-573 | the token, the new cache and the requests sent are those of `GatewaySpec.AccessToken` |
| MaibGateway.MaibPaymentGateway.ClearTransients | maib-payment-gateway-for-woocommerce.php:147-154 | both token entries are deleted |
| MaibGateway.MaibPaymentGateway.Call | maib-payment-gateway-for-woocommerce.php:373-376 | response, cache and requests of one operation with a fresh token are those of `GatewaySpec.ApiCall` |
| MaibGateway.MaibPaymentGateway.Invoke | includes/maib-sdk-php/src/MaibApiRequest.php:275-290 | the response is the SDK call's result, null on an exception; exactly the request the SDK lets through is sent |
| MaibGateway.MaibPaymentGateway.ProcessPayment | maib-payment-gateway-for-woocommerce.php:307-413 | result, order, cache and requests are those of `GatewaySpec.ProcessPaymentSpec` |
| MaibGateway.MaibPaymentGateway.ProcessRefund | maib-payment-gateway-for-woocommerce.php:423-466 | result, order, cache and requests are those of `GatewaySpec.RefundSpec` |
| MaibGateway.MaibPaymentGateway.CompleteTransaction | maib-payment-gateway-for-woocommerce.php:471-518 | result, order, cache and requests are those of `GatewaySpec.CompleteTransactionSpec` |
| MaibGateway.MaibPaymentGateway.ActionCompleteTransaction | maib-payment-gateway-for-woocommerce.php:1195-1201 | in both plugin files the order action completes the two-step payment: result, order, cache and requests are those of `GatewaySpec.CompleteTransactionSpec` |
| MaibGateway.MaibPaymentGateway.PaymentComplete | maib-payment-gateway-for-woocommerce.php:884-907 | order and cart end as the completion transition says |
| MaibGateway.MaibPaymentGateway.PaymentHold | maib-payment-gateway-for-woocommerce.php:915-928 | the order ends as the hold transition says |
| MaibGateway.MaibPaymentGateway.PaymentFailed | maib-payment-gateway-for-woocommerce.php:936-952 | the order ends as the failure transition says |
| MaibGateway.MaibPaymentGateway.Step | maib-payment-gateway-for-woocommerce.php:676-698 | the guarded dispatch on the callback status and transaction type |
| MaibGateway.MaibPaymentGateway.Sign | maib-payment-gateway-for-woocommerce.php:641-646 | the signature computed is the digest of the canonical signed text |
| MaibGateway.MaibPaymentGateway.RouteCallback | maib-payment-gateway-for-woocommerce.php:617-705 | the reply, every order and the cart end as `GatewaySpec.CallbackSpec` says |
| MaibGateway.MaibPaymentGateway.RejectForged | maib-payment-gateway-for-woocommerce.php:653-659 | for a bad signature, reply and orders are those of `GatewaySpec.CallbackSpec` and the cart is kept |
| MaibGateway.MaibPaymentGateway.AcceptVerified | maib-payment-gateway-for-woocommerce.php:661-702 | for a verified callback, reply, orders and cart are those of `GatewaySpec.CallbackSpec` |

## Left out

- The cURL transport and JSON encoding/decoding. A send is a function from the request to a transport failure or a received status, body and decoded body.
- SHA-256 and base64 (section 4 of RFC 4648) are one uninterpreted `digest` function. Only the signed text is specified.
- The `filter_var` checks for IP, email and URL are abstract predicates. The same goes for client-IP discovery from request headers and the language lookup.
- Floating point.
  - Amounts are exact decimals rounded to cents.
  - Binary rounding of PHP floats and exponent forms of `(string)` on floats are not modelled.
  - PayParams.Cents: a price whose binary float is just below a half cent rounds down in PHP but half up here.
- Host cleaning of texts is left to the host:
  - `sanitize_text_field`, `sanitize_email`, `esc_url`;
  - the nonce on the return URLs;
  - `wp_json_encode` of the notes, which hold the decoded values instead.
  - The current plugin sanitizes the client name after truncating it. Here the name arrives already clean.
- Logging, `wc_add_notice`, redirects other than the callback's, the settings form, hook registration and asset loading.
- `route_return_ok`, `route_return_fail` and `send_payment_info_request`. They are browser-return plumbing, and the last one is never called.
- class-block.php and checkout.js: block-checkout registration with no payment logic.
- Concurrency between callback and browser-return deliveries. Events are applied one after another.
- Orders.HostPaymentComplete: WooCommerce's `payment_complete()` is modelled as an exactly-once marker. Real WooCommerce returns true on a repeat and re-checks the status instead.
- Orders.Order.SetTransaction: the payment id meta is stored as its `(string)` cast. An array-valued payId would be stored as serialized data in WordPress.
- GatewaySpec.ClearTransients: `process_admin_options` (saving the settings form) is not modelled.
- Transients: serialization of stored values and the `false` stored value are not distinguished from a missing entry, as in WordPress.
- The other SDK operations (`payInfo`, `deleteCard`, recurring and one-click). They are modelled through `MaibApi.Operation` for argument checks and requests only, since the plugin never calls them.

## Findings

| source | as written | input that shows it | evidently intended | confidence | as-written member | corrected member |
|---|---|---|---|---|---|---|
| maib-payment-gateway-for-woocommerce.php:322-345 | `amount`, `delivery` and item `price` are built with `number_format`, i.e. as strings, and the bundled SDK rejects string numerics (includes/maib-sdk-php/src/MaibApiRequest.php:440) | any checkout, e.g. total 10.00 MDL: `amount` is "10.00" and `pay`/`hold` throw "Invalid 'amount' parameter" before sending | numeric amounts, as the legacy plugin sends with `(float)` (wc-maib.php:334-349) | high, not executed | PayParams.ParamsAsWrittenRejected | PayParams.ParamsAccepted |
| maib-payment-gateway-for-woocommerce.php:1168-1187 | `order_actions` reads `global $maib_order`, which nothing assigns, so it always returns the actions unchanged | editing any maib order paid in two steps: the "Complete Two-Step Payment" action is not offered | the order being edited, `global $theorder`, as the legacy plugin reads it (wc-maib.php:1026-1041) | high, not executed | GatewaySpec.CompleteActionNeverOffered | GatewaySpec.CompleteActionOffered |
