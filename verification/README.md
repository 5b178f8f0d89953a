# Merchant server payment ledger, in Dafny

This project models the core of the example merchant server that sits beside a crypto payment
gateway. The server keeps its payments in memory. It learns about payments through a signed
webhook and through a WebSocket notification stream, and it credits user balances in USD. The
model has four modules:

- `JsValues` (`js_values.dfy`) covers the few JavaScript value rules the code depends on:
  - a missing property is `undefined`;
  - truthiness of strings and numbers;
  - `||` with a default;
  - `parseFloat(undefined)` is NaN, and NaN absorbs under `+`;
  - `${undefined}` gives the text "undefined".
- `PaymentGateway` (`payment_gateway.dfy`) covers the signing side of the gateway client:
  - the webhook signature check;
  - the request signature;
  - the signed hosted-checkout URL, whose query is modelled as an ordered list of pairs with
    the semantics of `URLSearchParams.get`/`set`.

  HMAC-SHA256, `JSON.stringify`, `Buffer.from`, number formatting and query serialisation are
  fields of a record of functions. Every result holds for any choice of them, with two
  exceptions:
  - `SignThenVerify` assumes that every hex digest is 64 characters long;
  - `VerifyAcceptsExactlyTheDigest` assumes that `Buffer.from` is injective.
- `WsClient` (`websocket_client.dfy`) covers the WebSocket client as a class whose methods update
  its fields. The sockets the `ws` library creates and the timers are modelled as numbered
  entities whose events are method calls. Each method is proved against a transition function
  on a `ClientState` value, and the invariants and traces are lemmas about those functions.
- `MerchantServer` (`merchant_server.dfy`) covers the ledger, i.e. the `payments`,
  `invoiceToOrder` and `userBalances` Maps, as a class `PaymentStore`:
  - the route parts that read or write the ledger;
  - `handlePaymentNotification`;
  - the webhook route;
  - the wiring of stream notifications into the handler.

  Each method is proved against a function on a `LedgerState` value. `Consistent` is the
  ledger invariant that every mutating method preserves.

The model follows the code where the code and the server's documented intent differ:

- A notification overwrites the status whatever the current status is. There is no transition
  check.
- A redelivered `payment.confirmed` credits the balance a second time. There is no
  de-duplication.
- The webhook signature covers `JSON.stringify` of the parsed body, not the raw request bytes.
- `disconnect()` leaves its dead handle in `reconnectTimer`.

Lemmas state these behaviours outright.

## Model

| member | source | states |
|---|---|---|
| PaymentGateway.VerifyWebhookSignature | merchant-server/paymentGateway.js:82-101 | a missing or empty signature or secret is rejected; acceptance implies the signature's bytes equal the expected digest's bytes; a non-empty signature equal to the HMAC of the serialised payload under a configured secret is accepted |
| PaymentGateway.VerifyAcceptsExactlyTheDigest | merchant-server/paymentGateway.js:82-101 | when `Buffer.from` is injective, the check accepts if and only if the secret and signature are non-empty and the signature equals the expected digest |
| PaymentGateway.CreateRequestSignature | merchant-server/paymentGateway.js:238-243 | it throws exactly when no secret is configured; otherwise the result is the HMAC of the serialised payload |
| PaymentGateway.SignThenVerify | merchant-server/paymentGateway.js:82-101 | sign/verify round trip: with a non-empty secret, the request signature of a payload passes the webhook check for the same payload |
| PaymentGateway.QuerySet | merchant-server/paymentGateway.js:143-144 | after `set(name, value)`, `get(name)` is the value and every other name reads as before |
| PaymentGateway.QueryGetAt | merchant-server/paymentGateway.js:133-141 | a name first occurring at position i reads back that position's value |
| PaymentGateway.QueryGetAbsent | merchant-server/paymentGateway.js:133-141 | a name that occurs in no pair reads as missing |
| PaymentGateway.BaseQueryContents | merchant-server/paymentGateway.js:133-141 | each of the seven initial parameters reads back its value, and no other name is present |
| PaymentGateway.CheckoutQuery | merchant-server/paymentGateway.js:126-144 | the query carries `site_key`, `user_id`, `fiat_amount`, `fiat_currency`, `currency`, `network` and the HMAC of the colon-joined signing string; `order_id` and `description` are present exactly when truthy; no other parameter is present |
| PaymentGateway.CreateCheckoutUrl | merchant-server/paymentGateway.js:118-147 | it throws the `user_id` error exactly when `user_id` is falsy; it succeeds exactly when `user_id` is truthy, a secret is set and `fiat_amount` is defined; the URL is `baseUrl + "/checkout/pay?" +` the serialised checkout query |
| PaymentGateway.CheckoutSignatureCoversQuery | merchant-server/paymentGateway.js:126-146 | the `signature` parameter is the HMAC of the signing string rebuilt from the query's own parameters, so a secret holder can verify a checkout URL from its query alone |
| WsClient.AtMostOneReconnectTimer | merchant-server/websocketClient.js:174-184 | under the client invariant at most one reconnect timeout is pending, and it is the one in `reconnectTimer` |
| WsClient.SendStep | merchant-server/websocketClient.js:136-140 | a frame is written on the current socket exactly when that socket is open; otherwise it is dropped; nothing else changes |
| WsClient.StartPingStep | merchant-server/websocketClient.js:155-158 | a fresh interval becomes `pingTimer` and is added to the live intervals without clearing the previous one; the invariant is preserved |
| WsClient.StopPingStep | merchant-server/websocketClient.js:164-169 | `pingTimer` ends null and its interval is cleared; nothing else changes; the invariant is preserved |
| WsClient.ScheduleReconnectStep | merchant-server/websocketClient.js:174-184 | it is a no-op while `reconnectTimer` holds a handle; otherwise one new timeout becomes `reconnectTimer`; the invariant is preserved |
| WsClient.ConnectStep | merchant-server/websocketClient.js:29-40 | it is a no-op while connecting or open; otherwise both flags are set and a new socket in CONNECTING becomes `ws`; nothing else changes |
| WsClient.OpenStep | merchant-server/websocketClient.js:42-53 | the socket becomes OPEN; `isConnecting` is cleared; a ping interval starts. When the current socket is the one that opened, the subscription always goes out. When a replaced socket opens, the subscription goes out on the current socket only if that socket is open, and is dropped otherwise |
| WsClient.CloseStep | merchant-server/websocketClient.js:59-68 | the socket becomes CLOSED; `isConnecting` is cleared; ping stops and its interval is cleared; a reconnect timeout is scheduled exactly when `shouldReconnect` holds and `reconnectTimer` is null, so a handle that `disconnect()` cancelled still blocks scheduling; a held handle is kept |
| WsClient.DisconnectStep | merchant-server/websocketClient.js:81-90 | reconnection is switched off; ping is stopped and its interval cleared; the current socket is asked to close (CLOSING unless already CLOSED); the pending timeout is cancelled but its handle stays in `reconnectTimer`; `ws` is nulled; under the invariant no timeout remains |
| WsClient.ReconnectTimerStep | merchant-server/websocketClient.js:180-183 | the field is cleared before `connect()` runs, and no timeout is left pending |
| WsClient.PingTimerStep | merchant-server/websocketClient.js:156-158 | a tick appends a ping on the current socket when it is open; otherwise nothing changes |
| WsClient.StopPingIdempotent | merchant-server/websocketClient.js:164-169 | stopping ping twice is the same as stopping it once |
| WsClient.StartPingTwiceLeaksInterval | merchant-server/websocketClient.js:155-169 | after two starts and a stop, the first interval is still live and no field refers to it |
| WsClient.ReconnectLostAfterDisconnect | merchant-server/websocketClient.js:59-90 | a disconnect while a reconnect is pending, followed by connect and close, leaves reconnection wanted but no timeout pending, because the dead handle blocks `scheduleReconnect` |
| WsClient.HandleMessage | merchant-server/websocketClient.js:95-131 | `message.data` is forwarded exactly for the `notification` type; unparseable frames are dropped; unknown types are reported exactly for types outside the six handled ones |
| WsClient.WebSocketClient.constructor | merchant-server/websocketClient.js:10-24 | no socket, no timers, `shouldReconnect` set |
| WsClient.WebSocketClient.Connect | merchant-server/websocketClient.js:29-40 | the new state is `ConnectStep` of the old one; the invariant is kept |
| WsClient.WebSocketClient.Disconnect | merchant-server/websocketClient.js:81-90 | the new state is `DisconnectStep` of the old one; the invariant is kept |
| WsClient.WebSocketClient.Send | merchant-server/websocketClient.js:136-140 | the new state is `SendStep` of the old one |
| WsClient.WebSocketClient.GetInvoiceStatus | merchant-server/websocketClient.js:145-150 | a `get_status` frame for the invoice is sent through `send` |
| WsClient.WebSocketClient.StartPing | merchant-server/websocketClient.js:155-158 | the new state is `StartPingStep` of the old one |
| WsClient.WebSocketClient.StopPing | merchant-server/websocketClient.js:164-169 | the new state is `StopPingStep` of the old one |
| WsClient.WebSocketClient.ScheduleReconnect | merchant-server/websocketClient.js:174-184 | the new state is `ScheduleReconnectStep` of the old one |
| WsClient.WebSocketClient.IsConnected | merchant-server/websocketClient.js:189-191 | the result holds exactly when the current socket is open |
| WsClient.WebSocketClient.OnOpen | merchant-server/websocketClient.js:42-53 | the open event of a connecting socket applies `OpenStep` |
| WsClient.WebSocketClient.OnClose | merchant-server/websocketClient.js:59-68 | the close event of a socket applies `CloseStep` |
| WsClient.WebSocketClient.OnReconnectTimer | merchant-server/websocketClient.js:180-183 | a pending reconnect timeout firing applies `ReconnectTimerStep` |
| WsClient.WebSocketClient.OnPingTimer | merchant-server/websocketClient.js:156-158 | a live interval ticking applies `PingTimerStep` |
| MerchantServer.StorePayment | merchant-server/server.js:120 | `payments.set` replaces the record under its order id; the key goes to the end of the iteration order only when new; the ledger invariant is preserved |
| MerchantServer.SeedInvoice | merchant-server/server.js:104-121 | a `pending` record is stored under the new order id and its invoice id is indexed to it, so a status lookup by that invoice id finds exactly that record; balances are untouched; the invariant is preserved |
| MerchantServer.SeedCheckout | merchant-server/server.js:260-269 | a `pending` record without an invoice id is stored; the invoice index and balances are untouched; the invariant is preserved |
| MerchantServer.Resolve | merchant-server/server.js:170-189 | the id is read first as an invoice id, then as an order id; for an order id the gateway is asked about the record's own invoice id; in a consistent ledger a record is found exactly when the id is a known invoice id or order id |
| MerchantServer.CancelLocally | merchant-server/server.js:471-479 | the record indexed by the invoice id is marked `cancelled` only when the order id is truthy and stored; otherwise nothing changes; the invariant is preserved |
| MerchantServer.Notify | merchant-server/server.js:535-593 | an unknown order changes nothing. For a known order: status, invoice id and amounts are overwritten whatever the current status; other records keep their values; a truthy invoice id is indexed to the order; only `payment.confirmed` changes balances, and only the credited user's (`payment.user_id \|\| user_id \|\| metadata.user_id`), to `(old \|\| 0) + amount` with `usd_amount` preferred to `amount_received`. The invariant is preserved |
| MerchantServer.LocalBalance | merchant-server/server.js:336-337 | a missing or NaN balance reads as 0; otherwise the stored value is returned |
| MerchantServer.ConfirmationCreditsAmount | merchant-server/server.js:579-585 | a confirmation with a finite amount raises the credited user's local balance by exactly that amount and leaves every other user's balance unchanged |
| MerchantServer.RedeliveredConfirmationCreditsTwice | merchant-server/server.js:556-585 | the same confirmation delivered twice credits twice its amount |
| MerchantServer.AmountlessConfirmationErasesBalance | merchant-server/server.js:582-585 | a confirmation with neither `usd_amount` nor `amount_received` stores NaN, after which the next confirmation starts from 0 and earlier credits are lost |
| MerchantServer.UserPaymentsMembers | merchant-server/server.js:369-374 | the local history holds a record if and only if it is stored under a listed key and belongs to the user |
| MerchantServer.PaymentStore.constructor | merchant-server/server.js:59-61 | all three Maps start empty |
| MerchantServer.PaymentStore.SetPayment | merchant-server/server.js:120 | the new state is `StorePayment` of the old one |
| MerchantServer.PaymentStore.CreateInvoice | merchant-server/server.js:75-121 | a request missing `user_id`, `amount`, `currency` or `network` is refused and changes nothing; a failed gateway call changes nothing; otherwise the ledger is `SeedInvoice` of the old one and the record is returned |
| MerchantServer.PaymentStore.CheckoutUrl | merchant-server/server.js:240-281 | an incomplete request is refused and changes nothing; a complete one stores the `pending` record even when the URL cannot be built; the route succeeds exactly when a secret is configured, and then returns `createCheckoutUrl`'s URL |
| MerchantServer.PaymentStore.FindPayment | merchant-server/server.js:170-189 | the lookup is `Resolve` on the current ledger |
| MerchantServer.PaymentStore.CancelInvoice | merchant-server/server.js:466-490 | when the gateway accepts, the ledger becomes `CancelLocally` of the old one; when it fails, nothing changes and an error is returned |
| MerchantServer.PaymentStore.HandlePaymentNotification | merchant-server/server.js:535-593 | the new ledger is `Notify` of the old one; the invariant is kept |
| MerchantServer.PaymentStore.Webhook | merchant-server/server.js:500-523 | the notification is applied if and only if the signature verifies over the whole parsed body; a rejected request changes nothing; an accepted one applies the handler to the fields it reads from that body |
| MerchantServer.PaymentStore.OnStreamMessage | merchant-server/server.js:47-51 | a stream frame changes the ledger only when the client forwards a notification's `data`, and then exactly as the notification handler does |
| MerchantServer.PaymentStore.LocalBalanceFallback | merchant-server/server.js:336-346 | the fallback balance is `LocalBalance` of the current ledger |
| MerchantServer.PaymentStore.LocalPaymentHistory | merchant-server/server.js:368-374 | the loop collects the user's records in `payments` iteration order; a record is in the list if and only if it is stored and belongs to the user |

## Left out

- Networking, Express, CORS, logging and the HTTP response bodies are left out. Routes return
  the modelled outcome: the stored record, the URL, a lookup, or an error kind.
- Only the outcomes of the gateway's `createInvoice` and `cancelInvoice` calls are parameters,
  of `CreateInvoice` and `CancelInvoice`. The other gateway calls are outside the model:
  - `getInvoiceStatus`;
  - the balance and history lookups, whose local fallbacks are modelled as
    `LocalBalanceFallback` and `LocalPaymentHistory`;
  - the gateway's other endpoints.
- MerchantServer.Resolve covers only the local lookup of the status route. Copying the gateway's
  status into the local record afterwards (server.js:191-215) is a remote call and is left out.
- MerchantServer.PaymentStore.LocalPaymentHistory does not model the `created_at` sort
  (server.js:380). Timestamps (`created_at`, `updated_at`, `timeRemaining`) and the generated
  order ids are not modelled; order ids are parameters.
- Amounts are JSON numbers modelled as reals. Strings passed to `parseFloat`, floating-point
  rounding, `toFixed` and NaN from unparsable text are not modelled. The one NaN the model keeps
  is the one from a missing `amount_received`.
- The signature, hash and serialisation functions are uninterpreted. That no one can forge a
  signature without the secret is a cryptographic assumption, not something proved here.
- The client's `onConnect` and `onDisconnect` callbacks, the `error` and `pong` handlers, and
  the interval lengths are left out. A timer is live or not, with no time.
- WsClient.HandleMessage classifies a frame by its `type`. The JSON text and its parsing are
  abstracted into the `Frame` value.
- PaymentGateway.CheckoutQuery does not model URL encoding or the order of parameters in the
  serialised query. It states what `get` returns for each name.
