/**
 * The merchant server's in-memory payment ledger (merchant-server/server.js): the `payments`,
 * `invoiceToOrder` and `userBalances` Maps, the route handlers that write them, and
 * `handlePaymentNotification`, the one entry point for webhook and stream notifications.
 *
 * The class `PaymentStore` holds the three Maps as fields (plus the insertion order of
 * `payments`, which `Map.prototype.forEach` follows). Each of its methods is proved against a
 * function on the `LedgerState` value, and what the source promises is stated about those
 * functions. Order ids (time plus random bytes) and the gateway's replies are parameters.
 */
module MerchantServer {
  import opened JsValues
  import PaymentGateway
  import WsClient

  /** The event name that credits a balance. */
  const ConfirmedEvent := "payment.confirmed"

  /** A payment record; a property the record does not have is `None`. */
  datatype Payment = Payment(
    orderId: string,
    userId: Option<string>,
    invoiceId: Option<string>,
    status: Option<string>,
    amount: Option<real>,
    amountToPay: Option<real>,
    address: Option<string>,
    paymentId: Option<string>,
    currency: Option<string>,
    network: Option<string>,
    networkDisplayName: Option<string>,
    fiatAmount: Option<real>,
    fiatCurrency: Option<string>,
    amountReceived: Option<real>,
    usdAmount: Option<real>)

  /** The fields of a notification body that `handlePaymentNotification` reads. */
  datatype Notification = Notification(
    event: Option<string>,
    invoiceId: Option<string>,
    merchantOrderId: Option<string>,
    userId: Option<string>,
    status: Option<string>,
    amountReceived: Option<real>,
    usdAmount: Option<real>,
    metadataUserId: Option<string>)   // metadata?.user_id

  /** The three Maps; `insertionOrder` lists the keys of `payments` in the order they were added. */
  datatype LedgerState = LedgerState(
    payments: map<string, Payment>,
    insertionOrder: seq<string>,
    invoiceToOrder: map<string, string>,
    userBalances: map<Option<string>, JsNumber>)

  const EmptyLedger := LedgerState(map[], [], map[], map[])

  /**
   * The ledger's invariant: `insertionOrder` lists each key of `payments` once, each record is
   * stored under its own order id, and every indexed invoice points to a stored order.
   */
  ghost predicate Consistent(s: LedgerState)
  {
    && (forall i, j :: 0 <= i < j < |s.insertionOrder| ==> s.insertionOrder[i] != s.insertionOrder[j])
    && (forall k :: k in s.payments <==> k in s.insertionOrder)
    && (forall k :: k in s.payments ==> s.payments[k].orderId == k)
    && (forall inv :: inv in s.invoiceToOrder ==> s.invoiceToOrder[inv] in s.payments)
  }

  /** The error responses of the routes (HTTP 400 and the catch blocks' error status). */
  datatype RouteError = BadRequest | ServerError

  /** `payments.set(p.orderId, p)`: a new key goes to the end of the iteration order. */
  function StorePayment(s: LedgerState, p: Payment): (r: LedgerState)
    ensures r.payments == s.payments[p.orderId := p]
    ensures r.insertionOrder == if p.orderId in s.payments then s.insertionOrder else s.insertionOrder + [p.orderId]
    ensures r.invoiceToOrder == s.invoiceToOrder && r.userBalances == s.userBalances
    ensures Consistent(s) ==> Consistent(r)
  {
    var order := if p.orderId in s.payments then s.insertionOrder else s.insertionOrder + [p.orderId];
    s.(payments := s.payments[p.orderId := p], insertionOrder := order)
  }

  // ---------------------------------------------------------------------------
  // POST /api/payments/create-invoice
  // ---------------------------------------------------------------------------

  datatype InvoiceRequest = InvoiceRequest(
    userId: Option<string>, amount: Option<real>, currency: Option<string>,
    network: Option<string>, description: Option<string>)

  /** The fields of the gateway's created invoice that the route stores. */
  datatype GatewayInvoice = GatewayInvoice(
    invoiceId: string, address: Option<string>, amountToPay: Option<real>,
    paymentId: Option<string>, networkDisplayName: Option<string>)

  /** `user_id`, `amount`, `currency` and `network` must all be truthy. */
  predicate InvoiceRequestValid(req: InvoiceRequest)
  {
    TruthyText(req.userId) && TruthyNumber(req.amount) && TruthyText(req.currency) && TruthyText(req.network)
  }

  /** The `pending` record stored for a created invoice. */
  function InvoiceRecord(orderId: string, req: InvoiceRequest, inv: GatewayInvoice): Payment
  {
    Payment(orderId, req.userId, Some(inv.invoiceId), Some("pending"), req.amount, inv.amountToPay,
            inv.address, inv.paymentId, req.currency, req.network,
            OrText(inv.networkDisplayName, req.network), None, None, None, None)
  }

  /**
   * Seeding on invoice creation: the `pending` record under the new order id, and the invoice id
   * indexed to it, so that a status lookup by the invoice id finds the record.
   */
  function SeedInvoice(s: LedgerState, orderId: string, req: InvoiceRequest, inv: GatewayInvoice): (r: LedgerState)
    ensures r.payments == s.payments[orderId := InvoiceRecord(orderId, req, inv)]
    ensures r.payments[orderId].status == Some("pending")
    ensures r.invoiceToOrder == s.invoiceToOrder[inv.invoiceId := orderId]
    ensures r.userBalances == s.userBalances
    ensures Consistent(s) ==> Consistent(r)
    ensures Resolve(r, inv.invoiceId) == Found(InvoiceRecord(orderId, req, inv), Some(inv.invoiceId))
  {
    var stored := StorePayment(s, InvoiceRecord(orderId, req, inv));
    stored.(invoiceToOrder := stored.invoiceToOrder[inv.invoiceId := orderId])
  }

  // ---------------------------------------------------------------------------
  // POST /api/payments/checkout-url
  // ---------------------------------------------------------------------------

  datatype CheckoutRequest = CheckoutRequest(
    userId: Option<string>, fiatAmount: Option<real>, fiatCurrency: Option<string>,
    currency: Option<string>, network: Option<string>, description: Option<string>)

  /** `user_id`, `fiat_amount`, `fiat_currency`, `currency` and `network` must all be truthy. */
  predicate CheckoutRequestValid(req: CheckoutRequest)
  {
    && TruthyText(req.userId) && TruthyNumber(req.fiatAmount) && TruthyText(req.fiatCurrency)
    && TruthyText(req.currency) && TruthyText(req.network)
  }

  /** The `pending` record stored before the URL is built (no invoice exists yet). */
  function CheckoutRecord(orderId: string, req: CheckoutRequest): Payment
  {
    Payment(orderId, req.userId, None, Some("pending"), None, None, None, None, req.currency,
            req.network, None, req.fiatAmount, req.fiatCurrency, None, None)
  }

  /** The arguments the route passes to `createCheckoutUrl`. */
  function CheckoutParamsOf(orderId: string, req: CheckoutRequest): PaymentGateway.CheckoutParams
  {
    PaymentGateway.CheckoutParams(req.userId, req.fiatAmount, req.fiatCurrency, req.currency,
                                  req.network, Some(orderId), req.description)
  }

  /** Seeding on hosted checkout: a `pending` record and no invoice index entry. */
  function SeedCheckout(s: LedgerState, orderId: string, req: CheckoutRequest): (r: LedgerState)
    ensures r.payments == s.payments[orderId := CheckoutRecord(orderId, req)]
    ensures r.payments[orderId].status == Some("pending") && r.payments[orderId].invoiceId.None?
    ensures r.invoiceToOrder == s.invoiceToOrder && r.userBalances == s.userBalances
    ensures Consistent(s) ==> Consistent(r)
  {
    StorePayment(s, CheckoutRecord(orderId, req))
  }

  // ---------------------------------------------------------------------------
  // GET /api/payments/:id/status (the local lookup)
  // ---------------------------------------------------------------------------

  /** A found record, with the id the route then asks the gateway about. */
  datatype Lookup = NotFound | Found(payment: Payment, gatewayId: Option<string>)

  /**
   * The id is read as an invoice id when `invoiceToOrder` has it, otherwise as an order id when
   * `payments` has it, otherwise nothing is found.
   */
  function Resolve(s: LedgerState, id: string): (r: Lookup)
    ensures id in s.invoiceToOrder && s.invoiceToOrder[id] in s.payments ==>
              r == Found(s.payments[s.invoiceToOrder[id]], Some(id))
    ensures id !in s.invoiceToOrder && id in s.payments ==> r == Found(s.payments[id], s.payments[id].invoiceId)
    ensures id !in s.invoiceToOrder && id !in s.payments ==> r == NotFound
    ensures Consistent(s) ==> (r.Found? <==> id in s.invoiceToOrder || id in s.payments)
    ensures r.Found? ==> r.payment in s.payments.Values
  {
    if id in s.invoiceToOrder then
      var orderId := s.invoiceToOrder[id];
      if orderId in s.payments then Found(s.payments[orderId], Some(id)) else NotFound
    else if id in s.payments then
      Found(s.payments[id], s.payments[id].invoiceId)
    else
      NotFound
  }

  // ---------------------------------------------------------------------------
  // POST /api/invoices/:id/cancel (the local part)
  // ---------------------------------------------------------------------------

  /** Whether the local cancel touches a record: the invoice is indexed to a truthy, stored order id. */
  predicate CancelApplies(s: LedgerState, invoiceId: string)
  {
    var orderId := Get(s.invoiceToOrder, invoiceId);
    TruthyText(orderId) && orderId.value in s.payments
  }

  /** After the gateway accepted the cancel: status `cancelled` on the indexed order, if any. */
  function CancelLocally(s: LedgerState, invoiceId: string): (r: LedgerState)
    ensures CancelApplies(s, invoiceId) ==>
              var orderId := s.invoiceToOrder[invoiceId];
              r.payments == s.payments[orderId := s.payments[orderId].(status := Some("cancelled"))]
    ensures !CancelApplies(s, invoiceId) ==> r == s
    ensures r.insertionOrder == s.insertionOrder
    ensures r.invoiceToOrder == s.invoiceToOrder && r.userBalances == s.userBalances
    ensures Consistent(s) ==> Consistent(r)
  {
    if CancelApplies(s, invoiceId) then
      var orderId := s.invoiceToOrder[invoiceId];
      s.(payments := s.payments[orderId := s.payments[orderId].(status := Some("cancelled"))])
    else
      s
  }

  // ---------------------------------------------------------------------------
  // handlePaymentNotification
  // ---------------------------------------------------------------------------

  /** Whether the notification names a stored order. */
  predicate Known(s: LedgerState, n: Notification)
  {
    n.merchantOrderId.Some? && n.merchantOrderId.value in s.payments
  }

  /** `payment.user_id || user_id || metadata?.user_id` */
  function CreditedUser(p: Payment, n: Notification): Option<string>
  {
    OrText(OrText(p.userId, n.userId), n.metadataUserId)
  }

  /** `usd_amount ? parseFloat(usd_amount) : parseFloat(amount_received)` */
  function CreditAmount(n: Notification): JsNumber
  {
    if TruthyNumber(n.usdAmount) then ParseFloat(n.usdAmount) else ParseFloat(n.amountReceived)
  }

  /** `userBalances.set(user, (userBalances.get(user) || 0) + amount)` */
  function Credit(balances: map<Option<string>, JsNumber>, user: Option<string>, amount: JsNumber): map<Option<string>, JsNumber>
  {
    balances[user := Add(Finite(OrZero(Get(balances, user))), amount)]
  }

  /**
   * `handlePaymentNotification(data)`. An unknown order changes nothing. For a known order the
   * record takes the notification's status, invoice id and amounts whatever its current status,
   * a truthy invoice id is indexed to the order, and only `payment.confirmed` credits a balance:
   * the credited user's, and no other.
   */
  function Notify(s: LedgerState, n: Notification): (r: LedgerState)
    ensures !Known(s, n) ==> r == s
    ensures Known(s, n) ==>
              var orderId := n.merchantOrderId.value;
              var p := s.payments[orderId];
              && r.payments.Keys == s.payments.Keys
              && r.payments[orderId] == p.(status := n.status, invoiceId := n.invoiceId,
                                           amountReceived := n.amountReceived, usdAmount := n.usdAmount)
              && (forall k :: k in s.payments && k != orderId ==> r.payments[k] == s.payments[k])
              && r.insertionOrder == s.insertionOrder
              && (TruthyText(n.invoiceId) ==> r.invoiceToOrder == s.invoiceToOrder[n.invoiceId.value := orderId])
              && (!TruthyText(n.invoiceId) ==> r.invoiceToOrder == s.invoiceToOrder)
    ensures n.event != Some(ConfirmedEvent) ==> r.userBalances == s.userBalances
    ensures Known(s, n) && n.event == Some(ConfirmedEvent) ==>
              var user := CreditedUser(s.payments[n.merchantOrderId.value], n);
              && user in r.userBalances
              && r.userBalances[user] == Add(Finite(OrZero(Get(s.userBalances, user))), CreditAmount(n))
              && (forall u :: u != user ==> Get(r.userBalances, u) == Get(s.userBalances, u))
    ensures Consistent(s) ==> Consistent(r)
  {
    if !Known(s, n) then
      s
    else
      var orderId := n.merchantOrderId.value;
      var p := s.payments[orderId];
      var user := CreditedUser(p, n);
      var updated := p.(status := n.status, invoiceId := n.invoiceId,
                        amountReceived := n.amountReceived, usdAmount := n.usdAmount);
      var index := if TruthyText(n.invoiceId) then s.invoiceToOrder[n.invoiceId.value := orderId]
                   else s.invoiceToOrder;
      var balances := if n.event == Some(ConfirmedEvent) then Credit(s.userBalances, user, CreditAmount(n))
                      else s.userBalances;
      LedgerState(s.payments[orderId := updated], s.insertionOrder, index, balances)
  }

  // ---------------------------------------------------------------------------
  // Local fallbacks of GET /api/users/:userId/balance and /payments
  // ---------------------------------------------------------------------------

  /** `userBalances.get(userId) || 0`: a missing, zero or NaN balance reads as 0. */
  function LocalBalance(s: LedgerState, userId: string): (b: real)
    ensures Some(userId) !in s.userBalances || s.userBalances[Some(userId)].NaN? ==> b == 0.0
    ensures Some(userId) in s.userBalances && s.userBalances[Some(userId)].Finite? ==>
              b == s.userBalances[Some(userId)].r
  {
    OrZero(Get(s.userBalances, Some(userId)))
  }

  /** A confirmation with a finite amount raises the credited user's balance by that amount. */
  lemma ConfirmationCreditsAmount(s: LedgerState, n: Notification, userId: string, amount: real)
    requires Known(s, n) && n.event == Some(ConfirmedEvent)
    requires CreditedUser(s.payments[n.merchantOrderId.value], n) == Some(userId)
    requires CreditAmount(n) == Finite(amount)
    ensures LocalBalance(Notify(s, n), userId) == LocalBalance(s, userId) + amount
    ensures forall other :: other != userId ==> LocalBalance(Notify(s, n), other) == LocalBalance(s, other)
  {
  }

  /**
   * Nothing guards against redelivery: the same confirmation applied twice credits its amount
   * twice.
   */
  lemma RedeliveredConfirmationCreditsTwice(s: LedgerState, n: Notification, userId: string, amount: real)
    requires Known(s, n) && n.event == Some(ConfirmedEvent)
    requires CreditedUser(s.payments[n.merchantOrderId.value], n) == Some(userId)
    requires CreditAmount(n) == Finite(amount)
    ensures LocalBalance(Notify(Notify(s, n), n), userId) == LocalBalance(s, userId) + 2.0 * amount
  {
  }

  /**
   * A confirmation that carries neither a truthy `usd_amount` nor `amount_received` stores NaN,
   * and since `NaN || 0` is 0 the next confirmation for that user starts again from 0: the
   * earlier credits are lost.
   */
  lemma AmountlessConfirmationErasesBalance(s: LedgerState, bad: Notification, good: Notification,
                                            userId: string, amount: real)
    requires Known(s, bad) && bad.event == Some(ConfirmedEvent)
    requires CreditedUser(s.payments[bad.merchantOrderId.value], bad) == Some(userId)
    requires !TruthyNumber(bad.usdAmount) && bad.amountReceived.None?
    requires Known(Notify(s, bad), good) && good.event == Some(ConfirmedEvent)
    requires CreditedUser(Notify(s, bad).payments[good.merchantOrderId.value], good) == Some(userId)
    requires CreditAmount(good) == Finite(amount)
    ensures Notify(s, bad).userBalances[Some(userId)] == NaN
    ensures LocalBalance(Notify(s, bad), userId) == 0.0
    ensures LocalBalance(Notify(Notify(s, bad), good), userId) == amount
  {
  }

  /**
   * The local history: the user's records in `payments` iteration order (recursion on the last
   * key, the order in which `forEach` pushes them).
   */
  function UserPayments(keys: seq<string>, payments: map<string, Payment>, userId: string): seq<Payment>
    requires forall k :: k in keys ==> k in payments
  {
    if keys == [] then []
    else
      var last := payments[keys[|keys| - 1]];
      UserPayments(keys[..|keys| - 1], payments, userId) + (if last.userId == Some(userId) then [last] else [])
  }

  /** The history holds exactly the records, under the listed keys, whose `user_id` is the user. */
  lemma {:induction false} UserPaymentsMembers(keys: seq<string>, payments: map<string, Payment>,
                                               userId: string, p: Payment)
    requires forall k :: k in keys ==> k in payments
    ensures p in UserPayments(keys, payments, userId)
            <==> p.userId == Some(userId) && exists k :: k in keys && payments[k] == p
  {
    if keys != [] {
      var init := keys[..|keys| - 1];
      var lastKey := keys[|keys| - 1];
      UserPaymentsMembers(init, payments, userId, p);
      assert forall k :: k in keys <==> k in init || k == lastKey by {
        assert keys == init + [lastKey];
      }
    }
  }

  // ---------------------------------------------------------------------------
  // The server's state and routes
  // ---------------------------------------------------------------------------

  /** Replies of the webhook route (HTTP 401 and 200). */
  datatype WebhookReply = Unauthorized | Received

  class PaymentStore {
    var payments: map<string, Payment>
    var insertionOrder: seq<string>
    var invoiceToOrder: map<string, string>
    var userBalances: map<Option<string>, JsNumber>

    function State(): LedgerState
      reads this
    {
      LedgerState(payments, insertionOrder, invoiceToOrder, userBalances)
    }

    ghost predicate Valid()
      reads this
    {
      Consistent(State())
    }

    constructor ()
      ensures Valid() && State() == EmptyLedger
    {
      payments, insertionOrder, invoiceToOrder, userBalances := map[], [], map[], map[];
    }

    /** `payments.set(record.order_id, record)` */
    method SetPayment(record: Payment)
      requires Valid()
      modifies this
      ensures Valid() && State() == StorePayment(old(State()), record)
    {
      if record.orderId !in payments {
        insertionOrder := insertionOrder + [record.orderId];
      }
      payments := payments[record.orderId := record];
    }

    /**
     * POST /api/payments/create-invoice. `invoice` is the gateway's reply (`None` when the call
     * throws); `orderId` is the freshly generated order id.
     */
    method CreateInvoice(req: InvoiceRequest, orderId: string, invoice: Option<GatewayInvoice>)
      returns (r: Result<Payment, RouteError>)
      requires Valid()
      modifies this
      ensures Valid()
      ensures !InvoiceRequestValid(req) ==> r == Err(BadRequest) && State() == old(State())
      ensures InvoiceRequestValid(req) && invoice.None? ==> r == Err(ServerError) && State() == old(State())
      ensures InvoiceRequestValid(req) && invoice.Some? ==>
                && r == Ok(InvoiceRecord(orderId, req, invoice.value))
                && State() == SeedInvoice(old(State()), orderId, req, invoice.value)
    {
      if !InvoiceRequestValid(req) {
        return Err(BadRequest);
      }
      if invoice.None? {
        return Err(ServerError);
      }
      var inv := invoice.value;
      var payment := InvoiceRecord(orderId, req, inv);
      SetPayment(payment);
      invoiceToOrder := invoiceToOrder[inv.invoiceId := orderId];
      r := Ok(payment);
    }

    /**
     * POST /api/payments/checkout-url. The record is stored before the URL is built, so it stays
     * even when building the URL throws.
     */
    method CheckoutUrl<P>(cfg: PaymentGateway.Config, prims: PaymentGateway.Primitives<P>,
                          req: CheckoutRequest, orderId: string)
      returns (r: Result<string, RouteError>)
      requires Valid()
      modifies this
      ensures Valid()
      ensures !CheckoutRequestValid(req) ==> r == Err(BadRequest) && State() == old(State())
      ensures CheckoutRequestValid(req) ==>
                && State() == SeedCheckout(old(State()), orderId, req)
                && (r.Ok? <==> cfg.webhookSecret.Some?)
                && (r.Ok? ==> Ok(r.value) == PaymentGateway.CreateCheckoutUrl(cfg, prims, CheckoutParamsOf(orderId, req)))
                && (r.Err? ==> r.error == ServerError)
    {
      if !CheckoutRequestValid(req) {
        return Err(BadRequest);
      }
      SetPayment(CheckoutRecord(orderId, req));
      var url := PaymentGateway.CreateCheckoutUrl(cfg, prims, CheckoutParamsOf(orderId, req));
      if url.Err? {
        return Err(ServerError);
      }
      r := Ok(url.value);
    }

    /** The local lookup of GET /api/payments/:id/status. */
    method FindPayment(id: string) returns (r: Lookup)
      ensures r == Resolve(State(), id)
    {
      if id in invoiceToOrder {
        var orderId := invoiceToOrder[id];
        r := if orderId in payments then Found(payments[orderId], Some(id)) else NotFound;
      } else if id in payments {
        r := Found(payments[id], payments[id].invoiceId);
      } else {
        r := NotFound;
      }
    }

    /** POST /api/invoices/:id/cancel; `gatewayAccepted` is whether the gateway call returned. */
    method CancelInvoice(invoiceId: string, gatewayAccepted: bool) returns (r: Result<(), RouteError>)
      requires Valid()
      modifies this
      ensures Valid()
      ensures gatewayAccepted ==> r == Ok(()) && State() == CancelLocally(old(State()), invoiceId)
      ensures !gatewayAccepted ==> r == Err(ServerError) && State() == old(State())
    {
      if !gatewayAccepted {
        return Err(ServerError);
      }
      if invoiceId in invoiceToOrder {
        var orderId := invoiceToOrder[invoiceId];
        if orderId != "" && orderId in payments {
          payments := payments[orderId := payments[orderId].(status := Some("cancelled"))];
        }
      }
      r := Ok(());
    }

    /** `handlePaymentNotification(data)` */
    method HandlePaymentNotification(n: Notification)
      requires Valid()
      modifies this
      ensures Valid() && State() == Notify(old(State()), n)
    {
      if n.merchantOrderId.None? || n.merchantOrderId.value !in payments {
        return;
      }
      var orderId := n.merchantOrderId.value;
      var payment := payments[orderId];
      var userId := CreditedUser(payment, n);
      payment := payment.(status := n.status, invoiceId := n.invoiceId,
                          amountReceived := n.amountReceived, usdAmount := n.usdAmount);
      payments := payments[orderId := payment];
      if TruthyText(n.invoiceId) {
        invoiceToOrder := invoiceToOrder[n.invoiceId.value := orderId];
      }
      if n.event == Some(ConfirmedEvent) {
        userBalances := Credit(userBalances, userId, CreditAmount(n));
      }
    }

    /**
     * POST /webhook/payment: the signature gate, then the notification handler. The signature is
     * checked over the whole parsed body `body`, every property included; `view` reads from it
     * the fields the handler uses.
     */
    method Webhook<P>(cfg: PaymentGateway.Config, prims: PaymentGateway.Primitives<P>,
                      body: P, view: P -> Notification, signature: Option<string>)
      returns (reply: WebhookReply)
      requires Valid()
      modifies this
      ensures Valid()
      ensures reply == Received <==> PaymentGateway.VerifyWebhookSignature(cfg, prims, body, signature)
      ensures reply == Unauthorized ==> State() == old(State())
      ensures reply == Received ==> State() == Notify(old(State()), view(body))
    {
      if !PaymentGateway.VerifyWebhookSignature(cfg, prims, body, signature) {
        return Unauthorized;
      }
      HandlePaymentNotification(view(body));
      reply := Received;
    }

    /**
     * A frame from the notification stream: the client's `onNotification` is this server's
     * handler, so a forwarded `data` object is applied; a forwarded missing `data` makes the
     * handler's destructuring throw inside `handleMessage`'s catch, so nothing changes.
     */
    method OnStreamMessage(frame: WsClient.Frame<Notification>)
      requires Valid()
      modifies this
      ensures Valid()
      ensures match WsClient.HandleMessage(frame)
              case Forward(Some(n)) => State() == Notify(old(State()), n)
              case _ => State() == old(State())
    {
      var handling := WsClient.HandleMessage(frame);
      if handling.Forward? && handling.data.Some? {
        HandlePaymentNotification(handling.data.value);
      }
    }

    /** The local fallback of GET /api/users/:userId/balance. */
    method LocalBalanceFallback(userId: string) returns (balance: real)
      ensures balance == LocalBalance(State(), userId)
    {
      balance := 0.0;
      if Some(userId) in userBalances && userBalances[Some(userId)].Finite? {
        balance := userBalances[Some(userId)].r;
      }
    }

    /**
     * The local fallback of GET /api/users/:userId/payments before sorting: the `forEach` over
     * `payments` that pushes the user's records.
     */
    method LocalPaymentHistory(userId: string) returns (list: seq<Payment>)
      requires Valid()
      ensures list == UserPayments(insertionOrder, payments, userId)
      ensures forall p :: p in list <==> p in payments.Values && p.userId == Some(userId)
    {
      list := [];
      var i := 0;
      while i < |insertionOrder|
        invariant 0 <= i <= |insertionOrder|
        invariant list == UserPayments(insertionOrder[..i], payments, userId)
      {
        assert insertionOrder[..i + 1][..i] == insertionOrder[..i];
        var payment := payments[insertionOrder[i]];
        if payment.userId == Some(userId) {
          list := list + [payment];
        }
        i := i + 1;
      }
      assert insertionOrder[..i] == insertionOrder;
      forall p
        ensures p in list <==> p in payments.Values && p.userId == Some(userId)
      {
        UserPaymentsMembers(insertionOrder, payments, userId, p);
      }
    }
  }
}
