/**
 * The signing side of the payment-gateway client (merchant-server/paymentGateway.js):
 * the webhook signature check, the request signature, and the signed hosted-checkout URL.
 *
 * HMAC-SHA256 with hex output, `JSON.stringify`, `Buffer.from`, number formatting and
 * `URLSearchParams` serialisation are not implemented: they are fields of a `Primitives`
 * record of functions, so every result below holds for whatever those functions are, except
 * that `SignThenVerify` assumes 64-character digests and `VerifyAcceptsExactlyTheDigest` an
 * injective `Buffer.from`, each in its own `requires`.
 */
module PaymentGateway {
  import opened JsValues

  /** The constructor's fields that the modelled operations read. */
  datatype Config = Config(baseUrl: string, webhookSecret: Option<string>, siteKey: Option<string>)

  /** The primitives the client calls, as uninterpreted functions. */
  datatype Primitives<!P> = Primitives(
    hmacSha256Hex: (string, string) -> string,     // createHmac('sha256', key).update(text).digest('hex')
    stringify: P -> string,                        // JSON.stringify of a payload
    bufferFrom: string -> seq<bv8>,                // Buffer.from(text)
    formatNumber: real -> string,                  // Number.prototype.toString
    encodeQuery: seq<(string, string)> -> string)  // URLSearchParams.prototype.toString

  /**
   * What the primitives are known to satisfy: a hex HMAC-SHA256 digest (section 2 of RFC 2104
   * over the 32-byte hash of FIPS 180-4) is 64 characters long, so it is never the empty string.
   */
  ghost predicate DigestsAreHex<P>(prims: Primitives<P>)
  {
    forall key, text :: |prims.hmacSha256Hex(key, text)| == 64
  }

  /** The exceptions the modelled functions can throw. */
  datatype GatewayError =
    | UserIdRequired       // createCheckoutUrl: `user_id is required for checkout URL`
    | InvalidHmacKey       // createHmac with an undefined key
    | FiatAmountUndefined  // `fiat_amount.toString()` on undefined

  // ---------------------------------------------------------------------------
  // Webhook signature
  // ---------------------------------------------------------------------------

  /** The hex HMAC-SHA256 of the JSON serialisation of a payload under a secret. */
  function WebhookDigest<P>(prims: Primitives<P>, secret: string, payload: P): string
  {
    prims.hmacSha256Hex(secret, prims.stringify(payload))
  }

  /** `crypto.timingSafeEqual`: throws (`None`) when the lengths differ, otherwise compares the bytes. */
  function TimingSafeEqual(a: seq<bv8>, b: seq<bv8>): Option<bool>
  {
    if |a| != |b| then None else Some(a == b)
  }

  /**
   * `verifyWebhookSignature(payload, signature)`: fails closed on a missing or empty signature or
   * secret, and turns an exception of the constant-time compare into `false`.
   */
  function VerifyWebhookSignature<P>(cfg: Config, prims: Primitives<P>, payload: P, signature: Option<string>): (ok: bool)
    ensures !TruthyText(signature) || !TruthyText(cfg.webhookSecret) ==> !ok
    ensures ok ==> prims.bufferFrom(signature.value)
                   == prims.bufferFrom(WebhookDigest(prims, cfg.webhookSecret.value, payload))
    ensures (&& TruthyText(signature) && TruthyText(cfg.webhookSecret)
             && signature.value == WebhookDigest(prims, cfg.webhookSecret.value, payload)) ==> ok
  {
    if !TruthyText(signature) || !TruthyText(cfg.webhookSecret) then
      false
    else
      var expected := WebhookDigest(prims, cfg.webhookSecret.value, payload);
      match TimingSafeEqual(prims.bufferFrom(signature.value), prims.bufferFrom(expected))
      case None => false
      case Some(equal) => equal
  }

  /**
   * When `Buffer.from` is injective, the check accepts exactly the non-empty signature that equals
   * the expected digest under a configured (non-empty) secret.
   */
  lemma VerifyAcceptsExactlyTheDigest<P>(cfg: Config, prims: Primitives<P>, payload: P, signature: Option<string>)
    requires forall a, b :: prims.bufferFrom(a) == prims.bufferFrom(b) ==> a == b
    ensures VerifyWebhookSignature(cfg, prims, payload, signature)
            <==> TruthyText(cfg.webhookSecret) && TruthyText(signature)
                 && signature.value == WebhookDigest(prims, cfg.webhookSecret.value, payload)
  {
  }

  /** `createRequestSignature(payload)`: the digest of the payload, or a throw when no secret is set. */
  function CreateRequestSignature<P>(cfg: Config, prims: Primitives<P>, payload: P): (r: Result<string, GatewayError>)
    ensures r.Err? <==> cfg.webhookSecret.None?
    ensures r.Err? ==> r.error == InvalidHmacKey
    ensures r.Ok? ==> r.value == WebhookDigest(prims, cfg.webhookSecret.value, payload)
  {
    if cfg.webhookSecret.None? then Err(InvalidHmacKey)
    else Ok(prims.hmacSha256Hex(cfg.webhookSecret.value, prims.stringify(payload)))
  }

  /** Sign/verify round trip: with a configured secret, the request signature of a payload verifies. */
  lemma SignThenVerify<P>(cfg: Config, prims: Primitives<P>, payload: P)
    requires DigestsAreHex(prims)
    requires TruthyText(cfg.webhookSecret)
    ensures CreateRequestSignature(cfg, prims, payload).Ok?
    ensures VerifyWebhookSignature(cfg, prims, payload, Some(CreateRequestSignature(cfg, prims, payload).value))
  {
  }

  // ---------------------------------------------------------------------------
  // URLSearchParams as an ordered list of name/value pairs
  // ---------------------------------------------------------------------------

  type Query = seq<(string, string)>

  /** `URLSearchParams.prototype.get`: the value of the first pair with that name. */
  function QueryGet(q: Query, name: string): Option<string>
  {
    if q == [] then None
    else if q[0].0 == name then Some(q[0].1)
    else QueryGet(q[1..], name)
  }

  /** The pairs whose name differs from `name`, in order. */
  function QueryRemove(q: Query, name: string): (r: Query)
    ensures forall m :: QueryGet(r, m) == if m == name then None else QueryGet(q, m)
  {
    if q == [] then []
    else if q[0].0 == name then QueryRemove(q[1..], name)
    else [q[0]] + QueryRemove(q[1..], name)
  }

  /** The value of the first pair named `name`, found at index `i`. */
  lemma {:induction false} QueryGetAt(q: Query, name: string, i: int)
    requires 0 <= i < |q| && q[i].0 == name
    requires forall j :: 0 <= j < i ==> q[j].0 != name
    ensures QueryGet(q, name) == Some(q[i].1)
  {
    if i > 0 {
      QueryGetAt(q[1..], name, i - 1);
    }
  }

  /** A name that no pair carries reads as missing. */
  lemma {:induction false} QueryGetAbsent(q: Query, name: string)
    requires forall j :: 0 <= j < |q| ==> q[j].0 != name
    ensures QueryGet(q, name) == None
  {
    if q != [] {
      QueryGetAbsent(q[1..], name);
    }
  }

  /**
   * `URLSearchParams.prototype.set`: the first pair with that name takes the value and the
   * others are removed; when there is none the pair is appended.
   */
  function QuerySet(q: Query, name: string, value: string): (r: Query)
    ensures forall m :: QueryGet(r, m) == if m == name then Some(value) else QueryGet(q, m)
  {
    if q == [] then [(name, value)]
    else if q[0].0 == name then [(name, value)] + QueryRemove(q[1..], name)
    else [q[0]] + QuerySet(q[1..], name, value)
  }

  // ---------------------------------------------------------------------------
  // Hosted-checkout URL
  // ---------------------------------------------------------------------------

  /** The argument object of `createCheckoutUrl`; a missing property is `None`. */
  datatype CheckoutParams = CheckoutParams(
    userId: Option<string>,
    fiatAmount: Option<real>,
    fiatCurrency: Option<string>,
    currency: Option<string>,
    network: Option<string>,
    orderId: Option<string>,
    description: Option<string>)

  /** The colon-joined string that is signed: `siteKey:user_id:fiat_amount:fiat_currency:currency:network:order_id`. */
  function SigningString(siteKey: string, userId: string, fiatAmount: string, fiatCurrency: string,
                         currency: string, network: string, orderId: string): string
  {
    siteKey + ":" + userId + ":" + fiatAmount + ":" + fiatCurrency + ":" + currency + ":" + network + ":" + orderId
  }

  /** `${fiat_amount}` */
  function NumberText<P>(prims: Primitives<P>, x: Option<real>): string
  {
    if x.Some? then prims.formatNumber(x.value) else "undefined"
  }

  /** The signing string built from the arguments; a falsy `order_id` contributes the empty string. */
  function CheckoutSignData<P>(cfg: Config, prims: Primitives<P>, p: CheckoutParams): string
  {
    SigningString(TemplateText(cfg.siteKey), TemplateText(p.userId), NumberText(prims, p.fiatAmount),
                  TemplateText(p.fiatCurrency), TemplateText(p.currency), TemplateText(p.network),
                  if TruthyText(p.orderId) then p.orderId.value else "")
  }

  /** The names every checkout query carries. */
  const AlwaysPresentNames: set<string> :=
    {"site_key", "user_id", "fiat_amount", "fiat_currency", "currency", "network", "signature"}

  /** The names a checkout query can carry. */
  const CheckoutNames: set<string> := AlwaysPresentNames + {"order_id", "description"}

  /**
   * The query of the checkout URL: seven parameters always, then `order_id` and `description`
   * only when they are truthy.
   */
  function CheckoutQuery<P>(cfg: Config, prims: Primitives<P>, p: CheckoutParams): (q: Query)
    requires cfg.webhookSecret.Some? && p.fiatAmount.Some?
    ensures QueryGet(q, "site_key") == Some(TemplateText(cfg.siteKey))
    ensures QueryGet(q, "user_id") == Some(TemplateText(p.userId))
    ensures QueryGet(q, "fiat_amount") == Some(prims.formatNumber(p.fiatAmount.value))
    ensures QueryGet(q, "fiat_currency") == Some(TemplateText(p.fiatCurrency))
    ensures QueryGet(q, "currency") == Some(TemplateText(p.currency))
    ensures QueryGet(q, "network") == Some(TemplateText(p.network))
    ensures QueryGet(q, "signature")
            == Some(prims.hmacSha256Hex(cfg.webhookSecret.value, CheckoutSignData(cfg, prims, p)))
    ensures QueryGet(q, "order_id") == if TruthyText(p.orderId) then p.orderId else None
    ensures QueryGet(q, "description") == if TruthyText(p.description) then p.description else None
    ensures forall m :: m !in CheckoutNames ==> QueryGet(q, m) == None
  {
    var signature := prims.hmacSha256Hex(cfg.webhookSecret.value, CheckoutSignData(cfg, prims, p));
    var base: Query :=
      [("site_key", TemplateText(cfg.siteKey)),
       ("user_id", TemplateText(p.userId)),
       ("fiat_amount", prims.formatNumber(p.fiatAmount.value)),
       ("fiat_currency", TemplateText(p.fiatCurrency)),
       ("currency", TemplateText(p.currency)),
       ("network", TemplateText(p.network)),
       ("signature", signature)];
    BaseQueryContents(base);
    var withOrder := if TruthyText(p.orderId) then QuerySet(base, "order_id", p.orderId.value) else base;
    if TruthyText(p.description) then QuerySet(withOrder, "description", p.description.value) else withOrder
  }

  /** Reading back the seven parameters that `new URLSearchParams({...})` is given. */
  lemma BaseQueryContents(base: Query)
    requires |base| == 7
    requires base[0].0 == "site_key" && base[1].0 == "user_id" && base[2].0 == "fiat_amount"
    requires base[3].0 == "fiat_currency" && base[4].0 == "currency" && base[5].0 == "network"
    requires base[6].0 == "signature"
    ensures forall i :: 0 <= i < 7 ==> QueryGet(base, base[i].0) == Some(base[i].1)
    ensures forall m :: m !in AlwaysPresentNames ==> QueryGet(base, m) == None
  {
    forall i | 0 <= i < 7
      ensures QueryGet(base, base[i].0) == Some(base[i].1)
    {
      QueryGetAt(base, base[i].0, i);
    }
    forall m | m !in AlwaysPresentNames
      ensures QueryGet(base, m) == None
    {
      QueryGetAbsent(base, m);
    }
  }

  /**
   * `createCheckoutUrl(params)`: throws without a truthy `user_id`; otherwise signs and returns
   * `baseUrl + '/checkout/pay?' + query`. Signing throws when the secret is undefined, and the
   * query construction throws when `fiat_amount` is undefined.
   */
  function CreateCheckoutUrl<P>(cfg: Config, prims: Primitives<P>, p: CheckoutParams): (r: Result<string, GatewayError>)
    ensures r == Err(UserIdRequired) <==> !TruthyText(p.userId)
    ensures r.Ok? <==> TruthyText(p.userId) && cfg.webhookSecret.Some? && p.fiatAmount.Some?
    ensures r.Ok? ==> r.value == cfg.baseUrl + "/checkout/pay?" + prims.encodeQuery(CheckoutQuery(cfg, prims, p))
  {
    if !TruthyText(p.userId) then Err(UserIdRequired)
    else if cfg.webhookSecret.None? then Err(InvalidHmacKey)
    else if p.fiatAmount.None? then Err(FiatAmountUndefined)
    else Ok(cfg.baseUrl + "/checkout/pay?" + prims.encodeQuery(CheckoutQuery(cfg, prims, p)))
  }

  /**
   * The signing string a holder of the secret rebuilds from a checkout query alone, reading a
   * missing `order_id` as the empty string.
   */
  function SigningStringOfQuery(q: Query): string
  {
    SigningString(TemplateText(QueryGet(q, "site_key")), TemplateText(QueryGet(q, "user_id")),
                  TemplateText(QueryGet(q, "fiat_amount")), TemplateText(QueryGet(q, "fiat_currency")),
                  TemplateText(QueryGet(q, "currency")), TemplateText(QueryGet(q, "network")),
                  var orderId := QueryGet(q, "order_id"); if orderId.Some? then orderId.value else "")
  }

  /**
   * Checkout round trip: the `signature` parameter of a checkout query is the HMAC, under the
   * signing secret, of the signing string rebuilt from the query's own parameters.
   */
  lemma CheckoutSignatureCoversQuery<P>(cfg: Config, prims: Primitives<P>, p: CheckoutParams)
    requires cfg.webhookSecret.Some? && p.fiatAmount.Some?
    ensures var q := CheckoutQuery(cfg, prims, p);
            QueryGet(q, "signature") == Some(prims.hmacSha256Hex(cfg.webhookSecret.value, SigningStringOfQuery(q)))
  {
  }
}
