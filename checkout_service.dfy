/** The PayPal checkout service (`app/checkout/services.py`): the settings-based
    PayPal client with its token cache, the PayPal formatting of addresses and
    items, webhook handling, and `CheckoutService`'s guards in front of PayPal.
    The PayPal order and capture calls themselves are inputs here: what
    `create_paypal_order` and `capture_payment` answered. */
module CheckoutService {
  import opened Wrappers
  import opened Json
  import Text
  import Http
  import Config
  import PaypalService
  import opened CheckoutSchemas

  const MicrosPerMinute: int := 60_000_000

  /** The minute field of a UTC time given in microseconds. */
  function MinuteOf(t: int): (r: int)
    ensures 0 <= r < 60
  {
    (t / MicrosPerMinute) % 60
  }

  /** `datetime.utcnow().replace(second=0, microsecond=0)`. */
  function FloorToMinute(t: int): (r: int)
    ensures r <= t < r + MicrosPerMinute
    ensures MinuteOf(r) == MinuteOf(t)
  {
    t - t % MicrosPerMinute
  }

  /** The expiry as written at lines 65-66: the floored time with its minute field
      replaced by minute + 55, which `datetime.replace` refuses past minute 59. */
  function ExpiryAsWritten(now: int): (r: Result<int, string>)
    ensures r.Failure? <==> MinuteOf(now) >= 5
    ensures r.Failure? ==> r.error == "minute must be in 0..59"
    ensures r.Success? ==> r.value == FloorToMinute(now) + 55 * MicrosPerMinute
  {
    var floored := FloorToMinute(now);
    if MinuteOf(floored) + 55 > 59 then Failure("minute must be in 0..59")
    else Success(floored + 55 * MicrosPerMinute)
  }

  /** The token cache fields of the settings-based client. */
  datatype TokenCache = TokenCache(token: Json, expiresAt: Option<int>)

  /** One refresh of the cache as written: the token is stored, the expiry is set
      to the floored time, and only then does the minute replacement run. */
  function RefreshAsWritten(cache: TokenCache, now: int, reply: Http.Outcome): (r: (TokenCache, Result<Json, string>))
    ensures PaypalService.TokenReply(reply).Failure? ==> r == (cache, PaypalService.TokenReply(reply))
  {
    match PaypalService.TokenReply(reply)
    case Failure(e) => (cache, Failure(e))
    case Success(token) =>
      match ExpiryAsWritten(now)
      case Failure(e) => (TokenCache(token, Some(FloorToMinute(now))), Failure(e))
      case Success(expiry) => (TokenCache(token, Some(expiry)), Success(token))
  }

  /** The defect: from minute 5 to minute 59 of every hour a successful token
      response still makes `_get_access_token` raise, and the expiry it leaves
      behind is already past, so every later call in that window refreshes and
      raises again. */
  lemma RefreshAsWrittenFailsAfterMinuteFive(cache: TokenCache, now: int, reply: Http.Outcome, later: int)
    requires PaypalService.TokenReply(reply).Success? && MinuteOf(now) >= 5 && later >= now
    ensures RefreshAsWritten(cache, now, reply).1 == Failure("minute must be in 0..59")
    ensures !PaypalService.CacheHit(RefreshAsWritten(cache, now, reply).0.token,
                                    RefreshAsWritten(cache, now, reply).0.expiresAt, later)
  {
  }

  /** A concrete instance: at 00:10:00 UTC on 1 January 1970 a 200 answer with a
      token still fails. */
  lemma RefreshAsWrittenCounterexample()
    ensures var reply := Http.Received(Http.Response(200, Success(JObj(map["access_token" := JStr("A21")])), "{}"));
      RefreshAsWritten(TokenCache(JNull, None), 10 * MicrosPerMinute, reply).1.Failure?
  {
    var reply := Http.Received(Http.Response(200, Success(JObj(map["access_token" := JStr("A21")])), "{}"));
    assert PaypalService.TokenReply(reply) == Success(JStr("A21"));
    assert MinuteOf(10 * MicrosPerMinute) == 10;
  }

  /** The settings-based PayPal client, with the expiry defect of lines 65-66
      corrected: its token refresh uses the intended expiry, 55 minutes after
      now, as the other copy of the client does. `RefreshAsWritten` is the
      refresh as written; the two agree on the answer and on the stored token
      whenever the minute field is below 5. */
  class PayPalCommerceService {
    var clientId: string
    var clientSecret: string
    var mode: string
    var baseUrl: string
    var accessToken: Json
    var tokenExpiresAt: Option<int>

    ghost predicate Valid()
      reads this
    {
      baseUrl == PaypalService.BaseUrlFor(mode)
    }

    constructor (settings: Config.Settings)
      ensures Valid()
      ensures clientId == settings.paypalClientId && clientSecret == settings.paypalClientSecret
      ensures mode == settings.paypalMode
      ensures accessToken == JNull && tokenExpiresAt == None
    {
      clientId := settings.paypalClientId;
      clientSecret := settings.paypalClientSecret;
      mode := settings.paypalMode;
      baseUrl := PaypalService.BaseUrlFor(settings.paypalMode);
      accessToken := JNull;
      tokenExpiresAt := None;
    }

    /** `_get_access_token`: a valid cached token is returned without a request. */
    method GetAccessToken(now: int, reply: Http.Outcome) returns (sent: Option<Http.Request>, r: Result<Json, string>)
      modifies this
      ensures clientId == old(clientId) && clientSecret == old(clientSecret)
      ensures mode == old(mode) && baseUrl == old(baseUrl)
      ensures old(PaypalService.CacheHit(accessToken, tokenExpiresAt, now)) ==>
        sent == None && r == Success(old(accessToken)) &&
        accessToken == old(accessToken) && tokenExpiresAt == old(tokenExpiresAt)
      ensures !old(PaypalService.CacheHit(accessToken, tokenExpiresAt, now)) ==>
        sent == Some(PaypalService.TokenRequest(baseUrl, clientId, clientSecret)) &&
        r == PaypalService.TokenReply(reply)
      ensures !old(PaypalService.CacheHit(accessToken, tokenExpiresAt, now)) && r.Failure? ==>
        accessToken == old(accessToken) && tokenExpiresAt == old(tokenExpiresAt)
      ensures !old(PaypalService.CacheHit(accessToken, tokenExpiresAt, now)) && r.Success? ==>
        accessToken == r.value && tokenExpiresAt == Some(PaypalService.ExpiryAfter55Minutes(now))
      ensures !old(PaypalService.CacheHit(accessToken, tokenExpiresAt, now)) && MinuteOf(now) < 5 ==>
        var asWritten := RefreshAsWritten(TokenCache(old(accessToken), old(tokenExpiresAt)), now, reply);
        r == asWritten.1 && accessToken == asWritten.0.token
    {
      if PaypalService.CacheHit(accessToken, tokenExpiresAt, now) {
        return None, Success(accessToken);
      }
      sent := Some(PaypalService.TokenRequest(baseUrl, clientId, clientSecret));
      r := PaypalService.TokenReply(reply);
      if r.Success? {
        accessToken := r.value;
        tokenExpiresAt := Some(PaypalService.ExpiryAfter55Minutes(now));
      }
    }
  }

  /** `_format_address`: PayPal's field names; a missing `line2` becomes "". */
  function FormatAddress(a: Address): (r: map<string, string>)
    ensures r.Keys == {"address_line_1", "address_line_2", "admin_area_2", "admin_area_1", "postal_code", "country_code"}
    ensures r["address_line_1"] == a.line1 && r["address_line_2"] == a.line2.GetOr("")
    ensures r["admin_area_2"] == a.city && r["admin_area_1"] == a.state
    ensures r["postal_code"] == a.postalCode && r["country_code"] == a.countryCode
  {
    map["address_line_1" := a.line1, "address_line_2" := a.line2.GetOr(""),
        "admin_area_2" := a.city, "admin_area_1" := a.state,
        "postal_code" := a.postalCode, "country_code" := a.countryCode]
  }

  /** `item.description or item.name`. */
  function DescriptionOf(item: OrderItem): (r: string)
    ensures item.description.Some? && item.description.value != "" ==> r == item.description.value
    ensures item.description.None? || item.description.value == "" ==> r == item.name
  {
    if item.description.Some? && item.description.value != "" then item.description.value else item.name
  }

  /** One entry of `_format_items`. */
  function FormatItem(item: OrderItem): (r: Json)
    ensures r.JObj? && r.fields.Keys == {"name", "description", "quantity", "unit_amount"}
    ensures r.fields["name"] == JStr(item.name) && r.fields["description"] == JStr(DescriptionOf(item))
    ensures r.fields["quantity"] == JStr(Text.IntToString(item.quantity))
    ensures r.fields["unit_amount"] ==
      JObj(map["currency_code" := JStr(item.currency), "value" := JStr(item.unitPrice.text)])
  {
    JObj(map[
      "name" := JStr(item.name),
      "description" := JStr(DescriptionOf(item)),
      "quantity" := JStr(Text.IntToString(item.quantity)),
      "unit_amount" := JObj(map["currency_code" := JStr(item.currency), "value" := JStr(item.unitPrice.text)])])
  }

  /** The quantity text of a formatted (validated, so positive) item reads back as
      the quantity. */
  lemma FormattedQuantityReadsBack(item: OrderItem)
    requires item.quantity > 0
    ensures var q := FormatItem(item).fields["quantity"].s;
      Text.IsDigits(q) && Text.DigitsValue(q) == item.quantity
  {
    Text.NatToStringValue(item.quantity);
  }

  /** `_format_items`: one formatted entry per item, in order. */
  method FormatItems(items: seq<OrderItem>) returns (formatted: seq<Json>)
    ensures |formatted| == |items|
    ensures forall k :: 0 <= k < |items| ==> formatted[k] == FormatItem(items[k])
  {
    formatted := [];
    for i := 0 to |items|
      invariant |formatted| == i
      invariant forall k :: 0 <= k < i ==> formatted[k] == FormatItem(items[k])
    {
      formatted := formatted + [FormatItem(items[i])];
    }
  }

  /** `process_webhook`: `True` unless reading the event's resource raises, which
      only the three handled event types do. */
  function ProcessWebhook(data: Json): (r: bool)
    ensures data.JObj? ==>
      var eventType := if "event_type" in data.fields then data.fields["event_type"] else JNull;
      (eventType !in {JStr("PAYMENT.CAPTURE.COMPLETED"), JStr("PAYMENT.CAPTURE.DENIED"), JStr("CHECKOUT.ORDER.APPROVED")} ==> r)
  {
    match Get(data, "event_type", JNull)
    case Failure(_) => false
    case Success(eventType) =>
      var resource := Get(data, "resource", EmptyObj).value;
      if eventType == JStr("PAYMENT.CAPTURE.COMPLETED") then
        match Get(resource, "amount", EmptyObj)
        case Failure(_) => false
        case Success(amount) => amount.JObj?
      else if eventType == JStr("PAYMENT.CAPTURE.DENIED") || eventType == JStr("CHECKOUT.ORDER.APPROVED") then
        resource.JObj?
      else true
  }

  /** A handled event fails exactly when its resource (or, for a completed
      capture, the resource's amount) is not a JSON object. */
  lemma ProcessWebhookHandled(data: Json)
    requires data.JObj? && "event_type" in data.fields
    ensures var resource := if "resource" in data.fields then data.fields["resource"] else EmptyObj;
      (data.fields["event_type"] == JStr("PAYMENT.CAPTURE.COMPLETED") ==>
         (ProcessWebhook(data) <==>
            resource.JObj? && (if "amount" in resource.fields then resource.fields["amount"] else EmptyObj).JObj?)) &&
      (data.fields["event_type"] in {JStr("PAYMENT.CAPTURE.DENIED"), JStr("CHECKOUT.ORDER.APPROVED")} ==>
         (ProcessWebhook(data) <==> resource.JObj?))
  {
  }

  /** `subtotal + tax + shipping - discount`, exact. */
  function CalculatedTotal(req: CheckoutRequest): real {
    req.subtotal.value + req.taxAmount.value + req.shippingAmount.value - req.discountAmount.value
  }

  /** The total agrees with its parts to within one cent. */
  predicate TotalMatches(req: CheckoutRequest) {
    var d := CalculatedTotal(req) - req.totalAmount.value;
    -0.01 <= d <= 0.01
  }

  function ValidationFailure(req: CheckoutRequest, message: string): CheckoutResponse {
    CheckoutResponse(false, req.orderId, None, None, "failed", None, message, Some("VALIDATION_ERROR"))
  }

  /** `CheckoutService.process_checkout`: the empty-order and total checks, then
      PayPal's answer, `paypal`, returned as it is. */
  function ProcessCheckout(req: CheckoutRequest, paypal: CheckoutResponse): (r: CheckoutResponse)
    ensures req.items == [] ==> r == ValidationFailure(req, "No items in order")
    ensures req.items != [] && !TotalMatches(req) ==> r == ValidationFailure(req, "Total amount calculation mismatch")
    ensures req.items != [] && TotalMatches(req) ==> r == paypal
    ensures r != paypal ==> !r.success && r.errorCode == Some("VALIDATION_ERROR")
  {
    if req.items == [] then ValidationFailure(req, "No items in order")
    else if !(-0.01 <= CalculatedTotal(req) - req.totalAmount.value <= 0.01) then
      ValidationFailure(req, "Total amount calculation mismatch")
    else paypal
  }

  /** A rejected checkout does not depend on PayPal at all: PayPal is not asked. */
  lemma RejectedCheckoutIgnoresPaypal(req: CheckoutRequest, p1: CheckoutResponse, p2: CheckoutResponse)
    requires req.items == [] || !TotalMatches(req)
    ensures ProcessCheckout(req, p1) == ProcessCheckout(req, p2)
    ensures !ProcessCheckout(req, p1).success
  {
  }

  /** The tolerance is inclusive: a total exactly one cent off is accepted, one
      more than a cent off is not. */
  lemma CentTolerance(req: CheckoutRequest, paypal: CheckoutResponse)
    requires req.items != []
    ensures CalculatedTotal(req) - req.totalAmount.value == 0.01 ==> ProcessCheckout(req, paypal) == paypal
    ensures CalculatedTotal(req) - req.totalAmount.value > 0.01 ==>
      ProcessCheckout(req, paypal) == ValidationFailure(req, "Total amount calculation mismatch")
  {
  }

  /** `CheckoutService.capture_payment`: PayPal's capture answer as it is, or the
      error response when the call raised. */
  function CapturePayment(paypalOrderId: string, capture: Result<PaymentCaptureResponse, string>): (r: PaymentCaptureResponse)
    ensures capture.Success? ==> r == capture.value
    ensures capture.Failure? ==>
      !r.success && r.paymentId == paypalOrderId && r.status == "error" &&
      r.message == "Error capturing payment: " + capture.error
  {
    match capture
    case Success(c) => c
    case Failure(e) => PaymentCaptureResponse(false, paypalOrderId, None, "error", None, None, "Error capturing payment: " + e)
  }
}
