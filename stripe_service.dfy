/** The Stripe payment service (`app/checkout/credit_card/stripe/services.py`):
    the form parameters it posts to the Stripe API, how it reads the answers,
    its error response and the webhook-signature short-circuit. Every call to
    Stripe is a value built here; what Stripe answered is an input. */
module StripeService {
  import opened Wrappers
  import opened Json
  import Text
  import Http
  import opened CardSchemas

  const ApiBase: string := "https://api.stripe.com/v1"
  const ApiVersion: string := "2024-12-18.acacia"

  /** A form-encoded request body: parameter name to value. */
  type Form = map<string, Json>

  /** The service's configuration. */
  datatype Service = Service(apiKey: string, webhookSecret: Option<string>)

  /** `StripeService(api_key, webhook_secret)`: an empty key is refused. */
  function NewService(apiKey: string, webhookSecret: Option<string>): (r: Result<Service, string>)
    ensures r.Failure? <==> apiKey == ""
    ensures r.Failure? ==> r.error == "Stripe API key is required"
    ensures r.Success? ==> r.value.apiKey == apiKey && r.value.webhookSecret == webhookSecret
  {
    if apiKey == "" then Failure("Stripe API key is required") else Success(Service(apiKey, webhookSecret))
  }

  /** The headers of every Stripe API call. */
  function Headers(apiKey: string): (r: map<string, string>)
    ensures "Authorization" in r && r["Authorization"] == "Bearer " + apiKey
    ensures "Stripe-Version" in r && r["Stripe-Version"] == ApiVersion
  {
    map["Authorization" := "Bearer " + apiKey, "Stripe-Version" := ApiVersion]
  }

  // ---- the test-card table ---------------------------------------------------

  /** Stripe's test card numbers and the test tokens that stand for them. */
  const TestTokens: map<string, string> := map[
    "4242424242424242" := "tok_visa",
    "4000056655665556" := "tok_visa_debit",
    "5555555555554444" := "tok_mastercard",
    "2223003122003222" := "tok_mastercard_debit",
    "5200828282828210" := "tok_mastercard_prepaid",
    "5105105105105100" := "tok_mastercard",
    "378282246310005" := "tok_amex",
    "371449635398431" := "tok_amex",
    "6011111111111117" := "tok_discover",
    "3056930009020004" := "tok_diners",
    "3566002020360505" := "tok_jcb",
    "6200000000000005" := "tok_unionpay"]

  /** Two MasterCard numbers share a token, as do the two American Express ones. */
  lemma TestTokenTable()
    ensures TestTokens["4242424242424242"] == "tok_visa"
    ensures TestTokens["5555555555554444"] == TestTokens["5105105105105100"] == "tok_mastercard"
    ensures TestTokens["378282246310005"] == TestTokens["371449635398431"] == "tok_amex"
  {
  }

  /** No other number shares the MasterCard token. */
  lemma MastercardNumbers(pan: string)
    requires pan in TestTokens && TestTokens[pan] == "tok_mastercard"
    ensures pan == "5555555555554444" || pan == "5105105105105100"
  {
  }

  // ---- PaymentMethod ---------------------------------------------------------

  /** The card number, if it is one of the test numbers. */
  function TestTokenFor(cardNumber: Option<string>): (r: Option<string>)
    ensures r.Some? <==> cardNumber.Some? && cardNumber.value in TestTokens
    ensures r.Some? ==> r.value == TestTokens[cardNumber.value]
  {
    if cardNumber.Some? && cardNumber.value in TestTokens then Some(TestTokens[cardNumber.value]) else None
  }

  function OptStr(s: Option<string>): Json { if s.Some? then JStr(s.value) else JNull }
  function OptInt(n: Option<int>): Json { if n.Some? then JInt(n.value) else JNull }

  predicate RawCardKeys(f: Form) {
    "card[number]" in f && "card[exp_month]" in f && "card[exp_year]" in f && "card[cvc]" in f
  }

  predicate NoRawCardKeys(f: Form) {
    "card[number]" !in f && "card[exp_month]" !in f && "card[exp_year]" !in f && "card[cvc]" !in f
  }

  /** `_create_payment_method`'s form: a test number travels only as its token,
      any other number as the raw card fields. The schema declares no `email`,
      so the billing e-mail is always the placeholder. */
  function PaymentMethodParams(pm: PaymentMethod): (r: Form)
    ensures "type" in r && r["type"] == JStr("card")
    ensures "billing_details[name]" in r && r["billing_details[name]"] == OptStr(pm.nameOnCard)
    ensures "billing_details[email]" in r && r["billing_details[email]"] == JStr("test@example.com")
    ensures TestTokenFor(pm.cardNumber).Some? ==>
      "card[token]" in r && r["card[token]"] == JStr(TestTokenFor(pm.cardNumber).value) && NoRawCardKeys(r)
    ensures TestTokenFor(pm.cardNumber).None? ==>
      "card[token]" !in r && RawCardKeys(r) && r["card[number]"] == OptStr(pm.cardNumber) &&
      r["card[exp_month]"] == OptInt(pm.expiryMonth) && r["card[exp_year]"] == OptInt(pm.expiryYear) &&
      r["card[cvc]"] == OptStr(pm.cvc)
  {
    var billing := map["billing_details[name]" := OptStr(pm.nameOnCard),
                       "billing_details[email]" := JStr("test@example.com")];
    match TestTokenFor(pm.cardNumber)
    case Some(token) => map["type" := JStr("card"), "card[token]" := JStr(token)] + billing
    case None =>
      map["type" := JStr("card"), "card[number]" := OptStr(pm.cardNumber),
          "card[exp_month]" := OptInt(pm.expiryMonth), "card[exp_year]" := OptInt(pm.expiryYear),
          "card[cvc]" := OptStr(pm.cvc)] + billing
  }

  /** The table is consulted with the number as validation left it: the
      digits only, so a test number typed with spaces still uses its token. */
  lemma SpacedTestNumberUsesToken(pm: PaymentMethod, raw: string)
    requires ValidateCardNumber(Some(raw)) == Success(Some("4242424242424242"))
    requires pm.cardNumber == ValidateCardNumber(Some(raw)).value
    ensures "card[token]" in PaymentMethodParams(pm) && PaymentMethodParams(pm)["card[token]"] == JStr("tok_visa")
    ensures NoRawCardKeys(PaymentMethodParams(pm))
  {
  }

  // ---- PaymentIntent ---------------------------------------------------------

  /** `"Order {order_id} - {n} items"`. */
  function IntentDescription(orderId: string, itemCount: nat): string {
    "Order " + orderId + " - " + Text.NatToString(itemCount) + " items"
  }

  /** The order part of the PaymentIntent form. */
  function IntentOrderParams(req: CheckoutRequest, customerId: string, paymentMethodId: string): (r: Form)
    ensures "amount" in r && r["amount"] == JInt(Text.Truncate(req.totalAmount))
    ensures "currency" in r && r["currency"] == JStr(Text.Lower(req.currency))
    ensures "description" in r && r["description"] == JStr(IntentDescription(req.orderId, |req.items|))
    ensures "metadata[items_count]" in r && r["metadata[items_count]"] == JStr(Text.NatToString(|req.items|))
    ensures "metadata[order_id]" in r && r["metadata[order_id]"] == JStr(req.orderId)
    ensures "customer" in r && r["customer"] == JStr(customerId)
    ensures "payment_method" in r && r["payment_method"] == JStr(paymentMethodId)
    ensures "return_url" !in r
    ensures forall p :: p in r ==> p != [] && p[0] != 's'
  {
    map[
      "amount" := JInt(Text.Truncate(req.totalAmount)),
      "currency" := JStr(Text.Lower(req.currency)),
      "customer" := JStr(customerId),
      "payment_method" := JStr(paymentMethodId),
      "confirmation_method" := JStr("manual"),
      "confirm" := JBool(true),
      "description" := JStr(IntentDescription(req.orderId, |req.items|)),
      "receipt_email" := JStr(req.customer.email),
      "metadata[order_id]" := JStr(req.orderId),
      "metadata[customer_email]" := JStr(req.customer.email),
      "metadata[items_count]" := JStr(Text.NatToString(|req.items|)),
      "automatic_payment_methods[enabled]" := JStr("true"),
      "automatic_payment_methods[allow_redirects]" := JStr("never")]
  }

  /** The shipping part of the PaymentIntent form. */
  function ShippingParams(customer: Customer, a: Address): (r: Form)
    ensures "shipping[address][line2]" in r && r["shipping[address][line2]"] == JStr(a.line2.GetOr(""))
    ensures "shipping[address][country]" in r && r["shipping[address][country]"] == JStr(Text.Upper(a.countryCode))
    ensures forall p :: p in r ==> p != [] && p[0] == 's'
  {
    map[
      "shipping[name]" := JStr(customer.firstName + " " + customer.lastName),
      "shipping[address][line1]" := JStr(a.line1),
      "shipping[address][line2]" := JStr(a.line2.GetOr("")),
      "shipping[address][city]" := JStr(a.city),
      "shipping[address][state]" := JStr(a.state),
      "shipping[address][postal_code]" := JStr(a.postalCode),
      "shipping[address][country]" := JStr(Text.Upper(a.countryCode))]
  }

  /** The PaymentIntent form of `create_payment_intent`. The schema requires a
      shipping address, so the shipping keys are always there. */
  function PaymentIntentParams(req: CheckoutRequest, customerId: string, paymentMethodId: string): (r: Form)
    ensures "amount" in r && r["amount"] == JInt(Text.Truncate(req.totalAmount))
    ensures "currency" in r && r["currency"] == JStr(Text.Lower(req.currency))
    ensures "description" in r && r["description"] == JStr(IntentDescription(req.orderId, |req.items|))
    ensures "metadata[items_count]" in r && r["metadata[items_count]"] == JStr(Text.NatToString(|req.items|))
    ensures "metadata[order_id]" in r && r["metadata[order_id]"] == JStr(req.orderId)
    ensures "customer" in r && r["customer"] == JStr(customerId)
    ensures "payment_method" in r && r["payment_method"] == JStr(paymentMethodId)
    ensures "shipping[address][line2]" in r &&
      r["shipping[address][line2]"] == JStr(req.shippingAddress.line2.GetOr(""))
    ensures "shipping[address][country]" in r &&
      r["shipping[address][country]"] == JStr(Text.Upper(req.shippingAddress.countryCode))
    ensures "return_url" in r <==> Text.Given(req.returnUrl)
    ensures "return_url" in r ==> r["return_url"] == JStr(req.returnUrl.value)
  {
    var order := IntentOrderParams(req, customerId, paymentMethodId);
    var ship := ShippingParams(req.customer, req.shippingAddress);
    assert "return_url" !in ship;
    var params := order + ship;
    if Text.Given(req.returnUrl) then params["return_url" := JStr(req.returnUrl.value)] else params
  }

  /** A worked example, one input rather than a general property: the amount is
      the total's whole part in the major unit, not cents, so a validated total of
      12.34 is sent as 12. */
  lemma IntentAmountIsWholePart(req: CheckoutRequest, customerId: string, paymentMethodId: string)
    requires req.totalAmount == 12.34
    ensures "amount" in PaymentIntentParams(req, customerId, paymentMethodId)
    ensures PaymentIntentParams(req, customerId, paymentMethodId)["amount"] == JInt(12)
  {
    assert Text.Truncate(12.34) == 12;
    assert "amount" in IntentOrderParams(req, customerId, paymentMethodId);
  }

  /** The item count in the metadata reads back as the number of items. */
  lemma ItemsCountReadsBack(req: CheckoutRequest, customerId: string, paymentMethodId: string)
    ensures "metadata[items_count]" in PaymentIntentParams(req, customerId, paymentMethodId)
    ensures var c := PaymentIntentParams(req, customerId, paymentMethodId)["metadata[items_count]"];
      c.JStr? && Text.IsDigits(c.s) && Text.DigitsValue(c.s) == |req.items|
  {
    assert "metadata[items_count]" in IntentOrderParams(req, customerId, paymentMethodId);
    Text.NatToStringValue(|req.items|);
  }

  /** A PaymentIntent as the service reads it from Stripe's answer
      (`StripePaymentIntentSchema`). `created` is the raw timestamp value;
      `nextAction` is null or a dict. */
  datatype Intent = Intent(id: string, clientSecret: string, status: string, amount: int,
                           currency: string, created: Json, metadata: map<string, string>,
                           nextAction: Json, paymentMethodTypes: seq<string>)

  /** The values of `StripePaymentIntentStatus`. */
  predicate IsIntentStatus(s: string) {
    s in {"requires_payment_method", "requires_confirmation", "requires_action", "processing",
          "requires_capture", "canceled", "succeeded"}
  }

  /** What `datetime.fromtimestamp` accepts: an int (a bool is one) or a float. */
  predicate IsTimestamp(j: Json) {
    j.JInt? || j.JFloat? || j.JBool?
  }

  /** The keys the service indexes, which must be present. */
  predicate HasIntentKeys(m: map<string, Json>) {
    "id" in m && "status" in m && "client_secret" in m && "amount" in m && "currency" in m && "created" in m
  }

  /** The answers `StripePaymentIntentSchema` accepts: every indexed key present
      with a value of its field's type, and the three optional fields, when
      present, of theirs. */
  predicate IsIntentData(m: map<string, Json>) {
    HasIntentKeys(m) &&
    m["id"].JStr? && m["client_secret"].JStr? && m["status"].JStr? && IsIntentStatus(m["status"].s) &&
    m["amount"].JInt? && m["currency"].JStr? && IsTimestamp(m["created"]) &&
    StrMap(Lookup(m, "metadata", EmptyObj)).Some? &&
    (Lookup(m, "next_action", JNull).JNull? || Lookup(m, "next_action", JNull).JObj?) &&
    StrSeq(Lookup(m, "payment_method_types", JArr([]))).Some?
  }

  /** The schema's checks once every key is present; the first failing field
      names the error. */
  function IntentOf(m: map<string, Json>): (r: Result<Intent, string>)
    requires HasIntentKeys(m)
    ensures r.Success? <==> IsIntentData(m)
    ensures r.Success? ==>
      m["id"] == JStr(r.value.id) && m["client_secret"] == JStr(r.value.clientSecret) &&
      m["status"] == JStr(r.value.status) && m["amount"] == JInt(r.value.amount) &&
      m["currency"] == JStr(r.value.currency) && m["created"] == r.value.created &&
      StrMap(Lookup(m, "metadata", EmptyObj)) == Some(r.value.metadata) &&
      Lookup(m, "next_action", JNull) == r.value.nextAction &&
      StrSeq(Lookup(m, "payment_method_types", JArr([]))) == Some(r.value.paymentMethodTypes)
  {
    var created := m["created"];
    if !IsTimestamp(created) then Failure("'" + TypeName(created) + "' object cannot be interpreted as an integer")
    else if !m["id"].JStr? then Failure("id: Input should be a valid string")
    else if !m["client_secret"].JStr? then Failure("client_secret: Input should be a valid string")
    else if !(m["status"].JStr? && IsIntentStatus(m["status"].s)) then
      Failure("status: Input should be a valid payment intent status")
    else if !m["amount"].JInt? then Failure("amount: Input should be a valid integer")
    else if !m["currency"].JStr? then Failure("currency: Input should be a valid string")
    else
      var metadata := StrMap(Lookup(m, "metadata", EmptyObj));
      var next := Lookup(m, "next_action", JNull);
      var types := StrSeq(Lookup(m, "payment_method_types", JArr([])));
      if metadata.None? then Failure("metadata: Input should be a dictionary of strings")
      else if !(next.JNull? || next.JObj?) then Failure("next_action: Input should be a valid dictionary")
      else if types.None? then Failure("payment_method_types: Input should be a list of strings")
      else Success(Intent(m["id"].s, m["client_secret"].s, m["status"].s, m["amount"].i, m["currency"].s,
                          created, metadata.value, next, types.value))
  }

  /** Reading the PaymentIntent out of the answer: `data['id']` and
      `data['status']` are read first (by the log line), then the schema's
      arguments in order; a missing key raises `KeyError`, a value of the wrong
      kind fails the response schema. */
  function ReadIntent(data: Json): (r: Result<Intent, string>)
    ensures r.Success? <==> data.JObj? && IsIntentData(data.fields)
    ensures r.Success? ==> IntentOf(data.fields) == r
    ensures !data.JObj? ==> r == Failure(Index(data, "id").error)
    ensures data.JObj? && "id" !in data.fields ==> r == Failure("'id'")
    ensures data.JObj? && "id" in data.fields && "status" !in data.fields ==> r == Failure("'status'")
    ensures data.JObj? && HasIntentKeys(data.fields) ==> r == IntentOf(data.fields)
  {
    assert "'" + "id" + "'" == "'id'" && "'" + "status" + "'" == "'status'";
    var _ :- Index(data, "id");
    var _ :- Index(data, "status");
    var _ :- Index(data, "client_secret");
    var _ :- Index(data, "amount");
    var _ :- Index(data, "currency");
    var _ :- Index(data, "created");
    IntentOf(data.fields)
  }

  /** The service's own checkout response. */
  datatype CheckoutResponse = CheckoutResponse(
    success: bool, orderId: string, intent: Option<Intent>, amount: int, currency: string,
    status: string, message: string, requiresAction: bool, nextAction: Json, error: Option<string>)

  /** `_create_error_response`. */
  function ErrorResponse(orderId: string, message: string): (r: CheckoutResponse)
    ensures !r.success && r.orderId == orderId && r.amount == 0 && r.currency == "usd"
    ensures r.status == "failed" && r.message == message && r.error == Some(message)
    ensures r.intent.None? && !r.requiresAction
  {
    CheckoutResponse(false, orderId, None, 0, "usd", "failed", message, false, JNull, Some(message))
  }

  predicate IsErrorResponse(r: CheckoutResponse) {
    !r.success && r.amount == 0 && r.currency == "usd" && r.status == "failed" && r.error == Some(r.message)
  }

  /** How `create_payment_intent` turns Stripe's answer into its response. */
  function IntentResult(orderId: string, reply: Http.Outcome): (r: CheckoutResponse)
    ensures r.orderId == orderId
    ensures r.success <==>
      reply.Received? && reply.response.status == 200 && reply.response.body.Success? &&
      ReadIntent(reply.response.body.value).Success?
    ensures !r.success ==> IsErrorResponse(r)
    ensures reply.Received? && reply.response.status == 200 && reply.response.body.Failure? ==>
      r.message == "Error creating payment intent: " + reply.response.body.error
    ensures reply.Received? && reply.response.status != 200 ==>
      r.message == "Failed to create payment intent: " + reply.response.text
    ensures r.success ==> r.intent.Some? && (r.requiresAction <==> r.intent.value.status == "requires_action")
    ensures r.success ==> r.status == r.intent.value.status && r.amount == r.intent.value.amount
  {
    match reply
    case TimedOut(msg) => ErrorResponse(orderId, "Error creating payment intent: " + msg)
    case TransportError(msg) => ErrorResponse(orderId, "Error creating payment intent: " + msg)
    case Received(resp) =>
      if resp.status != 200 then ErrorResponse(orderId, "Failed to create payment intent: " + resp.text)
      else
        match resp.body
        case Failure(e) => ErrorResponse(orderId, "Error creating payment intent: " + e)
        case Success(data) =>
        match ReadIntent(data)
        case Failure(e) => ErrorResponse(orderId, "Error creating payment intent: " + e)
        case Success(intent) =>
          CheckoutResponse(true, orderId, Some(intent), intent.amount, intent.currency, intent.status,
            "Payment intent created successfully", intent.status == "requires_action", intent.nextAction, None)
  }

  /** `get_payment_intent`: `None` for any answer that is not a readable 200. */
  function GetPaymentIntent(reply: Http.Outcome): (r: Option<Intent>)
    ensures r.Some? <==>
      reply.Received? && reply.response.status == 200 && reply.response.body.Success? &&
      ReadIntent(reply.response.body.value).Success?
    ensures r.Some? ==> Success(r.value) == ReadIntent(reply.response.body.value)
  {
    if reply.Received? && reply.response.status == 200 then
      match reply.response.body
      case Failure(_) => None
      case Success(data) =>
      match ReadIntent(data)
      case Success(i) => Some(i)
      case Failure(_) => None
    else None
  }

  // ---- refunds ---------------------------------------------------------------

  /** `f'metadata[{key}]'`. */
  function MetadataKey(key: string): (r: string)
    ensures |r| == |key| + 10 && r[0] == 'm' && r[9..|r| - 1] == key
  {
    "metadata[" + key + "]"
  }

  /** `StripeRefundRequestSchema`: `amount` is positive when given. */
  datatype RefundRequest = RefundRequest(
    paymentIntentId: string, amount: Option<int>, reason: Option<string>,
    metadata: Option<map<string, string>>)

  predicate AmountGiven(a: Option<int>) { a.Some? && a.value != 0 }

  /** The refund form: `amount` and `reason` only when truthy, and one
      `metadata[key]` parameter per metadata entry. */
  function RefundForm(req: RefundRequest): Form {
    var md := req.metadata.GetOr(map[]);
    FixedRefundParams(req) + MetadataParams(md, md.Keys)
  }

  /** Exactly the metadata entries become `metadata[...]` parameters, and
      nothing else is sent besides a truthy amount and reason. */
  lemma RefundFormShape(req: RefundRequest)
    ensures var f, md := RefundForm(req), req.metadata.GetOr(map[]);
      ("amount" in f <==> AmountGiven(req.amount)) &&
      ("reason" in f <==> Text.Given(req.reason)) &&
      (forall k :: k in md ==> MetadataKey(k) in f && f[MetadataKey(k)] == JStr(md[k])) &&
      (forall p :: p in f ==> p == "amount" || p == "reason" || exists k :: k in md && p == MetadataKey(k))
  {
    var md := req.metadata.GetOr(map[]);
    var meta := MetadataParams(md, md.Keys);
    assert "amount" !in meta && "reason" !in meta;
  }

  /** The `metadata[...]` parameters for the metadata keys in `keys`. */
  function MetadataParams(md: map<string, string>, keys: set<string>): Form
    requires keys <= md.Keys
  {
    map k | k in keys :: MetadataKey(k) := JStr(md[k])
  }

  /** `amount` and `reason`, each only when truthy. */
  function FixedRefundParams(req: RefundRequest): Form {
    var withAmount: Form := if AmountGiven(req.amount) then map["amount" := JInt(req.amount.value)] else map[];
    if Text.Given(req.reason) then withAmount["reason" := JStr(req.reason.value)] else withAmount
  }

  /** The loop of `refund_payment` that fills the form in. */
  method BuildRefundParams(req: RefundRequest) returns (params: Form)
    ensures params == RefundForm(req)
  {
    var md := req.metadata.GetOr(map[]);
    var meta: Form := map[];
    var todo: set<string> := md.Keys;
    while todo != {}
      invariant todo <= md.Keys
      invariant meta == MetadataParams(md, md.Keys - todo)
      decreases todo
    {
      var key :| key in todo;
      AddMetadataParam(md, md.Keys - todo, key);
      meta := meta[MetadataKey(key) := JStr(md[key])];
      todo := todo - {key};
      assert md.Keys - todo == (md.Keys - (todo + {key})) + {key};
    }
    assert md.Keys - todo == md.Keys;
    params := FixedRefundParams(req) + meta;
  }

  lemma AddMetadataParam(md: map<string, string>, done: set<string>, key: string)
    requires done <= md.Keys && key in md && key !in done
    ensures MetadataParams(md, done)[MetadataKey(key) := JStr(md[key])] == MetadataParams(md, done + {key})
  {
    var before, after := MetadataParams(md, done), MetadataParams(md, done + {key});
    var updated := before[MetadataKey(key) := JStr(md[key])];
    assert updated.Keys == after.Keys;
    forall p | p in after ensures updated[p] == after[p] {
    }
  }

  /** The service's refund response (`StripeRefundResponseSchema`). */
  datatype RefundResponse = RefundResponse(
    success: bool, refundId: Option<string>, amount: Option<int>, status: string, message: string,
    error: Option<string>)

  function RefundFailure(message: string, error: string): RefundResponse {
    RefundResponse(false, None, None, "failed", message, Some(error))
  }

  /** The refund answers the response schema accepts: `id` and `status` (read
      first, by the log line) and `amount` present, `refund_id` null or a
      string, `status` a string and `amount` null or an integer. */
  predicate IsRefundData(data: Json) {
    data.JObj? && "id" in data.fields && "status" in data.fields && "amount" in data.fields &&
    NullOrStr(data.fields["id"]) && data.fields["status"].JStr? &&
    (data.fields["amount"].JNull? || data.fields["amount"].JInt?)
  }

  /** Reading the refund out of Stripe's answer: the id, the amount and the
      status, or the text of the `KeyError` or validation error raised. */
  function ReadRefund(data: Json): (r: Result<(Option<string>, Option<int>, string), string>)
    ensures r.Success? <==> IsRefundData(data)
    ensures r.Success? ==>
      (r.value.0.None? <==> data.fields["id"].JNull?) &&
      (r.value.0.Some? ==> data.fields["id"] == JStr(r.value.0.value)) &&
      (r.value.1.None? <==> data.fields["amount"].JNull?) &&
      (r.value.1.Some? ==> data.fields["amount"] == JInt(r.value.1.value)) &&
      data.fields["status"] == JStr(r.value.2)
    ensures !data.JObj? ==> r == Failure(Index(data, "id").error)
    ensures data.JObj? && "id" !in data.fields ==> r == Failure("'id'")
    ensures data.JObj? && "id" in data.fields && "status" !in data.fields ==> r == Failure("'status'")
    ensures data.JObj? && "id" in data.fields && "status" in data.fields && "amount" !in data.fields ==>
      r == Failure("'amount'")
  {
    assert "'" + "id" + "'" == "'id'" && "'" + "status" + "'" == "'status'" && "'" + "amount" + "'" == "'amount'";
    var id :- Index(data, "id");
    var status :- Index(data, "status");
    var amount :- Index(data, "amount");
    if !NullOrStr(id) then Failure("refund_id: Input should be a valid string")
    else if !(amount.JNull? || amount.JInt?) then Failure("amount: Input should be a valid integer")
    else if !status.JStr? then Failure("status: Input should be a valid string")
    else
      Success((if id.JStr? then Some(id.s) else None, if amount.JInt? then Some(amount.i) else None, status.s))
  }

  /** `refund_payment`: `intentFound` is whether `get_payment_intent` found the
      PaymentIntent, and `reply` Stripe's answer to the refund call. */
  method RefundPayment(svc: Service, req: RefundRequest, intentFound: bool, reply: Http.Outcome)
    returns (sent: Option<Http.Request>, r: RefundResponse)
    ensures !intentFound ==> sent.None? && r == RefundFailure("PaymentIntent not found", "PaymentIntent not found")
    ensures intentFound ==> sent == Some(Http.Request("POST", ApiBase + "/refunds", Headers(svc.apiKey), JObj(RefundForm(req))))
    ensures r.success <==>
      intentFound && reply.Received? && reply.response.status == 200 &&
      reply.response.body.Success? && IsRefundData(reply.response.body.value)
    ensures r.success ==>
      var read := ReadRefund(reply.response.body.value).value;
      r == RefundResponse(true, read.0, read.1, read.2, "Refund processed successfully", None)
    ensures intentFound && reply.Received? && reply.response.status != 200 ==>
      r == RefundFailure("Refund failed: " + reply.response.text, reply.response.text)
    ensures intentFound && reply.Received? && reply.response.status == 200 && reply.response.body.Failure? ==>
      r == RefundFailure("Error processing refund: " + reply.response.body.error, reply.response.body.error)
    ensures intentFound && reply.Received? && reply.response.status == 200 && reply.response.body.Success? &&
            ReadRefund(reply.response.body.value).Failure? ==>
      var e := ReadRefund(reply.response.body.value).error;
      r == RefundFailure("Error processing refund: " + e, e)
    ensures !r.success ==> r.status == "failed" && r.error.Some?
  {
    if !intentFound {
      return None, RefundFailure("PaymentIntent not found", "PaymentIntent not found");
    }
    var params := BuildRefundParams(req);
    sent := Some(Http.Request("POST", ApiBase + "/refunds", Headers(svc.apiKey), JObj(params)));
    match reply {
      case TimedOut(msg) =>
        r := RefundFailure("Error processing refund: " + msg, msg);
      case TransportError(msg) =>
        r := RefundFailure("Error processing refund: " + msg, msg);
      case Received(resp) =>
        if resp.status != 200 {
          r := RefundFailure("Refund failed: " + resp.text, resp.text);
        } else if resp.body.Failure? {
          r := RefundFailure("Error processing refund: " + resp.body.error, resp.body.error);
        } else {
          var read := ReadRefund(resp.body.value);
          if read.Failure? {
            r := RefundFailure("Error processing refund: " + read.error, read.error);
          } else {
            r := RefundResponse(true, read.value.0, read.value.1, read.value.2, "Refund processed successfully", None);
          }
        }
    }
  }

  // ---- webhooks --------------------------------------------------------------

  /** `verify_webhook_signature`. `construct` is what `stripe.Webhook.construct_event`
      did with the payload, the signature and the secret: the event, or the
      exception it raised. */
  function VerifyWebhookSignature(svc: Service, construct: Result<Json, string>): (r: bool)
    ensures !Text.Given(svc.webhookSecret) ==> r
    ensures Text.Given(svc.webhookSecret) ==> (r <==> construct.Success?)
  {
    if !Text.Given(svc.webhookSecret) then true else construct.Success?
  }

  /** With no secret configured, every payload passes, whatever the signature. */
  lemma NoSecretSkipsVerification(svc: Service, a: Result<Json, string>, b: Result<Json, string>)
    requires !Text.Given(svc.webhookSecret)
    ensures VerifyWebhookSignature(svc, a) == VerifyWebhookSignature(svc, b) == true
  {
  }
}
