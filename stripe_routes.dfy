/** The Stripe routes (`app/checkout/credit_card/stripe/routes.py`).
    `process_stripe_payment` is modelled on the untyped request body: it
    returns every request it sent to Stripe, in order, with the route's
    answer. */
module StripeRoutes {
  import opened Wrappers
  import opened Json
  import Text
  import Http
  import StripeService

  /** `body.get('payment_config', {}).get('api_key')`. */
  function ConfiguredKey(body: Json): Result<Json, string> {
    var config :- Get(body, "payment_config", EmptyObj);
    Get(config, "api_key", JNull)
  }

  /** Python `x in test_tokens` on a JSON value: only strings can be keys, and
      a list or dict is not hashable. */
  function TestToken(cardNumber: Json): (r: Result<Option<string>, string>)
    ensures r.Success? && r.value.Some? <==> cardNumber.JStr? && cardNumber.s in StripeService.TestTokens
    ensures r.Success? && r.value.Some? ==> r.value.value == StripeService.TestTokens[cardNumber.s]
    ensures r.Failure? <==> cardNumber.JArr? || cardNumber.JObj?
  {
    match cardNumber
    case JArr(_) => Failure("unhashable type: 'list'")
    case JObj(_) => Failure("unhashable type: 'dict'")
    case JStr(s) => Success(if s in StripeService.TestTokens then Some(StripeService.TestTokens[s]) else None)
    case _ => Success(None)
  }

  /** The card part of the PaymentMethod form, given the result of the
      test-number lookup: the token alone for a test number, the raw card
      fields otherwise. */
  function CardForm(pm: map<string, Json>, token: Option<string>): (r: StripeService.Form)
    ensures "type" in r && r["type"] == JStr("card")
    ensures token.Some? ==> "card[token]" in r && r["card[token]"] == JStr(token.value) && StripeService.NoRawCardKeys(r)
    ensures token.None? ==>
      "card[token]" !in r && StripeService.RawCardKeys(r) && r["card[number]"] == Lookup(pm, "card_number", JStr(""))
    ensures "billing_details[name]" !in r && "billing_details[email]" !in r
  {
    match token
    case Some(t) => map["type" := JStr("card"), "card[token]" := JStr(t)]
    case None =>
      map["type" := JStr("card"), "card[number]" := Lookup(pm, "card_number", JStr("")),
          "card[exp_month]" := Lookup(pm, "expiry_month", JNull),
          "card[exp_year]" := Lookup(pm, "expiry_year", JNull),
          "card[cvc]" := Lookup(pm, "cvc", JNull)]
  }

  /** The PaymentMethod form: `card[token]` alone for a test number, the raw
      card fields otherwise. Name and e-mail fall back to placeholders. */
  function PaymentMethodForm(checkout: Json): (r: Result<StripeService.Form, string>)
    ensures r.Success? ==> "type" in r.value && r.value["type"] == JStr("card")
    ensures r.Success? ==>
      checkout.JObj? && Lookup(checkout.fields, "payment_method", EmptyObj).JObj? &&
      Lookup(checkout.fields, "customer", EmptyObj).JObj?
    ensures r.Success? ==>
      var pm := Lookup(checkout.fields, "payment_method", EmptyObj).fields;
      var number := Lookup(pm, "card_number", JStr(""));
      "billing_details[name]" in r.value && r.value["billing_details[name]"] == Lookup(pm, "name_on_card", JStr("Test User")) &&
      (number.JStr? && number.s in StripeService.TestTokens ==>
        "card[token]" in r.value && r.value["card[token]"] == JStr(StripeService.TestTokens[number.s]) &&
        StripeService.NoRawCardKeys(r.value)) &&
      (!(number.JStr? && number.s in StripeService.TestTokens) ==>
        "card[token]" !in r.value && StripeService.RawCardKeys(r.value) && r.value["card[number]"] == number)
    ensures r.Success? ==>
      "billing_details[email]" in r.value &&
      r.value["billing_details[email]"] == Lookup(Lookup(checkout.fields, "customer", EmptyObj).fields, "email", JStr("test@example.com"))
  {
    var pm :- Get(checkout, "payment_method", EmptyObj);
    var number :- Get(pm, "card_number", JStr(""));
    var token :- TestToken(number);
    var name := Lookup(pm.fields, "name_on_card", JStr("Test User"));
    var customer := Lookup(checkout.fields, "customer", EmptyObj);
    var email :- Get(customer, "email", JStr("test@example.com"));
    Success(CardForm(pm.fields, token) + map["billing_details[name]" := name, "billing_details[email]" := email])
  }

  /** The PaymentIntent form. `amount` is `int(float(total_amount))`, which is
      computed outside the model. */
  function IntentForm(checkout: Json, amount: int, paymentMethodId: Json): (r: Result<StripeService.Form, string>)
    ensures r.Success? ==> "amount" in r.value && r.value["amount"] == JInt(amount)
    ensures r.Success? ==> "payment_method" in r.value && r.value["payment_method"] == paymentMethodId
    ensures r.Success? ==>
      checkout.JObj? && var c := Lookup(checkout.fields, "currency", JStr("usd"));
      c.JStr? && "currency" in r.value && r.value["currency"] == JStr(Text.Lower(c.s))
    ensures r.Success? ==>
      "description" in r.value &&
      r.value["description"] == JStr("Order " + PyStr(Lookup(checkout.fields, "order_id", JStr("unknown"))))
  {
    var currency :- Get(checkout, "currency", JStr("usd"));
    if !currency.JStr? then Failure("'" + TypeName(currency) + "' object has no attribute 'lower'")
    else
      var email :- Get(Lookup(checkout.fields, "customer", EmptyObj), "email", JStr(""));
      Success(map[
        "amount" := JInt(amount),
        "currency" := JStr(Text.Lower(currency.s)),
        "description" := JStr("Order " + PyStr(Lookup(checkout.fields, "order_id", JStr("unknown")))),
        "payment_method" := paymentMethodId,
        "confirm" := JStr("true"),
        "metadata[order_id]" := Lookup(checkout.fields, "order_id", JStr("")),
        "metadata[customer_email]" := email,
        "receipt_email" := email,
        "automatic_payment_methods[enabled]" := JStr("true"),
        "automatic_payment_methods[allow_redirects]" := JStr("never")])
  }

  /** The route's answer once both objects exist; `requires_action` and
      `next_action` are added exactly when Stripe sent a `next_action`. */
  function ResponseData(checkout: Json, paymentMethod: Json, paymentMethodId: Json, intent: Json, now: string)
    : (r: Result<map<string, Json>, string>)
    ensures r.Success? ==> intent.JObj? && "status" in intent.fields
    ensures r.Success? ==> "status" in r.value && r.value["status"] == intent.fields["status"]
    ensures r.Success? ==> "success" in r.value && r.value["success"] == JBool(true)
    ensures r.Success? ==> ("requires_action" in r.value <==> "next_action" in intent.fields)
    ensures r.Success? ==> ("next_action" in r.value <==> "next_action" in intent.fields)
    ensures r.Success? && "next_action" in intent.fields ==>
      r.value["requires_action"] == JBool(true) && r.value["next_action"] == intent.fields["next_action"]
  {
    var id :- Index(intent, "id");
    var status :- Index(intent, "status");
    var secret :- Index(intent, "client_secret");
    var amount :- Index(intent, "amount");
    var currency :- Index(intent, "currency");
    var methodType :- Index(paymentMethod, "type");
    var base := map[
      "success" := JBool(true),
      "order_id" := if checkout.JObj? then Lookup(checkout.fields, "order_id", JNull) else JNull,
      "payment_intent" := JObj(map["id" := id, "client_secret" := secret, "status" := status,
                                   "amount" := amount, "currency" := currency]),
      "payment_method" := JObj(map["id" := paymentMethodId, "type" := methodType]),
      "status" := status,
      "message" := JStr("Payment processed successfully"),
      "amount" := amount,
      "currency" := currency,
      "timestamp" := JStr(now)];
    if "next_action" in intent.fields then
      Success(base["requires_action" := JBool(true)]["next_action" := intent.fields["next_action"]])
    else Success(base)
  }

  function PaymentMethodRequest(apiKey: string, form: StripeService.Form): Http.Request {
    Http.Request("POST", StripeService.ApiBase + "/payment_methods", StripeService.Headers(apiKey), JObj(form))
  }

  function IntentRequest(apiKey: string, form: StripeService.Form): Http.Request {
    Http.Request("POST", StripeService.ApiBase + "/payment_intents", StripeService.Headers(apiKey), JObj(form))
  }

  /** After the PaymentIntent call. */
  function AfterIntent(checkout: Json, pmRequest: Http.Request, piRequest: Http.Request, paymentMethod: Json,
                       paymentMethodId: Json, piReply: Http.Outcome, now: string): (x: Http.Exchange)
    ensures x.sent == [pmRequest, piRequest]
    ensures x.reply.status == 200 ==>
      piReply.Received? && piReply.response.status == 200 && piReply.response.body.Success? &&
      ResponseData(checkout, paymentMethod, paymentMethodId, piReply.response.body.value, now).Success? &&
      x.reply.body == JObj(ResponseData(checkout, paymentMethod, paymentMethodId, piReply.response.body.value, now).value)
    ensures piReply.Received? && piReply.response.status != 200 ==>
      x.reply == Http.HttpError(400, "PaymentIntent creation failed: " + piReply.response.text)
    ensures piReply.Received? && piReply.response.status == 200 && piReply.response.body.Failure? ==>
      x == Http.Internal(x.sent, piReply.response.body.error)
  {
    var sent := [pmRequest, piRequest];
    match piReply
    case TimedOut(m) => Http.Internal(sent, m)
    case TransportError(m) => Http.Internal(sent, m)
    case Received(resp) =>
      if resp.status != 200 then Http.Exchange(sent, Http.HttpError(400, "PaymentIntent creation failed: " + resp.text))
      else
        match resp.body
        case Failure(e) => Http.Internal(sent, e)
        case Success(intent) =>
        match ResponseData(checkout, paymentMethod, paymentMethodId, intent, now)
        case Failure(e) => Http.Internal(sent, e)
        case Success(data) => Http.Exchange(sent, Http.Reply(200, JObj(data)))
  }

  /** After the PaymentMethod call. */
  function AfterPaymentMethod(checkout: Json, apiKey: string, pmRequest: Http.Request, amount: Result<int, string>,
                              pmReply: Http.Outcome, piReply: Http.Outcome, now: string): (x: Http.Exchange)
    ensures 1 <= |x.sent| <= 2 && x.sent[0] == pmRequest
    ensures pmReply.Received? && pmReply.response.status != 200 ==>
      x == Http.Exchange([pmRequest], Http.HttpError(400, "PaymentMethod creation failed: " + pmReply.response.text))
    ensures |x.sent| == 2 ==> pmReply.Received? && pmReply.response.status == 200 && x.sent[1].url == StripeService.ApiBase + "/payment_intents"
    ensures x.reply.status == 200 ==> |x.sent| == 2 && piReply.Received? && piReply.response.status == 200
    ensures pmReply.Received? && pmReply.response.status == 200 && pmReply.response.body.Failure? ==>
      x == Http.Internal([pmRequest], pmReply.response.body.error)
    ensures x.reply.status == 200 ==>
      x.reply.body.JObj? && piReply.Received? && piReply.response.body.Success? &&
      ("next_action" in x.reply.body.fields <==>
        piReply.response.body.value.JObj? && "next_action" in piReply.response.body.value.fields)
  {
    match pmReply
    case TimedOut(m) => Http.Internal([pmRequest], m)
    case TransportError(m) => Http.Internal([pmRequest], m)
    case Received(resp) =>
      if resp.status != 200 then Http.Exchange([pmRequest], Http.HttpError(400, "PaymentMethod creation failed: " + resp.text))
      else
        match resp.body
        case Failure(e) => Http.Internal([pmRequest], e)
        case Success(pmData) =>
        match Index(pmData, "id")
        case Failure(e) => Http.Internal([pmRequest], e)
        case Success(pmId) =>
          match amount
          case Failure(e) => Http.Internal([pmRequest], e)
          case Success(amt) =>
            match IntentForm(checkout, amt, pmId)
            case Failure(e) => Http.Internal([pmRequest], e)
            case Success(form) => AfterIntent(checkout, pmRequest, IntentRequest(apiKey, form), pmData, pmId, piReply, now)
  }

  /** `process_stripe_payment`. `amount` is `int(float(total_amount))` or the
      message of the exception it raised; `pmReply` and `piReply` are Stripe's
      answers to the PaymentMethod and PaymentIntent calls; `now` is the
      `timestamp` text. */
  function ProcessStripePayment(body: Json, amount: Result<int, string>, pmReply: Http.Outcome,
                                piReply: Http.Outcome, now: string): (x: Http.Exchange)
    ensures ConfiguredKey(body).Success? && !Truthy(ConfiguredKey(body).value) ==>
      x == Http.Exchange([], Http.HttpError(400, "Stripe API key is required in payment configuration"))
    ensures x.sent != [] ==>
      ConfiguredKey(body).Success? && Truthy(ConfiguredKey(body).value) && body.JObj? &&
      PaymentMethodForm(Drop(body, "payment_config")).Success? &&
      x.sent[0] == PaymentMethodRequest(PyStr(ConfiguredKey(body).value), PaymentMethodForm(Drop(body, "payment_config")).value)
    ensures |x.sent| <= 2
    ensures x.sent != [] && pmReply.Received? && pmReply.response.status != 200 ==>
      |x.sent| == 1 && x.reply == Http.HttpError(400, "PaymentMethod creation failed: " + pmReply.response.text)
    ensures x.reply.status == 200 ==>
      |x.sent| == 2 && x.reply.body.JObj? && piReply.Received? && piReply.response.body.Success? &&
      ("next_action" in x.reply.body.fields <==>
        piReply.response.body.value.JObj? && "next_action" in piReply.response.body.value.fields)
  {
    match ConfiguredKey(body)
    case Failure(e) => Http.Internal([], e)
    case Success(apiKey) =>
      if !Truthy(apiKey) then Http.Exchange([], Http.HttpError(400, "Stripe API key is required in payment configuration"))
      else
        var checkout := Drop(body, "payment_config");
        match PaymentMethodForm(checkout)
        case Failure(e) => Http.Internal([], e)
        case Success(form) =>
          var key := PyStr(apiKey);
          AfterPaymentMethod(checkout, key, PaymentMethodRequest(key, form), amount, pmReply, piReply, now)
  }

  /** A known test number is sent only as its token, so Stripe never sees
      the raw number. */
  lemma TestNumberSentAsToken(body: Json, amount: Result<int, string>, pmReply: Http.Outcome,
                              piReply: Http.Outcome, now: string, pan: string)
    requires body.JObj? && "payment_method" in body.fields && body.fields["payment_method"].JObj?
    requires var pm := body.fields["payment_method"];
      "card_number" in pm.fields && pm.fields["card_number"] == JStr(pan) && pan in StripeService.TestTokens
    requires ProcessStripePayment(body, amount, pmReply, piReply, now).sent != []
    ensures var f := ProcessStripePayment(body, amount, pmReply, piReply, now).sent[0].body.fields;
      "card[token]" in f && f["card[token]"] == JStr(StripeService.TestTokens[pan]) && StripeService.NoRawCardKeys(f)
  {
    var checkout := Drop(body, "payment_config");
    assert "payment_method" in checkout.fields && checkout.fields["payment_method"] == body.fields["payment_method"];
  }

  // ---- webhooks --------------------------------------------------------------

  /** The webhook's answer and the event it hands to the background task. */
  datatype WebhookResult = WebhookResult(reply: Http.Reply, scheduled: Option<Json>)

  /** What `json.loads(body)` did with the webhook body: an event, a
      `JSONDecodeError`, or another exception (a body that is not UTF-8 raises
      `UnicodeDecodeError`, a deeply nested one `RecursionError`). */
  datatype Parse = Parsed(event: Json) | BadJson(error: string) | Raised(error: string)

  /** `stripe_webhook`. `signature` is the `stripe-signature` header,
      `construct` what the Stripe library made of the payload and signature,
      and `parsed` what `json.loads(body)` made of the body. */
  function StripeWebhook(svc: StripeService.Service, signature: Option<string>, construct: Result<Json, string>,
                         parsed: Parse): (r: WebhookResult)
    ensures !Text.Given(signature) ==>
      r == WebhookResult(Http.HttpError(400, "No signature found"), None)
    ensures Text.Given(signature) && !StripeService.VerifyWebhookSignature(svc, construct) ==>
      r == WebhookResult(Http.HttpError(400, "Invalid signature"), None)
    ensures Text.Given(signature) && StripeService.VerifyWebhookSignature(svc, construct) && parsed.BadJson? ==>
      r == WebhookResult(Http.HttpError(400, "Invalid JSON"), None)
    ensures Text.Given(signature) && StripeService.VerifyWebhookSignature(svc, construct) && parsed.Raised? ==>
      r == WebhookResult(Http.HttpError(500, "Webhook processing error: " + parsed.error), None)
    ensures Text.Given(signature) && StripeService.VerifyWebhookSignature(svc, construct) &&
            parsed.Parsed? && !parsed.event.JObj? ==>
      r == WebhookResult(Http.HttpError(500, "Webhook processing error: " + Get(parsed.event, "type", JNull).error), None)
    ensures r.scheduled.Some? <==> r.reply.status == 200
    ensures r.reply.status == 200 <==>
      Text.Given(signature) && StripeService.VerifyWebhookSignature(svc, construct) &&
      parsed.Parsed? && parsed.event.JObj?
    ensures r.reply.status == 200 ==> r.scheduled == Some(parsed.event)
  {
    if !Text.Given(signature) then WebhookResult(Http.HttpError(400, "No signature found"), None)
    else if !StripeService.VerifyWebhookSignature(svc, construct) then WebhookResult(Http.HttpError(400, "Invalid signature"), None)
    else
      match parsed
      case BadJson(_) => WebhookResult(Http.HttpError(400, "Invalid JSON"), None)
      case Raised(e) => WebhookResult(Http.HttpError(500, "Webhook processing error: " + e), None)
      case Parsed(event) =>
        match Get(event, "type", JNull)
        case Failure(e) => WebhookResult(Http.HttpError(500, "Webhook processing error: " + e), None)
        case Success(_) =>
          WebhookResult(Http.Reply(200, JObj(map["success" := JBool(true), "message" := JStr("Webhook received")])),
                        Some(event))
  }

  /** Without a configured secret any signed, well-formed event is accepted,
      whatever the signature says. */
  lemma WebhookWithoutSecret(svc: StripeService.Service, signature: string, construct: Result<Json, string>,
                             event: map<string, Json>)
    requires !Text.Given(svc.webhookSecret) && signature != ""
    ensures StripeWebhook(svc, Some(signature), construct, Parsed(JObj(event))).reply.status == 200
  {
  }

  /** The handlers of `process_webhook_event`. */
  datatype Handler = PaymentSucceeded | PaymentFailed | PaymentCanceled | PaymentRefunded | Unhandled

  const HandledTypes: set<string> :=
    {"payment_intent.succeeded", "payment_intent.payment_failed", "payment_intent.canceled", "charge.refunded"}

  /** `process_webhook_event`: which handler an event reaches. */
  function Dispatch(event: Json): (r: Handler)
    ensures r != Unhandled <==>
      event.JObj? && "type" in event.fields && event.fields["type"].JStr? && event.fields["type"].s in HandledTypes
    ensures r == PaymentSucceeded <==> Get(event, "type", JNull) == Success(JStr("payment_intent.succeeded"))
    ensures r == PaymentRefunded <==> Get(event, "type", JNull) == Success(JStr("charge.refunded"))
  {
    match Get(event, "type", JNull)
    case Failure(_) => Unhandled
    case Success(t) =>
      if t == JStr("payment_intent.succeeded") then PaymentSucceeded
      else if t == JStr("payment_intent.payment_failed") then PaymentFailed
      else if t == JStr("payment_intent.canceled") then PaymentCanceled
      else if t == JStr("charge.refunded") then PaymentRefunded
      else Unhandled
  }

  /** The four handled types reach four different handlers. */
  lemma DispatchDistinct(a: Json, b: Json)
    requires Dispatch(a) != Unhandled && Dispatch(a) == Dispatch(b)
    ensures a.fields["type"] == b.fields["type"]
  {
  }

  // ---- PaymentIntent lookup --------------------------------------------------

  /** The PaymentIntent as FastAPI serialises `StripePaymentIntentSchema`;
      `created` is the serialised `datetime.fromtimestamp` value, which
      depends on the server's time zone. */
  function IntentJson(i: StripeService.Intent, created: string): (r: Json)
    ensures r.JObj? && r.fields.Keys ==
      {"id", "client_secret", "status", "amount", "currency", "created", "metadata", "next_action", "payment_method_types"}
    ensures r.fields["id"] == JStr(i.id) && r.fields["client_secret"] == JStr(i.clientSecret)
    ensures r.fields["status"] == JStr(i.status) && r.fields["amount"] == JInt(i.amount)
    ensures r.fields["currency"] == JStr(i.currency) && r.fields["created"] == JStr(created)
    ensures StrMap(r.fields["metadata"]) == Some(i.metadata) && r.fields["next_action"] == i.nextAction
    ensures StrSeq(r.fields["payment_method_types"]) == Some(i.paymentMethodTypes)
  {
    var types := seq(|i.paymentMethodTypes|, k requires 0 <= k < |i.paymentMethodTypes| => JStr(i.paymentMethodTypes[k]));
    var metadata := map k | k in i.metadata :: JStr(i.metadata[k]);
    assert StrSeq(JArr(types)).value == i.paymentMethodTypes;
    assert StrMap(JObj(metadata)).value == i.metadata;
    JObj(map["id" := JStr(i.id), "client_secret" := JStr(i.clientSecret), "status" := JStr(i.status),
             "amount" := JInt(i.amount), "currency" := JStr(i.currency), "created" := JStr(created),
             "metadata" := JObj(metadata), "next_action" := i.nextAction,
             "payment_method_types" := JArr(types)])
  }

  /** `GET /payment-intent/{id}`: a PaymentIntent the service could not read is
      404. `created` is the serialised creation time. */
  function GetPaymentIntent(intent: Option<StripeService.Intent>, created: string): (r: Http.Reply)
    ensures intent.None? ==> r == Http.HttpError(404, "PaymentIntent not found")
    ensures intent.Some? ==> r.status == 200 && r.body == IntentJson(intent.value, created)
  {
    if intent.None? then Http.HttpError(404, "PaymentIntent not found")
    else Http.Reply(200, IntentJson(intent.value, created))
  }

  /** A PaymentIntent read from Stripe's answer is served with the answer's
      fields (the creation time aside) and the defaults for absent optional
      fields. */
  lemma ServedIntentMatchesAnswer(reply: Http.Outcome, created: string)
    requires StripeService.GetPaymentIntent(reply).Some?
    ensures var data := reply.response.body.value.fields;
      var served := GetPaymentIntent(StripeService.GetPaymentIntent(reply), created).body.fields;
      forall k :: k in {"id", "client_secret", "status", "amount", "currency"} ==> served[k] == data[k]
    ensures var data := reply.response.body.value.fields;
      var served := GetPaymentIntent(StripeService.GetPaymentIntent(reply), created).body.fields;
      served["next_action"] == Lookup(data, "next_action", JNull) &&
      StrMap(served["metadata"]) == StrMap(Lookup(data, "metadata", EmptyObj)) &&
      StrSeq(served["payment_method_types"]) == StrSeq(Lookup(data, "payment_method_types", JArr([])))
  {
  }

  /** A lookup answered with anything but a readable 200 is a 404. */
  lemma LookupFailureIs404(reply: Http.Outcome, created: string)
    requires !(reply.Received? && reply.response.status == 200)
    ensures GetPaymentIntent(StripeService.GetPaymentIntent(reply), created).status == 404
  {
  }
}
