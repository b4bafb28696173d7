/** The PayPal card route (`app/checkout/credit_card/paypal_commerce/routes.py`):
    required-field check, OAuth token, order creation with a card payment
    source, and a capture when the order is not already completed. */
module PaypalCommerceRoutes {
  import opened Wrappers
  import opened Json
  import opened Text
  import Http
  import BasicAuth

  const SandboxBase: string := "https://api-m.sandbox.paypal.com"
  const LiveBase: string := "https://api-m.paypal.com"

  /** `PAYPAL_API_BASE.get(environment, sandbox)`: live only for "live"; a list
      or dict cannot be a key. */
  function ApiBase(environment: Json): (r: Result<string, string>)
    ensures r.Success? <==> !environment.JArr? && !environment.JObj?
    ensures r.Success? ==> (r.value == LiveBase <==> environment == JStr("live"))
    ensures r.Success? ==> r.value == LiveBase || r.value == SandboxBase
  {
    match environment
    case JArr(_) => Failure("unhashable type: 'list'")
    case JObj(_) => Failure("unhashable type: 'dict'")
    case _ => Success(if environment == JStr("live") then LiveBase else SandboxBase)
  }

  // ---- required fields -------------------------------------------------------

  /** The configuration and card fields the route checks; `month` is already
      `str(...).zfill(2)` and `year` is `str(...)`. */
  datatype CardInputs = CardInputs(clientId: Json, clientSecret: Json, environment: Json, cardNumber: Json,
                                   month: string, year: string, cvc: Json, name: Json)

  /** Reads the inputs from the request body. */
  function ReadInputs(body: Json): (r: Result<CardInputs, string>)
    ensures r.Success? ==>
      body.JObj? && Lookup(Drop(body, "payment_config").fields, "payment_method", EmptyObj).JObj?
    ensures r.Success? ==>
      var pm := Lookup(Drop(body, "payment_config").fields, "payment_method", EmptyObj).fields;
      |r.value.month| >= 2 && r.value.year == PyStr(Lookup(pm, "expiry_year", JStr("")))
  {
    var config :- Get(body, "payment_config", EmptyObj);
    var paymentMethod := Lookup(Drop(body, "payment_config").fields, "payment_method", EmptyObj);
    var clientId :- Get(config, "client_id", JNull);
    if !paymentMethod.JObj? then Failure("'" + TypeName(paymentMethod) + "' object has no attribute 'get'")
    else
      var pm := paymentMethod.fields;
      Success(CardInputs(clientId, Lookup(config.fields, "client_secret", JNull),
                         Lookup(config.fields, "environment", JStr("sandbox")),
                         Lookup(pm, "card_number", JStr("")),
                         ZFill(PyStr(Lookup(pm, "expiry_month", JStr(""))), 2),
                         PyStr(Lookup(pm, "expiry_year", JStr(""))),
                         Lookup(pm, "cvc", JStr("")), Lookup(pm, "name_on_card", JStr(""))))
  }

  /** The checks, each with the name it reports. */
  datatype Field = ClientId | ClientSecret | CardNumber | Expiry | Cvc | NameOnCard {
    function Name(): string {
      match this
      case ClientId => "client_id"
      case ClientSecret => "client_secret"
      case CardNumber => "card_number"
      case Expiry => "expiry_month/expiry_year"
      case Cvc => "cvc"
      case NameOnCard => "name_on_card"
    }
  }

  /** The order in which the checks run. */
  const FieldOrder: seq<Field> := [ClientId, ClientSecret, CardNumber, Expiry, Cvc, NameOnCard]

  /** Whether the check for `field` passes. */
  predicate Present(c: CardInputs, field: Field) {
    match field
    case ClientId => Truthy(c.clientId)
    case ClientSecret => Truthy(c.clientSecret)
    case CardNumber => Truthy(c.cardNumber)
    case Expiry => c.month != "" && c.year != ""
    case Cvc => Truthy(c.cvc)
    case NameOnCard => Truthy(c.name)
  }

  /** The failing checks among `fields`, in order. */
  function Failing(c: CardInputs, fields: seq<Field>): (r: seq<Field>)
    ensures |r| <= |fields|
  {
    if fields == [] then []
    else (if Present(c, fields[0]) then [] else [fields[0]]) + Failing(c, fields[1..])
  }

  function Names(fields: seq<Field>): (r: seq<string>)
    ensures |r| == |fields| && forall i :: 0 <= i < |fields| ==> r[i] == fields[i].Name()
  {
    seq(|fields|, i requires 0 <= i < |fields| => fields[i].Name())
  }

  /** `missing_fields`. */
  function MissingFields(c: CardInputs): seq<string> {
    Names(Failing(c, FieldOrder))
  }

  /** `a` is `b` with some elements left out, the rest in their order. */
  predicate SubsequenceOf<T(==)>(a: seq<T>, b: seq<T>)
    decreases |b|
  {
    if a == [] then true
    else if b == [] then false
    else if a[0] == b[0] then SubsequenceOf(a[1..], b[1..])
    else SubsequenceOf(a, b[1..])
  }

  /** A check is reported exactly when it fails, and the report keeps the
      order of `fields`. */
  lemma {:induction false} FailingSpec(c: CardInputs, fields: seq<Field>)
    ensures forall f :: f in Failing(c, fields) <==> f in fields && !Present(c, f)
    ensures SubsequenceOf(Failing(c, fields), fields)
  {
    if fields != [] {
      FailingSpec(c, fields[1..]);
      var r := Failing(c, fields);
      var rest := Failing(c, fields[1..]);
      assert fields == [fields[0]] + fields[1..];
      if !Present(c, fields[0]) {
        assert r == [fields[0]] + rest && r[1..] == rest;
      } else {
        assert r == rest;
        if rest != [] {
          assert rest[0] in rest;
          assert rest[0] != fields[0];
        }
      }
    }
  }

  /** Distinct checks report distinct names. */
  lemma NamesDistinct(f: Field, g: Field)
    requires f.Name() == g.Name()
    ensures f == g
  {
    assert |f.Name()| == |g.Name()|;
  }

  /** The list is empty exactly when every check passes; otherwise it names
      exactly the failing checks, in the fixed order. */
  lemma MissingFieldsSpec(c: CardInputs)
    ensures MissingFields(c) == [] <==> forall f :: f in FieldOrder ==> Present(c, f)
    ensures forall f: Field :: f.Name() in MissingFields(c) <==> !Present(c, f)
    ensures SubsequenceOf(Failing(c, FieldOrder), FieldOrder)
  {
    var r := Failing(c, FieldOrder);
    FailingSpec(c, FieldOrder);
    forall f: Field
      ensures f.Name() in MissingFields(c) <==> !Present(c, f)
    {
      assert f in FieldOrder by {
        match f
        case ClientId => assert FieldOrder[0] == f;
        case ClientSecret => assert FieldOrder[1] == f;
        case CardNumber => assert FieldOrder[2] == f;
        case Expiry => assert FieldOrder[3] == f;
        case Cvc => assert FieldOrder[4] == f;
        case NameOnCard => assert FieldOrder[5] == f;
      }
      if f.Name() in MissingFields(c) {
        var i :| 0 <= i < |r| && MissingFields(c)[i] == f.Name();
        NamesDistinct(r[i], f);
        assert r[i] in r;
      }
      if !Present(c, f) {
        var i :| 0 <= i < |r| && r[i] == f;
        assert MissingFields(c)[i] == f.Name();
      }
    }
    if r != [] {
      assert r[0] in r;
    }
  }

  /** The padded month always has two characters, so the expiry entry is
      reported exactly when the year is empty: a missing month never is. */
  lemma ExpiryReportedOnlyForYear(body: Json)
    requires ReadInputs(body).Success?
    ensures var c := ReadInputs(body).value;
      "expiry_month/expiry_year" in MissingFields(c) <==> c.year == ""
  {
    MissingFieldsSpec(ReadInputs(body).value);
    assert Expiry.Name() == "expiry_month/expiry_year";
  }

  /** The report for one check. */
  function Check(passes: bool, field: string): seq<string> {
    if passes then [] else [field]
  }

  lemma NamesConcat(a: seq<Field>, b: seq<Field>)
    ensures Names(a + b) == Names(a) + Names(b)
  {
    assert forall i :: 0 <= i < |a + b| ==> Names(a + b)[i] == (Names(a) + Names(b))[i];
  }

  lemma {:induction false} FailingConcat(c: CardInputs, a: seq<Field>, b: seq<Field>)
    ensures Failing(c, a + b) == Failing(c, a) + Failing(c, b)
  {
    if a == [] {
      assert a + b == b;
    } else {
      assert (a + b)[1..] == a[1..] + b;
      FailingConcat(c, a[1..], b);
    }
  }

  lemma NamesOfCheck(c: CardInputs, f: Field)
    ensures Names(Failing(c, [f])) == Check(Present(c, f), f.Name())
  {
    assert Failing(c, [f]) == (if Present(c, f) then [] else [f]) + Failing(c, []);
  }

  /** Running one more check appends its report to what the earlier checks
      collected. */
  lemma Snoc(c: CardInputs, fields: seq<Field>, f: Field)
    ensures Names(Failing(c, fields + [f])) == Names(Failing(c, fields)) + Check(Present(c, f), f.Name())
  {
    FailingConcat(c, fields, [f]);
    NamesConcat(Failing(c, fields), Failing(c, [f]));
    NamesOfCheck(c, f);
  }

  /** Six checks in a row report their failures left to right. */
  lemma SixChecks(c: CardInputs, f1: Field, f2: Field, f3: Field, f4: Field, f5: Field, f6: Field)
    ensures Names(Failing(c, [f1, f2, f3, f4, f5, f6])) ==
      Check(Present(c, f1), f1.Name()) + Check(Present(c, f2), f2.Name()) + Check(Present(c, f3), f3.Name()) +
      Check(Present(c, f4), f4.Name()) + Check(Present(c, f5), f5.Name()) + Check(Present(c, f6), f6.Name())
  {
    var c1, c2, c3 := Check(Present(c, f1), f1.Name()), Check(Present(c, f2), f2.Name()), Check(Present(c, f3), f3.Name());
    var c4, c5, c6 := Check(Present(c, f4), f4.Name()), Check(Present(c, f5), f5.Name()), Check(Present(c, f6), f6.Name());
    Snoc(c, [], f1);
    assert [] + [f1] == [f1];
    assert Names(Failing(c, [f1])) == c1;
    Snoc(c, [f1], f2);
    assert [f1] + [f2] == [f1, f2];
    assert Names(Failing(c, [f1, f2])) == c1 + c2;
    Snoc(c, [f1, f2], f3);
    assert [f1, f2] + [f3] == [f1, f2, f3];
    assert Names(Failing(c, [f1, f2, f3])) == c1 + c2 + c3;
    Snoc(c, [f1, f2, f3], f4);
    assert [f1, f2, f3] + [f4] == [f1, f2, f3, f4];
    assert Names(Failing(c, [f1, f2, f3, f4])) == c1 + c2 + c3 + c4;
    Snoc(c, [f1, f2, f3, f4], f5);
    assert [f1, f2, f3, f4] + [f5] == [f1, f2, f3, f4, f5];
    assert Names(Failing(c, [f1, f2, f3, f4, f5])) == c1 + c2 + c3 + c4 + c5;
    Snoc(c, [f1, f2, f3, f4, f5], f6);
    assert [f1, f2, f3, f4, f5] + [f6] == [f1, f2, f3, f4, f5, f6];
  }

  /** `missing_fields` written out check by check, in the route's order. */
  lemma MissingFieldsUnrolled(c: CardInputs)
    ensures MissingFields(c) ==
      Check(Truthy(c.clientId), "client_id") + Check(Truthy(c.clientSecret), "client_secret") +
      Check(Truthy(c.cardNumber), "card_number") + Check(c.month != "" && c.year != "", "expiry_month/expiry_year") +
      Check(Truthy(c.cvc), "cvc") + Check(Truthy(c.name), "name_on_card")
  {
    SixChecks(c, ClientId, ClientSecret, CardNumber, Expiry, Cvc, NameOnCard);
  }

  /** The route's appends, one check after another. */
  method CollectMissing(c: CardInputs) returns (missing: seq<string>)
    ensures missing == MissingFields(c)
  {
    missing := [];
    if !Truthy(c.clientId) {
      missing := missing + ["client_id"];
    }
    assert missing == Check(Truthy(c.clientId), "client_id");
    if !Truthy(c.clientSecret) {
      missing := missing + ["client_secret"];
    }
    assert missing == Check(Truthy(c.clientId), "client_id") + Check(Truthy(c.clientSecret), "client_secret");
    if !Truthy(c.cardNumber) {
      missing := missing + ["card_number"];
    }
    assert missing == Check(Truthy(c.clientId), "client_id") + Check(Truthy(c.clientSecret), "client_secret") + Check(Truthy(c.cardNumber), "card_number");
    if c.month == "" || c.year == "" {
      missing := missing + ["expiry_month/expiry_year"];
    }
    assert missing == Check(Truthy(c.clientId), "client_id") + Check(Truthy(c.clientSecret), "client_secret") + Check(Truthy(c.cardNumber), "card_number") + Check(c.month != "" && c.year != "", "expiry_month/expiry_year");
    if !Truthy(c.cvc) {
      missing := missing + ["cvc"];
    }
    assert missing == Check(Truthy(c.clientId), "client_id") + Check(Truthy(c.clientSecret), "client_secret") + Check(Truthy(c.cardNumber), "card_number") + Check(c.month != "" && c.year != "", "expiry_month/expiry_year") + Check(Truthy(c.cvc), "cvc");
    if !Truthy(c.name) {
      missing := missing + ["name_on_card"];
    }
    MissingFieldsUnrolled(c);
  }

  /** Python `repr` of a list of plain strings: `['a', 'b']`. */
  function PyList(names: seq<string>): string {
    "[" + Quoted(names) + "]"
  }

  function Quoted(names: seq<string>): string {
    if names == [] then ""
    else if |names| == 1 then "'" + names[0] + "'"
    else "'" + names[0] + "', " + Quoted(names[1..])
  }

  // ---- order errors ----------------------------------------------------------

  const PayeeNotEnabled: string := "PAYEE_NOT_ENABLED_FOR_CARD_PROCESSING"

  const CardsNotEnabledMessage: string :=
    "Your PayPal account is not enabled for card transactions. "
    + "Please contact PayPal to activate Advanced Credit and Debit Card Payments and try again."

  predicate IsCardIssue(detail: Json) {
    detail.JObj? && Lookup(detail.fields, "issue", JNull) == JStr(PayeeNotEnabled)
  }

  /** Python `for detail in details`: what iterating the value yields. A
      non-empty dict or string yields strings, which have no `.get`. */
  function Elements(details: Json): (r: Result<seq<Json>, string>)
    ensures details.JArr? ==> r == Success(details.items)
  {
    match details
    case JArr(items) => Success(items)
    case JObj(m) => if m == map[] then Success([]) else Failure("'str' object has no attribute 'get'")
    case JStr(s) => if s == "" then Success([]) else Failure("'str' object has no attribute 'get'")
    case _ => Failure("'" + TypeName(details) + "' object is not iterable")
  }

  /** The loop over `details`: true at the first card-processing issue, an
      error at the first element before it that is not a dict. */
  function ScanDetails(items: seq<Json>): (r: Result<bool, string>)
    ensures r == Success(true) ==> exists i :: 0 <= i < |items| && IsCardIssue(items[i])
    ensures r == Success(false) <==> forall i :: 0 <= i < |items| ==> items[i].JObj? && !IsCardIssue(items[i])
  {
    if items == [] then Success(false)
    else if !items[0].JObj? then Failure("'" + TypeName(items[0]) + "' object has no attribute 'get'")
    else if IsCardIssue(items[0]) then Success(true)
    else
      var r := ScanDetails(items[1..]);
      assert forall i :: 1 <= i < |items| ==> items[i] == items[1..][i - 1];
      r
  }

  /** The route's loop. */
  method FindCardIssue(items: seq<Json>) returns (r: Result<bool, string>)
    ensures r == ScanDetails(items)
  {
    var i := 0;
    while i < |items|
      invariant 0 <= i <= |items|
      invariant ScanDetails(items) == ScanDetails(items[i..])
    {
      assert items[i..][1..] == items[i + 1..];
      if !items[i].JObj? {
        return Failure("'" + TypeName(items[i]) + "' object has no attribute 'get'");
      }
      if IsCardIssue(items[i]) {
        return Success(true);
      }
      i := i + 1;
    }
    return Success(false);
  }

  /** A rejected order: 400 with the fixed message when some detail reports
      that card processing is not enabled, 502 with the response text otherwise. */
  function OrderRejected(sent: seq<Http.Request>, orderId: Json, resp: Http.Response): (x: Http.Exchange)
    ensures x.sent == sent
    ensures resp.body.Failure? ==> x == Http.Internal(sent, resp.body.error)
    ensures x.reply.status == 400 <==>
      resp.body.Success? && resp.body.value.JObj? &&
      Elements(Lookup(resp.body.value.fields, "details", JArr([]))).Success? &&
      ScanDetails(Elements(Lookup(resp.body.value.fields, "details", JArr([]))).value) == Success(true)
    ensures x.reply.status == 400 ==>
      x.reply == Http.HttpErrorWith(400, JObj(map["success" := JBool(false), "error" := JStr(CardsNotEnabledMessage),
                                                  "paypal_error" := resp.body.value, "order_id" := orderId]))
    ensures x.reply.status != 400 && x.reply.status != 500 ==>
      x.reply == Http.HttpError(502, "PayPal order creation error: " + resp.text)
  {
    match resp.body
    case Failure(e) => Http.Internal(sent, e)
    case Success(errorJson) =>
    match Get(errorJson, "details", JArr([]))
    case Failure(e) => Http.Internal(sent, e)
    case Success(details) =>
      match Elements(details)
      case Failure(e) => Http.Internal(sent, e)
      case Success(items) =>
        match ScanDetails(items)
        case Failure(e) => Http.Internal(sent, e)
        case Success(found) =>
          if found then
            Http.Exchange(sent, Http.HttpErrorWith(400, JObj(map["success" := JBool(false), "error" := JStr(CardsNotEnabledMessage),
                                                                 "paypal_error" := errorJson, "order_id" := orderId])))
          else Http.Exchange(sent, Http.HttpError(502, "PayPal order creation error: " + resp.text))
  }

  // ---- the accepted order: capture and classification -------------------------

  predicate Accepted(status: int) { status == 200 || status == 201 }

  /** The statuses that count as paid. */
  predicate IsPaid(status: Json) { status == JStr("COMPLETED") || status == JStr("APPROVED") }

  /** What the route knows once the order exists. */
  datatype Charge = Charge(base: string, headers: map<string, string>, orderId: Json, amount: string, currency: string)

  function CaptureRequest(charge: Charge, paypalOrderId: Json): Http.Request {
    Http.Request("POST", charge.base + "/v2/checkout/orders/" + PyStr(paypalOrderId) + "/capture", charge.headers, JNull)
  }

  /** The answer body: `raw` is the order on success and the capture otherwise. */
  function ResponseData(charge: Charge, paypalOrderId: Json, status: Json, orderResult: Json, captureResult: Json,
                        now: string): (r: map<string, Json>)
    ensures "success" in r && r["success"] == JBool(IsPaid(status))
    ensures "status" in r && r["status"] == status
    ensures "raw" in r && r["raw"] == if IsPaid(status) then orderResult else captureResult
  {
    map[
      "success" := JBool(IsPaid(status)),
      "order_id" := charge.orderId,
      "paypal_order_id" := paypalOrderId,
      "status" := status,
      "message" := JStr(if IsPaid(status) then "PayPal Commerce card payment processed successfully"
                        else "PayPal payment status: " + PyStr(status)),
      "amount" := JStr(charge.amount),
      "currency" := JStr(charge.currency),
      "timestamp" := JStr(now),
      "raw" := if IsPaid(status) then orderResult else captureResult]
  }

  /** 200 with the data when paid, 400 carrying it otherwise. */
  function Classified(sent: seq<Http.Request>, data: map<string, Json>, paid: bool): Http.Exchange {
    Http.Exchange(sent, if paid then Http.Reply(200, JObj(data)) else Http.HttpErrorWith(400, JObj(data)))
  }

  /** After an accepted order: capture only when its status is not COMPLETED;
      the capture's status, when present, replaces the order's; success iff
      the final status is COMPLETED or APPROVED. */
  function Settle(sent: seq<Http.Request>, charge: Charge, orderResult: Json, captureReply: Http.Outcome, now: string)
    : (x: Http.Exchange)
    ensures orderResult.JObj? && Lookup(orderResult.fields, "status", JNull) == JStr("COMPLETED") ==>
      x.sent == sent &&
      x == Classified(sent, ResponseData(charge, Lookup(orderResult.fields, "id", JNull), JStr("COMPLETED"),
                                         orderResult, orderResult, now), true)
    ensures orderResult.JObj? && Lookup(orderResult.fields, "status", JNull) != JStr("COMPLETED") ==>
      x.sent == sent + [CaptureRequest(charge, Lookup(orderResult.fields, "id", JNull))]
    ensures captureReply.Received? && !Accepted(captureReply.response.status) && |x.sent| > |sent| ==>
      x.reply == Http.HttpError(502, "PayPal order capture error: " + captureReply.response.text)
    ensures |x.sent| > |sent| && captureReply.Received? && Accepted(captureReply.response.status) &&
            captureReply.response.body.Failure? ==>
      x == Http.Internal(x.sent, captureReply.response.body.error)
    ensures |x.sent| > |sent| && orderResult.JObj? && captureReply.Received? &&
            Accepted(captureReply.response.status) && captureReply.response.body.Success? &&
            captureReply.response.body.value.JObj? ==>
      var captureResult := captureReply.response.body.value;
      var status := Lookup(captureResult.fields, "status", Lookup(orderResult.fields, "status", JNull));
      x == Classified(x.sent, ResponseData(charge, Lookup(orderResult.fields, "id", JNull), status,
                                           orderResult, captureResult, now), IsPaid(status))
    ensures x.reply.status == 200 ==> x.reply.body.JObj? && "status" in x.reply.body.fields && IsPaid(x.reply.body.fields["status"])
  {
    match Get(orderResult, "id", JNull)
    case Failure(e) => Http.Internal(sent, e)
    case Success(paypalOrderId) =>
      var status := Lookup(orderResult.fields, "status", JNull);
      if status == JStr("COMPLETED") then
        Classified(sent, ResponseData(charge, paypalOrderId, status, orderResult, orderResult, now), true)
      else
        var sent' := sent + [CaptureRequest(charge, paypalOrderId)];
        match captureReply
        case TimedOut(m) => Http.Internal(sent', m)
        case TransportError(m) => Http.Internal(sent', m)
        case Received(resp) =>
          if !Accepted(resp.status) then Http.Exchange(sent', Http.HttpError(502, "PayPal order capture error: " + resp.text))
          else
            match resp.body
            case Failure(e) => Http.Internal(sent', e)
            case Success(captureResult) =>
            match Get(captureResult, "status", status)
            case Failure(e) => Http.Internal(sent', e)
            case Success(finalStatus) =>
              Classified(sent', ResponseData(charge, paypalOrderId, finalStatus, orderResult, captureResult, now),
                         IsPaid(finalStatus))
  }

  // ---- the route -------------------------------------------------------------

  /** httpx's Basic credentials: only strings can be encoded. */
  function AuthHeader(clientId: Json, clientSecret: Json): (r: Result<string, string>)
    ensures r.Success? <==> clientId.JStr? && clientSecret.JStr?
    ensures r.Success? ==> r.value == BasicAuth.Header(clientId.s, clientSecret.s)
  {
    if !clientId.JStr? then Failure("sequence item 0: expected a bytes-like object, " + TypeName(clientId) + " found")
    else if !clientSecret.JStr? then Failure("sequence item 1: expected a bytes-like object, " + TypeName(clientSecret) + " found")
    else Success(BasicAuth.Header(clientId.s, clientSecret.s))
  }

  function TokenRequest(base: string, auth: string): Http.Request {
    Http.Request("POST", base + "/v1/oauth2/token",
                 map["Accept" := "application/json", "Accept-Language" := "en_US", "Authorization" := auth],
                 JObj(map["grant_type" := JStr("client_credentials")]))
  }

  /** The order with its card payment source; the expiry is `YYYY-MM`. */
  function OrderPayload(c: CardInputs, charge: Charge, billing: map<string, Json>): (r: Json)
    ensures r.JObj? && "payment_source" in r.fields
  {
    JObj(map[
      "intent" := JStr("CAPTURE"),
      "purchase_units" := JArr([JObj(map[
        "reference_id" := charge.orderId,
        "amount" := JObj(map["currency_code" := JStr(charge.currency), "value" := JStr(charge.amount)]),
        "description" := JStr("Order " + PyStr(charge.orderId))])]),
      "payment_source" := JObj(map["card" := JObj(map[
        "number" := c.cardNumber,
        "expiry" := JStr(c.year + "-" + c.month),
        "security_code" := c.cvc,
        "name" := c.name,
        "billing_address" := JObj(map[
          "address_line_1" := Lookup(billing, "line1", JStr("")),
          "address_line_2" := Lookup(billing, "line2", JStr("")),
          "admin_area_2" := Lookup(billing, "city", JStr("")),
          "admin_area_1" := Lookup(billing, "state", JStr("")),
          "postal_code" := Lookup(billing, "postal_code", JStr("")),
          "country_code" := Lookup(billing, "country_code", JStr("US"))])])])])
  }

  /** A four-digit year and a padded month give `YYYY-MM`. */
  lemma ExpiryIsYearDashMonth(c: CardInputs, charge: Charge, billing: map<string, Json>)
    requires |c.year| == 4 && |c.month| == 2
    ensures var card := OrderPayload(c, charge, billing).fields["payment_source"];
      card.JObj? && "card" in card.fields && card.fields["card"].JObj? &&
      var e := card.fields["card"].fields["expiry"];
      e.JStr? && |e.s| == 7 && e.s[..4] == c.year && e.s[4] == '-' && e.s[5..] == c.month
  {
  }

  /** With a token in hand: the order request, then the order's outcome. */
  function PlaceOrder(c: CardInputs, charge0: Charge, checkout: map<string, Json>, requestId: string,
                      tokenRequest: Http.Request, token: Json, orderReply: Http.Outcome,
                      captureReply: Http.Outcome, now: string): (x: Http.Exchange)
    ensures 1 <= |x.sent| <= 3 && x.sent[0] == tokenRequest
    ensures |x.sent| >= 2 ==>
      x.sent[1].url == charge0.base + "/v2/checkout/orders" &&
      "Authorization" in x.sent[1].headers && x.sent[1].headers["Authorization"] == "Bearer " + PyStr(token)
    ensures |x.sent| == 3 ==> orderReply.Received? && Accepted(orderReply.response.status)
    ensures x.reply.status == 200 ==> |x.sent| >= 2 && orderReply.Received? && Accepted(orderReply.response.status)
  {
    var billing := Lookup(checkout, "billing_address", EmptyObj);
    if !billing.JObj? then Http.Internal([tokenRequest], "'" + TypeName(billing) + "' object has no attribute 'get'")
    else
      var headers := map["Content-Type" := "application/json", "Authorization" := "Bearer " + PyStr(token),
                         "PayPal-Request-Id" := requestId];
      var charge := charge0.(headers := headers);
      var orderRequest := Http.Request("POST", charge.base + "/v2/checkout/orders", headers,
                                       OrderPayload(c, charge, billing.fields));
      var sent := [tokenRequest, orderRequest];
      match orderReply
      case TimedOut(m) => Http.Internal(sent, m)
      case TransportError(m) => Http.Internal(sent, m)
      case Received(order) =>
        if !Accepted(order.status) then OrderRejected(sent, charge.orderId, order)
        else
          match order.body
          case Failure(e) => Http.Internal(sent, e)
          case Success(orderResult) => Settle(sent, charge, orderResult, captureReply, now)
  }

  /** After the token call. */
  function AfterToken(c: CardInputs, charge0: Charge, checkout: map<string, Json>, requestId: string,
                      tokenRequest: Http.Request, tokenReply: Http.Outcome, orderReply: Http.Outcome,
                      captureReply: Http.Outcome, now: string): (x: Http.Exchange)
    ensures 1 <= |x.sent| <= 3 && x.sent[0] == tokenRequest
    ensures tokenReply.Received? && tokenReply.response.status != 200 ==>
      x == Http.Exchange([tokenRequest], Http.HttpError(502, "PayPal OAuth error: " + tokenReply.response.text))
    ensures tokenReply.Received? && tokenReply.response.status == 200 && tokenReply.response.body.Failure? ==>
      x == Http.Internal([tokenRequest], tokenReply.response.body.error)
    ensures tokenReply.Received? && tokenReply.response.status == 200 && tokenReply.response.body.Success? &&
            tokenReply.response.body.value.JObj? &&
            !Truthy(Lookup(tokenReply.response.body.value.fields, "access_token", JNull)) ==>
      x == Http.Exchange([tokenRequest], Http.HttpError(502, "Failed to obtain PayPal access token"))
    ensures |x.sent| >= 2 ==>
      tokenReply.Received? && tokenReply.response.status == 200 && tokenReply.response.body.Success? &&
      var tokenData := tokenReply.response.body.value;
      tokenData.JObj? && Truthy(Lookup(tokenData.fields, "access_token", JNull)) &&
      x.sent[1].url == charge0.base + "/v2/checkout/orders" &&
      "Authorization" in x.sent[1].headers &&
      x.sent[1].headers["Authorization"] == "Bearer " + PyStr(Lookup(tokenData.fields, "access_token", JNull))
    ensures |x.sent| == 3 ==> orderReply.Received? && Accepted(orderReply.response.status)
    ensures x.reply.status == 200 ==> |x.sent| >= 2 && orderReply.Received? && Accepted(orderReply.response.status)
  {
    match tokenReply
    case TimedOut(m) => Http.Internal([tokenRequest], m)
    case TransportError(m) => Http.Internal([tokenRequest], m)
    case Received(resp) =>
      if resp.status != 200 then Http.Exchange([tokenRequest], Http.HttpError(502, "PayPal OAuth error: " + resp.text))
      else
        match resp.body
        case Failure(e) => Http.Internal([tokenRequest], e)
        case Success(tokenData) =>
        match Get(tokenData, "access_token", JNull)
        case Failure(e) => Http.Internal([tokenRequest], e)
        case Success(token) =>
          if !Truthy(token) then Http.Exchange([tokenRequest], Http.HttpError(502, "Failed to obtain PayPal access token"))
          else
            PlaceOrder(c, charge0, checkout, requestId, tokenRequest, token, orderReply, captureReply, now)
  }

  /** `process_paypal_commerce_payment`. `amount` is `"{:.2f}".format(float(total))`
      or the message of the exception it raised; `requestId` is the
      `PayPal-Request-Id` uuid; the three outcomes answer the token, order and
      capture calls; `now` is the `timestamp` text. */
  function ProcessPaypalCommercePayment(body: Json, amount: Result<string, string>, requestId: string,
                                        tokenReply: Http.Outcome, orderReply: Http.Outcome,
                                        captureReply: Http.Outcome, now: string): (x: Http.Exchange)
    ensures |x.sent| <= 3
    ensures ReadInputs(body).Success? && MissingFields(ReadInputs(body).value) != [] ==>
      x == Http.Exchange([], Http.HttpError(400, "Missing required fields: " + PyList(MissingFields(ReadInputs(body).value))))
    ensures x.sent != [] ==>
      ReadInputs(body).Success? && MissingFields(ReadInputs(body).value) == [] &&
      var c := ReadInputs(body).value;
      ApiBase(c.environment).Success? && AuthHeader(c.clientId, c.clientSecret).Success? &&
      x.sent[0] == TokenRequest(ApiBase(c.environment).value, AuthHeader(c.clientId, c.clientSecret).value)
    ensures x.reply.status == 200 ==>
      |x.sent| >= 2 && x.reply.body.JObj? && "status" in x.reply.body.fields && IsPaid(x.reply.body.fields["status"])
  {
    match ReadInputs(body)
    case Failure(e) => Http.Internal([], e)
    case Success(c) =>
      var missing := MissingFields(c);
      if missing != [] then Http.Exchange([], Http.HttpError(400, "Missing required fields: " + PyList(missing)))
      else
        var checkout := Drop(body, "payment_config").fields;
        match amount
        case Failure(e) => Http.Internal([], e)
        case Success(value) =>
          var currency := Lookup(checkout, "currency", JStr("USD"));
          if !currency.JStr? then Http.Internal([], "'" + TypeName(currency) + "' object has no attribute 'upper'")
          else
            match ApiBase(c.environment)
            case Failure(e) => Http.Internal([], e)
            case Success(base) =>
              match AuthHeader(c.clientId, c.clientSecret)
              case Failure(e) => Http.Internal([], e)
              case Success(auth) =>
                var charge := Charge(base, map[], Lookup(checkout, "order_id", JStr("")), value, Upper(currency.s));
                var tokenRequest := TokenRequest(base, auth);
                AfterToken(c, charge, checkout, requestId, tokenRequest, tokenReply, orderReply, captureReply, now)
  }
}
