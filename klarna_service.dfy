/** The Klarna payments service (`app/checkout/klarna/services.py`): the
    regional base URL, a connection test that may move the service to another
    region, and payment-session creation. */
module KlarnaService {
  import opened Wrappers
  import opened Json
  import opened Text
  import Http
  import BasicAuth

  /** The base URL for a region and environment: Europe and Oceania have
      their own hosts, any other region is North America; live only for "live". */
  function BaseUrl(region: string, environment: string): (r: string)
    ensures region == "Europe" ==>
      r == if environment == "live" then "https://api.klarna.com" else "https://api.playground.klarna.com"
    ensures region == "Oceania" ==>
      r == if environment == "live" then "https://api-oc.klarna.com" else "https://api-oc.playground.klarna.com"
    ensures region != "Europe" && region != "Oceania" ==>
      r == if environment == "live" then "https://api-na.klarna.com" else "https://api-na.playground.klarna.com"
  {
    if region == "Europe" then
      (if environment == "live" then "https://api.klarna.com" else "https://api.playground.klarna.com")
    else if region == "Oceania" then
      (if environment == "live" then "https://api-oc.klarna.com" else "https://api-oc.playground.klarna.com")
    else
      (if environment == "live" then "https://api-na.klarna.com" else "https://api-na.playground.klarna.com")
  }

  /** Only "live" reaches a production host: every other environment is a
      playground host. */
  lemma LiveIffProductionHost(region: string, environment: string)
    ensures var u := BaseUrl(region, environment);
      (environment == "live") <==>
      (u == "https://api.klarna.com" || u == "https://api-oc.klarna.com" || u == "https://api-na.klarna.com")
  {
    var u := BaseUrl(region, environment);
    if environment != "live" {
      assert u[..12] == "https://api." || u[..12] == "https://api-";
      assert |u| != |"https://api.klarna.com"| || u != "https://api.klarna.com";
    }
  }

  /** `KlarnaTestConnectionRequestSchema`. */
  datatype TestRequest = TestRequest(username: Option<string>, password: Option<string>, environment: string,
                                     region: Option<string>, authorization: Option<string>)

  /** `KlarnaTestConnectionResponseSchema`. */
  datatype TestResponse = TestResponse(success: bool, message: string, error: Option<string>, details: map<string, Json>)

  const MissingTestCredentials: TestResponse :=
    TestResponse(false, "Missing credentials: provide either authorization or username/password",
                 Some("MISSING_CREDENTIALS"), map[])

  /** The connection test's `Authorization`: a given pre-encoded value wins;
      otherwise stripped username and password are Basic-encoded. */
  function TestAuthorization(req: TestRequest): (r: Option<string>)
    ensures Given(req.authorization) ==> r == Some("Basic " + req.authorization.value)
    ensures !Given(req.authorization) && Given(req.username) && Given(req.password) ==>
      r == Some(BasicAuth.Header(Strip(req.username.value), Strip(req.password.value)))
    ensures r.None? <==> !Given(req.authorization) && !(Given(req.username) && Given(req.password))
  {
    if Given(req.authorization) then Some("Basic " + req.authorization.value)
    else if Given(req.username) && Given(req.password) then
      Some(BasicAuth.Header(Strip(req.username.value), Strip(req.password.value)))
    else None
  }

  /** The test's stripped credentials come back intact from the header. */
  lemma TestCredentialsRecoverable(req: TestRequest)
    requires !Given(req.authorization) && Given(req.username) && Given(req.password)
    requires ':' !in Strip(req.username.value)
    ensures var h := TestAuthorization(req).value;
      BasicAuth.ParseToken(h[6..]) == Some((Strip(req.username.value), Strip(req.password.value)))
  {
    BasicAuth.ParseTokenRoundTrip(Strip(req.username.value), Strip(req.password.value));
  }

  /** The fixed test order. */
  function TestPayload(): Json {
    JObj(map[
      "purchase_country" := JStr("US"),
      "purchase_currency" := JStr("USD"),
      "locale" := JStr("en-US"),
      "order_amount" := JInt(10000),
      "order_tax_amount" := JInt(1000),
      "order_lines" := JArr([JObj(map[
        "type" := JStr("physical"), "reference" := JStr("SKU123"), "name" := JStr("Blue T-Shirt"),
        "quantity" := JInt(1), "unit_price" := JInt(10000), "tax_rate" := JInt(1000),
        "total_amount" := JInt(10000), "total_tax_amount" := JInt(1000)])]),
      "billing_address" := JObj(map[
        "given_name" := JStr("John"), "family_name" := JStr("Doe"), "email" := JStr("john@doe.com"),
        "street_address" := JStr("Lombard St 10"), "postal_code" := JStr("90210"), "city" := JStr("Beverly Hills"),
        "region" := JStr("CA"), "phone" := JStr("333444555"), "country" := JStr("US")]),
      "customer" := JObj(map["type" := JStr("person"), "date_of_birth" := JStr("1995-10-20")]),
      "merchant_urls" := DefaultMerchantUrls()])
  }

  function DefaultMerchantUrls(): Json {
    JObj(map["confirmation" := JStr("https://www.example.com/confirmation"),
             "notification" := JStr("https://www.example.com/notification")])
  }

  function Headers(authorization: string): map<string, string> {
    map["Content-Type" := "application/json", "Authorization" := authorization, "User-Agent" := "curl/7.79.1"]
  }

  /** How the test classifies Klarna's answer: 200 or 201 is success, 401
      bad credentials, any other status a connection error, and a failed
      call an exception. */
  function TestResult(environment: string, reply: Http.Outcome): (r: TestResponse)
    ensures r.success <==> reply.Received? && reply.response.status in {200, 201}
    ensures r.error == Some("AUTHENTICATION_FAILED") <==> reply.Received? && reply.response.status == 401
    ensures r.error == Some("CONNECTION_ERROR") <==>
      reply.Received? && reply.response.status !in {200, 201, 401}
    ensures r.error == Some("EXCEPTION") <==> !reply.Received?
    ensures r.success <==> r.error == None
    ensures "environment" in r.details && r.details["environment"] == JStr(environment)
  {
    match reply
    case TimedOut(m) => Failed(environment, m)
    case TransportError(m) => Failed(environment, m)
    case Received(resp) =>
      var details := map["environment" := JStr(environment), "status_code" := JInt(resp.status), "response" := JStr(resp.text)];
      if resp.status == 200 || resp.status == 201 then TestResponse(true, "Klarna connection test successful", None, details)
      else if resp.status == 401 then
        TestResponse(false, "Klarna credentials are invalid (401 Unauthorized)", Some("AUTHENTICATION_FAILED"), details)
      else TestResponse(false, "Klarna connection failed: " + resp.text, Some("CONNECTION_ERROR"), details)
  }

  function Failed(environment: string, message: string): TestResponse {
    TestResponse(false, "Klarna test connection error: " + message, Some("EXCEPTION"),
                 map["environment" := JStr(environment), "exception" := JStr(message)])
  }

  // ---- sessions --------------------------------------------------------------

  /** One entry of `items`, with the fields the order line reads. The two
      amounts are what `int(float(unit_price) * 100)` and
      `int(float(unit_price) * quantity * 100)` give in binary floating point,
      computed by the caller: for a unit price of 0.29 the first is 28. */
  datatype LineInput = LineInput(productId: Json, name: Json, quantity: int, unitPriceCents: int, totalCents: int)

  /** `KlarnaSessionRequestSchema`. */
  datatype SessionRequest = SessionRequest(
    orderId: string, customer: map<string, Json>, items: seq<LineInput>,
    shippingAddress: map<string, Json>, billingAddress: Option<map<string, Json>>,
    taxAmount: real, totalAmount: real, currency: string,
    paymentConfig: Option<map<string, Json>>, merchantUrls: Option<map<string, string>>)

  /** `KlarnaSessionResponseSchema`. */
  datatype SessionResponse = SessionResponse(success: bool, sessionId: Json, clientToken: Json, htmlSnippet: Json,
                                             message: string, error: Option<string>, details: Json)

  /** One order line: the item's reference, name, quantity and amounts, with
      no tax. */
  function OrderLine(item: LineInput): (r: Json)
    ensures r.JObj? && r.fields.Keys ==
      {"type", "reference", "name", "quantity", "unit_price", "tax_rate", "total_amount", "total_tax_amount"}
    ensures r.fields["reference"] == item.productId && r.fields["name"] == item.name
    ensures r.fields["quantity"] == JInt(item.quantity)
    ensures r.fields["unit_price"] == JInt(item.unitPriceCents) && r.fields["total_amount"] == JInt(item.totalCents)
    ensures r.fields["tax_rate"] == JInt(0) && r.fields["total_tax_amount"] == JInt(0)
  {
    JObj(map[
      "type" := JStr("physical"), "reference" := item.productId, "name" := item.name,
      "quantity" := JInt(item.quantity), "unit_price" := JInt(item.unitPriceCents), "tax_rate" := JInt(0),
      "total_amount" := JInt(item.totalCents), "total_tax_amount" := JInt(0)])
  }

  /** Python `d or default` on an optional dict: an empty dict is falsy. */
  function OrDefault<V>(d: Option<map<string, V>>, default: map<string, V>): (r: map<string, V>)
    ensures d.Some? && d.value != map[] ==> r == d.value
    ensures !(d.Some? && d.value != map[]) ==> r == default
  {
    if d.Some? && d.value != map[] then d.value else default
  }

  /** The session payload: billing falls back to shipping and the merchant
      URLs to the example URLs; one order line per item, in order.
      `orderAmount` and `orderTaxAmount` are what `int(total_amount * 100)` and
      `int(tax_amount * 100)` give in binary floating point (1998 for a total
      of 19.99), computed by the caller. */
  function SessionPayload(req: SessionRequest, orderAmount: int, orderTaxAmount: int): (r: Json)
    ensures r.JObj? && "billing_address" in r.fields && "order_lines" in r.fields && "merchant_urls" in r.fields
    ensures "order_amount" in r.fields && r.fields["order_amount"] == JInt(orderAmount)
    ensures "order_tax_amount" in r.fields && r.fields["order_tax_amount"] == JInt(orderTaxAmount)
    ensures "purchase_country" in r.fields && r.fields["purchase_country"] == Lookup(req.shippingAddress, "country_code", JStr("US"))
    ensures "customer" in r.fields && r.fields["customer"] == JObj(req.customer)
    ensures req.merchantUrls.Some? && req.merchantUrls.value != map[] ==>
      StrMap(r.fields["merchant_urls"]) == req.merchantUrls
    ensures r.fields["billing_address"] == JObj(OrDefault(req.billingAddress, req.shippingAddress))
    ensures req.merchantUrls.None? || req.merchantUrls.value == map[] ==> r.fields["merchant_urls"] == DefaultMerchantUrls()
    ensures var lines := r.fields["order_lines"];
      lines.JArr? && |lines.items| == |req.items| &&
      forall i :: 0 <= i < |req.items| ==> lines.items[i] == OrderLine(req.items[i])
  {
    var urls := if req.merchantUrls.Some? && req.merchantUrls.value != map[] then
      JObj(map k | k in req.merchantUrls.value :: JStr(req.merchantUrls.value[k]))
    else DefaultMerchantUrls();
    assert req.merchantUrls.Some? && req.merchantUrls.value != map[] ==>
      StrMap(urls).Some? && StrMap(urls).value == req.merchantUrls.value;
    JObj(map[
      "purchase_country" := Lookup(req.shippingAddress, "country_code", JStr("US")),
      "purchase_currency" := JStr(req.currency),
      "locale" := JStr("en-US"),
      "order_amount" := JInt(orderAmount),
      "order_tax_amount" := JInt(orderTaxAmount),
      "order_lines" := JArr(seq(|req.items|, i requires 0 <= i < |req.items| => OrderLine(req.items[i]))),
      "billing_address" := JObj(OrDefault(req.billingAddress, req.shippingAddress)),
      "customer" := JObj(req.customer),
      "merchant_urls" := urls])
  }

  /** The session's `Authorization`. Values from a non-empty `payment_config`
      override the instance's username and password, which are encoded
      unstripped and win over the instance's pre-encoded authorization. */
  function SessionAuthorization(username: Option<string>, password: Option<string>, authorization: Option<string>,
                                paymentConfig: Option<map<string, Json>>): (r: Option<string>)
    ensures var u := SessionCredential(username, paymentConfig, "username");
      var p := SessionCredential(password, paymentConfig, "password");
      (Truthy(u) && Truthy(p) ==> r == Some(BasicAuth.Header(PyStr(u), PyStr(p)))) &&
      (!(Truthy(u) && Truthy(p)) && Given(authorization) ==> r == Some("Basic " + authorization.value)) &&
      (r.None? <==> !(Truthy(u) && Truthy(p)) && !Given(authorization))
  {
    var u := SessionCredential(username, paymentConfig, "username");
    var p := SessionCredential(password, paymentConfig, "password");
    if Truthy(u) && Truthy(p) then Some(BasicAuth.Header(PyStr(u), PyStr(p)))
    else if Given(authorization) then Some("Basic " + authorization.value)
    else None
  }

  /** `payment_config.get(key, own)` when the config is a non-empty dict, else `own`. */
  function SessionCredential(own: Option<string>, paymentConfig: Option<map<string, Json>>, key: string): (r: Json)
    ensures paymentConfig.Some? && key in paymentConfig.value ==> r == paymentConfig.value[key]
    ensures !(paymentConfig.Some? && key in paymentConfig.value) ==> r == if own.Some? then JStr(own.value) else JNull
  {
    var ownJson := if own.Some? then JStr(own.value) else JNull;
    if paymentConfig.Some? && paymentConfig.value != map[] then Lookup(paymentConfig.value, key, ownJson) else ownJson
  }

  /** Reversed precedence: username and password beat a configured
      authorization in a session, while the connection test prefers the
      authorization. */
  lemma PrecedenceReversed(user: string, pass: string, auth: string, environment: string, region: Option<string>)
    requires user != "" && pass != "" && auth != ""
    ensures SessionAuthorization(Some(user), Some(pass), Some(auth), None) == Some(BasicAuth.Header(user, pass))
    ensures TestAuthorization(TestRequest(Some(user), Some(pass), environment, region, Some(auth))) == Some("Basic " + auth)
  {
  }

  /** The session answers `KlarnaSessionResponseSchema` accepts: a dict whose
      `session_id`, `client_token` and `html_snippet` are each absent, null or
      a string. */
  predicate IsSessionData(data: map<string, Json>) {
    NullOrStr(Lookup(data, "session_id", JNull)) && NullOrStr(Lookup(data, "client_token", JNull)) &&
    NullOrStr(Lookup(data, "html_snippet", JNull))
  }

  /** The answer to the session call. A body that is not JSON, is not a dict,
      or that the response schema refuses raises inside the `try`, which
      answers EXCEPTION. */
  function SessionResult(reply: Http.Outcome): (r: SessionResponse)
    ensures r.success <==>
      reply.Received? && reply.response.status in {200, 201} && reply.response.body.Success? &&
      reply.response.body.value.JObj? && IsSessionData(reply.response.body.value.fields)
    ensures reply.Received? && reply.response.status !in {200, 201} ==>
      r == SessionResponse(false, JNull, JNull, JNull, "Klarna session creation failed: " + reply.response.text,
                           Some("SESSION_CREATION_FAILED"),
                           JObj(map["status_code" := JInt(reply.response.status), "response" := JStr(reply.response.text)]))
    ensures reply.Received? && reply.response.status in {200, 201} && reply.response.body.Failure? ==>
      r == SessionFailed(reply.response.body.error)
    ensures !reply.Received? ==> r == SessionFailed(reply.message)
    ensures !r.success && r.error == Some("EXCEPTION") ==>
      !reply.Received? || reply.response.status in {200, 201}
    ensures r.success ==>
      var data := reply.response.body.value.fields;
      r == SessionResponse(true, Lookup(data, "session_id", JNull), Lookup(data, "client_token", JNull),
                           Lookup(data, "html_snippet", JNull), "Klarna session created", None, JObj(data))
  {
    match reply
    case TimedOut(m) => SessionFailed(m)
    case TransportError(m) => SessionFailed(m)
    case Received(resp) =>
      if resp.status == 200 || resp.status == 201 then
        match resp.body
        case Failure(e) => SessionFailed(e)
        case Success(JObj(data)) =>
          if !NullOrStr(Lookup(data, "session_id", JNull)) then SessionFailed("session_id: Input should be a valid string")
          else if !NullOrStr(Lookup(data, "client_token", JNull)) then SessionFailed("client_token: Input should be a valid string")
          else if !NullOrStr(Lookup(data, "html_snippet", JNull)) then SessionFailed("html_snippet: Input should be a valid string")
          else
            SessionResponse(true, Lookup(data, "session_id", JNull), Lookup(data, "client_token", JNull),
                            Lookup(data, "html_snippet", JNull), "Klarna session created", None, JObj(data))
        case Success(other) => SessionFailed("'" + TypeName(other) + "' object has no attribute 'get'")
      else
        SessionResponse(false, JNull, JNull, JNull, "Klarna session creation failed: " + resp.text,
                        Some("SESSION_CREATION_FAILED"),
                        JObj(map["status_code" := JInt(resp.status), "response" := JStr(resp.text)]))
  }

  function SessionFailed(message: string): SessionResponse {
    SessionResponse(false, JNull, JNull, JNull, "Klarna session creation error: " + message, Some("EXCEPTION"),
                    JObj(map["exception" := JStr(message)]))
  }

  const MissingSessionCredentials: SessionResponse :=
    SessionResponse(false, JNull, JNull, JNull, "Missing Klarna credentials", Some("MISSING_CREDENTIALS"), JNull)

  const SessionsPath: string := "/payments/v1/sessions"

  // ---- the service -----------------------------------------------------------

  class KlarnaService {
    var username: Option<string>
    var password: Option<string>
    var environment: string
    var region: string
    var authorization: Option<string>
    var apiBase: string

    /** `__init__`: a missing or empty region means North America. */
    constructor(username: Option<string>, password: Option<string>, environment: string, region: Option<string>,
                authorization: Option<string>)
      ensures this.username == username && this.password == password && this.environment == environment
      ensures this.authorization == authorization
      ensures this.region == if Given(region) then region.value else "North America"
      ensures apiBase == BaseUrl(this.region, environment)
    {
      this.username := username;
      this.password := password;
      this.environment := environment;
      this.region := if Given(region) then region.value else "North America";
      this.authorization := authorization;
      apiBase := BaseUrl(if Given(region) then region.value else "North America", environment);
    }

    /** `test_connection`. Without credentials nothing is sent and nothing
        changes; otherwise a given region moves `apiBase` before the request is
        sent there. `reply` stands for Klarna's answer. */
    method TestConnection(req: TestRequest, reply: Http.Outcome) returns (sent: Option<Http.Request>, r: TestResponse)
      modifies this
      ensures username == old(username) && password == old(password) && environment == old(environment)
      ensures region == old(region) && authorization == old(authorization)
      ensures TestAuthorization(req).None? ==> sent.None? && r == MissingTestCredentials && apiBase == old(apiBase)
      ensures TestAuthorization(req).Some? ==>
        apiBase == (if Given(req.region) then BaseUrl(req.region.value, req.environment) else old(apiBase)) &&
        sent == Some(Http.Request("POST", apiBase + SessionsPath, Headers(TestAuthorization(req).value), TestPayload())) &&
        r == TestResult(environment, reply)
    {
      var auth := TestAuthorization(req);
      if auth.None? {
        return None, MissingTestCredentials;
      }
      if Given(req.region) {
        apiBase := BaseUrl(req.region.value, req.environment);
      }
      sent := Some(Http.Request("POST", apiBase + SessionsPath, Headers(auth.value), TestPayload()));
      r := TestResult(environment, reply);
    }

    /** `create_session`: sent to the current `apiBase`, nothing changes.
        `orderAmount` and `orderTaxAmount` are the payload's float-computed
        cent amounts. */
    method CreateSession(req: SessionRequest, orderAmount: int, orderTaxAmount: int, reply: Http.Outcome)
      returns (sent: Option<Http.Request>, r: SessionResponse)
      ensures var auth := SessionAuthorization(username, password, authorization, req.paymentConfig);
        (auth.None? ==> sent.None? && r == MissingSessionCredentials) &&
        (auth.Some? ==>
          sent == Some(Http.Request("POST", apiBase + SessionsPath, Headers(auth.value),
                                    SessionPayload(req, orderAmount, orderTaxAmount))) &&
          r == SessionResult(reply))
    {
      var auth := SessionAuthorization(username, password, authorization, req.paymentConfig);
      if auth.None? {
        return None, MissingSessionCredentials;
      }
      sent := Some(Http.Request("POST", apiBase + SessionsPath, Headers(auth.value),
                                SessionPayload(req, orderAmount, orderTaxAmount)));
      r := SessionResult(reply);
    }
  }
}
