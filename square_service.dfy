/** The Square card service (`app/checkout/credit_card/square/services.py`):
    the constructor's credential guard, the connection test that looks the
    configured location up among the account's locations, and payment
    creation with its status mapping and error responses. The SDK calls are
    inputs: the outcome of listing locations and of creating a payment. */
module SquareService {
  import opened Wrappers
  import opened Json
  import Text
  import opened CardSchemas
  import opened SquareSchemas

  /** `SquareEnvironment`. */
  datatype SdkEnvironment = Sandbox | Production

  /** Only "sandbox" selects the sandbox; every other value is production. */
  function SdkEnvironmentOf(environment: string): (r: SdkEnvironment)
    ensures r == Sandbox <==> environment == "sandbox"
  {
    if environment == "sandbox" then Sandbox else Production
  }

  /** A constructed `SquareService`; its fields never change afterwards. */
  datatype Service = Service(applicationId: string, accessToken: string, locationId: string,
                             environment: string, client: SdkEnvironment)

  const MissingCredentials: string := "Square Application ID, Access Token, and Location ID are required"

  /** `SquareService(...)`: the `ValueError` when any credential is empty. */
  function NewService(applicationId: string, accessToken: string, locationId: string, environment: string)
    : (r: Result<Service, string>)
    ensures r.Failure? <==> applicationId == "" || accessToken == "" || locationId == ""
    ensures r.Failure? ==> r.error == MissingCredentials
    ensures r.Success? ==>
      r.value.locationId == locationId && r.value.accessToken == accessToken &&
      r.value.client == SdkEnvironmentOf(environment)
  {
    if applicationId == "" || accessToken == "" || locationId == "" then Failure(MissingCredentials)
    else Success(Service(applicationId, accessToken, locationId, environment, SdkEnvironmentOf(environment)))
  }

  // ---- test_connection ---------------------------------------------------------

  /** `SquareTestConnectionRequestSchema`. */
  datatype TestRequest = TestRequest(applicationId: string, accessToken: string, locationId: string, mode: string)

  /** One entry of an `ApiError`'s `errors`; `detail` may be `None`. */
  datatype ApiErrorDetail = ApiErrorDetail(detail: Json, code: Json)

  /** What `locations.list()` on the test client did: the ids of the
      locations it returned (none, when `locations` is empty or missing),
      an `ApiError`, or any other exception. */
  datatype ListOutcome = Listed(ids: seq<string>) | ApiFailed(errors: seq<ApiErrorDetail>) | Crashed(message: string)

  /** `SquareTestConnectionResponseSchema` without its clock-stamped `timestamp`. */
  datatype TestResponse = TestResponse(success: bool, message: string, details: map<string, Json>, error: Option<string>)

  /** The test client talks to the environment the request's mode selects. */
  function TestClient(req: TestRequest): (r: SdkEnvironment)
    ensures r == Sandbox <==> req.mode == "sandbox"
  {
    SdkEnvironmentOf(req.mode)
  }

  /** Python `s[:n]`. */
  function Prefix(s: string, n: nat): (r: string)
    ensures r <= s && |r| == if |s| < n then |s| else n
  {
    if |s| <= n then s else s[..n]
  }

  /** The message an `ApiError` from the test contributes. */
  function AuthErrorMessage(errors: seq<ApiErrorDetail>): string {
    if errors == [] then "Authentication failed" else PyStr(errors[0].detail)
  }

  /** `test_connection`: success exactly when the account has locations and
      one of them is the requested id; otherwise which of the four failures. */
  function TestConnection(req: TestRequest, outcome: ListOutcome): (r: TestResponse)
    ensures r.success <==> outcome.Listed? && |outcome.ids| > 0 && req.locationId in outcome.ids
    ensures r.success <==> r.error.None?
    ensures r.error == Some("LOCATION_NOT_FOUND") <==>
      outcome.Listed? && |outcome.ids| > 0 && req.locationId !in outcome.ids
    ensures r.error == Some("NO_LOCATIONS_FOUND") <==> outcome.Listed? && outcome.ids == []
    ensures r.error == Some("AUTHENTICATION_FAILED") <==> outcome.ApiFailed?
    ensures r.error == Some("CONNECTION_ERROR") <==> outcome.Crashed?
    ensures "mode" in r.details && r.details["mode"] == JStr(req.mode)
    ensures r.success ==>
      "locations_count" in r.details && r.details["locations_count"] == JInt(|outcome.ids|) &&
      "application_id" in r.details && r.details["application_id"] == JStr(Prefix(req.applicationId, 10) + "...")
    ensures r.error == Some("LOCATION_NOT_FOUND") ==>
      "available_locations" in r.details && AvailableIds(r.details["available_locations"]) == outcome.ids
    ensures outcome.ApiFailed? ==> r.message == "Square connection test failed: " + AuthErrorMessage(outcome.errors)
  {
    match outcome
    case Listed(ids) =>
      if ids == [] then
        TestResponse(false, "No locations found in your Square account", map["mode" := JStr(req.mode)],
                     Some("NO_LOCATIONS_FOUND"))
      else if req.locationId in ids then
        TestResponse(true, "Square connection test successful",
                     map["mode" := JStr(req.mode), "application_id" := JStr(Prefix(req.applicationId, 10) + "..."),
                         "location_id" := JStr(req.locationId), "locations_count" := JInt(|ids|)],
                     None)
      else
        TestResponse(false, "Location ID " + req.locationId + " not found in your Square account",
                     map["mode" := JStr(req.mode), "provided_location_id" := JStr(req.locationId),
                         "available_locations" := JArr(seq(|ids|, i requires 0 <= i < |ids| => JStr(ids[i])))],
                     Some("LOCATION_NOT_FOUND"))
    case ApiFailed(errors) =>
      TestResponse(false, "Square connection test failed: " + AuthErrorMessage(errors),
                   map["mode" := JStr(req.mode),
                       "errors" := JArr(seq(|errors|, i requires 0 <= i < |errors| =>
                                          JObj(map["detail" := errors[i].detail, "code" := errors[i].code])))],
                   Some("AUTHENTICATION_FAILED"))
    case Crashed(m) =>
      TestResponse(false, "Connection test failed: " + m, map["mode" := JStr(req.mode), "exception" := JStr(m)],
                   Some("CONNECTION_ERROR"))
  }

  /** Reads the ids back out of a list of id strings. */
  function AvailableIds(j: Json): seq<string> {
    if j.JArr? then seq(|j.items|, i requires 0 <= i < |j.items| => if j.items[i].JStr? then j.items[i].s else "")
    else []
  }

  // ---- create_payment ------------------------------------------------------------

  /** The test nonce sent as `source_id`. */
  const TestNonce: string := "cnon:card-nonce-ok"

  /** The arguments of `payments.create`. */
  datatype PaymentCall = PaymentCall(idempotencyKey: string, amount: int, currency: string, sourceId: string,
                                     locationId: string)

  datatype Money = Money(amount: Json, currency: Json)

  /** The SDK's `Payment`, with the attributes the service reads. */
  datatype SdkPayment = SdkPayment(id: string, status: string, amountMoney: Option<Money>, createdAt: string,
                                   updatedAt: string, metadata: Option<map<string, string>>, receiptUrl: Option<string>)

  /** What `payments.create` did: a result whose `payment` may be missing,
      an `ApiError` (with `message` when it has that attribute), or any other
      exception. */
  datatype CreateOutcome =
    | Created(payment: Option<SdkPayment>)
    | ApiRejected(message: Option<string>, errors: seq<ApiErrorDetail>)
    | Raised(exception: string)

  /** `SquarePaymentSchema`. */
  datatype PaymentRecord = PaymentRecord(id: string, status: PaymentStatus, amountMoney: map<string, Json>,
                                         createdAt: string, updatedAt: string, metadata: map<string, string>,
                                         receiptUrl: Option<string>, orderId: Option<string>)

  /** `SquareCustomerSchema`. */
  datatype CustomerRecord = CustomerRecord(id: string, email: string, firstName: Option<string>,
                                           lastName: Option<string>, phone: Option<string>)

  /** `SquareErrorSchema`. */
  datatype ErrorRecord = ErrorRecord(code: string, errorType: string, message: string)

  /** `SquareCheckoutResponseSchema`. */
  datatype CheckoutResponse = CheckoutResponse(success: bool, message: string, orderId: string,
                                               payment: Option<PaymentRecord>, customer: Option<CustomerRecord>,
                                               status: PaymentStatus, error: Option<ErrorRecord>)

  /** `_create_error_response`: a failed response whose error repeats the
      message; an empty or missing code or type takes its default. */
  function ErrorResponse(orderId: string, message: string, code: Option<string>, errorType: Option<string>)
    : (r: CheckoutResponse)
    ensures !r.success && r.status == Failed && r.orderId == orderId && r.message == message
    ensures r.payment.None? && r.customer.None? && r.error.Some? && r.error.value.message == message
    ensures r.error.value.code == if Text.Given(code) then code.value else "UNKNOWN_ERROR"
    ensures r.error.value.errorType == if Text.Given(errorType) then errorType.value else "PAYMENT_ERROR"
  {
    CheckoutResponse(false, message, orderId, None, None, Failed,
                     Some(ErrorRecord(if Text.Given(code) then code.value else "UNKNOWN_ERROR",
                                      if Text.Given(errorType) then errorType.value else "PAYMENT_ERROR", message)))
  }

  /** The arguments the service passes to `payments.create`. `amount` is
      `int(float(total_amount))`, computed by the caller in binary floating
      point (100 for a total of 99.99999999999999999). */
  function Call(svc: Service, req: CheckoutRequest, nowSeconds: int, amount: int): (r: PaymentCall)
    ensures r.amount == amount && r.currency == Text.Upper(req.currency)
    ensures r.idempotencyKey == IdempotencyKey(req.orderId, nowSeconds)
    ensures r.sourceId == TestNonce && r.locationId == svc.locationId
  {
    PaymentCall(IdempotencyKey(req.orderId, nowSeconds), amount, Text.Upper(req.currency), TestNonce, svc.locationId)
  }

  /** `f"payment_{order_id}_{seconds}"`. */
  function IdempotencyKey(orderId: string, nowSeconds: int): string {
    "payment_" + orderId + "_" + Text.IntToString(nowSeconds)
  }

  /** Two calls for one order in different seconds never share a key. */
  lemma KeysDiffer(orderId: string, t1: nat, t2: nat)
    requires t1 != t2
    ensures IdempotencyKey(orderId, t1) != IdempotencyKey(orderId, t2)
  {
    var p := "payment_" + orderId + "_";
    if IdempotencyKey(orderId, t1) == IdempotencyKey(orderId, t2) {
      var k1, k2 := IdempotencyKey(orderId, t1), IdempotencyKey(orderId, t2);
      assert k1[|p|..] == Text.NatToString(t1);
      assert k2[|p|..] == Text.NatToString(t2);
      Text.NatToStringValue(t1);
      Text.NatToStringValue(t2);
    }
  }

  /** The message of the exception building the `SquarePaymentSchema` raises,
      or `None` when it is built: a missing `amount_money` fails first, then a
      status outside `SquarePaymentStatus`. */
  function SchemaError(p: SdkPayment): (r: Option<string>)
    ensures r.None? <==> p.amountMoney.Some? && ParseStatus(p.status).Some?
  {
    if p.amountMoney.None? then Some("'NoneType' object has no attribute 'amount'")
    else if ParseStatus(p.status).None? then Some("1 validation error for SquarePaymentSchema\nstatus")
    else None
  }

  /** The message an `ApiError` from payment creation contributes. */
  function ApiMessage(message: Option<string>, errors: seq<ApiErrorDetail>): string {
    if message.Some? then message.value
    else if errors != [] then PyStr(errors[0].detail)
    else "Payment creation failed"
  }

  /** The response for a created payment whose schema builds. */
  function Processed(req: CheckoutRequest, p: SdkPayment): (r: CheckoutResponse)
    requires SchemaError(p).None?
    ensures r.success && r.orderId == req.orderId && r.payment.Some? && r.customer.Some?
    ensures r.status == Completed <==> p.status == "COMPLETED"
    ensures r.status != Completed ==> r.status == Pending
    ensures r.payment.value.id == p.id && r.payment.value.status.Name() == p.status
    ensures r.payment.value.orderId == Some(req.orderId)
    ensures r.customer.value.id == "test_customer" && r.customer.value.email == req.customer.email
  {
    var payment := PaymentRecord(p.id, ParseStatus(p.status).value,
                                 map["amount" := p.amountMoney.value.amount, "currency" := p.amountMoney.value.currency],
                                 p.createdAt, p.updatedAt,
                                 if p.metadata.Some? then p.metadata.value else map[], p.receiptUrl, Some(req.orderId));
    var customer := CustomerRecord("test_customer", req.customer.email, Some(req.customer.firstName),
                                   Some(req.customer.lastName), req.customer.phone);
    CheckoutResponse(true, "Payment processed successfully", req.orderId, Some(payment), Some(customer),
                     if p.status == "COMPLETED" then Completed else Pending, None)
  }

  /** One `create_payment` exchange: the call it makes, if any, and what it answers. */
  datatype Attempt = Attempt(call: Option<PaymentCall>, response: CheckoutResponse)

  /** `create_payment`. `nowSeconds` is the integer timestamp taken for the
      idempotency key; `amount` is `int(float(total_amount))` or the message
      of the exception it raised (an `OverflowError` for a total beyond the
      float range); `outcome` is what the SDK did with the call. */
  function CreatePayment(svc: Service, req: CheckoutRequest, nowSeconds: int, amount: Result<int, string>,
                         outcome: CreateOutcome): (r: Attempt)
    ensures amount.Failure? ==>
      r == Attempt(None, ErrorResponse(req.orderId, "Payment processing error: " + amount.error,
                                       Some("payment_processing_error"), None))
    ensures amount.Success? ==> r.call == Some(Call(svc, req, nowSeconds, amount.value))
    ensures r.response.orderId == req.orderId
    ensures r.response.success <==>
      amount.Success? && outcome.Created? && outcome.payment.Some? && SchemaError(outcome.payment.value).None?
    ensures r.response.success ==> r.response == Processed(req, outcome.payment.value)
    ensures !r.response.success ==> r.response.status == Failed && r.response.error.Some?
    ensures amount.Success? && outcome == Created(None) ==>
      r.response == ErrorResponse(req.orderId, "Failed to create payment: No payment returned",
                                  Some("payment_creation_failed"), None)
    ensures amount.Success? && outcome.ApiRejected? ==>
      r.response == ErrorResponse(req.orderId, "Failed to create payment: " + ApiMessage(outcome.message, outcome.errors),
                                  Some("payment_creation_failed"), None)
    ensures amount.Success? && outcome.Raised? ==>
      r.response == ErrorResponse(req.orderId, "Payment processing error: " + outcome.exception,
                                  Some("payment_processing_error"), None)
  {
    if amount.Failure? then
      Attempt(None, ErrorResponse(req.orderId, "Payment processing error: " + amount.error,
                                  Some("payment_processing_error"), None))
    else
    var call := Some(Call(svc, req, nowSeconds, amount.value));
    match outcome
    case Created(None) =>
      Attempt(call, ErrorResponse(req.orderId, "Failed to create payment: No payment returned",
                                  Some("payment_creation_failed"), None))
    case Created(Some(p)) =>
      var broken := SchemaError(p);
      if broken.Some? then
        Attempt(call, ErrorResponse(req.orderId, "Payment processing error: " + broken.value,
                                    Some("payment_processing_error"), None))
      else Attempt(call, Processed(req, p))
    case ApiRejected(m, errors) =>
      Attempt(call, ErrorResponse(req.orderId, "Failed to create payment: " + ApiMessage(m, errors),
                                  Some("payment_creation_failed"), None))
    case Raised(m) =>
      Attempt(call, ErrorResponse(req.orderId, "Payment processing error: " + m,
                                  Some("payment_processing_error"), None))
  }

  /** The response's status never contradicts its success flag: a successful
      response is COMPLETED or PENDING, a failed one FAILED; CANCELED never
      appears. */
  lemma StatusAgreesWithSuccess(svc: Service, req: CheckoutRequest, nowSeconds: int, amount: Result<int, string>,
                                outcome: CreateOutcome)
    ensures var r := CreatePayment(svc, req, nowSeconds, amount, outcome).response;
      (r.success <==> r.status != Failed) && r.status != Canceled
  {
  }

  /** A payment Square reports as FAILED or CANCELED is still answered as a
      successful, PENDING checkout. */
  lemma FailedPaymentAnsweredPending(svc: Service, req: CheckoutRequest, nowSeconds: int, amount: int, p: SdkPayment)
    requires p.amountMoney.Some? && (p.status == "FAILED" || p.status == "CANCELED")
    ensures var r := CreatePayment(svc, req, nowSeconds, Success(amount), Created(Some(p))).response;
      r.success && r.status == Pending
  {
    assert ParseStatus(p.status).Some?;
  }

  /** A payment in a status outside `SquarePaymentStatus` (Square's APPROVED,
      say) fails schema validation and is answered as a processing error. */
  lemma UnknownStatusIsProcessingError(svc: Service, req: CheckoutRequest, nowSeconds: int, amount: int, p: SdkPayment)
    requires p.amountMoney.Some? && p.status == "APPROVED"
    ensures var r := CreatePayment(svc, req, nowSeconds, Success(amount), Created(Some(p))).response;
      !r.success && r.error.value.code == "payment_processing_error"
  {
    assert ParseStatus("APPROVED").None?;
  }
}
