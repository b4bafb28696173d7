/** The Authorize.Net route (`app/checkout/credit_card/authorize/routes.py`):
    one `createTransactionRequest` built from the untyped request body, sent to
    the sandbox or production endpoint, and the answer classified by its
    `responseCode`. */
module AuthorizeRoutes {
  import opened Wrappers
  import opened Json
  import opened Text
  import Http

  const SandboxUrl: string := "https://apitest.authorize.net/xml/v1/request.api"
  const ProductionUrl: string := "https://api2.authorize.net/xml/v1/request.api"

  /** The endpoint: sandbox exactly when `environment == "sandbox"`. */
  function Endpoint(environment: Json): (url: string)
    ensures url == SandboxUrl <==> environment == JStr("sandbox")
    ensures url == SandboxUrl || url == ProductionUrl
  {
    if environment == JStr("sandbox") then SandboxUrl else ProductionUrl
  }

  /** Python `s[-2:]`: the last two characters, or all of a shorter string. */
  function LastTwo(s: string): (r: string)
    ensures |r| == if |s| < 2 then |s| else 2
    ensures r == s[|s| - |r|..]
  {
    if |s| <= 2 then s else s[|s| - 2..]
  }

  /** `expirationDate`: `str(month).zfill(2)` followed by `str(year)[-2:]`. */
  function ExpirationDate(month: Json, year: Json): string {
    ZFill(PyStr(month), 2) + LastTwo(PyStr(year))
  }

  lemma TwoDigits(a: nat, b: nat)
    requires a < 10 && b < 10
    ensures DigitsValue([DigitChar(a), DigitChar(b)]) == 10 * a + b
  {
    var s := [DigitChar(a), DigitChar(b)];
    assert s[..|s| - 1] == [DigitChar(a)];
    assert [DigitChar(a)][..0] == [];
    assert DigitsValue([DigitChar(a)]) == a;
  }

  /** A month number pads to two digits that read back as the month. */
  lemma MonthTwoDigits(m: int)
    requires 1 <= m <= 12
    ensures var mm := ZFill(NatToString(m), 2); |mm| == 2 && IsDigits(mm) && DigitsValue(mm) == m
  {
    if m < 10 {
      assert NatToString(m) == [DigitChar(m)];
      assert ZFill(NatToString(m), 2) == [DigitChar(0), DigitChar(m)];
      TwoDigits(0, m);
    } else {
      assert NatToString(m) == NatToString(1) + [DigitChar(m % 10)];
      assert NatToString(m) == [DigitChar(1), DigitChar(m % 10)];
      TwoDigits(1, m % 10);
    }
  }

  /** The last two characters of a four-digit year are the year modulo 100. */
  lemma YearLastTwo(y: int)
    requires 1000 <= y <= 9999
    ensures var t := LastTwo(NatToString(y)); |t| == 2 && IsDigits(t) && DigitsValue(t) == y % 100
  {
    var hi := NatToString(y / 100);
    assert |hi| == 2 by {
      assert hi == NatToString(y / 1000) + [DigitChar((y / 100) % 10)];
    }
    assert NatToString(y / 10) == hi + [DigitChar((y / 10) % 10)];
    var ys := NatToString(y);
    assert ys == hi + [DigitChar((y / 10) % 10)] + [DigitChar(y % 10)];
    assert LastTwo(ys) == [DigitChar((y / 10) % 10), DigitChar(y % 10)];
    TwoDigits((y / 10) % 10, y % 10);
  }

  /** For a month number and a four-digit year the expiry is MMYY: four
      digits, the month in the first two and the year modulo 100 in the last two. */
  lemma ExpiryIsMMYY(m: int, y: int)
    requires 1 <= m <= 12 && 1000 <= y <= 9999
    ensures var r := ExpirationDate(JInt(m), JInt(y));
      |r| == 4 && IsDigits(r) && DigitsValue(r[..2]) == m && DigitsValue(r[2..]) == y % 100
  {
    var mm := ZFill(NatToString(m), 2);
    var t := LastTwo(NatToString(y));
    MonthTwoDigits(m);
    YearLastTwo(y);
    var r := ExpirationDate(JInt(m), JInt(y));
    assert r == mm + t;
    assert r[..2] == mm && r[2..] == t;
  }

  /** The billTo name fallback from `name_on_card`: its first space-separated
      piece, and its second piece or "". A non-empty value that is not a string
      cannot be split. */
  function NameParts(nameOnCard: Json): (r: Result<(string, string), string>)
    ensures r.Success? <==> !Truthy(nameOnCard) || nameOnCard.JStr?
    ensures !Truthy(nameOnCard) ==> r == Success(("", ""))
    ensures r.Success? && nameOnCard.JStr? && nameOnCard.s != [] ==>
      r.value.0 <= nameOnCard.s && ' ' !in r.value.0 && ' ' !in r.value.1
  {
    if !Truthy(nameOnCard) then Success(("", ""))
    else if !nameOnCard.JStr? then Failure("'" + TypeName(nameOnCard) + "' object has no attribute 'split'")
    else
      var pieces := Split(nameOnCard.s, ' ');
      SplitFirstPiece(nameOnCard.s, ' ');
      SplitPiecesFree(nameOnCard.s, ' ');
      Success((pieces[0], if |pieces| > 1 then pieces[1] else ""))
  }

  /** "First Last" falls back to first name "First" and last name "Last"; any
      further pieces are dropped. */
  lemma NamePartsOfFullName(first: string, last: string, rest: string)
    requires ' ' !in first && ' ' !in last
    ensures NameParts(JStr(first + " " + last + rest)) ==
      Success((first, if rest == [] || rest[0] == ' ' then last else Split(last + rest, ' ')[0]))
  {
    var s := first + " " + last + rest;
    assert s == first + [' '] + (last + rest);
    SplitAt(first, last + rest, ' ');
    SplitFirstPiece(last + rest, ' ');
    if rest == [] {
      assert last + rest == last;
      SplitWithout(last, ' ');
    } else if rest[0] == ' ' {
      assert last + rest == last + [' '] + rest[1..];
      SplitAt(last, rest[1..], ' ');
    }
  }

  /** A single-word name is the first name, and the last name is empty. */
  lemma NamePartsOfOneWord(name: string)
    requires name != [] && ' ' !in name
    ensures NameParts(JStr(name)) == Success((name, ""))
  {
    SplitWithout(name, ' ');
  }

  /** `billTo`: customer names win over the `name_on_card` fallback; the
      address comes from `billing_address`, with country defaulting to "US". */
  function BillTo(checkout: map<string, Json>, nameOnCard: Json): (r: Result<map<string, Json>, string>)
    ensures r.Success? ==>
      var customer := Lookup(checkout, "customer", EmptyObj);
      customer.JObj? && NameParts(nameOnCard).Success? &&
      "firstName" in r.value && "lastName" in r.value &&
      r.value["firstName"] == Lookup(customer.fields, "first_name", JStr(NameParts(nameOnCard).value.0)) &&
      r.value["lastName"] == Lookup(customer.fields, "last_name", JStr(NameParts(nameOnCard).value.1))
    ensures r.Success? ==>
      var billing := Lookup(checkout, "billing_address", EmptyObj);
      billing.JObj? && "country" in r.value &&
      r.value["country"] == Lookup(billing.fields, "country_code", JStr("US"))
  {
    var customer := Lookup(checkout, "customer", EmptyObj);
    if !customer.JObj? then Failure("'" + TypeName(customer) + "' object has no attribute 'get'")
    else
      var names :- NameParts(nameOnCard);
      var billing := Lookup(checkout, "billing_address", EmptyObj);
      if !billing.JObj? then Failure("'" + TypeName(billing) + "' object has no attribute 'get'")
      else
        Success(map[
          "firstName" := Lookup(customer.fields, "first_name", JStr(names.0)),
          "lastName" := Lookup(customer.fields, "last_name", JStr(names.1)),
          "address" := Lookup(billing.fields, "line1", JStr("")),
          "city" := Lookup(billing.fields, "city", JStr("")),
          "state" := Lookup(billing.fields, "state", JStr("")),
          "zip" := Lookup(billing.fields, "postal_code", JStr("")),
          "country" := Lookup(billing.fields, "country_code", JStr("US")),
          "email" := Lookup(customer.fields, "email", JStr(""))])
  }

  /** The `createTransactionRequest` payload (an auth-and-capture). */
  function Payload(login: Json, transactionKey: Json, checkout: map<string, Json>): (r: Result<Json, string>)
    ensures r.Success? ==> Lookup(checkout, "payment_method", EmptyObj).JObj?
  {
    var paymentMethod := Lookup(checkout, "payment_method", EmptyObj);
    if !paymentMethod.JObj? then Failure("'" + TypeName(paymentMethod) + "' object has no attribute 'get'")
    else
      var pm := paymentMethod.fields;
      var expiry := ExpirationDate(Lookup(pm, "expiry_month", JStr("")), Lookup(pm, "expiry_year", JStr("")));
      var orderId := PyStr(Lookup(checkout, "order_id", JStr("")));
      var billTo :- BillTo(checkout, Lookup(pm, "name_on_card", JStr("")));
      var card := map["cardNumber" := Lookup(pm, "card_number", JStr("")), "expirationDate" := JStr(expiry),
                      "cardCode" := Lookup(pm, "cvc", JStr(""))];
      var transaction := map[
        "transactionType" := JStr("authCaptureTransaction"),
        "amount" := JStr(PyStr(Lookup(checkout, "total_amount", JStr("0.00")))),
        "payment" := JObj(map["creditCard" := JObj(card)]),
        "order" := JObj(map["invoiceNumber" := JStr(orderId), "description" := JStr("Order " + orderId)]),
        "billTo" := JObj(billTo)];
      Success(JObj(map["createTransactionRequest" := JObj(map[
        "merchantAuthentication" := JObj(map["name" := login, "transactionKey" := transactionKey]),
        "transactionRequest" := JObj(transaction)])]))
  }

  /** Python `j[0].get(key, '')`: the field of the first element of a list of dicts. */
  function FirstField(j: Json, key: string): (r: Result<Json, string>)
    ensures r.Success? <==> j.JArr? && |j.items| > 0 && j.items[0].JObj?
    ensures r.Success? ==> r.value == Lookup(j.items[0].fields, key, JStr(""))
  {
    match j
    case JArr(items) =>
      if items == [] then Failure("list index out of range")
      else if !items[0].JObj? then Failure("'" + TypeName(items[0]) + "' object has no attribute 'get'")
      else Success(Lookup(items[0].fields, key, JStr("")))
    case JObj(_) => Failure("0")
    case JStr(s) => if s == [] then Failure("string index out of range") else Failure("'str' object has no attribute 'get'")
    case _ => Failure("'" + TypeName(j) + "' object is not subscriptable")
  }

  /** What the gateway's answer says. */
  datatype Verdict = Verdict(success: bool, transactionId: Json, authCode: Json, messageText: Json, errorMessage: Json)

  /** The classifier: success iff `transactionResponse.responseCode == '1'`; the
      error text is the first `errors[].errorText` when there are errors, and
      the first message's text otherwise. */
  function Classify(result: Json): (r: Result<Verdict, string>)
    ensures r.Success? ==>
      result.JObj? && Lookup(result.fields, "transactionResponse", EmptyObj).JObj?
    ensures r.Success? ==>
      var tr := Lookup(result.fields, "transactionResponse", EmptyObj).fields;
      (r.value.success <==> "responseCode" in tr && tr["responseCode"] == JStr("1")) &&
      r.value.transactionId == Lookup(tr, "transId", JStr("")) &&
      r.value.authCode == Lookup(tr, "authCode", JStr("")) &&
      (Truthy(Lookup(tr, "errors", JNull)) ==>
        FirstField(tr["errors"], "errorText") == Success(r.value.errorMessage)) &&
      (!Truthy(Lookup(tr, "errors", JNull)) ==> r.value.errorMessage == r.value.messageText)
    ensures r.Success? ==>
      var holder := Lookup(result.fields, "messages", EmptyObj);
      holder.JObj? &&
      var messages := Lookup(holder.fields, "message", JArr([EmptyObj]));
      (Truthy(messages) ==> FirstField(messages, "text") == Success(r.value.messageText)) &&
      (!Truthy(messages) ==> r.value.messageText == JStr(""))
  {
    var tr :- Get(result, "transactionResponse", EmptyObj);
    var holder := Lookup(result.fields, "messages", EmptyObj);
    var messages :- Get(holder, "message", JArr([EmptyObj]));
    var text :- if Truthy(messages) then FirstField(messages, "text") else Success(JStr(""));
    var code :- Get(tr, "responseCode", JNull);
    var errors := Lookup(tr.fields, "errors", JNull);
    var error :- if Truthy(errors) then FirstField(errors, "errorText") else Success(text);
    Success(Verdict(code == JStr("1"), Lookup(tr.fields, "transId", JStr("")), Lookup(tr.fields, "authCode", JStr("")),
                    text, error))
  }

  /** The route's answer body; `message` is the message text on success and
      the error text otherwise. */
  function ResponseData(checkout: map<string, Json>, v: Verdict, result: Json, now: string): (r: map<string, Json>)
    ensures "success" in r && r["success"] == JBool(v.success)
    ensures "status" in r && r["status"] == JStr(if v.success then "approved" else "declined")
    ensures "message" in r && r["message"] == if v.success then v.messageText else v.errorMessage
    ensures "raw" in r && r["raw"] == result
  {
    map[
      "success" := JBool(v.success),
      "order_id" := Lookup(checkout, "order_id", JNull),
      "transaction_id" := v.transactionId,
      "auth_code" := v.authCode,
      "status" := JStr(if v.success then "approved" else "declined"),
      "message" := if v.success then v.messageText else v.errorMessage,
      "amount" := Lookup(checkout, "total_amount", JNull),
      "currency" := Lookup(checkout, "currency", JStr("usd")),
      "timestamp" := JStr(now),
      "raw" := result]
  }

  /** `payment_config.get('api_login_id')`, `.get('transaction_key')` and
      `.get('environment', 'sandbox')`. */
  function Credentials(body: Json): (r: Result<(Json, Json, Json), string>)
    ensures r.Success? ==> body.JObj?
  {
    var config :- Get(body, "payment_config", EmptyObj);
    var login :- Get(config, "api_login_id", JNull);
    Success((login, Lookup(config.fields, "transaction_key", JNull), Lookup(config.fields, "environment", JStr("sandbox"))))
  }

  /** The configuration lacks the login or the transaction key. */
  predicate MissingCredentials(body: Json) {
    Credentials(body).Success? && (!Truthy(Credentials(body).value.0) || !Truthy(Credentials(body).value.1))
  }

  /** `process_authorize_payment`. `reply` is the gateway's answer and `now`
      the `timestamp` text. */
  function ProcessAuthorizePayment(body: Json, reply: Http.Outcome, now: string): (x: Http.Exchange)
    ensures |x.sent| <= 1
    ensures MissingCredentials(body) ==>
      x == Http.Exchange([], Http.HttpError(400, "Authorize.Net credentials are required in payment configuration"))
    ensures x.sent != [] ==>
      Credentials(body).Success? && Truthy(Credentials(body).value.0) && Truthy(Credentials(body).value.1) &&
      Payload(Credentials(body).value.0, Credentials(body).value.1, Drop(body, "payment_config").fields).Success? &&
      x.sent[0] == Http.Request("POST", Endpoint(Credentials(body).value.2), map["Content-Type" := "application/json"],
        Payload(Credentials(body).value.0, Credentials(body).value.1, Drop(body, "payment_config").fields).value)
    ensures x.sent != [] && reply.Received? && reply.response.status != 200 ==>
      x.reply == Http.HttpError(502, "Authorize.Net API error: " + reply.response.text)
    ensures x.sent != [] && reply.Received? && reply.response.status == 200 && reply.response.body.Failure? ==>
      x == Http.Internal(x.sent, reply.response.body.error)
    ensures x.sent != [] && reply.Received? && reply.response.status == 200 && reply.response.body.Success? &&
            Classify(reply.response.body.value).Success? ==>
      var v := Classify(reply.response.body.value).value;
      var data := ResponseData(Drop(body, "payment_config").fields, v, reply.response.body.value, now);
      x.reply == if v.success then Http.Reply(200, JObj(data)) else Http.HttpErrorWith(400, JObj(data))
    ensures x.reply.status == 200 ==>
      x.sent != [] && reply.Received? && reply.response.status == 200 && reply.response.body.Success? &&
      Classify(reply.response.body.value).Success? && Classify(reply.response.body.value).value.success
  {
    match Credentials(body)
    case Failure(e) => Http.Internal([], e)
    case Success((login, key, environment)) =>
      if !Truthy(login) || !Truthy(key) then
        Http.Exchange([], Http.HttpError(400, "Authorize.Net credentials are required in payment configuration"))
      else
        var checkout := Drop(body, "payment_config").fields;
        match Payload(login, key, checkout)
        case Failure(e) => Http.Internal([], e)
        case Success(payload) =>
          var request := Http.Request("POST", Endpoint(environment), map["Content-Type" := "application/json"], payload);
          match reply
          case TimedOut(m) => Http.Internal([request], m)
          case TransportError(m) => Http.Internal([request], m)
          case Received(resp) =>
            if resp.status != 200 then Http.Exchange([request], Http.HttpError(502, "Authorize.Net API error: " + resp.text))
            else
              match resp.body
              case Failure(e) => Http.Internal([request], e)
              case Success(result) =>
              match Classify(result)
              case Failure(e) => Http.Internal([request], e)
              case Success(v) =>
                var data := ResponseData(checkout, v, result, now);
                Http.Exchange([request], if v.success then Http.Reply(200, JObj(data)) else Http.HttpErrorWith(400, JObj(data)))
  }
}
