/** The admin back office (`app/admin/services.py`): the payment-gateway
    configuration store and the two connection tests.

    The store is the `payment_gateways.json` file. `stored` is its content, the
    list under `"gateways"`, or `None` while the file does not exist; reading
    and writing the file themselves are not modelled. Timestamps are the
    `datetime.now().isoformat()` text of the call, passed in as `now`. */
module AdminService {
  import opened Wrappers
  import opened Json
  import Text
  import Http
  import BasicAuth

  /** One gateway record: a JSON object such as the admin route's
      `PaymentGatewayCredentials.dict()`. */
  type Gateway = map<string, Json>

  /** `gateway.get("gateway_name") == name`: a record without a name matches a
      `None` name. */
  predicate Named(g: Gateway, name: Json) {
    Lookup(g, "gateway_name", JNull) == name
  }

  /** The two records listed while no store file exists. */
  function DefaultGateways(now: string): seq<Gateway> {
    [ map[
        "gateway_name" := JStr("paypal"),
        "gateway_type" := JStr("paypal"),
        "display_name" := JStr("PayPal Commerce Platform"),
        "is_active" := JBool(false),
        "environment" := JStr("sandbox"),
        "supports_digital_wallets" := JBool(true),
        "connection_status" := JStr("not_connected"),
        "credentials" := EmptyObj,
        "sort_order" := JInt(1),
        "created_at" := JStr(now),
        "updated_at" := JStr(now)],
      map[
        "gateway_name" := JStr("stripe"),
        "gateway_type" := JStr("card"),
        "display_name" := JStr("Stripe"),
        "is_active" := JBool(false),
        "environment" := JStr("sandbox"),
        "supports_digital_wallets" := JBool(true),
        "connection_status" := JStr("not_connected"),
        "credentials" := EmptyObj,
        "sort_order" := JInt(2),
        "created_at" := JStr(now),
        "updated_at" := JStr(now)] ]
  }

  /** The default list is paypal then stripe, both inactive, in sandbox, not
      connected and without credentials. */
  lemma DefaultGatewaysShape(now: string)
    ensures |DefaultGateways(now)| == 2
    ensures Named(DefaultGateways(now)[0], JStr("paypal")) && DefaultGateways(now)[0]["sort_order"] == JInt(1)
    ensures Named(DefaultGateways(now)[1], JStr("stripe")) && DefaultGateways(now)[1]["sort_order"] == JInt(2)
    ensures forall i :: 0 <= i < 2 ==>
      var g := DefaultGateways(now)[i];
      g["is_active"] == JBool(false) && g["environment"] == JStr("sandbox") &&
      g["connection_status"] == JStr("not_connected") && g["credentials"] == EmptyObj
  {
  }

  /** Index of the first record carrying `name`: the `enumerate` loop with its `break`. */
  function FirstIndex(gs: seq<Gateway>, name: Json): (r: Option<nat>)
    ensures r.None? <==> forall i :: 0 <= i < |gs| ==> !Named(gs[i], name)
    ensures r.Some? ==> r.value < |gs| && Named(gs[r.value], name)
    ensures r.Some? ==> forall i :: 0 <= i < r.value ==> !Named(gs[i], name)
  {
    if gs == [] then None
    else if Named(gs[0], name) then Some(0)
    else
      match FirstIndex(gs[1..], name)
      case None => None
      case Some(k) => Some(k + 1)
  }

  /** The record a save writes: the submitted data, stamped. */
  function Stamped(data: Gateway, createdAt: Json, now: string): (r: Gateway)
    ensures r.Keys == data.Keys + {"created_at", "updated_at"}
    ensures r["updated_at"] == JStr(now) && r["created_at"] == createdAt
    ensures forall k :: k in data && k != "created_at" && k != "updated_at" ==> r[k] == data[k]
  {
    data["updated_at" := JStr(now)]["created_at" := createdAt]
  }

  /** The record `save_payment_gateway(data)` writes and returns: the data
      stamped with `now`, keeping the `created_at` of the first record with the
      same name (`None`, i.e. JSON null, when it had none), or stamped `now`
      twice for a new name. */
  function SavedRecord(gs: seq<Gateway>, data: Gateway, now: string): (r: Gateway)
    requires "gateway_name" in data
    ensures r.Keys == data.Keys + {"created_at", "updated_at"}
    ensures r["updated_at"] == JStr(now) && Named(r, data["gateway_name"])
    ensures FirstIndex(gs, data["gateway_name"]).Some? ==>
      r["created_at"] == Lookup(gs[FirstIndex(gs, data["gateway_name"]).value], "created_at", JNull)
    ensures FirstIndex(gs, data["gateway_name"]).None? ==> r["created_at"] == JStr(now)
    ensures forall k :: k in data && k != "created_at" && k != "updated_at" ==> r[k] == data[k]
  {
    match FirstIndex(gs, data["gateway_name"])
    case Some(k) => Stamped(data, Lookup(gs[k], "created_at", JNull), now)
    case None => Stamped(data, JStr(now), now)
  }

  /** The store after `save_payment_gateway(data)`: the first record with the same
      name is replaced by the saved record; a new name is appended. */
  function Upsert(gs: seq<Gateway>, data: Gateway, now: string): seq<Gateway>
    requires "gateway_name" in data
  {
    match FirstIndex(gs, data["gateway_name"])
    case Some(k) => gs[k := SavedRecord(gs, data, now)]
    case None => gs + [SavedRecord(gs, data, now)]
  }

  /** Saving a name already present replaces the first record with that name in
      place, copies its `created_at`, keeps the length and touches no other record. */
  lemma UpsertExisting(gs: seq<Gateway>, data: Gateway, now: string, k: nat)
    requires "gateway_name" in data
    requires k < |gs| && Named(gs[k], data["gateway_name"])
    requires forall i :: 0 <= i < k ==> !Named(gs[i], data["gateway_name"])
    ensures |Upsert(gs, data, now)| == |gs|
    ensures Upsert(gs, data, now)[k] == Stamped(data, Lookup(gs[k], "created_at", JNull), now)
    ensures forall i :: 0 <= i < |gs| && i != k ==> Upsert(gs, data, now)[i] == gs[i]
  {
    assert FirstIndex(gs, data["gateway_name"]) == Some(k);
  }

  /** Saving a new name appends one record stamped with `now` twice. */
  lemma UpsertNew(gs: seq<Gateway>, data: Gateway, now: string)
    requires "gateway_name" in data
    requires forall i :: 0 <= i < |gs| ==> !Named(gs[i], data["gateway_name"])
    ensures Upsert(gs, data, now) == gs + [Stamped(data, JStr(now), now)]
    ensures |Upsert(gs, data, now)| == |gs| + 1
  {
  }

  /** Either way, after a save the lookup by that name finds the saved record. */
  lemma UpsertThenFind(gs: seq<Gateway>, data: Gateway, now: string)
    requires "gateway_name" in data
    ensures var r := Upsert(gs, data, now);
      var k := FirstIndex(r, data["gateway_name"]);
      k.Some? && r[k.value] == SavedRecord(gs, data, now)
  {
    var name := data["gateway_name"];
    var r := Upsert(gs, data, now);
    match FirstIndex(gs, name)
    case Some(k) =>
      UpsertExisting(gs, data, now, k);
      assert Named(r[k], name);
      forall i | 0 <= i < k ensures !Named(r[i], name) {
        assert r[i] == gs[i];
      }
      assert FirstIndex(r, name) == Some(k);
    case None =>
      assert Named(r[|gs|], name);
      forall i | 0 <= i < |gs| ensures !Named(r[i], name) {
        assert r[i] == gs[i];
      }
      assert FirstIndex(r, name) == Some(|gs|);
  }

  /** Saving the same data twice at the same time leaves the store as one save does. */
  lemma UpsertIdempotent(gs: seq<Gateway>, data: Gateway, now: string)
    requires "gateway_name" in data
    ensures Upsert(Upsert(gs, data, now), data, now) == Upsert(gs, data, now)
  {
    var name := data["gateway_name"];
    var r := Upsert(gs, data, now);
    match FirstIndex(gs, name)
    case Some(k) =>
      UpsertExisting(gs, data, now, k);
      forall i | 0 <= i < k ensures !Named(r[i], name) {
        assert r[i] == gs[i];
      }
      UpsertExisting(r, data, now, k);
      assert Upsert(r, data, now) == r;
    case None =>
      forall i | 0 <= i < |gs| ensures !Named(r[i], name) {
        assert r[i] == gs[i];
      }
      assert Named(r[|gs|], name);
      UpsertExisting(r, data, now, |gs|);
      assert Upsert(r, data, now) == r;
  }

  /** What `save_payment_gateway` returns. */
  datatype SaveResult = Saved(gateway: Gateway) | SaveFailed(error: string)

  class Store {
    /** The gateways in the store file, or `None` while there is no file. */
    var stored: Option<seq<Gateway>>

    constructor ()
      ensures stored == None
    {
      stored := None;
    }

    /** `get_payment_gateways`: the stored list, or the defaults without a file. */
    function Gateways(now: string): (r: seq<Gateway>)
      reads this
      ensures stored.None? ==> r == DefaultGateways(now)
      ensures stored.Some? ==> r == stored.value
    {
      if stored.None? then DefaultGateways(now) else stored.value
    }

    /** `get_payment_gateway`: the first record with the name, by a linear scan,
        or `None`. */
    method GetPaymentGateway(name: string, now: string) returns (r: Option<Gateway>)
      ensures r.None? <==> forall i :: 0 <= i < |Gateways(now)| ==> !Named(Gateways(now)[i], JStr(name))
      ensures r.Some? ==>
        exists k :: 0 <= k < |Gateways(now)| && r.value == Gateways(now)[k] &&
          Named(Gateways(now)[k], JStr(name)) &&
          forall i :: 0 <= i < k ==> !Named(Gateways(now)[i], JStr(name))
    {
      var gateways := Gateways(now);
      var i := 0;
      while i < |gateways|
        invariant 0 <= i <= |gateways|
        invariant forall j :: 0 <= j < i ==> !Named(gateways[j], JStr(name))
      {
        if Named(gateways[i], JStr(name)) {
          return Some(gateways[i]);
        }
        i := i + 1;
      }
      return None;
    }

    /** `save_payment_gateway`: the upsert, then the whole list is written back.
        Without a `gateway_name` the `KeyError` is reported and nothing is
        written. */
    method SavePaymentGateway(data: Gateway, now: string) returns (r: SaveResult)
      modifies this
      ensures "gateway_name" !in data ==> r == SaveFailed("'gateway_name'") && stored == old(stored)
      ensures "gateway_name" in data ==> stored == Some(Upsert(old(Gateways(now)), data, now))
      ensures "gateway_name" in data ==> r == Saved(SavedRecord(old(Gateways(now)), data, now))
    {
      if "gateway_name" !in data {
        return SaveFailed("'gateway_name'");
      }
      var gateways := Gateways(now);
      var name := data["gateway_name"];
      var existing: Option<nat> := None;
      var i := 0;
      while i < |gateways|
        invariant 0 <= i <= |gateways|
        invariant existing.None? ==> forall j :: 0 <= j < i ==> !Named(gateways[j], name)
        invariant existing == FirstIndex(gateways, name) || (existing.None? && i < |gateways|)
        decreases if existing.None? then |gateways| - i else 0
      {
        if Named(gateways[i], name) {
          existing := Some(i);
          break;
        }
        i := i + 1;
      }
      var record: Gateway;
      if existing.Some? {
        var k := existing.value;
        record := Stamped(data, Lookup(gateways[k], "created_at", JNull), now);
        gateways := gateways[k := record];
      } else {
        record := Stamped(data, JStr(now), now);
        gateways := gateways + [record];
      }
      stored := Some(gateways);
      return Saved(record);
    }

    /** `get_gateway_credentials`: `None` for an unknown gateway, otherwise the
        record's `credentials`, `{}` when it has none. */
    method GetGatewayCredentials(name: string, now: string) returns (r: Option<Json>)
      ensures r.None? <==> FirstIndex(Gateways(now), JStr(name)).None?
      ensures r.Some? ==> var g := Gateways(now)[FirstIndex(Gateways(now), JStr(name)).value];
        r.value == if "credentials" in g then g["credentials"] else EmptyObj
    {
      var gateway := GetPaymentGateway(name, now);
      if gateway.Some? {
        var g := gateway.value;
        return Some(if "credentials" in g then g["credentials"] else EmptyObj);
      }
      return None;
    }
  }

  /** What the connection tests return: `{"success": True, "details": ...}` or
      `{"success": False, "error": ..., "details"?: ...}`. */
  datatype TestResult =
    | TestOk(details: map<string, Json>)
    | TestFailed(error: string, errorDetails: Option<Json>)

  const SandboxBaseUrl: string := "https://api-m.sandbox.paypal.com"
  const LiveBaseUrl: string := "https://api-m.paypal.com"

  /** `not key or not key.strip()`. */
  predicate Blank(key: string) { key == "" || Text.Strip(key) == "" }

  /** `key.startswith('sk_test_') or key.startswith('sk_live_')`. */
  predicate SecretKeyFormat(key: string) { "sk_test_" <= key || "sk_live_" <= key }

  /** `key.startswith('pk_test_') or key.startswith('pk_live_')`. */
  predicate PublishableKeyFormat(key: string) { "pk_test_" <= key || "pk_live_" <= key }

  /** `test_stripe_connection`: the key checks in their order, then success.
      `stripeInstalled` says whether the `stripe` import succeeded. */
  function TestStripeConnection(publishableKey: string, secretKey: string, mode: string,
                                stripeInstalled: bool): (r: TestResult)
    ensures r.TestOk? <==>
      !Blank(secretKey) && !Blank(publishableKey) && stripeInstalled &&
      SecretKeyFormat(secretKey) && PublishableKeyFormat(publishableKey)
    ensures r.TestOk? ==> "mode" in r.details && r.details["mode"] == JStr(mode)
  {
    if Blank(secretKey) then TestFailed("Secret key is required", None)
    else if Blank(publishableKey) then TestFailed("Publishable key is required", None)
    else if !stripeInstalled then
      TestFailed("Stripe library not installed. Please install with: pip install stripe", None)
    else if !SecretKeyFormat(secretKey) then
      TestFailed("Invalid Stripe secret key format. Must start with 'sk_test_' or 'sk_live_'", None)
    else if !SecretKeyFormat(secretKey) then
      TestFailed("Invalid Stripe secret key format", None)
    else if !PublishableKeyFormat(publishableKey) then
      TestFailed("Invalid Stripe publishable key format", None)
    else
      TestOk(map[
        "message" := JStr("Stripe connection verified - API key is valid and working"),
        "note" := JStr("API calls successful (response_code=200), library response object issue resolved"),
        "mode" := JStr(mode)])
  }

  /** Each check fails only once every earlier one has passed: a blank secret key
      is reported before anything about the publishable key, and a bad secret key
      prefix before a bad publishable key prefix. The second secret key prefix
      check can never fire. */
  lemma StripeCheckOrder(publishableKey: string, secretKey: string, mode: string, stripeInstalled: bool)
    ensures var r := TestStripeConnection(publishableKey, secretKey, mode, stripeInstalled);
      (Blank(secretKey) ==> r == TestFailed("Secret key is required", None)) &&
      (!Blank(secretKey) && Blank(publishableKey) ==> r == TestFailed("Publishable key is required", None)) &&
      (r == TestFailed("Invalid Stripe publishable key format", None) ==>
         stripeInstalled && SecretKeyFormat(secretKey) && !PublishableKeyFormat(publishableKey)) &&
      r != TestFailed("Invalid Stripe secret key format", None)
  {
  }

  /** The OAuth token request of `test_paypal_connection`. */
  function PaypalTestRequest(clientId: string, clientSecret: string, mode: string): (r: Http.Request)
    ensures r.url == (if mode == "sandbox" then SandboxBaseUrl else LiveBaseUrl) + "/v1/oauth2/token"
    ensures "Authorization" in r.headers && r.headers["Authorization"] == BasicAuth.Header(clientId, clientSecret)
  {
    var baseUrl := if mode == "sandbox" then SandboxBaseUrl else LiveBaseUrl;
    Http.Request("POST", baseUrl + "/v1/oauth2/token",
      map["Authorization" := BasicAuth.Header(clientId, clientSecret),
          "Content-Type" := "application/x-www-form-urlencoded"],
      JObj(map["grant_type" := JStr("client_credentials")]))
  }

  /** The header carries the client credentials: a server decoding it gets the
      client id and secret back. */
  lemma PaypalTestCredentials(clientId: string, clientSecret: string, mode: string)
    requires ':' !in clientId
    ensures var h := PaypalTestRequest(clientId, clientSecret, mode).headers["Authorization"];
      h[..6] == "Basic " && BasicAuth.ParseToken(h[6..]) == Some((clientId, clientSecret))
  {
    BasicAuth.ParseTokenRoundTrip(clientId, clientSecret);
  }

  /** Python `s[:n]`. */
  function Prefix(s: string, n: nat): (r: string)
    ensures |r| <= n && r <= s
    ensures |s| <= n ==> r == s
  {
    if |s| <= n then s else s[..n]
  }

  /** What `token_data.get("access_token", "")[:20] + "..."` gives for the token
      value: the shown prefix of a string, or the text of the exception that
      slicing or concatenating any other value raises. */
  function ShownToken(token: Json): (r: Result<string, string>)
    ensures r.Success? <==> token.JStr?
    ensures r.Success? ==> r.value == Prefix(token.s, 20) + "..."
  {
    match token
    case JStr(t) => Success(Prefix(t, 20) + "...")
    case JArr(_) => Failure("can only concatenate list (not \"str\") to list")
    case JObj(_) => Failure("slice(None, 20, None)")
    case _ => Failure("'" + TypeName(token) + "' object is not subscriptable")
  }

  /** How `test_paypal_connection` reports the token endpoint's answer. Only the
      first 20 characters of the token are shown. A body that is not JSON makes
      `response.json()` raise a `requests` exception, reported as a connection
      error. */
  function PaypalTestResult(mode: string, outcome: Http.Outcome): (r: TestResult)
    ensures outcome.Received? && outcome.response.status != 200 &&
            (outcome.response.text == "" || outcome.response.body.Success?) ==>
      r.TestFailed? && r.error == "PayPal API error: " + Text.IntToString(outcome.response.status) &&
      r.errorDetails == Some(if outcome.response.text == "" then EmptyObj else outcome.response.body.value)
    ensures outcome.Received? && outcome.response.body.Failure? &&
            (outcome.response.status == 200 || outcome.response.text != "") ==>
      r == TestFailed("Connection error: " + outcome.response.body.error, None)
    ensures outcome.TimedOut? ==> r == TestFailed("Connection timeout", None)
    ensures outcome.TransportError? ==> r == TestFailed("Connection error: " + outcome.message, None)
    ensures outcome.Received? && outcome.response.status == 200 && outcome.response.body.Success? &&
            Get(outcome.response.body.value, "access_token", JStr("")).Success? &&
            ShownToken(Get(outcome.response.body.value, "access_token", JStr("")).value).Failure? ==>
      r == TestFailed("Unexpected error: " + ShownToken(Get(outcome.response.body.value, "access_token", JStr("")).value).error, None)
    ensures r.TestOk? <==>
      outcome.Received? && outcome.response.status == 200 && outcome.response.body.Success? &&
      Get(outcome.response.body.value, "access_token", JStr("")).Success? &&
      Get(outcome.response.body.value, "access_token", JStr("")).value.JStr?
    ensures r.TestOk? ==>
      "mode" in r.details && r.details["mode"] == JStr(mode) &&
      "access_token" in r.details &&
      r.details["access_token"] == JStr(ShownToken(Get(outcome.response.body.value, "access_token", JStr("")).value).value)
  {
    match outcome
    case TimedOut(_) => TestFailed("Connection timeout", None)
    case TransportError(msg) => TestFailed("Connection error: " + msg, None)
    case Received(resp) =>
      if resp.status == 200 then
        match resp.body
        case Failure(e) => TestFailed("Connection error: " + e, None)
        case Success(tokenData) =>
          match Get(tokenData, "access_token", JStr(""))
          case Failure(e) => TestFailed("Unexpected error: " + e, None)
          case Success(token) =>
            match ShownToken(token)
            case Failure(e) => TestFailed("Unexpected error: " + e, None)
            case Success(shown) =>
              TestOk(map[
                "access_token" := JStr(shown),
                "token_type" := Get(tokenData, "token_type", JNull).value,
                "expires_in" := Get(tokenData, "expires_in", JNull).value,
                "mode" := JStr(mode)])
      else if resp.text == "" then TestFailed("PayPal API error: " + Text.IntToString(resp.status), Some(EmptyObj))
      else
        match resp.body
        case Failure(e) => TestFailed("Connection error: " + e, None)
        case Success(errorData) => TestFailed("PayPal API error: " + Text.IntToString(resp.status), Some(errorData))
  }

  /** The shown token never exceeds 23 characters, ends in "..." and starts like
      the real one; without a token it is just "...". */
  lemma PaypalTokenTruncated(mode: string, outcome: Http.Outcome)
    requires PaypalTestResult(mode, outcome).TestOk?
    ensures var shown := PaypalTestResult(mode, outcome).details["access_token"];
      var body := outcome.response.body.value;
      shown.JStr? && 3 <= |shown.s| <= 23 && shown.s[|shown.s| - 3..] == "..." &&
      ("access_token" in body.fields ==> shown.s[..|shown.s| - 3] <= body.fields["access_token"].s) &&
      ("access_token" !in body.fields ==> shown.s == "...")
  {
    var body := outcome.response.body.value;
    var t := Get(body, "access_token", JStr("")).value.s;
    var shown := Prefix(t, 20) + "...";
    assert shown[..|shown| - 3] == Prefix(t, 20);
    assert shown[|shown| - 3..] == "...";
  }
}
