/** The PayPal service with per-merchant credentials
    (`app/checkout/paypal/services.py`): credentials, the base URL that follows
    the mode, and the cached OAuth access token. The clock is the `now`
    argument, in microseconds (UTC, like `datetime.utcnow()`); the PayPal SDK
    configuration calls are not modelled. */
module PaypalService {
  import opened Wrappers
  import opened Json
  import Text
  import Http
  import BasicAuth
  import Config

  const SandboxBaseUrl: string := "https://api-m.sandbox.paypal.com"
  const LiveBaseUrl: string := "https://api-m.paypal.com"

  const MicrosPerMinute: int := 60_000_000

  /** The base URL for a mode: sandbox only for exactly "sandbox". */
  function BaseUrlFor(mode: string): (r: string)
    ensures r == SandboxBaseUrl <==> mode == "sandbox"
    ensures r == LiveBaseUrl <==> mode != "sandbox"
  {
    if mode == "sandbox" then SandboxBaseUrl else LiveBaseUrl
  }

  /** Python `value or fallback` for an optional string argument. */
  function Or(value: Option<string>, fallback: string): (r: string)
    ensures value.Some? && value.value != "" ==> r == value.value
    ensures value.None? || value.value == "" ==> r == fallback
  {
    if value.Some? && value.value != "" then value.value else fallback
  }

  /** The client-credentials token request; `auth=(id, secret)` is the Basic scheme. */
  function TokenRequest(baseUrl: string, clientId: string, clientSecret: string): (r: Http.Request)
    ensures r.url == baseUrl + "/v1/oauth2/token"
    ensures "Authorization" in r.headers && r.headers["Authorization"] == BasicAuth.Header(clientId, clientSecret)
  {
    Http.Request("POST", baseUrl + "/v1/oauth2/token",
      map["Authorization" := BasicAuth.Header(clientId, clientSecret),
          "Content-Type" := "application/x-www-form-urlencoded"],
      JObj(map["grant_type" := JStr("client_credentials")]))
  }

  /** `datetime.utcnow() + timedelta(minutes=55)`. */
  function ExpiryAfter55Minutes(now: int): (r: int)
    ensures r - now == 55 * MicrosPerMinute
  {
    now + 55 * MicrosPerMinute
  }

  /** The cache condition: a truthy token, an expiry, and `now` before it. */
  predicate CacheHit(token: Json, expiresAt: Option<int>, now: int) {
    Truthy(token) && expiresAt.Some? && now < expiresAt.value
  }

  /** A freshly fetched (truthy) token is served from the cache for exactly the
      next 55 minutes. */
  lemma FreshTokenLifetime(token: Json, fetchedAt: int, now: int)
    requires Truthy(token) && fetchedAt <= now
    ensures CacheHit(token, Some(ExpiryAfter55Minutes(fetchedAt)), now) <==> now - fetchedAt < 55 * MicrosPerMinute
  {
  }

  /** Outcome of the token endpoint: the token, or the text of the exception raised. */
  function TokenReply(outcome: Http.Outcome): (r: Result<Json, string>)
    ensures outcome.Received? && outcome.response.status != 200 ==>
      r == Failure("Failed to get PayPal access token: " + outcome.response.text)
    ensures outcome.Received? && outcome.response.status == 200 && outcome.response.body.Failure? ==>
      r == Failure(outcome.response.body.error)
    ensures r.Success? <==>
      outcome.Received? && outcome.response.status == 200 && outcome.response.body.Success? &&
      outcome.response.body.value.JObj? && "access_token" in outcome.response.body.value.fields
    ensures r.Success? ==> r.value == outcome.response.body.value.fields["access_token"]
  {
    match outcome
    case TimedOut(msg) => Failure(msg)
    case TransportError(msg) => Failure(msg)
    case Received(resp) =>
      if resp.status != 200 then Failure("Failed to get PayPal access token: " + resp.text)
      else
        var tokenData :- resp.body;
        Index(tokenData, "access_token")
  }

  /** What `test_connection` returns. */
  datatype ConnectionTest =
    | ConnectionOk(message: string, details: map<string, Json>)
    | ConnectionFailed(error: Json, failure: map<string, Json>)

  /** The request `test_connection` sends: its URL follows the `mode` argument,
      not the instance's mode. */
  function TestConnectionRequest(clientId: string, clientSecret: string, mode: string): (r: Http.Request)
    ensures r.url == BaseUrlFor(mode) + "/v1/oauth2/token"
  {
    TokenRequest(BaseUrlFor(mode), clientId, clientSecret)
  }

  /** How `test_connection` reports the answer. */
  function TestConnectionResult(mode: string, outcome: Http.Outcome): (r: ConnectionTest)
    ensures r.ConnectionOk? <==>
      outcome.Received? && outcome.response.status == 200 &&
      outcome.response.body.Success? && outcome.response.body.value.JObj?
    ensures r.ConnectionOk? ==> "mode" in r.details && r.details["mode"] == JStr(mode)
    ensures r.ConnectionFailed? ==> "mode" in r.failure && r.failure["mode"] == JStr(mode)
    ensures (outcome.Received? && outcome.response.status != 200 &&
      (outcome.response.text == "" ||
       (outcome.response.body.Success? && outcome.response.body.value.JObj? &&
        "error_description" !in outcome.response.body.value.fields)))
      ==> r == ConnectionFailed(JStr("Authentication failed"),
          map["mode" := JStr(mode), "status_code" := JInt(outcome.response.status)])
    ensures (outcome.Received? && outcome.response.status != 200 && outcome.response.text != "" &&
      outcome.response.body.Success? && outcome.response.body.value.JObj? &&
      "error_description" in outcome.response.body.value.fields)
      ==> r.ConnectionFailed? && r.error == outcome.response.body.value.fields["error_description"]
    ensures outcome.Received? && outcome.response.body.Failure? &&
            (outcome.response.status == 200 || outcome.response.text != "") ==>
      r == Crashed(mode, outcome.response.body.error)
  {
    match outcome
    case TimedOut(msg) => Crashed(mode, msg)
    case TransportError(msg) => Crashed(mode, msg)
    case Received(resp) =>
      if resp.status == 200 then
        match resp.body
        case Failure(e) => Crashed(mode, e)
        case Success(tokenData) =>
        match Get(tokenData, "token_type", JNull)
        case Failure(e) => Crashed(mode, e)
        case Success(tokenType) =>
          ConnectionOk("PayPal connection test successful",
            map["mode" := JStr(mode), "token_type" := tokenType,
                "expires_in" := Get(tokenData, "expires_in", JNull).value])
      else if resp.text != "" && resp.body.Failure? then Crashed(mode, resp.body.error)
      else
        var errorData := if resp.text != "" then resp.body.value else EmptyObj;
        match Get(errorData, "error_description", JStr("Authentication failed"))
        case Failure(e) => Crashed(mode, e)
        case Success(message) =>
          ConnectionFailed(message, map["mode" := JStr(mode), "status_code" := JInt(resp.status)])
  }

  /** The `except Exception` branch of `test_connection`. */
  function Crashed(mode: string, e: string): (r: ConnectionTest)
    ensures r.ConnectionFailed? && r.error == JStr("Connection test failed: " + e)
  {
    ConnectionFailed(JStr("Connection test failed: " + e), map["mode" := JStr(mode), "exception" := JStr(e)])
  }

  class PayPalCommerceService {
    var clientId: string
    var clientSecret: string
    var mode: string
    var baseUrl: string
    /** `None` is `JNull`; the token is whatever JSON the endpoint sent. */
    var accessToken: Json
    var tokenExpiresAt: Option<int>

    /** The base URL always follows the current mode. */
    ghost predicate Valid()
      reads this
    {
      baseUrl == BaseUrlFor(mode)
    }

    /** Explicit arguments win over the settings; an empty string counts as absent. */
    constructor (clientId: Option<string>, clientSecret: Option<string>, mode: Option<string>, settings: Config.Settings)
      ensures Valid()
      ensures this.clientId == Or(clientId, settings.paypalClientId)
      ensures this.clientSecret == Or(clientSecret, settings.paypalClientSecret)
      ensures this.mode == Or(mode, settings.paypalMode)
      ensures accessToken == JNull && tokenExpiresAt == None
    {
      this.clientId := Or(clientId, settings.paypalClientId);
      this.clientSecret := Or(clientSecret, settings.paypalClientSecret);
      this.mode := Or(mode, settings.paypalMode);
      this.baseUrl := BaseUrlFor(Or(mode, settings.paypalMode));
      accessToken := JNull;
      tokenExpiresAt := None;
    }

    /** New credentials; the mode is kept unless a new one is given; the token
        cache is emptied. */
    method UpdateCredentials(clientId: string, clientSecret: string, mode: Option<string>)
      modifies this
      ensures Valid()
      ensures this.clientId == clientId && this.clientSecret == clientSecret
      ensures this.mode == Or(mode, old(this.mode))
      ensures accessToken == JNull && tokenExpiresAt == None
    {
      this.clientId := clientId;
      this.clientSecret := clientSecret;
      this.mode := Or(mode, this.mode);
      baseUrl := BaseUrlFor(this.mode);
      accessToken := JNull;
      tokenExpiresAt := None;
    }

    /** `_get_access_token`: the cached token while it is valid, with no request;
        otherwise one token request, whose answer is `reply`. A failed request
        leaves the cache as it was. */
    method GetAccessToken(now: int, reply: Http.Outcome) returns (sent: Option<Http.Request>, r: Result<Json, string>)
      modifies this
      ensures clientId == old(clientId) && clientSecret == old(clientSecret)
      ensures mode == old(mode) && baseUrl == old(baseUrl)
      ensures old(CacheHit(accessToken, tokenExpiresAt, now)) ==>
        sent == None && r == Success(old(accessToken)) &&
        accessToken == old(accessToken) && tokenExpiresAt == old(tokenExpiresAt)
      ensures !old(CacheHit(accessToken, tokenExpiresAt, now)) ==>
        sent == Some(TokenRequest(baseUrl, clientId, clientSecret)) && r == TokenReply(reply)
      ensures !old(CacheHit(accessToken, tokenExpiresAt, now)) && r.Failure? ==>
        accessToken == old(accessToken) && tokenExpiresAt == old(tokenExpiresAt)
      ensures !old(CacheHit(accessToken, tokenExpiresAt, now)) && r.Success? ==>
        accessToken == r.value && tokenExpiresAt == Some(ExpiryAfter55Minutes(now))
    {
      if CacheHit(accessToken, tokenExpiresAt, now) {
        return None, Success(accessToken);
      }
      sent := Some(TokenRequest(baseUrl, clientId, clientSecret));
      r := TokenReply(reply);
      if r.Success? {
        accessToken := r.value;
        tokenExpiresAt := Some(ExpiryAfter55Minutes(now));
      }
    }
  }
}
