/** Application settings read once from the process environment (`config.py`).
    The environment is an explicit map; loading the `.env` file is not modelled. */
module Config {
  import Text

  datatype Settings = Settings(
    paypalClientId: string,
    paypalClientSecret: string,
    paypalMode: string,
    appEnv: string,
    debug: bool,
    frontendUrl: string,
    backendUrl: string,
    databaseUrl: string)

  /** `os.getenv(key, default)`. */
  function GetEnv(env: map<string, string>, key: string, default: string): (r: string)
    ensures key in env ==> r == env[key]
    ensures key !in env ==> r == default
  {
    if key in env then env[key] else default
  }

  /** `value.lower() == "true"`. */
  predicate ParseDebug(value: string) {
    Text.Lower(value) == "true"
  }

  /** DEBUG is on exactly for the sixteen spellings of "true" in any mix of cases. */
  lemma ParseDebugSpellings(value: string)
    ensures ParseDebug(value) <==>
      |value| == 4 && value[0] in "tT" && value[1] in "rR" && value[2] in "uU" && value[3] in "eE"
  {
    if |value| == 4 {
      var l := Text.Lower(value);
      assert l == [l[0], l[1], l[2], l[3]];
    }
  }

  /** The class attributes of `Settings`, with their defaults. */
  function Load(env: map<string, string>): (s: Settings)
    ensures "PAYPAL_MODE" !in env ==> s.paypalMode == "sandbox"
    ensures "DEBUG" !in env ==> s.debug
    ensures "DEBUG" in env ==> (s.debug <==> ParseDebug(env["DEBUG"]))
    ensures "PAYPAL_CLIENT_ID" in env ==> s.paypalClientId == env["PAYPAL_CLIENT_ID"]
    ensures "PAYPAL_CLIENT_SECRET" in env ==> s.paypalClientSecret == env["PAYPAL_CLIENT_SECRET"]
  {
    Settings(
      GetEnv(env, "PAYPAL_CLIENT_ID", ""),
      GetEnv(env, "PAYPAL_CLIENT_SECRET", ""),
      GetEnv(env, "PAYPAL_MODE", "sandbox"),
      GetEnv(env, "APP_ENV", "development"),
      ParseDebug(GetEnv(env, "DEBUG", "true")),
      GetEnv(env, "FRONTEND_URL", "http://localhost:3000"),
      GetEnv(env, "BACKEND_URL", "http://127.0.0.1:8000"),
      GetEnv(env, "DATABASE_URL", ""))
  }

  /** With nothing set, every setting has its documented default. */
  lemma LoadDefaults()
    ensures Load(map[]) == Settings("", "", "sandbox", "development", true,
      "http://localhost:3000", "http://127.0.0.1:8000", "")
  {
    assert ParseDebug("true");
  }

  /** `validate_paypal_config`: both PayPal credentials are present. */
  predicate ValidatePaypalConfig(s: Settings) {
    s.paypalClientId != "" && s.paypalClientSecret != ""
  }

  /** An environment without PayPal credentials never validates. */
  lemma ValidateNeedsBothCredentials(env: map<string, string>)
    ensures ValidatePaypalConfig(Load(env)) <==>
      "PAYPAL_CLIENT_ID" in env && env["PAYPAL_CLIENT_ID"] != "" &&
      "PAYPAL_CLIENT_SECRET" in env && env["PAYPAL_CLIENT_SECRET"] != ""
  {
  }

  /** `get_paypal_config`: exactly the three PayPal settings. */
  function GetPaypalConfig(s: Settings): (r: map<string, string>)
    ensures r.Keys == {"client_id", "client_secret", "mode"}
    ensures r["client_id"] == s.paypalClientId && r["client_secret"] == s.paypalClientSecret
    ensures r["mode"] == s.paypalMode
  {
    map["client_id" := s.paypalClientId, "client_secret" := s.paypalClientSecret, "mode" := s.paypalMode]
  }
}
