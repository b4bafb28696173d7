# Payment gateway aggregator — a Dafny model

The system is a FastAPI back end that fronts several payment gateways: an admin
store of gateway configurations (a JSON file of records keyed by `gateway_name`),
PayPal checkout through an access-token cache, Stripe card payments and webhooks,
Square payments, Authorize.Net and PayPal Commerce card routes, and Klarna
Payments sessions. Most of it is glue around HTTP calls and gateway SDKs; the part
modelled here is the sequential logic inside that glue:

- the gateway configuration store (`AdminService.Store`, a class over a
  sequence of records, with linear lookup and an upsert that keeps `created_at`
  and stamps `updated_at`), the Stripe key-format guards and the PayPal Basic
  header of the admin connection tests;
- the checkout request schemas and their validators (country code, card digits
  and length, CVC, required card fields, currency case, amount consistency
  within one cent) for the generic, Stripe and Square schemas;
- the PayPal access-token cache (`PaypalService.PayPalCommerceService`, a class
  whose token and expiry fields the methods update) and the checkout service's
  guard chain, order payload and capture and webhook handling;
- the request builders and response classifiers of the Stripe service and
  routes, the Authorize.Net route, the PayPal Commerce card route, the Klarna
  service and the Square service;
- HTTP Basic credentials (section 2 of RFC 7617) built from the UTF-8 bytes
  (RFC 3629) of `user:pass` and the base64 encoding of section 4 of RFC 4648,
  with a reference decoder and the round-trip proved;
- the settings module (`config.py`): defaults, the DEBUG parsing and the PayPal
  configuration checks.

Every outbound HTTP request and SDK call is replaced by an input: each operation
receives the gateway's answer (`Http.Outcome`: a response, a timeout or a
transport error; or the SDK's result) as a parameter, and where the source sends
a request the model returns the request it would send, so the contracts can speak
about both. The clock, `uuid` values and the results of float conversions are parameters as well.
Amounts, which are Python `Decimal`, are exact Dafny `real`s. Untyped request
bodies of the card routes are a small `Json` datatype, and the body of a gateway's
answer is either such a value or the text of the `JSONDecodeError` that
`response.json()` raises on it.

Modules follow the source files: `admin_service` (app/admin/services.py),
`config` (config.py), `checkout_schemas` (app/checkout/schemas.py),
`checkout_service` (app/checkout/services.py), `paypal_service`
(app/checkout/paypal/services.py), `card_schemas` (the validators shared by the
Stripe and Square schema files), `stripe_schemas`, `square_schemas`,
`stripe_service`, `stripe_routes`, `authorize_routes`, `paypal_commerce_routes`,
`klarna_service` and `square_service`, with the helpers `wrappers`, `text`,
`json`, `http`, `utf8`, `base64` and `basic_auth`.

Where the documentation of the system and its code disagree, the model follows
the code.

## Model

| member | source | states |
|---|---|---|
| AdminService.DefaultGatewaysShape | app/admin/services.py:236-265 | with no store file the list is paypal (sort order 1) then stripe (sort order 2), both inactive, in sandbox, not connected and without credentials |
| AdminService.FirstIndex | app/admin/services.py:292-296 | the `enumerate`/`break` scan: none exactly when no record has the name, otherwise the index of a named record with no named record before it |
| AdminService.Stamped | app/admin/services.py:298-308 | the written record has the submitted keys plus `created_at` and `updated_at`; `updated_at` is now and every other value is the submitted one |
| AdminService.SavedRecord | app/admin/services.py:292-310 | the record a save writes: exactly the submitted keys plus `created_at` and `updated_at`, named as submitted, `updated_at` = now, `created_at` the first earlier record's (null when it had none) or now for a new name, every other value the submitted one |
| AdminService.UpsertExisting | app/admin/services.py:301-304 | saving a name already present replaces the first record with it, copies its `created_at` (null when it had none), keeps the length and leaves every other record as it was |
| AdminService.UpsertNew | app/admin/services.py:306-309 | saving a new name appends one record with `created_at` and `updated_at` both now; the list grows by one |
| AdminService.UpsertThenFind | app/admin/services.py:284-310 | after a save, looking the name up finds the saved record: the submitted keys, `updated_at` = now and `created_at` kept from the earlier record of that name, or now for a new name |
| AdminService.UpsertIdempotent | app/admin/services.py:284-310 | saving the same data twice at the same time leaves the store as one save does |
| AdminService.Store.constructor | app/admin/services.py:28 | a new store has no file |
| AdminService.Store.Gateways | app/admin/services.py:225-265 | `get_payment_gateways` is the stored list, or the two defaults while there is no file |
| AdminService.Store.GetPaymentGateway | app/admin/services.py:270-279 | the linear scan returns none exactly when no record has the name, otherwise the first record that has it |
| AdminService.Store.SavePaymentGateway | app/admin/services.py:284-326 | without `gateway_name` the `KeyError` text is returned and nothing is written; otherwise the store becomes the upsert of the listed gateways and the returned record is exactly the record written |
| AdminService.Store.GetGatewayCredentials | app/admin/services.py:328-336 | none for an unknown gateway, otherwise that record's `credentials`, `{}` when it has none |
| AdminService.TestStripeConnection | app/admin/services.py:108-191 | success exactly when both keys are non-blank after strip, the library is present, the secret key starts with `sk_test_`/`sk_live_` and the publishable key with `pk_test_`/`pk_live_`; success reports the mode |
| AdminService.StripeCheckOrder | app/admin/services.py:122-179 | the guards fire in source order: a blank secret key is reported first, the publishable-prefix error only once every earlier check passed, and the second secret-prefix check can never fire |
| AdminService.PaypalTestRequest | app/admin/services.py:39-66 | the token request goes to the sandbox or live base URL by mode, with the Basic header of `client_id:client_secret` |
| AdminService.ShownToken | app/admin/services.py:74 | `token[:20] + "..."` succeeds exactly on a string and is its first 20 characters plus `...`; a list, a dict or a scalar raises, each with its own text |
| AdminService.PaypalTestCredentials | app/admin/services.py:43-49 | decoding the header yields the client id and secret back (when the id has no colon) |
| AdminService.PaypalTestResult | app/admin/services.py:68-106 | a non-200 answer is `PayPal API error: <status>` with the body, or `{}` for an empty one, as details; a body that is not JSON is `Connection error: <message>`; a timeout `Connection timeout`; a token that cannot be cut raises `Unexpected error: ...`; success exactly on a 200 JSON answer whose `access_token` (default "") is a string, and it shows the mode and the shown token |
| AdminService.PaypalTokenTruncated | app/admin/services.py:74 | the shown token is 3 to 23 characters long, ends in `...` and starts with a prefix of the real one; with no token it is just `...` |
| Config.GetEnv | config.py:11-24 | `os.getenv`: the set value, else the default |
| Config.ParseDebugSpellings | config.py:17 | DEBUG is true exactly for the four-letter spellings of "true" in any case |
| Config.Load | config.py:11-24 | PAYPAL_MODE defaults to sandbox and DEBUG to true; the credentials are the set values |
| Config.LoadDefaults | config.py:11-24 | with nothing set every setting has its default, including FRONTEND_URL `http://localhost:3000` and BACKEND_URL `http://127.0.0.1:8000` |
| Config.ValidateNeedsBothCredentials | config.py:27-31 | the PayPal config validates exactly when both client id and secret are set and non-empty |
| Config.GetPaypalConfig | config.py:34-40 | exactly the keys client_id, client_secret and mode, holding the settings |
| CheckoutService.FloorToMinute | app/checkout/services.py:65 | the floored time is at most a minute before now and lies in the same minute |
| CheckoutService.ExpiryAsWritten | app/checkout/services.py:65-66 | the minute replacement as written fails exactly when the minute is 5 or more; otherwise the expiry is the floored time plus 55 minutes |
| CheckoutService.RefreshAsWritten | app/checkout/services.py:59-66 | a failed token answer leaves the cache unchanged and reports the failure |
| CheckoutService.RefreshAsWrittenFailsAfterMinuteFive | app/checkout/services.py:63-66 | from minute 5 on, a good token answer still raises, and the expiry left behind is already past, so every later call refreshes again |
| CheckoutService.RefreshAsWrittenCounterexample | app/checkout/services.py:65-66 | at 00:10 UTC a 200 answer with a token fails |
| CheckoutService.PayPalCommerceService.constructor | app/checkout/services.py:25-44 | credentials and mode come from the settings, the base URL from the mode, and the cache starts empty |
| CheckoutService.PayPalCommerceService.GetAccessToken | app/checkout/services.py:46-68 | the corrected copy of the method (see Findings): a valid cached token is returned with no request and no change; otherwise the token request is sent, and only a successful answer stores the token with an expiry 55 minutes ahead; before minute 5 of the hour it gives the same answer and token as the code as written |
| CheckoutService.FormatAddress | app/checkout/services.py:70-79 | exactly PayPal's six address keys, holding the address fields, with a missing `line2` as "" |
| CheckoutService.DescriptionOf | app/checkout/services.py:87 | the description when it is non-empty, else the name |
| CheckoutService.FormatItem | app/checkout/services.py:85-93 | exactly the keys name, description, quantity (as decimal text) and unit_amount (currency and price text) |
| CheckoutService.FormattedQuantityReadsBack | app/checkout/services.py:88 | the quantity text is all digits and reads back as the quantity |
| CheckoutService.FormatItems | app/checkout/services.py:81-94 | the loop yields one formatted entry per item, in order |
| CheckoutService.ProcessWebhook | app/checkout/services.py:311-351 | a dict event of any other type is acknowledged with True |
| CheckoutService.ProcessWebhookHandled | app/checkout/services.py:316-347 | a handled event fails exactly when its resource, or for a completed capture the resource's amount, is not a dict |
| CheckoutService.ProcessCheckout | app/checkout/services.py:359-403 | an empty order and then a total more than a cent off are refused with VALIDATION_ERROR; otherwise PayPal's answer is returned as it is |
| CheckoutService.RejectedCheckoutIgnoresPaypal | app/checkout/services.py:365-394 | a refused checkout does not depend on PayPal's answer and never succeeds |
| CheckoutService.CentTolerance | app/checkout/services.py:383 | the one-cent tolerance is inclusive: exactly a cent off passes, more does not |
| CheckoutService.CapturePayment | app/checkout/services.py:416-440 | PayPal's capture answer is passed through; an exception gives status "error" and `Error capturing payment: ...` |
| PaypalService.BaseUrlFor | app/checkout/paypal/services.py:23 | the sandbox URL exactly for mode "sandbox", the live URL for every other mode |
| PaypalService.Or | app/checkout/paypal/services.py:20-22 | Python `value or fallback`: the value when it is a non-empty string, else the fallback |
| PaypalService.TokenRequest | app/checkout/paypal/services.py:63-69 | the POST to `<base>/v1/oauth2/token` carries the Basic header of the client id and secret |
| PaypalService.ExpiryAfter55Minutes | app/checkout/paypal/services.py:77 | the expiry is exactly 55 minutes after now |
| PaypalService.FreshTokenLifetime | app/checkout/paypal/services.py:58-79 | a freshly fetched token is served from the cache for exactly the next 55 minutes |
| PaypalService.TokenReply | app/checkout/paypal/services.py:71-75 | a non-200 answer raises `Failed to get PayPal access token: <text>`; a 200 body that is not JSON raises the decoding error; a token is obtained exactly from a 200 JSON dict that has `access_token`, and it is that value |
| PaypalService.TestConnectionRequest | app/checkout/paypal/services.py:86-97 | the test's URL follows the mode argument, not the instance's mode |
| PaypalService.TestConnectionResult | app/checkout/paypal/services.py:99-133 | success exactly on a 200 dict answer; every result reports the mode; a failed answer reports `error_description`, or "Authentication failed" when there is none; a body that is not JSON, where it is read, ends in the exception path with the decoding error |
| PaypalService.Crashed | app/checkout/paypal/services.py:124-133 | an exception is reported as `Connection test failed: <message>` |
| PaypalService.PayPalCommerceService.constructor | app/checkout/paypal/services.py:18-38 | explicit non-empty arguments win over the settings, the base URL follows the mode, and the cache starts empty |
| PaypalService.PayPalCommerceService.UpdateCredentials | app/checkout/paypal/services.py:40-56 | the new credentials are stored, the mode is kept unless a new one is given, the base URL follows it and the token cache is emptied |
| PaypalService.PayPalCommerceService.GetAccessToken | app/checkout/paypal/services.py:58-79 | a valid cached token is returned with no request and no change; otherwise one token request is sent, a failure leaves the cache as it was, and a success stores the token with an expiry 55 minutes ahead |
| CheckoutSchemas.ValidateItem | app/checkout/schemas.py:22-29 | an item is accepted exactly when quantity > 0 and unit_price > 0; the accepted item keeps them and its currency defaults to USD |
| CheckoutSchemas.ItemsErrors | app/checkout/schemas.py:35 | no item error exactly when every item validates |
| CheckoutSchemas.ValidItems | app/checkout/schemas.py:35 | the validated items, one per item sent, in order |
| CheckoutSchemas.ValidateRequest | app/checkout/schemas.py:31-45 | accepted exactly when every item validates, subtotal and total are > 0 and tax, shipping and discount are >= 0; the accepted request holds the validated items in order and keeps the order id, customer, addresses, subtotal, total and notes; tax, shipping and discount default to 0, currency to USD and payment_method to paypal |
| CheckoutSchemas.EmptyOrderPassesSchema | app/checkout/schemas.py:35-44 | an order with no items passes the schema, with amounts defaulted to 0 |
| CardSchemas.ValidateCountryCode | app/checkout/credit_card/stripe/schemas.py:52-58 | a country code is accepted exactly when it is two letters; the stored value is the code upper-cased, so two capital letters |
| CardSchemas.CountryCodeIdempotent | app/checkout/credit_card/stripe/schemas.py:54-58 | validating an already validated code gives it back unchanged |
| CardSchemas.ValidateAddress | app/checkout/credit_card/stripe/schemas.py:45-58 | an address passes exactly when every length bound holds and the country code is valid; the result is the address with the code upper-cased |
| CardSchemas.CustomerErrors | app/checkout/credit_card/stripe/schemas.py:36-42 | a customer has no error exactly when both names hold 1 to 100 characters and the phone, if any, at most 20 |
| CardSchemas.ValidateCurrency | app/checkout/credit_card/stripe/schemas.py:67-72 | a currency code passes exactly when it has three characters, and is then stored in the schema's case |
| CardSchemas.DefaultCurrency | app/checkout/credit_card/stripe/schemas.py:67 | the default currency already has three characters in the schema's case |
| CardSchemas.ValidateItem | app/checkout/credit_card/stripe/schemas.py:61-72 | an item passes exactly when its name holds 1 to 255 characters, the quantity is 1 to 999, the price is positive and a given currency has three characters; quantity and price are kept and the currency is cased or defaulted |
| CardSchemas.ValidateCardNumber | app/checkout/credit_card/stripe/schemas.py:78-92 | an absent number passes; a given one passes exactly when it has 13 to 19 characters of which 13 to 19 are digits, and only its digits are kept |
| CardSchemas.CardNumberDigitsKept | app/checkout/credit_card/stripe/schemas.py:89 | a number that is already 13 to 19 digits is kept as sent |
| CardSchemas.ValidateCvc | app/checkout/credit_card/stripe/schemas.py:81-99 | an absent CVC passes; a given one passes exactly when it is 3 or 4 digits, and is kept as sent |
| CardSchemas.MissingCardFields | app/checkout/credit_card/stripe/schemas.py:104-105 | each of the four card fields is listed exactly when it is absent or falsy, and the list is empty exactly when all four are present |
| CardSchemas.MissingCardFieldsOrdered | app/checkout/credit_card/stripe/schemas.py:104-105 | the missing fields keep the order of `required_fields` |
| CardSchemas.CardFieldsCheck | app/checkout/credit_card/stripe/schemas.py:101-108 | a wallet always passes; a card passes exactly when no card field is missing, and the refusal names the missing fields joined with ", " |
| CardSchemas.ValidatePaymentMethod | app/checkout/credit_card/stripe/schemas.py:75-108 | a payment method passes exactly when the number and CVC pass, expiry month and year are in range, the name on card has at most 100 characters and a card misses no card field; it comes back with the number reduced to its digits; a bad number is the first error, and a lone model-level error names the missing card fields |
| CardSchemas.WalletNeedsNoCard | app/checkout/credit_card/stripe/schemas.py:101-108 | a wallet with no card data passes unchanged |
| CardSchemas.RequestFieldErrors | app/checkout/credit_card/stripe/schemas.py:111-132 | no field error exactly when the order id has 1 to 255 characters, the customer passes, there are 1 to 100 items and each passes, both addresses pass, subtotal and total are positive, tax, shipping and discount are not negative, a given currency passes, the payment method passes and the notes have at most 1000 characters |
| CardSchemas.AmountBoundErrors | app/checkout/credit_card/stripe/schemas.py:118-122 | no bound error exactly when subtotal and total are positive and tax, shipping and discount (0 when absent) are not negative |
| CardSchemas.Normalized | app/checkout/credit_card/stripe/schemas.py:111-132 | the validated request keeps the amounts, fills the optional amounts with 0, validates every item in order and cases the order and item currencies |
| CardSchemas.AmountErrors | app/checkout/credit_card/stripe/schemas.py:134-147 | `validate_amounts` reports its single error exactly when subtotal + tax + shipping - discount is more than 0.01 away from the total |
| CardSchemas.ValidateRequest | app/checkout/credit_card/stripe/schemas.py:111-147 | field errors are reported as they are; without them the request passes exactly when the amounts balance, fails with the amount error otherwise, and a request that passes is the normalised one |
| CardSchemas.ValidatedAmountsMatch | app/checkout/credit_card/stripe/schemas.py:134-147 | every request the schema accepts keeps subtotal + tax + shipping - discount within 0.01 of its total |
| StripeSchemas.ValidateStripeRequest | app/checkout/credit_card/stripe/schemas.py:75-147 | a Stripe request that passes carries no nonce, and its currency and item currencies are lower-case, "usd" when none is given |
| StripeSchemas.ValidatePaymentMethodKeepsNonce | app/checkout/credit_card/stripe/schemas.py:75-83 | validating a payment method never changes its nonce |
| StripeSchemas.StripeCentTolerance | app/checkout/credit_card/stripe/schemas.py:142-145 | once every field is valid, a request whose total is off by `delta` passes exactly when `delta` lies between -0.01 and 0.01 |
| SquareSchemas.PaymentStatus.Name | app/checkout/credit_card/square/schemas.py:14-19 | every status value is upper-case |
| SquareSchemas.ParseStatus | app/checkout/credit_card/square/schemas.py:14-19 | a string names a status exactly when it is that status's value |
| SquareSchemas.ValidateSquareRequest | app/checkout/credit_card/square/schemas.py:98-134 | a Square request that passes has upper-case currencies, "USD" when none is given, and balanced amounts |
| SquareSchemas.NonceDoesNotExemptCard | app/checkout/credit_card/square/schemas.py:88-95 | a card with a missing card field is refused whatever nonce it carries |
| SquareSchemas.NonceIrrelevant | app/checkout/credit_card/square/schemas.py:61-95 | whether a payment method passes does not depend on its nonce |
| BasicAuth.Header | app/admin/services.py:44-45 | the header is "Basic " followed by the base64 of the UTF-8 bytes of "user:password" |
| BasicAuth.ParseTokenRoundTrip | app/checkout/klarna/services.py:108-112 | for a user-id without a colon, reading the token back gives the user-id and the password |
| BasicAuth.HeaderInjective | app/admin/services.py:44-45 | distinct credentials, with colon-free user-ids, always give distinct headers |
| Base64.CharOf | app/admin/services.py:45 | each six-bit value has its own character of the RFC 4648 alphabet, which the alphabet maps back to the value |
| Base64.Encode | app/admin/services.py:45 | the output has 4 characters per started 3-byte group, all in the alphabet or `=` |
| Base64.DecodeEncode | app/admin/services.py:45 | the RFC 4648 decoder recovers every byte string from its encoding |
| Base64.EncodeText | app/checkout/klarna/services.py:111 | the encoding decodes back to the UTF-8 bytes of the text |
| Utf8.DecodeEncode | app/checkout/klarna/services.py:111 | decoding the UTF-8 bytes of a string gives the string back |
| Text.Strip | app/checkout/klarna/services.py:109-110 | the result is the slice of the string that starts after its leading whitespace, with only whitespace after it; it neither starts nor ends with whitespace, and it is empty exactly when the string is all whitespace |
| Text.SplitJoin | app/checkout/credit_card/authorize/routes.py:65-66 | joining the pieces of a split with the separator gives the string back |
| Text.ZFill | app/checkout/credit_card/authorize/routes.py:35 | the result is `width` long when the string was shorter, and the string itself otherwise |
| Text.Truncate | app/checkout/credit_card/square/services.py:167 | `int()` rounds toward zero: within one unit of the number, never past it |
| StripeService.NewService | app/checkout/credit_card/stripe/services.py:33-42 | construction fails with "Stripe API key is required" exactly when the key is empty, and otherwise keeps the key and the webhook secret |
| StripeService.Headers | app/checkout/credit_card/stripe/services.py:124-127 | every call carries "Bearer " + the key and the pinned Stripe API version |
| StripeService.TestTokenTable | app/checkout/credit_card/stripe/services.py:509-522 | the Visa number maps to tok_visa, both MasterCard numbers to tok_mastercard and both American Express numbers to tok_amex |
| StripeService.MastercardNumbers | app/checkout/credit_card/stripe/services.py:509-522 | only the two MasterCard numbers map to tok_mastercard |
| StripeService.TestTokenFor | app/checkout/credit_card/stripe/services.py:524-529 | a token is found exactly when the number is one of the table's numbers, and it is that number's token |
| StripeService.PaymentMethodParams | app/checkout/credit_card/stripe/services.py:527-548 | a test number sends only `card[token]` and none of the raw card fields; any other number sends number, expiry and CVC and no token; the billing e-mail is always the placeholder |
| StripeService.SpacedTestNumberUsesToken | app/checkout/credit_card/stripe/services.py:524-537 | a test number typed with separators is reduced to its digits by validation and still travels as its token |
| StripeService.IntentOrderParams | app/checkout/credit_card/stripe/services.py:86-101 | the amount is the total truncated to an integer, the currency lower-cased, the description and item count as formatted, and no key starts with `s` |
| StripeService.ShippingParams | app/checkout/credit_card/stripe/services.py:105-113 | an absent line2 is sent as "", the country is upper-cased, and every key starts with `shipping` |
| StripeService.PaymentIntentParams | app/checkout/credit_card/stripe/services.py:86-117 | the intent form has the order and shipping fields, and `return_url` exactly when one is given |
| StripeService.IntentAmountIsWholePart | app/checkout/credit_card/stripe/services.py:87 | worked example on one input, not a general property: a total of 12.34 is sent as amount 12, with no conversion to cents |
| StripeService.ItemsCountReadsBack | app/checkout/credit_card/stripe/services.py:97 | the `items_count` metadata reads back as the number of items |
| StripeService.ReadIntent | app/checkout/credit_card/stripe/services.py:140-154 | an intent is read exactly when the answer is a dict with every field of the intent schema of its type (the optional metadata, next_action and payment_method_types included); a non-dict raises on `data['id']`, a missing `id` or `status` raises `KeyError` with its name, and with every key present the result is the schema's |
| StripeService.IntentOf | app/checkout/credit_card/stripe/services.py:144-154 | with every indexed key present, the schema builds exactly for data of the right types, and the intent then holds each field of the answer: id, secret, status, amount, currency, created, metadata, next_action (null when absent) and payment_method_types ([] when absent) |
| StripeService.ErrorResponse | app/checkout/credit_card/stripe/services.py:598-626 | an error response is unsuccessful, with amount 0, currency "usd", status "failed" and error equal to the message |
| StripeService.IntentResult | app/checkout/credit_card/stripe/services.py:119-197 | success exactly for a 200 JSON answer that reads as an intent; any non-200 gives "Failed to create payment intent: " + the body text; a body that is not JSON gives "Error creating payment intent: " + the decoding error; `requires_action` is true exactly when the status is "requires_action" |
| StripeService.GetPaymentIntent | app/checkout/credit_card/stripe/services.py:366-409 | an intent is found exactly when the answer is a 200 JSON body that reads as an intent, and it is the intent read from it |
| StripeService.MetadataKey | app/checkout/credit_card/stripe/services.py:319 | the parameter name is the metadata key inside `metadata[...]` |
| StripeService.RefundFormShape | app/checkout/credit_card/stripe/services.py:309-319 | the refund form has `amount` and `reason` exactly when they are truthy, one `metadata[key]` per metadata entry with its value, and nothing more |
| StripeService.BuildRefundParams | app/checkout/credit_card/stripe/services.py:309-319 | the loop over the metadata builds exactly the refund form |
| StripeService.ReadRefund | app/checkout/credit_card/stripe/services.py:342-352 | the refund is read exactly when the answer is a dict with `id` (null or a string), `status` (a string) and `amount` (null or an integer), and then holds those values; the keys are indexed in the order id, status, amount and the first missing one is the `KeyError` |
| StripeService.RefundPayment | app/checkout/credit_card/stripe/services.py:281-364 | a missing intent gives "PaymentIntent not found" and sends nothing; otherwise the form is posted to `/refunds`; success exactly for a 200 JSON answer the refund schema accepts, carrying its id, amount and status; a non-200 gives "Refund failed: " + the text; a body that is not JSON or a refund that cannot be read gives "Error processing refund: " + the error |
| StripeService.VerifyWebhookSignature | app/checkout/credit_card/stripe/services.py:628-660 | with no secret the answer is always true; with a secret it is true exactly when the event could be constructed |
| StripeService.NoSecretSkipsVerification | app/checkout/credit_card/stripe/services.py:640-642 | with no secret, every payload passes, whatever the signature |
| StripeRoutes.TestToken | app/checkout/credit_card/stripe/routes.py:84-107 | a number finds a token exactly when it is a string in the test table; a list or dict raises because it cannot be a key |
| StripeRoutes.PaymentMethodForm | app/checkout/credit_card/stripe/routes.py:82-143 | a test number sends only its token and no raw card fields; any other number is sent raw; the name defaults to "Test User" and the e-mail to "test@example.com" |
| StripeRoutes.IntentForm | app/checkout/credit_card/stripe/routes.py:160-178 | the intent form carries the computed amount, the new PaymentMethod's id, the currency lower-cased ("usd" by default) and "Order " + the order id |
| StripeRoutes.ResponseData | app/checkout/credit_card/stripe/routes.py:203-230 | the answer carries the intent's status; `requires_action` and `next_action` are added exactly when the intent has a `next_action` |
| StripeRoutes.AfterIntent | app/checkout/credit_card/stripe/routes.py:180-230 | a non-200 PaymentIntent answer is a 400 with "PaymentIntent creation failed: " + its text; a 200 body that is not JSON is a 500 with the decoding error; a 200 from the route needs a 200 from Stripe |
| StripeRoutes.AfterPaymentMethod | app/checkout/credit_card/stripe/routes.py:145-200 | a non-200 PaymentMethod answer is a 400 and no PaymentIntent request is sent; a 200 body that is not JSON is a 500 with the decoding error; the intent request follows only a 200 JSON answer |
| StripeRoutes.ProcessStripePayment | app/checkout/credit_card/stripe/routes.py:60-239 | a falsy `payment_config.api_key` is a 400 before any request is sent; the first request is the PaymentMethod form under the configured key; at most two requests are sent |
| StripeRoutes.TestNumberSentAsToken | app/checkout/credit_card/stripe/routes.py:105-118 | with a test number in the body, Stripe receives only its token, never the raw number |
| StripeRoutes.StripeWebhook | app/checkout/credit_card/stripe/routes.py:293-334 | no signature is a 400 first, then an invalid signature; a `JSONDecodeError` is a 400 "Invalid JSON", while any other exception of `json.loads` (a body that is not UTF-8, a too deeply nested one) and a body that is not a dict are a 500 "Webhook processing error: ..."; the answer is 200 exactly when a signed body parses to a dict, and then that event is scheduled |
| StripeRoutes.WebhookWithoutSecret | app/checkout/credit_card/stripe/routes.py:306-328 | without a configured secret any signed, well-formed event is accepted |
| StripeRoutes.Dispatch | app/checkout/credit_card/stripe/routes.py:337-356 | an event reaches a handler exactly when its type is one of the four handled types, and each type its own handler |
| StripeRoutes.DispatchDistinct | app/checkout/credit_card/stripe/routes.py:344-351 | two events that reach the same handler have the same type |
| StripeRoutes.GetPaymentIntent | app/checkout/credit_card/stripe/routes.py:460-472 | a missing intent is a 404 "PaymentIntent not found"; a found one is returned with 200 as a dict of all nine intent fields, `created` as its ISO text |
| StripeRoutes.IntentJson | app/checkout/credit_card/stripe/routes.py:472 | the served dict has exactly the nine intent fields, each holding the intent's value, `created` as the given ISO text |
| StripeRoutes.ServedIntentMatchesAnswer | app/checkout/credit_card/stripe/routes.py:460-472 | the route serves back what Stripe answered: id, secret, status, amount, currency, next_action, metadata and payment_method_types as read from the answer |
| StripeRoutes.LookupFailureIs404 | app/checkout/credit_card/stripe/routes.py:469-471 | any Stripe answer that is not a readable 200 ends as a 404 |
| AuthorizeRoutes.Endpoint | app/checkout/credit_card/authorize/routes.py:79 | the sandbox endpoint is used exactly when the environment is "sandbox", the production endpoint otherwise |
| AuthorizeRoutes.LastTwo | app/checkout/credit_card/authorize/routes.py:41 | `s[-2:]` is the last two characters, or the whole of a shorter string |
| AuthorizeRoutes.MonthTwoDigits | app/checkout/credit_card/authorize/routes.py:35 | a month 1 to 12 pads to two digits that read back as the month |
| AuthorizeRoutes.YearLastTwo | app/checkout/credit_card/authorize/routes.py:36-41 | the last two characters of a four-digit year are two digits worth the year modulo 100 |
| AuthorizeRoutes.ExpiryIsMMYY | app/checkout/credit_card/authorize/routes.py:35-41 | for a month 1 to 12 and a four-digit year the expiry is four digits: the month, then the year modulo 100 |
| AuthorizeRoutes.NameParts | app/checkout/credit_card/authorize/routes.py:65-66 | a falsy name gives two empty names; a string gives its first space-free prefix and a space-free second piece; any other value raises |
| AuthorizeRoutes.NamePartsOfFullName | app/checkout/credit_card/authorize/routes.py:65-66 | "First Last" gives first name "First" and last name "Last"; further pieces are dropped |
| AuthorizeRoutes.NamePartsOfOneWord | app/checkout/credit_card/authorize/routes.py:65-66 | a one-word name is the first name and the last name is empty |
| AuthorizeRoutes.BillTo | app/checkout/credit_card/authorize/routes.py:64-73 | the customer's names win over the name-on-card fallback, and the country defaults to "US" |
| AuthorizeRoutes.Payload | app/checkout/credit_card/authorize/routes.py:33-76 | the payload is built only when the payment method is a dict |
| AuthorizeRoutes.FirstField | app/checkout/credit_card/authorize/routes.py:95-100 | `j[0].get(key, '')` succeeds exactly on a list whose first element is a dict, and gives that element's field |
| AuthorizeRoutes.Classify | app/checkout/credit_card/authorize/routes.py:93-100 | success exactly when `responseCode` is "1"; the error text is the first error's text when there are errors, the message text otherwise |
| AuthorizeRoutes.ResponseData | app/checkout/credit_card/authorize/routes.py:99-113 | the answer says approved or declined with the verdict, the message text on success and the error text otherwise, and carries the raw answer |
| AuthorizeRoutes.ProcessAuthorizePayment | app/checkout/credit_card/authorize/routes.py:15-122 | missing credentials are a 400 with nothing sent; at most one request goes to the chosen endpoint; a non-200 answer is a 502; a 200 body that is not JSON is a 500 with the decoding error; a declined transaction is a 400 carrying the response data; a 200 only for an approved transaction |
| PaypalCommerceRoutes.ApiBase | app/checkout/credit_card/paypal_commerce/routes.py:73 | the live host is used exactly when the environment is "live", the sandbox host for any other hashable value; a list or dict raises |
| PaypalCommerceRoutes.ReadInputs | app/checkout/credit_card/paypal_commerce/routes.py:27-46 | inputs are read only from a dict body with a dict payment method; the padded month has at least two characters and the year is `str` of the sent year |
| PaypalCommerceRoutes.FailingSpec | app/checkout/credit_card/paypal_commerce/routes.py:37-54 | a check is reported exactly when it fails, and the reports keep the order of the checks |
| PaypalCommerceRoutes.NamesDistinct | app/checkout/credit_card/paypal_commerce/routes.py:39-54 | distinct checks report distinct names |
| PaypalCommerceRoutes.MissingFieldsSpec | app/checkout/credit_card/paypal_commerce/routes.py:37-55 | the list is empty exactly when every check passes, names exactly the failing checks, and keeps their order |
| PaypalCommerceRoutes.ExpiryReportedOnlyForYear | app/checkout/credit_card/paypal_commerce/routes.py:43-50 | the expiry entry is reported exactly when the year is empty: the padded month is never empty |
| PaypalCommerceRoutes.CollectMissing | app/checkout/credit_card/paypal_commerce/routes.py:37-54 | the route's appends, one check after another, build exactly the list of failing checks |
| PaypalCommerceRoutes.ScanDetails | app/checkout/credit_card/paypal_commerce/routes.py:133-146 | the scan is true only when some detail reports PAYEE_NOT_ENABLED_FOR_CARD_PROCESSING, and false exactly when every detail is a dict reporting something else |
| PaypalCommerceRoutes.FindCardIssue | app/checkout/credit_card/paypal_commerce/routes.py:134-146 | the route's loop over the details gives the same verdict as the scan |
| PaypalCommerceRoutes.OrderRejected | app/checkout/credit_card/paypal_commerce/routes.py:130-148 | a rejected order whose body is not JSON is a 500 with the decoding error; otherwise it is a 400 with the fixed message and PayPal's error exactly when a detail reports card processing not enabled, and a 502 with the answer's text when no detail does |
| PaypalCommerceRoutes.ResponseData | app/checkout/credit_card/paypal_commerce/routes.py:167-178 | success exactly when the status is COMPLETED or APPROVED; `raw` is the order on success and the capture otherwise |
| PaypalCommerceRoutes.Settle | app/checkout/credit_card/paypal_commerce/routes.py:149-181 | a COMPLETED order is not captured; any other order is captured once; a refused capture is a 502; an accepted capture whose body is not JSON is a 500; the capture's status, when present, replaces the order's; a 200 only for a paid status |
| PaypalCommerceRoutes.AuthHeader | app/checkout/credit_card/paypal_commerce/routes.py:78 | credentials are encoded exactly when both are strings, as the Basic header of the pair |
| PaypalCommerceRoutes.OrderPayload | app/checkout/credit_card/paypal_commerce/routes.py:90-118 | the order always carries a card payment source |
| PaypalCommerceRoutes.ExpiryIsYearDashMonth | app/checkout/credit_card/paypal_commerce/routes.py:105 | a four-digit year and a two-digit month give the expiry `YYYY-MM` |
| PaypalCommerceRoutes.PlaceOrder | app/checkout/credit_card/paypal_commerce/routes.py:88-148 | with a token the order request goes to `/v2/checkout/orders` with the bearer token, a capture is only ever sent after an accepted order, and a 200 answer needs an accepted order |
| PaypalCommerceRoutes.AfterToken | app/checkout/credit_card/paypal_commerce/routes.py:74-148 | a non-200 token answer is a 502 "PayPal OAuth error: "; a 200 body that is not JSON a 500 with the decoding error; a falsy token a 502; the order is posted with "Bearer " + the token; a capture follows only an accepted order |
| PaypalCommerceRoutes.ProcessPaypalCommercePayment | app/checkout/credit_card/paypal_commerce/routes.py:19-187 | missing fields are a 400 listing them before anything is sent; the first request is the token request to the chosen host; at most three requests are sent; a 200 only for a paid status |
| KlarnaService.BaseUrl | app/checkout/klarna/services.py:55-61 | Europe and Oceania have their own hosts and every other region is North America; each has a live host for "live" and a playground host otherwise |
| KlarnaService.LiveIffProductionHost | app/checkout/klarna/services.py:56-61 | a production host is chosen exactly when the environment is "live" |
| KlarnaService.TestAuthorization | app/checkout/klarna/services.py:102-123 | a given pre-encoded authorization wins; otherwise stripped username and password are Basic-encoded; no header exactly when neither is given |
| KlarnaService.TestCredentialsRecoverable | app/checkout/klarna/services.py:108-112 | the stripped credentials read back intact from the test's header |
| KlarnaService.TestResult | app/checkout/klarna/services.py:144-189 | success exactly for 200 or 201, AUTHENTICATION_FAILED exactly for 401, CONNECTION_ERROR exactly for any other status, EXCEPTION exactly when no answer came; the environment is always in the details |
| KlarnaService.OrDefault | app/checkout/klarna/services.py:212-217 | `d or default`: a non-empty dict is kept, a missing or empty one replaced |
| KlarnaService.OrderLine | app/checkout/klarna/services.py:201-210 | an order line has exactly the eight Klarna keys: type, the item's product id as reference, its name and quantity, the given unit and total cents, and zero tax rate and tax |
| KlarnaService.SessionPayload | app/checkout/klarna/services.py:194-218 | the order and tax amounts are the given cents, the country defaults to "US", the customer is sent as it is, billing falls back to shipping, the merchant URLs to the example URLs, and there is one order line per item, in order |
| KlarnaService.SessionAuthorization | app/checkout/klarna/services.py:219-234 | configured values override the instance's; username and password, when both truthy, are Basic-encoded and win over the pre-encoded authorization; no header exactly when neither is available |
| KlarnaService.SessionCredential | app/checkout/klarna/services.py:221-225 | a key present in the configuration wins; otherwise the instance's value is used |
| KlarnaService.PrecedenceReversed | app/checkout/klarna/services.py:105-112 | with username, password and authorization all given, a session uses the username and password while the connection test uses the authorization |
| KlarnaService.SessionResult | app/checkout/klarna/services.py:242-268 | success exactly for a 200 or 201 JSON dict whose session id, client token and HTML snippet are null or strings, with those values and the body as details; any other status is SESSION_CREATION_FAILED with the status and text; a body that is not JSON, a timeout or a transport error is EXCEPTION with its message |
| KlarnaService.KlarnaService.constructor | app/checkout/klarna/services.py:49-61 | keeps the credentials and environment, defaults a missing or empty region to North America, and sets the base URL from region and environment |
| KlarnaService.KlarnaService.TestConnection | app/checkout/klarna/services.py:63-189 | without credentials nothing is sent and nothing changes; otherwise a given region moves the base URL, the test order is posted to it and the answer is classified |
| KlarnaService.KlarnaService.CreateSession | app/checkout/klarna/services.py:191-268 | without credentials it answers MISSING_CREDENTIALS and sends nothing; otherwise the session payload for the given amounts is posted to the current base URL and the answer classified |
| SquareService.SdkEnvironmentOf | app/checkout/credit_card/square/services.py:53-56 | the SDK talks to the sandbox exactly when the environment is "sandbox", to production otherwise |
| SquareService.NewService | app/checkout/credit_card/square/services.py:34-56 | construction fails with the credentials message exactly when any of the three credentials is empty, and otherwise keeps them with the client for the environment |
| SquareService.TestClient | app/checkout/credit_card/square/services.py:76-79 | the test client is a sandbox client exactly when the mode is "sandbox" |
| SquareService.Prefix | app/checkout/credit_card/square/services.py:97 | `s[:n]` is a prefix of `s` of length `n`, or all of a shorter string |
| SquareService.TestConnection | app/checkout/credit_card/square/services.py:62-147 | success exactly when some location is listed and the configured id is among them; LOCATION_NOT_FOUND, NO_LOCATIONS_FOUND, AUTHENTICATION_FAILED and CONNECTION_ERROR each exactly in its case; the mode is always reported; the available ids read back as the listed ones |
| SquareService.ErrorResponse | app/checkout/credit_card/square/services.py:259-277 | an error response is unsuccessful with status FAILED, its error repeats the message, and an empty or missing code or type becomes UNKNOWN_ERROR or PAYMENT_ERROR |
| SquareService.Call | app/checkout/credit_card/square/services.py:166-193 | the SDK is called with the given integer amount, the upper-cased currency, the key for the order and second, the test nonce and the configured location |
| SquareService.KeysDiffer | app/checkout/credit_card/square/services.py:173 | two calls for one order in different seconds never share an idempotency key |
| SquareService.SchemaError | app/checkout/credit_card/square/services.py:200-212 | the payment schema builds exactly when the payment has an amount and a status among the Square payment statuses |
| SquareService.Processed | app/checkout/credit_card/square/services.py:195-230 | a built payment answers success, status COMPLETED exactly when the SDK said COMPLETED and PENDING otherwise, with the payment's id and status, the order id and the placeholder customer |
| SquareService.CreatePayment | app/checkout/credit_card/square/services.py:149-257 | an amount that cannot be converted fails with "Payment processing error: " and calls nothing; otherwise the SDK is called once, and success is exactly a payment that came back and whose schema builds; no payment, an API error and any other exception each give their own failure message and code |
| SquareService.StatusAgreesWithSuccess | app/checkout/credit_card/square/services.py:223-277 | a successful response is never FAILED, a failed one always is, and CANCELED never appears |
| SquareService.FailedPaymentAnsweredPending | app/checkout/credit_card/square/services.py:229 | a payment Square reports as FAILED or CANCELED is still answered as a successful PENDING checkout |
| SquareService.UnknownStatusIsProcessingError | app/checkout/credit_card/square/services.py:200-257 | a payment in a status outside the schema's statuses is answered as a processing error |

## Left out

- Outbound HTTP (httpx, requests) and the Stripe, Square and PayPal SDK calls: their results are inputs (`Http.Outcome` and the per-service outcome datatypes), and timeouts and transport errors are separate cases of those inputs.
- The HMAC check inside `stripe.Webhook.construct_event` is a foreign library; only the short-circuit without a webhook secret and the mapping of a raised exception to `False` are modelled.
- The read and write of `payment_gateways.json`, and the read-modify-write race between concurrent saves: file I/O and concurrency. The store is the sequence the file would hold.
- Logging, FastAPI routing, dependency injection, background tasks and CORS; the pure delegation files app/admin/routes.py, app/checkout/credit_card/square/routes.py, app/checkout/paypal/routes.py, app/checkout/klarna/routes.py, app/checkout/routes.py and app/main.py (these are not part of this model), the `test_routes.py` wrappers and the `app/hello` demo.
- Binary floating point is not modelled; each float conversion is an input of the operation that uses its result. These inputs are the integer amount of the Stripe route (`int(float(total_amount))`), Square's `int(float(total_amount))` (a `Result`, since `float()` can raise inside the `try`), the `"{:.2f}"` amount text of the PayPal Commerce route, and the Klarna order and line cents (`int(x * 100)`, where for example 19.99 gives 1998). A JSON float is carried as its `repr` text.
- A Klarna `unit_price` that `float()` refuses raises while the payload is built, before the `try` of `create_session`, so the exception leaves the service; this escape is not modelled, and `CreateSession` takes the computed cents.
- Decimal arithmetic is exact `real` arithmetic: the 28-digit context of Python's `decimal` module is not modelled.
- `datetime.utcnow()`, `datetime.now()`, `time.time()` and `uuid4()` are parameters; the clock is not modelled, and the parsing of timestamps the gateways return is not modelled either.
- `Json.PyStr` renders only scalars as Python's `str` does. A JSON object keeps no key order, so `str()` of a list or a dict is not modelled and renders as the empty string. That text surfaces where a request value is formatted: the Stripe route's `Authorization` header and intent description, Authorize.Net's expiration date, amount and invoice number, the PayPal Commerce `Bearer` header, capture URL, status message and description, the Klarna Basic credentials, and Square's error detail. For a list or dict in those places the modelled text is "" where Python writes the container's `repr`.
- `AdminService.Named` compares the stored `gateway_name` with the searched name structurally, so Python's cross-type equalities (`True == 1`, `1 == 1.0`) are not modelled.
- `AdminService.ShownToken`: the text for a dict token is that of Python 3.12 and later (`KeyError: slice(None, 20, None)`); older interpreters say "unhashable type: 'slice'".
- `AdminService.UpsertNew` and the default gateways stamp every timestamp of one call with the same `now`; the source calls `datetime.now()` separately for each, so their microseconds may differ.
- `StripeService.ReadIntent`, `StripeService.IntentOf`, `StripeService.ReadRefund` and `KlarnaService.SessionResult` state pydantic's strict types only: lax coercions (a numeric string for an int, an int for a float-backed timestamp field and similar) are not modelled, and a `ValidationError`'s text is a short field message instead of pydantic's full text.
- `StripeService.IntentOf`: `datetime.fromtimestamp` raising for a timestamp out of the platform's range is not modelled; every int or float timestamp is accepted.
- A request body that is not JSON, on the routes that call `await request.json()`, is not modelled; the routes receive the parsed body.
- `CheckoutService.PayPalCommerceService.GetAccessToken` is the corrected copy of `get_access_token`; the code as written is `CheckoutService.RefreshAsWritten` (see Findings).
- `SquareService.SchemaError`: pydantic's response-schema coercion and the full text of a `ValidationError` are not modelled; the model records only that the response schema rejected the data.
- `EmailStr` validation is a library check and is not modelled; e-mail fields are plain strings.
- The global Stripe service singleton and its lazy creation are not modelled; each call receives the service value.
- The `payment_config` argument that Square's `create_payment` receives and never reads is not a parameter of the model.
- Klarna order lines are modelled as typed line inputs; items that are not dicts, which would raise inside the comprehension, are not modelled.
- The errors httpx raises for non-string credentials in its Basic authentication are approximated by the uniform exception path of the services.
- Stripe's `confirm_payment_intent`, `_get_or_create_customer` and `test_connection` are not part of this model.
- Character classes (`isdigit`, `isalpha`, `lower`, `upper`) are the ASCII ones; `strip` uses Python's whole whitespace set.

## Findings

| source | as written | input that shows it | evidently intended | confidence | as-written member | corrected member |
|---|---|---|---|---|---|---|
| app/checkout/services.py:65-66 | the token expiry is `now.replace(minute=now.minute + 55)`, which raises `ValueError` whenever the current minute is 5 or later, after the new token has already been stored | a successful token answer received at 00:10 UTC (minute 10, so minute 65 is asked for) | the token expires 55 minutes after it was obtained, as the other copy computes with `timedelta(minutes=55)` | not executed | `CheckoutService.ExpiryAsWritten` | `PaypalService.ExpiryAfter55Minutes` |
