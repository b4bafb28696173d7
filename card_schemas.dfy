/** The card checkout schemas that the Stripe and Square gateways share
    (`app/checkout/credit_card/stripe/schemas.py` and its copy
    `app/checkout/credit_card/square/schemas.py`), which differ only in how the
    currency code is cased and in Square's extra `nonce` field.

    Validation is what pydantic does when it builds the model: every field's
    `Field(...)` constraints, then that field's `@validator` on the value that
    passed them, and only when no field failed, the `model_validator`. A failed
    field constraint is reported by the constraint's name (`min_length=13`);
    a validator's failure by its `ValueError` text. Amounts are exact `real`s. */
module CardSchemas {
  import opened Wrappers
  import Text

  datatype FieldError = FieldError(loc: string, msg: string)

  /** Errors of a nested model, located under `field`. */
  function Under(field: string, errors: seq<FieldError>): (r: seq<FieldError>)
    ensures |r| == |errors|
  {
    seq(|errors|, k requires 0 <= k < |errors| =>
      FieldError(if errors[k].loc == "" then field else field + "." + errors[k].loc, errors[k].msg))
  }

  /** `Field(min_length=lo, max_length=hi)` on a string. */
  function LengthErrors(field: string, s: string, lo: nat, hi: nat): (r: seq<FieldError>)
    ensures r == [] <==> lo <= |s| <= hi
  {
    if |s| < lo then [FieldError(field, "min_length=" + Text.NatToString(lo))]
    else if |s| > hi then [FieldError(field, "max_length=" + Text.NatToString(hi))]
    else []
  }

  function OptLengthErrors(field: string, s: Option<string>, hi: nat): (r: seq<FieldError>)
    ensures r == [] <==> s.None? || |s.value| <= hi
  {
    if s.Some? then LengthErrors(field, s.value, 0, hi) else []
  }

  // ---- AddressSchema ------------------------------------------------------

  /** `validate_country_code`, after `min_length=2, max_length=2`. */
  function ValidateCountryCode(v: string): (r: Result<string, string>)
    ensures r.Success? <==> |v| == 2 && Text.IsAlphas(v)
    ensures r.Success? ==> r.value == Text.Upper(v)
    ensures r.Success? ==> |r.value| == 2 && forall i :: 0 <= i < 2 ==> 'A' <= r.value[i] <= 'Z'
  {
    if |v| < 2 then Failure("min_length=2")
    else if |v| > 2 then Failure("max_length=2")
    else if !Text.IsAlphas(v) || |v| != 2 then Failure("Value error, Country code must be a 2-letter ISO code")
    else
      Text.UpperKeepsAlpha(v);
      Success(Text.Upper(v))
  }

  /** Upper-casing a valid code is stable: validating the result gives it back. */
  lemma CountryCodeIdempotent(v: string)
    requires ValidateCountryCode(v).Success?
    ensures ValidateCountryCode(ValidateCountryCode(v).value) == ValidateCountryCode(v)
  {
    var u := ValidateCountryCode(v).value;
    assert Text.IsAlphas(u);
    assert Text.Upper(u) == u;
  }

  datatype Address = Address(
    line1: string, line2: Option<string>, city: string, state: string,
    postalCode: string, countryCode: string)

  /** `AddressSchema(**fields)`. */
  function ValidateAddress(a: Address): (r: Result<Address, seq<FieldError>>)
    ensures r.Success? <==>
      1 <= |a.line1| <= 200 && (a.line2.None? || |a.line2.value| <= 200) &&
      1 <= |a.city| <= 100 && 1 <= |a.state| <= 100 && 1 <= |a.postalCode| <= 20 &&
      ValidateCountryCode(a.countryCode).Success?
    ensures r.Success? ==> r.value == a.(countryCode := Text.Upper(a.countryCode))
    ensures r.Failure? ==> r.error != []
  {
    var country := ValidateCountryCode(a.countryCode);
    var errors :=
      LengthErrors("line1", a.line1, 1, 200) + OptLengthErrors("line2", a.line2, 200) +
      LengthErrors("city", a.city, 1, 100) + LengthErrors("state", a.state, 1, 100) +
      LengthErrors("postal_code", a.postalCode, 1, 20) +
      (if country.Failure? then [FieldError("country_code", country.error)] else []);
    if errors != [] then Failure(errors) else Success(a.(countryCode := country.value))
  }

  // ---- CustomerSchema -----------------------------------------------------

  datatype Customer = Customer(
    email: string, firstName: string, lastName: string, phone: Option<string>,
    metadata: map<string, string>)

  function CustomerErrors(c: Customer): (r: seq<FieldError>)
    ensures r == [] <==>
      1 <= |c.firstName| <= 100 && 1 <= |c.lastName| <= 100 && (c.phone.None? || |c.phone.value| <= 20)
  {
    LengthErrors("first_name", c.firstName, 1, 100) + LengthErrors("last_name", c.lastName, 1, 100) +
    OptLengthErrors("phone", c.phone, 20)
  }

  // ---- OrderItemSchema ----------------------------------------------------

  /** How a schema normalises currency codes: Stripe lower-cases, Square upper-cases. */
  datatype CurrencyRule = LowerCase | UpperCase

  /** No letter of `s` has the case the rule removes. */
  predicate FollowsRule(rule: CurrencyRule, s: string) {
    if rule.LowerCase? then forall i :: 0 <= i < |s| ==> !('A' <= s[i] <= 'Z')
    else forall i :: 0 <= i < |s| ==> !('a' <= s[i] <= 'z')
  }

  function ApplyCurrencyRule(rule: CurrencyRule, v: string): (r: string)
    ensures |r| == |v|
    ensures FollowsRule(rule, r)
  {
    if rule.LowerCase? then Text.Lower(v) else Text.Upper(v)
  }

  /** `Field(min_length=3, max_length=3)` and then `validate_currency`. */
  function ValidateCurrency(rule: CurrencyRule, v: string): (r: Result<string, string>)
    ensures r.Success? <==> |v| == 3
    ensures r.Success? ==> r.value == ApplyCurrencyRule(rule, v)
  {
    if |v| < 3 then Failure("min_length=3")
    else if |v| > 3 then Failure("max_length=3")
    else Success(ApplyCurrencyRule(rule, v))
  }

  /** The currency default: pydantic does not run validators on defaults, so it
      is used as written ("usd" for Stripe, "USD" for Square). */
  function DefaultCurrency(rule: CurrencyRule): (r: string)
    ensures FollowsRule(rule, r) && |r| == 3
  {
    if rule.LowerCase? then "usd" else "USD"
  }

  datatype OrderItemInput = OrderItemInput(
    productId: string, name: string, quantity: int, unitPrice: real,
    currency: Option<string>, metadata: map<string, string>)

  datatype OrderItem = OrderItem(
    productId: string, name: string, quantity: int, unitPrice: real,
    currency: string, metadata: map<string, string>)

  /** `OrderItemSchema(**fields)`. */
  function ValidateItem(rule: CurrencyRule, i: OrderItemInput): (r: Result<OrderItem, seq<FieldError>>)
    ensures r.Success? <==>
      1 <= |i.name| <= 255 && 0 < i.quantity <= 999 && i.unitPrice > 0.0 &&
      (i.currency.None? || |i.currency.value| == 3)
    ensures r.Success? ==> r.value.quantity == i.quantity && r.value.unitPrice == i.unitPrice
    ensures r.Success? ==>
      r.value.currency == if i.currency.Some? then ApplyCurrencyRule(rule, i.currency.value) else DefaultCurrency(rule)
    ensures r.Success? ==> FollowsRule(rule, r.value.currency)
  {
    var currency := if i.currency.Some? then ValidateCurrency(rule, i.currency.value) else Success(DefaultCurrency(rule));
    var errors :=
      LengthErrors("name", i.name, 1, 255) +
      (if i.quantity > 0 then [] else [FieldError("quantity", "gt=0")]) +
      (if i.quantity <= 999 then [] else [FieldError("quantity", "le=999")]) +
      (if i.unitPrice > 0.0 then [] else [FieldError("unit_price", "gt=0")]) +
      (if currency.Failure? then [FieldError("currency", currency.error)] else []);
    if errors != [] then Failure(errors)
    else Success(OrderItem(i.productId, i.name, i.quantity, i.unitPrice, currency.value, i.metadata))
  }

  // ---- PaymentMethodSchema ------------------------------------------------

  datatype PaymentMethodType = Card | Wallet

  /** The payment method as sent. `nonce` is declared only by the Square schema. */
  datatype PaymentMethod = PaymentMethod(
    methodType: PaymentMethodType, cardNumber: Option<string>, expiryMonth: Option<int>,
    expiryYear: Option<int>, cvc: Option<string>, nameOnCard: Option<string>,
    nonce: Option<string>, savePaymentMethod: bool)

  /** `min_length=13, max_length=19` on the number as sent, then
      `validate_card_number`: keep the digits, which must number 13 to 19. */
  function ValidateCardNumber(v: Option<string>): (r: Result<Option<string>, string>)
    ensures v.None? ==> r == Success(None)
    ensures v.Some? ==> (r.Success? <==> 13 <= |v.value| <= 19 && 13 <= |Text.DigitsOf(v.value)| <= 19)
    ensures r.Success? && v.Some? ==>
      r.value == Some(Text.DigitsOf(v.value)) && Text.IsDigits(r.value.value) && 13 <= |r.value.value| <= 19
  {
    match v
    case None => Success(None)
    case Some(s) =>
      if |s| < 13 then Failure("min_length=13")
      else if |s| > 19 then Failure("max_length=19")
      else
        var digits := Text.DigitsOf(s);
        if !Text.IsDigits(digits) || |digits| < 13 || |digits| > 19 then
          Failure("Value error, Invalid card number format")
        else Success(Some(digits))
  }

  /** A number that is already only digits is kept as it is. */
  lemma CardNumberDigitsKept(s: string)
    requires Text.IsDigits(s) && 13 <= |s| <= 19
    ensures ValidateCardNumber(Some(s)) == Success(Some(s))
  {
    Text.DigitsOfDigits(s);
  }

  /** `min_length=3, max_length=4`, then `validate_cvc`: digits only. */
  function ValidateCvc(v: Option<string>): (r: Result<Option<string>, string>)
    ensures r.Success? <==> v.None? || (Text.IsDigits(v.value) && 3 <= |v.value| <= 4)
    ensures r.Success? ==> r.value == v
  {
    match v
    case None => Success(None)
    case Some(s) =>
      if |s| < 3 then Failure("min_length=3")
      else if |s| > 4 then Failure("max_length=4")
      else if !Text.IsDigits(s) then Failure("Value error, Invalid CVC format")
      else Success(v)
  }

  /** `not getattr(self, field)` for the optional card fields. */
  predicate Falsy(s: Option<string>) { s.None? || s.value == "" }
  predicate FalsyInt(n: Option<int>) { n.None? || n.value == 0 }

  /** The card fields that are missing, in the fixed order of `required_fields`. */
  function MissingCardFields(pm: PaymentMethod): (r: seq<string>)
    ensures forall k :: 0 <= k < |r| ==> r[k] in ["card_number", "expiry_month", "expiry_year", "cvc"]
    ensures "card_number" in r <==> Falsy(pm.cardNumber)
    ensures "expiry_month" in r <==> FalsyInt(pm.expiryMonth)
    ensures "expiry_year" in r <==> FalsyInt(pm.expiryYear)
    ensures "cvc" in r <==> Falsy(pm.cvc)
    ensures r == [] <==> !Falsy(pm.cardNumber) && !FalsyInt(pm.expiryMonth) && !FalsyInt(pm.expiryYear) && !Falsy(pm.cvc)
  {
    (if Falsy(pm.cardNumber) then ["card_number"] else []) +
    (if FalsyInt(pm.expiryMonth) then ["expiry_month"] else []) +
    (if FalsyInt(pm.expiryYear) then ["expiry_year"] else []) +
    (if Falsy(pm.cvc) then ["cvc"] else [])
  }

  /** Position of a card field in `required_fields`. */
  function Position(f: string): nat {
    if f == "card_number" then 0 else if f == "expiry_month" then 1 else if f == "expiry_year" then 2 else 3
  }

  /** The missing fields keep the order of `required_fields`. */
  lemma MissingCardFieldsOrdered(pm: PaymentMethod, i: nat, j: nat)
    requires i < j < |MissingCardFields(pm)|
    ensures Position(MissingCardFields(pm)[i]) < Position(MissingCardFields(pm)[j])
  {
    assert "expiry_month"[0] != "card_number"[0] && "expiry_year"[0] != "card_number"[0];
    assert |"cvc"| != |"card_number"| && |"expiry_month"| != |"expiry_year"|;
    assert "cvc"[0] != "expiry_month"[0] && "cvc"[0] != "expiry_year"[0];
    assert Position("card_number") == 0 && Position("expiry_month") == 1;
    assert Position("expiry_year") == 2 && Position("cvc") == 3;
    var a := if Falsy(pm.cardNumber) then ["card_number"] else [];
    var b := if FalsyInt(pm.expiryMonth) then ["expiry_month"] else [];
    var c := if FalsyInt(pm.expiryYear) then ["expiry_year"] else [];
    var d := if Falsy(pm.cvc) then ["cvc"] else [];
    assert MissingCardFields(pm) == a + b + c + d;
  }

  /** `", ".join(parts)`. */
  function JoinComma(parts: seq<string>): string {
    if parts == [] then "" else if |parts| == 1 then parts[0] else parts[0] + ", " + JoinComma(parts[1..])
  }

  /** `validate_card_fields`: a card needs all four card fields, a wallet none. */
  function CardFieldsCheck(pm: PaymentMethod): (r: Result<PaymentMethod, string>)
    ensures pm.methodType.Wallet? ==> r == Success(pm)
    ensures pm.methodType.Card? ==> (r.Success? <==> MissingCardFields(pm) == [])
    ensures r.Failure? ==> r.error == "Value error, Card payment method requires: " + JoinComma(MissingCardFields(pm))
  {
    if pm.methodType.Card? && MissingCardFields(pm) != [] then
      Failure("Value error, Card payment method requires: " + JoinComma(MissingCardFields(pm)))
    else Success(pm)
  }

  /** `StripePaymentMethodSchema(**fields)` / `SquarePaymentMethodSchema(**fields)`. */
  function ValidatePaymentMethod(pm: PaymentMethod): (r: Result<PaymentMethod, seq<FieldError>>)
    ensures r.Success? ==>
      ValidateCardNumber(pm.cardNumber).Success? && ValidateCvc(pm.cvc).Success? &&
      (pm.expiryMonth.None? || 1 <= pm.expiryMonth.value <= 12) &&
      (pm.expiryYear.None? || 2024 <= pm.expiryYear.value <= 2100)
    ensures r.Success? <==>
      ValidateCardNumber(pm.cardNumber).Success? && ValidateCvc(pm.cvc).Success? &&
      (pm.expiryMonth.None? || 1 <= pm.expiryMonth.value <= 12) &&
      (pm.expiryYear.None? || 2024 <= pm.expiryYear.value <= 2100) &&
      (pm.nameOnCard.None? || |pm.nameOnCard.value| <= 100) &&
      (pm.methodType.Card? ==> MissingCardFields(pm) == [])
    ensures r.Success? ==> r.value == pm.(cardNumber := ValidateCardNumber(pm.cardNumber).value)
    ensures r.Success? && pm.methodType.Card? ==> MissingCardFields(r.value) == []
    ensures r.Failure? ==> r.error != []
    ensures ValidateCardNumber(pm.cardNumber).Failure? ==>
      r.Failure? && r.error[0] == FieldError("card_number", ValidateCardNumber(pm.cardNumber).error)
    ensures r.Failure? && |r.error| == 1 && r.error[0].loc == "" ==>
      pm.methodType.Card? && MissingCardFields(pm) != [] &&
      r.error[0].msg == "Value error, Card payment method requires: " + JoinComma(MissingCardFields(pm))
  {
    var number := ValidateCardNumber(pm.cardNumber);
    var cvc := ValidateCvc(pm.cvc);
    var errors :=
      (if number.Failure? then [FieldError("card_number", number.error)] else []) +
      (if pm.expiryMonth.Some? && pm.expiryMonth.value < 1 then [FieldError("expiry_month", "ge=1")] else []) +
      (if pm.expiryMonth.Some? && pm.expiryMonth.value > 12 then [FieldError("expiry_month", "le=12")] else []) +
      (if pm.expiryYear.Some? && pm.expiryYear.value < 2024 then [FieldError("expiry_year", "ge=2024")] else []) +
      (if pm.expiryYear.Some? && pm.expiryYear.value > 2100 then [FieldError("expiry_year", "le=2100")] else []) +
      (if cvc.Failure? then [FieldError("cvc", cvc.error)] else []) +
      OptLengthErrors("name_on_card", pm.nameOnCard, 100);
    if errors != [] then Failure(errors)
    else
      var checked := pm.(cardNumber := number.value);
      match CardFieldsCheck(checked)
      case Failure(e) => Failure([FieldError("", e)])
      case Success(m) => Success(m)
  }

  /** A wallet needs no card fields at all. */
  lemma WalletNeedsNoCard(pm: PaymentMethod)
    requires pm.methodType.Wallet? && pm.cardNumber.None? && pm.cvc.None?
    requires pm.expiryMonth.None? && pm.expiryYear.None? && pm.nameOnCard.None?
    ensures ValidatePaymentMethod(pm) == Success(pm)
  {
  }

  // ---- CheckoutRequestSchema ----------------------------------------------

  datatype CheckoutRequestInput = CheckoutRequestInput(
    orderId: string, customer: Customer, items: seq<OrderItemInput>,
    shippingAddress: Address, billingAddress: Option<Address>,
    subtotal: real, taxAmount: Option<real>, shippingAmount: Option<real>,
    discountAmount: Option<real>, totalAmount: real, currency: Option<string>,
    paymentMethod: PaymentMethod, metadata: map<string, string>, notes: Option<string>,
    returnUrl: Option<string>, cancelUrl: Option<string>)

  datatype CheckoutRequest = CheckoutRequest(
    orderId: string, customer: Customer, items: seq<OrderItem>,
    shippingAddress: Address, billingAddress: Option<Address>,
    subtotal: real, taxAmount: real, shippingAmount: real,
    discountAmount: real, totalAmount: real, currency: string,
    paymentMethod: PaymentMethod, metadata: map<string, string>, notes: Option<string>,
    returnUrl: Option<string>, cancelUrl: Option<string>)

  /** `subtotal + tax + shipping - discount` is within a cent of the total. */
  predicate AmountsMatch(subtotal: real, tax: real, shipping: real, discount: real, total: real) {
    var d := subtotal + tax + shipping - discount - total;
    -0.01 <= d <= 0.01
  }

  function ItemsErrors(rule: CurrencyRule, items: seq<OrderItemInput>, from: nat): (r: seq<FieldError>)
    ensures r == [] <==> forall k :: 0 <= k < |items| ==> ValidateItem(rule, items[k]).Success?
    decreases |items|
  {
    if items == [] then []
    else
      var here := match ValidateItem(rule, items[0])
        case Failure(e) => Under("items." + Text.NatToString(from), e)
        case Success(_) => [];
      here + ItemsErrors(rule, items[1..], from + 1)
  }

  function ValidItems(rule: CurrencyRule, items: seq<OrderItemInput>): (r: seq<OrderItem>)
    requires forall k :: 0 <= k < |items| ==> ValidateItem(rule, items[k]).Success?
    ensures |r| == |items| && forall k :: 0 <= k < |items| ==> r[k] == ValidateItem(rule, items[k]).value
  {
    seq(|items|, k requires 0 <= k < |items| => ValidateItem(rule, items[k]).value)
  }

  function ErrorsOf<T>(field: string, r: Result<T, seq<FieldError>>): seq<FieldError> {
    if r.Failure? then Under(field, r.error) else []
  }

  /** `Field(gt=0)` when `strict`, `Field(ge=0)` otherwise. */
  function RealErrors(field: string, x: real, strict: bool): (r: seq<FieldError>)
    ensures r == [] <==> if strict then x > 0.0 else x >= 0.0
  {
    if strict && !(x > 0.0) then [FieldError(field, "gt=0")]
    else if !strict && !(x >= 0.0) then [FieldError(field, "ge=0")]
    else []
  }

  /** Failures of `order_id`, `customer` and `items`, in field order. */
  function HeadErrors(rule: CurrencyRule, input: CheckoutRequestInput): (r: seq<FieldError>)
    ensures r == [] <==>
      1 <= |input.orderId| <= 255 && CustomerErrors(input.customer) == [] && 1 <= |input.items| <= 100 &&
      forall k :: 0 <= k < |input.items| ==> ValidateItem(rule, input.items[k]).Success?
  {
    LengthErrors("order_id", input.orderId, 1, 255) +
    Under("customer", CustomerErrors(input.customer)) +
    (if |input.items| < 1 then [FieldError("items", "min_items=1")] else []) +
    (if |input.items| > 100 then [FieldError("items", "max_items=100")] else []) +
    ItemsErrors(rule, input.items, 0)
  }

  /** Failures of the two addresses. */
  function AddressErrors(input: CheckoutRequestInput): (r: seq<FieldError>)
    ensures r == [] <==>
      ValidateAddress(input.shippingAddress).Success? &&
      (input.billingAddress.Some? ==> ValidateAddress(input.billingAddress.value).Success?)
  {
    ErrorsOf("shipping_address", ValidateAddress(input.shippingAddress)) +
    (if input.billingAddress.Some? then ErrorsOf("billing_address", ValidateAddress(input.billingAddress.value)) else [])
  }

  /** Failures of the five amount bounds. */
  function AmountBoundErrors(input: CheckoutRequestInput): (r: seq<FieldError>)
    ensures r == [] <==>
      input.subtotal > 0.0 && input.taxAmount.GetOr(0.0) >= 0.0 && input.shippingAmount.GetOr(0.0) >= 0.0 &&
      input.discountAmount.GetOr(0.0) >= 0.0 && input.totalAmount > 0.0
  {
    RealErrors("subtotal", input.subtotal, true) +
    RealErrors("tax_amount", input.taxAmount.GetOr(0.0), false) +
    RealErrors("shipping_amount", input.shippingAmount.GetOr(0.0), false) +
    RealErrors("discount_amount", input.discountAmount.GetOr(0.0), false) +
    RealErrors("total_amount", input.totalAmount, true)
  }

  /** Failures of `currency`, `payment_method` and `notes`. */
  function TailErrors(rule: CurrencyRule, input: CheckoutRequestInput): (r: seq<FieldError>)
    ensures r == [] <==>
      (input.currency.Some? ==> |input.currency.value| == 3) &&
      ValidatePaymentMethod(input.paymentMethod).Success? &&
      (input.notes.None? || |input.notes.value| <= 1000)
  {
    var currency := if input.currency.Some? then ValidateCurrency(rule, input.currency.value) else Success(DefaultCurrency(rule));
    (if currency.Failure? then [FieldError("currency", currency.error)] else []) +
    ErrorsOf("payment_method", ValidatePaymentMethod(input.paymentMethod)) +
    OptLengthErrors("notes", input.notes, 1000)
  }

  /** Every field of the request and of its nested models passes its own checks. */
  predicate FieldsValid(rule: CurrencyRule, input: CheckoutRequestInput) {
    1 <= |input.orderId| <= 255 && CustomerErrors(input.customer) == [] &&
    1 <= |input.items| <= 100 &&
    (forall k :: 0 <= k < |input.items| ==> ValidateItem(rule, input.items[k]).Success?) &&
    ValidateAddress(input.shippingAddress).Success? &&
    (input.billingAddress.Some? ==> ValidateAddress(input.billingAddress.value).Success?) &&
    input.subtotal > 0.0 && input.taxAmount.GetOr(0.0) >= 0.0 && input.shippingAmount.GetOr(0.0) >= 0.0 &&
    input.discountAmount.GetOr(0.0) >= 0.0 && input.totalAmount > 0.0 &&
    (input.currency.Some? ==> ValidateCurrency(rule, input.currency.value).Success?) &&
    ValidatePaymentMethod(input.paymentMethod).Success? &&
    (input.notes.None? || |input.notes.value| <= 1000)
  }

  /** Failures of the request's own fields and its nested models, in field order. */
  function RequestFieldErrors(rule: CurrencyRule, input: CheckoutRequestInput): (r: seq<FieldError>)
    ensures r == [] <==> FieldsValid(rule, input)
  {
    HeadErrors(rule, input) + AddressErrors(input) + AmountBoundErrors(input) + TailErrors(rule, input)
  }

  /** The request as the schema leaves it once every field is valid:
      defaults filled in and each nested model normalised. */
  function Normalized(rule: CurrencyRule, input: CheckoutRequestInput): (r: CheckoutRequest)
    requires FieldsValid(rule, input)
    ensures 1 <= |input.items| <= 100 && |r.items| == |input.items|
    ensures forall k :: 0 <= k < |input.items| ==>
      ValidateItem(rule, input.items[k]).Success? && r.items[k] == ValidateItem(rule, input.items[k]).value
    ensures r.subtotal == input.subtotal && r.totalAmount == input.totalAmount
    ensures r.taxAmount == input.taxAmount.GetOr(0.0) && r.shippingAmount == input.shippingAmount.GetOr(0.0) &&
            r.discountAmount == input.discountAmount.GetOr(0.0)
    ensures r.currency == if input.currency.Some? then ApplyCurrencyRule(rule, input.currency.value) else DefaultCurrency(rule)
    ensures FollowsRule(rule, r.currency) && forall k :: 0 <= k < |r.items| ==> FollowsRule(rule, r.items[k].currency)
    ensures ValidatePaymentMethod(input.paymentMethod) == Success(r.paymentMethod)
  {
    assert ValidateAddress(input.shippingAddress).Success? && ValidatePaymentMethod(input.paymentMethod).Success?;
    var currency := if input.currency.Some? then ValidateCurrency(rule, input.currency.value).value else DefaultCurrency(rule);
    var billing := if input.billingAddress.Some? then Some(ValidateAddress(input.billingAddress.value).value) else None;
    CheckoutRequest(
      input.orderId, input.customer, ValidItems(rule, input.items),
      ValidateAddress(input.shippingAddress).value, billing,
      input.subtotal, input.taxAmount.GetOr(0.0), input.shippingAmount.GetOr(0.0), input.discountAmount.GetOr(0.0),
      input.totalAmount, currency, ValidatePaymentMethod(input.paymentMethod).value, input.metadata, input.notes,
      input.returnUrl, input.cancelUrl)
  }

  /** The checkout request schema: field checks, then `validate_amounts`. */
  function ValidateRequest(rule: CurrencyRule, input: CheckoutRequestInput): (r: Result<CheckoutRequest, seq<FieldError>>)
    ensures RequestFieldErrors(rule, input) != [] ==> r == Failure(RequestFieldErrors(rule, input))
    ensures r.Success? ==> RequestFieldErrors(rule, input) == [] && r.value == Normalized(rule, input)
    ensures r.Success? <==> RequestFieldErrors(rule, input) == [] && AmountErrors(input) == []
    ensures RequestFieldErrors(rule, input) == [] && r.Failure? ==> r.error == AmountErrors(input)
  {
    if |RequestFieldErrors(rule, input)| > 0 then Failure(RequestFieldErrors(rule, input))
    else if |AmountErrors(input)| > 0 then Failure(AmountErrors(input))
    else Success(Normalized(rule, input))
  }

  /** `validate_amounts`: its one error when the total is off by more than a cent. */
  function AmountErrors(input: CheckoutRequestInput): (r: seq<FieldError>)
    ensures r == [] <==> AmountsMatch(input.subtotal, input.taxAmount.GetOr(0.0), input.shippingAmount.GetOr(0.0),
                                      input.discountAmount.GetOr(0.0), input.totalAmount)
    ensures r != [] ==> r == [FieldError("", "Value error, Total amount does not match sum of subtotal, tax, shipping, and discount")]
  {
    if AmountsMatch(input.subtotal, input.taxAmount.GetOr(0.0), input.shippingAmount.GetOr(0.0),
                    input.discountAmount.GetOr(0.0), input.totalAmount) then []
    else [FieldError("", "Value error, Total amount does not match sum of subtotal, tax, shipping, and discount")]
  }

  /** A request the schema accepts keeps the amount invariant. */
  lemma ValidatedAmountsMatch(rule: CurrencyRule, input: CheckoutRequestInput)
    requires ValidateRequest(rule, input).Success?
    ensures var c := ValidateRequest(rule, input).value;
      AmountsMatch(c.subtotal, c.taxAmount, c.shippingAmount, c.discountAmount, c.totalAmount)
  {
    var c := ValidateRequest(rule, input).value;
    assert c == Normalized(rule, input);
    assert c.subtotal == input.subtotal && c.totalAmount == input.totalAmount;
    assert c.taxAmount == input.taxAmount.GetOr(0.0) && c.shippingAmount == input.shippingAmount.GetOr(0.0);
    assert c.discountAmount == input.discountAmount.GetOr(0.0);
  }
}
