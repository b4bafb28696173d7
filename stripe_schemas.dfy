/** The Stripe side of the card checkout schemas
    (`app/checkout/credit_card/stripe/schemas.py`): the shared validators of
    `CardSchemas` with currency codes lower-cased. */
module StripeSchemas {
  import opened Wrappers
  import opened CardSchemas

  /** `StripeCheckoutRequestSchema(**fields)`. The Stripe payment-method
      schema declares no `nonce`, so pydantic drops one that is sent. */
  function ValidateStripeRequest(input: CheckoutRequestInput): (r: Result<CheckoutRequest, seq<FieldError>>)
    ensures r.Success? ==> r.value.paymentMethod.nonce.None?
    ensures r.Success? ==> FollowsRule(LowerCase, r.value.currency)
    ensures r.Success? ==> forall k :: 0 <= k < |r.value.items| ==> FollowsRule(LowerCase, r.value.items[k].currency)
    ensures r.Success? ==> input.currency.None? ==> r.value.currency == "usd"
  {
    var dropped := input.(paymentMethod := input.paymentMethod.(nonce := None));
    var r := ValidateRequest(LowerCase, dropped);
    if r.Success? then
      ValidatePaymentMethodKeepsNonce(dropped.paymentMethod);
      r
    else r
  }

  /** Validation never invents or loses a nonce. */
  lemma ValidatePaymentMethodKeepsNonce(pm: PaymentMethod)
    requires ValidatePaymentMethod(pm).Success?
    ensures ValidatePaymentMethod(pm).value.nonce == pm.nonce
  {
  }

  /** The amount rule is checked only once every field is valid, and then it is
      the whole verdict: a discrepancy of exactly one cent is accepted, a larger
      one refused. */
  lemma {:induction false} StripeCentTolerance(input: CheckoutRequestInput, delta: real)
    requires RequestFieldErrors(LowerCase, input.(paymentMethod := input.paymentMethod.(nonce := None))) == []
    requires input.totalAmount == input.subtotal + input.taxAmount.GetOr(0.0) + input.shippingAmount.GetOr(0.0)
                                  - input.discountAmount.GetOr(0.0) + delta
    ensures ValidateStripeRequest(input).Success? <==> -0.01 <= delta <= 0.01
  {
    var dropped := input.(paymentMethod := input.paymentMethod.(nonce := None));
    var tax, shipping, discount := input.taxAmount.GetOr(0.0), input.shippingAmount.GetOr(0.0), input.discountAmount.GetOr(0.0);
    assert input.subtotal + tax + shipping - discount - input.totalAmount == -delta;
    assert AmountsMatch(input.subtotal, tax, shipping, discount, input.totalAmount) <==> -0.01 <= delta <= 0.01;
    assert ValidateRequest(LowerCase, dropped).Success? <==> AmountsMatch(input.subtotal, tax, shipping, discount, input.totalAmount);
  }
}
