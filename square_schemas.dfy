/** The Square side of the card checkout schemas
    (`app/checkout/credit_card/square/schemas.py`): the shared validators of
    `CardSchemas` with currency codes upper-cased, a payment method that may
    carry a `nonce`, and Square's payment statuses. */
module SquareSchemas {
  import opened Wrappers
  import opened CardSchemas

  /** `SquarePaymentStatus`. */
  datatype PaymentStatus = Pending | Completed | Failed | Canceled {
    function Name(): (r: string)
      ensures r == Text.Upper(r)
    {
      match this
      case Pending => "PENDING"
      case Completed => "COMPLETED"
      case Failed => "FAILED"
      case Canceled => "CANCELED"
    }
  }

  /** `SquarePaymentStatus(v)`: the member whose value is `v`. */
  function ParseStatus(v: string): (r: Option<PaymentStatus>)
    ensures r.Some? ==> r.value.Name() == v
    ensures forall s: PaymentStatus :: s.Name() == v ==> r == Some(s)
  {
    if v == "PENDING" then Some(Pending)
    else if v == "COMPLETED" then Some(Completed)
    else if v == "FAILED" then Some(Failed)
    else if v == "CANCELED" then Some(Canceled)
    else None
  }

  /** `SquareCheckoutRequestSchema(**fields)`. */
  function ValidateSquareRequest(input: CheckoutRequestInput): (r: Result<CheckoutRequest, seq<FieldError>>)
    ensures r.Success? ==> FollowsRule(UpperCase, r.value.currency)
    ensures r.Success? ==> forall k :: 0 <= k < |r.value.items| ==> FollowsRule(UpperCase, r.value.items[k].currency)
    ensures r.Success? ==> input.currency.None? ==> r.value.currency == "USD"
    ensures r.Success? ==> AmountsMatch(r.value.subtotal, r.value.taxAmount, r.value.shippingAmount,
                                        r.value.discountAmount, r.value.totalAmount)
  {
    ValidateRequest(UpperCase, input)
  }

  /** A nonce never replaces the card fields: a card payment method with any
      of them missing is refused whatever nonce it carries. */
  lemma NonceDoesNotExemptCard(pm: PaymentMethod, nonce: string)
    requires pm.methodType.Card? && MissingCardFields(pm) != []
    ensures ValidatePaymentMethod(pm.(nonce := Some(nonce))).Failure?
  {
    var n := pm.(nonce := Some(nonce));
    assert MissingCardFields(n) == MissingCardFields(pm);
  }

  /** The verdict on a payment method does not depend on its nonce. */
  lemma NonceIrrelevant(pm: PaymentMethod, nonce: Option<string>)
    ensures ValidatePaymentMethod(pm.(nonce := nonce)).Success? <==> ValidatePaymentMethod(pm).Success?
  {
    var n := pm.(nonce := nonce);
    assert ValidateCardNumber(n.cardNumber) == ValidateCardNumber(pm.cardNumber);
    if ValidateCardNumber(pm.cardNumber).Success? {
      var c := ValidateCardNumber(pm.cardNumber).value;
      assert MissingCardFields(n.(cardNumber := c)) == MissingCardFields(pm.(cardNumber := c));
    }
  }
}
