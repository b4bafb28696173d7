/** The request and response schemas of the PayPal checkout
    (`app/checkout/schemas.py`). A schema is a datatype; what pydantic checks
    when it builds one is a `Validate…` function from the fields as sent (an
    optional field is `None` when it was left out) to the model with its
    defaults filled in, or to the locations of the failing fields in field order.

    Amounts are `Decimal`: an exact value with the text `str()` gives for it. */
module CheckoutSchemas {
  import opened Wrappers
  import Text

  datatype Decimal = Decimal(value: real, text: string)

  datatype Address = Address(
    line1: string, line2: Option<string>, city: string, state: string,
    postalCode: string, countryCode: string)

  datatype Customer = Customer(email: string, firstName: string, lastName: string, phone: Option<string>)

  datatype OrderItem = OrderItem(
    productId: string, name: string, quantity: int, unitPrice: Decimal,
    currency: string, description: Option<string>)

  datatype CheckoutRequest = CheckoutRequest(
    orderId: string, customer: Customer, items: seq<OrderItem>,
    shippingAddress: Address, billingAddress: Option<Address>,
    subtotal: Decimal, taxAmount: Decimal, shippingAmount: Decimal,
    discountAmount: Decimal, totalAmount: Decimal,
    currency: string, paymentMethod: string, notes: Option<string>)

  /** An order item as sent: `currency` may be left out. */
  datatype OrderItemInput = OrderItemInput(
    productId: string, name: string, quantity: int, unitPrice: Decimal,
    currency: Option<string>, description: Option<string>)

  /** A checkout request as sent: the fields with defaults may be left out. */
  datatype CheckoutRequestInput = CheckoutRequestInput(
    orderId: string, customer: Customer, items: seq<OrderItemInput>,
    shippingAddress: Address, billingAddress: Option<Address>,
    subtotal: Decimal, taxAmount: Option<Decimal>, shippingAmount: Option<Decimal>,
    discountAmount: Option<Decimal>, totalAmount: Decimal,
    currency: Option<string>, paymentMethod: Option<string>, notes: Option<string>)

  const Zero: Decimal := Decimal(0.0, "0")

  /** `Field(gt=0)` / `Field(ge=0)` failures of one item, as field names. */
  function ItemErrors(i: OrderItemInput): seq<string> {
    (if i.quantity > 0 then [] else ["quantity"]) +
    (if i.unitPrice.value > 0.0 then [] else ["unit_price"])
  }

  /** `OrderItemSchema(**fields)`. */
  function ValidateItem(i: OrderItemInput): (r: Result<OrderItem, seq<string>>)
    ensures r.Success? <==> i.quantity > 0 && i.unitPrice.value > 0.0
    ensures r.Success? ==> r.value.quantity == i.quantity && r.value.unitPrice == i.unitPrice
    ensures r.Success? ==> r.value.currency == i.currency.GetOr("USD")
    ensures r.Failure? ==> |r.error| > 0
  {
    if ItemErrors(i) != [] then Failure(ItemErrors(i))
    else Success(OrderItem(i.productId, i.name, i.quantity, i.unitPrice, i.currency.GetOr("USD"), i.description))
  }

  /** Errors of all items, located as `items.<index>.<field>`. */
  function ItemsErrors(items: seq<OrderItemInput>, from: nat): (r: seq<string>)
    ensures r == [] <==> forall k :: 0 <= k < |items| ==> ValidateItem(items[k]).Success?
    decreases |items|
  {
    if items == [] then []
    else
      var here := seq(|ItemErrors(items[0])|, j requires 0 <= j < |ItemErrors(items[0])| =>
        "items." + Text.NatToString(from) + "." + ItemErrors(items[0])[j]);
      here + ItemsErrors(items[1..], from + 1)
  }

  function ValidItems(items: seq<OrderItemInput>): (r: seq<OrderItem>)
    requires forall k :: 0 <= k < |items| ==> ValidateItem(items[k]).Success?
    ensures |r| == |items|
    ensures forall k :: 0 <= k < |items| ==> r[k] == ValidateItem(items[k]).value
  {
    if items == [] then [] else [ValidateItem(items[0]).value] + ValidItems(items[1..])
  }

  /** Failures of the request's own amount fields, in field order. */
  function AmountErrors(r: CheckoutRequestInput): seq<string> {
    (if r.subtotal.value > 0.0 then [] else ["subtotal"]) +
    (if r.taxAmount.GetOr(Zero).value >= 0.0 then [] else ["tax_amount"]) +
    (if r.shippingAmount.GetOr(Zero).value >= 0.0 then [] else ["shipping_amount"]) +
    (if r.discountAmount.GetOr(Zero).value >= 0.0 then [] else ["discount_amount"]) +
    (if r.totalAmount.value > 0.0 then [] else ["total_amount"])
  }

  /** `CheckoutRequestSchema(**fields)`: item and amount constraints, then the
      defaults. There is no minimum number of items. */
  function ValidateRequest(input: CheckoutRequestInput): (r: Result<CheckoutRequest, seq<string>>)
    ensures r.Success? <==>
      (forall k :: 0 <= k < |input.items| ==> input.items[k].quantity > 0 && input.items[k].unitPrice.value > 0.0) &&
      input.subtotal.value > 0.0 && input.totalAmount.value > 0.0 &&
      input.taxAmount.GetOr(Zero).value >= 0.0 && input.shippingAmount.GetOr(Zero).value >= 0.0 &&
      input.discountAmount.GetOr(Zero).value >= 0.0
    ensures r.Success? ==>
      r.value.taxAmount == input.taxAmount.GetOr(Zero) &&
      r.value.shippingAmount == input.shippingAmount.GetOr(Zero) &&
      r.value.discountAmount == input.discountAmount.GetOr(Zero) &&
      r.value.currency == input.currency.GetOr("USD") &&
      r.value.paymentMethod == input.paymentMethod.GetOr("paypal") &&
      |r.value.items| == |input.items|
    ensures r.Success? ==>
      (forall k :: 0 <= k < |input.items| ==> r.value.items[k] == ValidateItem(input.items[k]).value) &&
      r.value.orderId == input.orderId && r.value.customer == input.customer &&
      r.value.shippingAddress == input.shippingAddress && r.value.billingAddress == input.billingAddress &&
      r.value.subtotal == input.subtotal && r.value.totalAmount == input.totalAmount &&
      r.value.notes == input.notes
    ensures r.Failure? ==> |r.error| > 0
  {
    var errors := ItemsErrors(input.items, 0) + AmountErrors(input);
    if errors != [] then Failure(errors)
    else
      Success(CheckoutRequest(
        input.orderId, input.customer, ValidItems(input.items),
        input.shippingAddress, input.billingAddress,
        input.subtotal, input.taxAmount.GetOr(Zero), input.shippingAmount.GetOr(Zero),
        input.discountAmount.GetOr(Zero), input.totalAmount,
        input.currency.GetOr("USD"), input.paymentMethod.GetOr("paypal"), input.notes))
  }

  /** A request without items and with no amounts but the two required ones
      passes the schema: the empty order is left to `process_checkout`. */
  lemma EmptyOrderPassesSchema(input: CheckoutRequestInput)
    requires input.items == [] && input.subtotal.value > 0.0 && input.totalAmount.value > 0.0
    requires input.taxAmount.None? && input.shippingAmount.None? && input.discountAmount.None?
    ensures ValidateRequest(input).Success?
    ensures ValidateRequest(input).value.items == []
    ensures ValidateRequest(input).value.taxAmount == Zero
  {
  }

  /** `CheckoutResponseSchema`, without its timestamp. */
  datatype CheckoutResponse = CheckoutResponse(
    success: bool, orderId: string, paypalOrderId: Option<string>, paymentId: Option<string>,
    status: string, redirectUrl: Option<string>, message: string, errorCode: Option<string>)

  /** `PaymentCaptureResponseSchema`, without its timestamp. */
  datatype PaymentCaptureResponse = PaymentCaptureResponse(
    success: bool, paymentId: string, captureId: Option<string>, status: string,
    amount: Option<Decimal>, currency: Option<string>, message: string)
}
