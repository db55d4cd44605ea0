/**
 * The checkout screen's decision: which form error to report, or that the
 * order is placed, and the cart being emptied once the shopper acknowledges.
 */
module Checkout {
  import opened Types
  import opened CartSlice

  datatype ShippingAddress = ShippingAddress(
    fullName: string,
    street: string,
    city: string,
    state: string,
    zipCode: string,
    country: string)

  datatype PaymentMethod = PaymentMethod(
    cardNumber: string,
    expiryDate: string,
    cvv: string,
    cardholderName: string)

  /** The two form-error alerts, or success showing the cart total. */
  datatype OrderResult = ShippingError | PaymentError | Placed(shownTotal: int)

  /** What the screen shows for a cart. */
  datatype Screen = EmptyCartMessage | CheckoutForm

  /** The shipping form as first shown: only the country is filled in, so it is incomplete. */
  function InitialShipping(): (s: ShippingAddress)
    ensures s.fullName == "" && s.street == "" && s.city == "" && s.state == "" && s.zipCode == ""
    ensures s.country == "United States"
    ensures forall p: PaymentMethod, t: int :: PlaceOrder(s, p, t) == ShippingError
  {
    ShippingAddress("", "", "", "", "", "United States")
  }

  /** The payment form as first shown: every field empty, so a complete address meets the payment error. */
  function InitialPayment(): (p: PaymentMethod)
    ensures p.cardNumber == "" && p.expiryDate == "" && p.cvv == "" && p.cardholderName == ""
    ensures forall s: ShippingAddress, t: int :: s.fullName != "" && s.street != "" && s.city != "" ==>
      PlaceOrder(s, p, t) == PaymentError
  {
    PaymentMethod("", "", "", "")
  }

  /** Shipping is checked first (name, street, city), then payment (card, expiry, CVV). */
  function PlaceOrder(shipping: ShippingAddress, payment: PaymentMethod, total: int): (r: OrderResult)
    ensures r.Placed? ==> r.shownTotal == total
    ensures r.Placed? <==> (&& shipping.fullName != "" && shipping.street != "" && shipping.city != ""
                            && payment.cardNumber != "" && payment.expiryDate != "" && payment.cvv != "")
  {
    if shipping.fullName == "" || shipping.street == "" || shipping.city == "" then ShippingError
    else if payment.cardNumber == "" || payment.expiryDate == "" || payment.cvv == "" then PaymentError
    else Placed(total)
  }

  /** An empty cart shows only a message; the form and its button need a line. */
  function ScreenFor(items: seq<CartItem>): (s: Screen)
    ensures s == CheckoutForm <==> |items| > 0
  {
    if |items| == 0 then EmptyCartMessage else CheckoutForm
  }

  /**
   * Pressing the place-order button; `acknowledged` is whether the shopper
   * pressed OK on the success alert, which empties the cart.
   */
  method SubmitOrder(cart: CartStore, shipping: ShippingAddress, payment: PaymentMethod, acknowledged: bool)
    returns (r: OrderResult)
    requires ScreenFor(cart.items) == CheckoutForm
    modifies cart
    ensures r == PlaceOrder(shipping, payment, old(cart.total))
    ensures r.Placed? && acknowledged ==> cart.items == [] && cart.total == 0 && cart.itemCount == 0
    ensures !(r.Placed? && acknowledged) ==> unchanged(cart)
  {
    r := PlaceOrder(shipping, payment, cart.total);
    if r.Placed? && acknowledged {
      cart.ClearCart();
    }
  }

  /** A missing name, street or city is reported as the shipping error, whatever the payment. */
  lemma ShippingCheckedFirst(shipping: ShippingAddress, payment: PaymentMethod, total: int)
    requires shipping.fullName == "" || shipping.street == "" || shipping.city == ""
    ensures PlaceOrder(shipping, payment, total) == ShippingError
  {
  }

  /** With shipping complete, a missing card number, expiry or CVV is the payment error. */
  lemma PaymentCheckedSecond(shipping: ShippingAddress, payment: PaymentMethod, total: int)
    requires shipping.fullName != "" && shipping.street != "" && shipping.city != ""
    requires payment.cardNumber == "" || payment.expiryDate == "" || payment.cvv == ""
    ensures PlaceOrder(shipping, payment, total) == PaymentError
  {
  }

  /** State, ZIP code, country and cardholder name play no part in the decision. */
  lemma OptionalFieldsIgnored(shipping: ShippingAddress, payment: PaymentMethod, total: int,
                              state: string, zipCode: string, country: string, holder: string)
    ensures PlaceOrder(shipping.(state := state, zipCode := zipCode, country := country),
                       payment.(cardholderName := holder), total)
         == PlaceOrder(shipping, payment, total)
  {
  }

  /** The form as first shown is refused with the shipping error. */
  lemma InitialFormRefused(total: int)
    ensures PlaceOrder(InitialShipping(), InitialPayment(), total) == ShippingError
  {
  }
}
