// The payment step of pages/payment.tsx: the address guard run on arrival, which also
// preloads the method saved in its cookie, the radio choice, the submit and the back button.

module Payment {
  import opened Models
  import opened Store

  /** The values of the radio group, as spelled on the page. */
  const PAYMENT_OPTIONS: seq<string> := ["Paypal", "Sripe", "Cash"]

  class PaymentScreen {
    /** The page's `paymentMethod` state variable: the method selected in the radio group. */
    var paymentMethod: string

    constructor ()
      ensures paymentMethod == ""
    {
      paymentMethod := "";
    }

    /** The arrival effect: without a street address the page goes back to the shipping step;
        with one, the selection is preloaded from the payment-method cookie, or empty. */
    method OnArrive(s: Session)
      modifies this, s
      ensures old(s.state.cart.shippingAddress.address) == "" ==>
                s.pushed == old(s.pushed) + [Href("/shipping")] && paymentMethod == old(paymentMethod)
      ensures old(s.state.cart.shippingAddress.address) != "" ==>
                s.pushed == old(s.pushed) && paymentMethod == CookieText(old(s.cookies), PAYMENT_METHOD_COOKIE)
      ensures s.state == old(s.state) && s.cookies == old(s.cookies)
      ensures s.notices == old(s.notices) && s.query == old(s.query)
    {
      if s.state.cart.shippingAddress.address == "" {
        s.Push(Href("/shipping"));
      } else {
        paymentMethod := CookieText(s.cookies, PAYMENT_METHOD_COOKIE);
      }
    }

    /** A click on a radio button: the value is one of the three the group offers. */
    method Choose(value: string)
      requires value in PAYMENT_OPTIONS
      modifies this
      ensures paymentMethod == value
    {
      paymentMethod := value;
    }

    /** `submitHandler`: an empty selection is refused with a notice; otherwise the method is
        dispatched (an action the reducer ignores), written to its cookie, and the page moves
        on to the order summary. */
    method SubmitHandler(s: Session)
      modifies s
      ensures paymentMethod == "" ==>
                s.state == old(s.state) && s.cookies == old(s.cookies) && s.pushed == old(s.pushed) &&
                s.notices == old(s.notices) + [Notice("Payment method is required", Error)]
      ensures paymentMethod != "" ==>
                s.state == Reduce(old(s.state), SavePaymentMethod(paymentMethod)) &&
                s.state == old(s.state) &&
                s.cookies == old(s.cookies)[PAYMENT_METHOD_COOKIE := Text(paymentMethod)] &&
                s.pushed == old(s.pushed) + [Href("/placeorder")] &&
                s.notices == old(s.notices)
      ensures s.query == old(s.query)
      ensures Persisted(old(s.state), old(s.cookies)) ==> Persisted(s.state, s.cookies)
    {
      if paymentMethod == "" {
        s.Notify("Payment method is required", Error);
      } else {
        ghost var jar := s.cookies;
        s.Dispatch(SavePaymentMethod(paymentMethod));
        s.SetCookie(PAYMENT_METHOD_COOKIE, Text(paymentMethod));
        OtherCookiesUnread(jar, PAYMENT_METHOD_COOKIE, Text(paymentMethod));
        s.Push(Href("/placeorder"));
      }
    }

    /** The Back button. */
    method Back(s: Session)
      modifies s
      ensures s.pushed == old(s.pushed) + [Href("/shipping")]
      ensures s.state == old(s.state) && s.cookies == old(s.cookies)
      ensures s.notices == old(s.notices) && s.query == old(s.query)
    {
      s.Push(Href("/shipping"));
    }
  }
}
