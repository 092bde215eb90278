// The shipping step of pages/shipping.tsx: the sign-in guard and the prefill of the five
// address fields, the field rules and helper texts, and the submit that saves the address.

module Shipping {
  import opened Models
  import opened Store
  import opened Forms

  /** Every one of the five fields is required with at least two UTF-16 code units. */
  predicate AddressValid(a: ShippingAddress) {
    FieldError(NAME_RULES, a.fullName).None? &&
    FieldError(NAME_RULES, a.address).None? &&
    FieldError(NAME_RULES, a.city).None? &&
    FieldError(NAME_RULES, a.postalCode).None? &&
    FieldError(NAME_RULES, a.country).None?
  }

  /** The form is accepted exactly when every field has two UTF-16 code units or more. */
  lemma AddressValidMeans(a: ShippingAddress)
    ensures AddressValid(a) <==>
              Utf16Length(a.fullName) >= 2 && Utf16Length(a.address) >= 2 && Utf16Length(a.city) >= 2 &&
              Utf16Length(a.postalCode) >= 2 && Utf16Length(a.country) >= 2
  {
    LengthRuleMeanings(a.fullName);
    LengthRuleMeanings(a.address);
    LengthRuleMeanings(a.city);
    LengthRuleMeanings(a.postalCode);
    LengthRuleMeanings(a.country);
  }

  /** The helper texts under the five fields, top to bottom. */
  function HelperTexts(a: ShippingAddress): (texts: seq<string>)
    ensures |texts| == 5
    ensures (forall i :: 0 <= i < 5 ==> texts[i] == "") <==> AddressValid(a)
  {
    var texts :=
      [LengthHelperText("Full Name", "1", FieldError(NAME_RULES, a.fullName)),
       LengthHelperText("Address", "1", FieldError(NAME_RULES, a.address)),
       LengthHelperText("City", "1", FieldError(NAME_RULES, a.city)),
       LengthHelperText("Postal Code", "1", FieldError(NAME_RULES, a.postalCode)),
       LengthHelperText("Country", "1", FieldError(NAME_RULES, a.country))];
    assert texts[0] == "" <==> FieldError(NAME_RULES, a.fullName).None?;
    assert texts[1] == "" <==> FieldError(NAME_RULES, a.address).None?;
    assert texts[2] == "" <==> FieldError(NAME_RULES, a.city).None?;
    assert texts[3] == "" <==> FieldError(NAME_RULES, a.postalCode).None?;
    assert texts[4] == "" <==> FieldError(NAME_RULES, a.country).None?;
    texts
  }

  class ShippingScreen {
    /** The five form values. */
    var form: ShippingAddress

    constructor ()
      ensures form == NO_ADDRESS
    {
      form := NO_ADDRESS;
    }

    /** The arrival effect: without a user the page goes to the login with a way back and
        fills nothing; with one, the five fields are set from the saved address. */
    method OnArrive(s: Session)
      modifies this, s
      ensures old(s.state.userInfo).None? ==>
                s.pushed == old(s.pushed) + [Href("/login?redirect=/shipping")] && form == old(form)
      ensures old(s.state.userInfo).Some? ==>
                s.pushed == old(s.pushed) && form == old(s.state.cart.shippingAddress)
      ensures s.state == old(s.state) && s.cookies == old(s.cookies)
      ensures s.notices == old(s.notices) && s.query == old(s.query)
    {
      if s.state.userInfo.None? {
        s.Push(Href("/login?redirect=/shipping"));
        return;
      }
      var saved := s.state.cart.shippingAddress;
      form := form.(fullName := saved.fullName);
      form := form.(address := saved.address);
      form := form.(city := saved.city);
      form := form.(postalCode := saved.postalCode);
      form := form.(country := saved.country);
    }

    /** The user editing the fields. */
    method Edit(values: ShippingAddress)
      modifies this
      ensures form == values
    {
      form := values;
    }

    /** The form's submit: nothing happens while a rule fails; otherwise the five fields are
        saved in the state and in their cookie, and the page moves on to payment. */
    method SubmitHandler(s: Session)
      modifies s
      ensures !AddressValid(form) ==>
                s.state == old(s.state) && s.cookies == old(s.cookies) &&
                s.pushed == old(s.pushed) && s.notices == old(s.notices)
      ensures AddressValid(form) ==>
                s.state == Reduce(old(s.state), SaveShippingAddress(form)) &&
                s.state.cart.shippingAddress == form &&
                s.cookies == old(s.cookies)[SHIPPING_ADDRESS_COOKIE := AddressJson(form)] &&
                s.pushed == old(s.pushed) + [Href("/payment")] &&
                s.notices == old(s.notices)
      ensures s.query == old(s.query)
      ensures Persisted(old(s.state), old(s.cookies)) ==> Persisted(s.state, s.cookies)
    {
      if !AddressValid(form) {
        return;
      }
      ghost var before, jar := s.state, s.cookies;
      var payload := ShippingAddress(form.fullName, form.address, form.city, form.postalCode, form.country);
      s.Dispatch(SaveShippingAddress(payload));
      s.SetCookie(SHIPPING_ADDRESS_COOKIE, AddressJson(payload));
      if Persisted(before, jar) {
        AddressSavePersists(before, jar, payload);
      }
      s.Push(Href("/payment"));
    }
  }
}
