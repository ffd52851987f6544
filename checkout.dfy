/** The checkout page (src/pages/Checkout.tsx): the shipping rule and order
    total, the `checkoutSchema` validation of the delivery form, the errors
    shown under the fields, the submit transition and the order summary.
    Amounts are in pence; `isEmail` stands for zod's e-mail check. */
module Checkout {
  import opened Common
  import opened JsText
  import opened FormErrors
  import opened Cart
  import opened Money

  // ------------------------------------------------------------ pricing

  const FreeShippingFrom := 5000
  const StandardShipping := 499

  /** Free from £50.00 of goods, £4.99 below that. */
  function ShippingCost(subtotal: int): (s: int)
    ensures s == 0 <==> subtotal >= FreeShippingFrom
    ensures s == 0 || s == StandardShipping
  {
    if subtotal >= FreeShippingFrom then 0 else StandardShipping
  }

  /** Goods plus shipping: never less than the goods, never more than the
      goods plus standard shipping, and equal to the goods exactly when
      shipping is free. */
  function OrderTotal(subtotal: int): (t: int)
    ensures subtotal <= t <= subtotal + StandardShipping
    ensures t == subtotal <==> subtotal >= FreeShippingFrom
  {
    subtotal + ShippingCost(subtotal)
  }

  /** The total is not monotonic in the goods: £49.99 of goods cost £54.98
      in all, £50.00 of goods cost £50.00. */
  lemma ThresholdLowersTotal()
    ensures OrderTotal(4999) == 5498 && OrderTotal(5000) == 5000
    ensures OrderTotal(4999) > OrderTotal(5000)
  {
  }

  // ------------------------------------------------------------ form

  /** The keys of `checkoutSchema`, in the order of its shape. */
  datatype Field = Email | FirstName | LastName | Address | City | Postcode | Phone

  const ShapeOrder: seq<Field> := [Email, FirstName, LastName, Address, City, Postcode, Phone]

  datatype CheckoutForm = CheckoutForm(
    email: string, firstName: string, lastName: string, address: string,
    city: string, postcode: string, phone: string)

  const EmptyForm := CheckoutForm("", "", "", "", "", "", "")

  function Get(form: CheckoutForm, f: Field): string {
    match f
    case Email => form.email
    case FirstName => form.firstName
    case LastName => form.lastName
    case Address => form.address
    case City => form.city
    case Postcode => form.postcode
    case Phone => form.phone
  }

  /** `{ ...prev, [name]: value }`: that field takes the value, no other changes. */
  function With(form: CheckoutForm, f: Field, value: string): (r: CheckoutForm)
    ensures Get(r, f) == value
    ensures forall g :: g != f ==> Get(r, g) == Get(form, g)
  {
    match f
    case Email => form.(email := value)
    case FirstName => form.(firstName := value)
    case LastName => form.(lastName := value)
    case Address => form.(address := value)
    case City => form.(city := value)
    case Postcode => form.(postcode := value)
    case Phone => form.(phone := value)
  }

  /** The `max` bound of each field other than the e-mail. */
  function MaxLength(f: Field): nat
    requires f != Email
  {
    match f
    case FirstName => 50
    case LastName => 50
    case Address => 200
    case City => 100
    case Postcode => 20
    case Phone => 20
  }

  /** The custom `min(1, ...)` message of each field other than the e-mail. */
  function RequiredMessage(f: Field): string
    requires f != Email
  {
    match f
    case FirstName => "First name is required"
    case LastName => "Last name is required"
    case Address => "Address is required"
    case City => "City is required"
    case Postcode => "Postcode is required"
    case Phone => "Phone is required"
  }

  const InvalidEmailMessage := "Please enter a valid email address"

  /** Each field's bound as zod prints it in its default message. */
  function BoundText(f: Field): string
    requires f != Email
  {
    match f
    case FirstName => "50"
    case LastName => "50"
    case Address => "200"
    case City => "100"
    case Postcode => "20"
    case Phone => "20"
  }

  /** The printed bound is the decimal form of `MaxLength`. */
  lemma BoundTextIsMaxLength(f: Field)
    requires f != Email
    ensures BoundText(f) == NatString(MaxLength(f))
  {
    match f
    case FirstName => assert NatString(50) == NatString(5) + [DigitChar(0)];
    case LastName => assert NatString(50) == NatString(5) + [DigitChar(0)];
    case Address =>
      assert NatString(20) == NatString(2) + [DigitChar(0)];
      assert NatString(200) == NatString(20) + [DigitChar(0)];
    case City =>
      assert NatString(10) == NatString(1) + [DigitChar(0)];
      assert NatString(100) == NatString(10) + [DigitChar(0)];
    case Postcode => assert NatString(20) == NatString(2) + [DigitChar(0)];
    case Phone => assert NatString(20) == NatString(2) + [DigitChar(0)];
  }

  /** zod's default message for a failed `max(n)` on a string. */
  function TooLongMessage(f: Field): string
    requires f != Email
  {
    "String must contain at most " + BoundText(f) + " character(s)"
  }

  /** What the schema accepts for a field: the trimmed e-mail must be an
      address; any other trimmed value must be non-empty and within its
      maximum length in UTF-16 code units. */
  predicate FieldValid(f: Field, value: string, isEmail: string -> bool) {
    if f == Email then isEmail(Trim(value))
    else Trim(value) != [] && Utf16Length(Trim(value)) <= MaxLength(f)
  }

  /** The messages of the issues zod raises for a field's value, one per
      failed check: the value is trimmed, then the field's checks run in
      order, each whether or not an earlier one failed. */
  function FieldMessages(f: Field, value: string, isEmail: string -> bool): (ms: seq<string>)
    ensures ms == [] <==> FieldValid(f, value, isEmail)
  {
    var t := Trim(value);
    if f == Email then (if isEmail(t) then [] else [InvalidEmailMessage])
    else
      var n := Utf16Length(t);
      if n < 1 then [RequiredMessage(f)] else if n > MaxLength(f) then [TooLongMessage(f)] else []
  }

  /** `checkoutSchema.safeParse(form)`'s issues, key by key in the order of
      the shape. */
  function CheckoutIssues(form: CheckoutForm, isEmail: string -> bool): seq<Issue<Field>> {
    ShapeIssues(ShapeOrder, FormMessages(form, isEmail))
  }

  /** Each field's messages for the given form. */
  function FormMessages(form: CheckoutForm, isEmail: string -> bool): Field -> seq<string> {
    f => FieldMessages(f, Get(form, f), isEmail)
  }

  predicate CheckoutValid(form: CheckoutForm, isEmail: string -> bool) {
    forall f :: FieldValid(f, Get(form, f), isEmail)
  }

  /** No value fails both `min(1)` and `max`, so an invalid field has
      exactly one message. */
  lemma OneMessagePerField(f: Field, value: string, isEmail: string -> bool)
    ensures |FieldMessages(f, value, isEmail)| <= 1
  {
  }

  /** Where a field sits in the shape. */
  function ShapeIndex(f: Field): (i: nat)
    ensures i < |ShapeOrder| && ShapeOrder[i] == f
  {
    match f
    case Email => 0
    case FirstName => 1
    case LastName => 2
    case Address => 3
    case City => 4
    case Postcode => 5
    case Phone => 6
  }

  lemma EveryFieldInShape(f: Field)
    ensures f in ShapeOrder
  {
    var i := ShapeIndex(f);
    assert ShapeOrder[i] == f;
  }

  /** The errors the page should show for a form: for each field of the
      shape that failed a check, the message of the check it failed. */
  function FieldErrors(form: CheckoutForm, isEmail: string -> bool): map<Field, string> {
    KeyErrors(ShapeOrder, FormMessages(form, isEmail))
  }

  /** A field has an error exactly when it is invalid, and that error is the
      one message zod raised for it. */
  lemma FieldErrorsAt(form: CheckoutForm, isEmail: string -> bool, f: Field)
    ensures f in FieldErrors(form, isEmail) <==> !FieldValid(f, Get(form, f), isEmail)
    ensures f in FieldErrors(form, isEmail) ==> FieldMessages(f, Get(form, f), isEmail) == [FieldErrors(form, isEmail)[f]]
  {
    EveryFieldInShape(f);
    OneMessagePerField(f, Get(form, f), isEmail);
    assert FormMessages(form, isEmail)(f) == FieldMessages(f, Get(form, f), isEmail);
  }

  /** The form passes `checkoutSchema` exactly when every field is valid. */
  lemma CheckoutValidIff(form: CheckoutForm, isEmail: string -> bool)
    ensures CheckoutIssues(form, isEmail) == [] <==> CheckoutValid(form, isEmail)
  {
    var messages := FormMessages(form, isEmail);
    ShapeIssuesEmpty(ShapeOrder, messages);
    if !CheckoutValid(form, isEmail) {
      var f :| !FieldValid(f, Get(form, f), isEmail);
      var i := ShapeIndex(f);
      assert messages(ShapeOrder[i]) == FieldMessages(f, Get(form, f), isEmail) != [];
    }
  }

  /** `safeParse` followed by the `forEach` that fills the errors object:
      the form is valid exactly when no field is invalid, and otherwise the
      errors name every invalid field with its message. */
  method ValidateCheckout(form: CheckoutForm, isEmail: string -> bool) returns (valid: bool, errors: map<Field, string>)
    ensures valid <==> CheckoutValid(form, isEmail)
    ensures !valid ==> errors == FieldErrors(form, isEmail)
  {
    var issues := CheckoutIssues(form, isEmail);
    CheckoutValidIff(form, isEmail);
    ShapeErrors(ShapeOrder, FormMessages(form, isEmail));
    valid := issues == [];
    errors := map[];
    if !valid {
      errors := CollectFieldErrors(issues);
    }
  }

  /** A blank form fails on every field, each with its own message: the
      e-mail's invalid-address message and every other field's required
      message. */
  lemma EmptyFormErrors(isEmail: string -> bool, f: Field)
    requires !isEmail("")
    ensures f in FieldErrors(EmptyForm, isEmail)
    ensures FieldErrors(EmptyForm, isEmail)[f] == if f == Email then InvalidEmailMessage else RequiredMessage(f)
  {
    var expected := if f == Email then InvalidEmailMessage else RequiredMessage(f);
    assert FieldMessages(f, Get(EmptyForm, f), isEmail) == [expected] by {
      assert Get(EmptyForm, f) == "" by {
        match f
        case Email =>
        case FirstName =>
        case LastName =>
        case Address =>
        case City =>
        case Postcode =>
        case Phone =>
      }
      assert Trim("") == "" && Utf16Length("") == 0;
    }
    FieldErrorsAt(EmptyForm, isEmail, f);
  }

  // ------------------------------------------------------------ summary

  /** The texts of the order summary. */
  datatype SummaryView = SummaryView(
    linePrices: seq<string>,
    subtotal: string,
    shipping: string,
    freeShippingNotice: bool,
    total: string)

  /** An empty cart replaces the whole page; otherwise the form and the summary show. */
  datatype CheckoutView = EmptyCartView | FormView(summary: SummaryView)

  function Summary(items: seq<CartItem>, totalPrice: int): (s: SummaryView)
    ensures |s.linePrices| == |items|
  {
    var shipping := ShippingCost(totalPrice);
    SummaryView(
      seq(|items|, i requires 0 <= i < |items| => Pounds(LinePrice(items[i]))),
      Pounds(totalPrice),
      if shipping == 0 then "Free" else Pounds(shipping),
      shipping > 0,
      Pounds(OrderTotal(totalPrice)))
  }

  function PageView(items: seq<CartItem>, totalPrice: int): (v: CheckoutView)
    ensures v.EmptyCartView? <==> items == []
  {
    if |items| == 0 then EmptyCartView else FormView(Summary(items, totalPrice))
  }

  /** Each line of the summary shows price times quantity. */
  lemma SummaryShowsLinePrices(items: seq<CartItem>, totalPrice: int)
    ensures var s := Summary(items, totalPrice);
      forall i :: 0 <= i < |items| ==> PoundsValue(s.linePrices[i]) == Some(items[i].price * items[i].quantity)
  {
    var s := Summary(items, totalPrice);
    forall i | 0 <= i < |items|
      ensures PoundsValue(s.linePrices[i]) == Some(items[i].price * items[i].quantity)
    {
      assert s.linePrices[i] == Pounds(LinePrice(items[i]));
      PoundsRoundTrip(LinePrice(items[i]));
    }
  }

  /** The subtotal shows the goods as the cart priced them. */
  lemma SummaryShowsSubtotal(items: seq<CartItem>, totalPrice: int)
    ensures PoundsValue(Summary(items, totalPrice).subtotal) == Some(totalPrice)
  {
    assert Summary(items, totalPrice).subtotal == Pounds(totalPrice);
    PoundsRoundTrip(totalPrice);
  }

  /** The total shows goods plus shipping (see OrderTotal for its bounds). */
  lemma SummaryShowsTotal(items: seq<CartItem>, totalPrice: int)
    ensures PoundsValue(Summary(items, totalPrice).total) == Some(OrderTotal(totalPrice))
  {
    assert Summary(items, totalPrice).total == Pounds(OrderTotal(totalPrice));
    PoundsRoundTrip(OrderTotal(totalPrice));
  }

  /** Shipping shows "Free", without the free-shipping notice, exactly from
      £50.00 of goods, and otherwise £4.99 with the notice. */
  lemma SummaryShowsShipping(items: seq<CartItem>, totalPrice: int)
    ensures var s := Summary(items, totalPrice);
      && (s.shipping == "Free" <==> totalPrice >= FreeShippingFrom)
      && (s.freeShippingNotice <==> totalPrice < FreeShippingFrom)
      && (s.shipping != "Free" ==> PoundsValue(s.shipping) == Some(StandardShipping))
  {
    var s := Summary(items, totalPrice);
    if totalPrice < FreeShippingFrom {
      assert s.shipping == Pounds(StandardShipping);
      assert s.shipping[0] == '£';
      PoundsRoundTrip(StandardShipping);
    } else {
      assert s.shipping == "Free";
    }
  }

  // ------------------------------------------------------------ page state

  const ConfirmationPath := "/order-confirmation"

  class CheckoutPage {
    var form: CheckoutForm
    /** The messages under the fields; a field without an entry shows none. */
    var errors: map<Field, string>
    var isProcessing: bool
    /** The cart's lines, as the cart context holds them. */
    var cart: seq<CartItem>
    /** The paths navigated to, in order. */
    var navigations: seq<string>

    constructor(cart: seq<CartItem>)
      ensures form == EmptyForm && errors == map[] && !isProcessing
      ensures this.cart == cart && navigations == []
    {
      form := EmptyForm;
      errors := map[];
      isProcessing := false;
      this.cart := cart;
      navigations := [];
    }

    /** `handleChange`: the edited field takes the new value and loses its
        error; every other field and error stays. */
    method HandleChange(f: Field, value: string)
      modifies this
      ensures form == With(old(form), f, value)
      ensures errors == old(errors) - {f}
      ensures isProcessing == old(isProcessing) && cart == old(cart) && navigations == old(navigations)
    {
      form := With(form, f, value);
      if f in errors {
        errors := errors - {f};
      }
    }

    /** `handleSubmit` up to the simulated payment: an invalid form replaces
        the errors with one message per invalid field and does not start
        processing; a valid one starts processing and leaves the errors. The
        submit button is disabled while processing. */
    method Submit(isEmail: string -> bool) returns (started: bool)
      requires !isProcessing
      modifies this
      ensures started <==> CheckoutValid(form, isEmail)
      ensures started ==> isProcessing && errors == old(errors)
      ensures !started ==> !isProcessing && errors == FieldErrors(form, isEmail)
      ensures form == old(form) && cart == old(cart) && navigations == old(navigations)
    {
      var fieldErrors;
      started, fieldErrors := ValidateCheckout(form, isEmail);
      if started {
        isProcessing := true;
      } else {
        errors := fieldErrors;
      }
    }

    /** The end of a started submit: the cart is cleared, the shopper is sent
        to the confirmation page and processing stops. */
    method FinishProcessing()
      requires isProcessing
      modifies this
      ensures cart == [] && navigations == old(navigations) + [ConfirmationPath] && !isProcessing
      ensures form == old(form) && errors == old(errors)
    {
      cart := [];
      navigations := navigations + [ConfirmationPath];
      isProcessing := false;
    }
  }
}
