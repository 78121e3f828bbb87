/**
 * The checkout form: delivery or pickup, the customer's details, how the
 * phone and DNI fields filter what is typed, the validation that decides
 * whether the customer may go on to payment, and the order total the
 * checkout and payment pages show.
 */
module Checkout {
  import opened JsText
  import Cart

  datatype DeliveryType = Delivery | Pickup

  /** The inputs of the form, by their `name` attribute. */
  datatype Field = Name | Phone | Dni | Email | Address | City | Zip | Notes

  datatype FormData = FormData(
    name: string, phone: string, dni: string, email: string,
    address: string, city: string, zip: string, notes: string)

  const EmptyForm: FormData := FormData("", "", "", "", "", "", "", "")

  /** What the form hands on: the delivery choice and every field. */
  datatype CheckoutData = CheckoutData(deliveryType: DeliveryType, form: FormData)

  function Get(f: FormData, field: Field): string {
    match field
    case Name => f.name
    case Phone => f.phone
    case Dni => f.dni
    case Email => f.email
    case Address => f.address
    case City => f.city
    case Zip => f.zip
    case Notes => f.notes
  }

  /** `{ ...prev, [name]: value }`. */
  function With(f: FormData, field: Field, v: string): (r: FormData)
    ensures Get(r, field) == v
    ensures forall g :: g != field ==> Get(r, g) == Get(f, g)
  {
    match field
    case Name => f.(name := v)
    case Phone => f.(phone := v)
    case Dni => f.(dni := v)
    case Email => f.(email := v)
    case Address => f.(address := v)
    case City => f.(city := v)
    case Zip => f.(zip := v)
    case Notes => f.(notes := v)
  }

  /** The fields that keep only digits, and at most nine of them. */
  predicate IsNumeric(field: Field) {
    field == Phone || field == Dni
  }

  const NumericMaxLength: nat := 9

  /** A phone or DNI value the form can hold. */
  predicate NumericOk(s: string) {
    AllDigits(s) && |s| <= NumericMaxLength
  }

  // ---------------------------------------------------------------------
  // The e-mail pattern /^[^\s@]+@[^\s@]+\.com$/i

  predicate NoSpaceOrAt(s: string) {
    forall i :: 0 <= i < |s| ==> !IsWhitespace(s[i]) && s[i] != '@'
  }

  /** ".com" in any letter case. */
  predicate IsDotCom(t: string) {
    && |t| == 4 && t[0] == '.'
    && (t[1] == 'c' || t[1] == 'C') && (t[2] == 'o' || t[2] == 'O') && (t[3] == 'm' || t[3] == 'M')
  }

  /** The pattern read as a regular expression: some '@' splits the string
      into a non-empty local part and a non-empty domain followed by
      ".com", neither part holding whitespace or '@'. */
  ghost predicate MatchesEmailPattern(s: string) {
    exists k :: 0 < k && k + 5 < |s| && s[k] == '@'
      && NoSpaceOrAt(s[..k]) && NoSpaceOrAt(s[k + 1..|s| - 4]) && IsDotCom(s[|s| - 4..])
  }

  /** `emailPattern.test(s)`, decided at the first '@'. */
  predicate EmailOk(s: string) {
    var k := IndexOf(s, '@');
    && 0 < k && k + 5 < |s|
    && NoSpaceOrAt(s[..k]) && NoSpaceOrAt(s[k + 1..|s| - 4]) && IsDotCom(s[|s| - 4..])
  }

  /** The decision agrees with the pattern, in both directions. */
  lemma EmailOkMatchesPattern(s: string)
    ensures EmailOk(s) <==> MatchesEmailPattern(s)
  {
    var k0 := IndexOf(s, '@');
    if EmailOk(s) {
      assert s[k0] == '@';
    }
    if MatchesEmailPattern(s) {
      var k :| 0 < k && k + 5 < |s| && s[k] == '@'
        && NoSpaceOrAt(s[..k]) && NoSpaceOrAt(s[k + 1..|s| - 4]) && IsDotCom(s[|s| - 4..]);
      FirstAt(s, k);
    }
  }

  /** When `s[k]` is an '@' and no '@' precedes it, it is the first. */
  lemma FirstAt(s: string, k: nat)
    requires k < |s| && s[k] == '@' && NoSpaceOrAt(s[..k])
    ensures IndexOf(s, '@') == k
  {
  }

  /** An accepted address holds exactly one '@'. */
  lemma EmailHasOneAt(s: string, i: nat)
    requires EmailOk(s) && i < |s| && s[i] == '@'
    ensures i == IndexOf(s, '@')
  {
    AtPosition(s, i, IndexOf(s, '@'));
  }

  /** An '@' at `i` is the one at `k` when none comes before `k` and none
      can sit in the domain or the ".com" after it. */
  lemma AtPosition(s: string, i: nat, k: nat)
    requires i < |s| && s[i] == '@' && 0 < k && k + 5 < |s|
    requires '@' !in s[..k] && NoSpaceOrAt(s[k + 1..|s| - 4]) && IsDotCom(s[|s| - 4..])
    ensures i == k
  {
  }

  // ---------------------------------------------------------------------
  // Validation

  /** Whether a field fails validation: the checks `validateAndProceed`
      makes, address and city only for home delivery. */
  ghost predicate FieldInvalid(d: DeliveryType, f: FormData, field: Field) {
    match field
    case Name => f.name == ""
    case Phone => f.phone == "" || |f.phone| != 9
    case Dni => f.dni == "" || |f.dni| != 9
    case Email => f.email == "" || !MatchesEmailPattern(f.email)
    case Address => d.Delivery? && f.address == ""
    case City => d.Delivery? && f.city == ""
    case Zip => false
    case Notes => false
  }

  /** The error set `validateAndProceed` builds, check by check. */
  function FormErrors(d: DeliveryType, f: FormData): (e: set<Field>)
    ensures Zip !in e && Notes !in e
  {
    (if f.name == "" then {Name} else {})
    + (if f.phone == "" || |f.phone| != 9 then {Phone} else {})
    + (if f.dni == "" || |f.dni| != 9 then {Dni} else {})
    + (if f.email == "" || !EmailOk(f.email) then {Email} else {})
    + (if d.Delivery? && f.address == "" then {Address} else {})
    + (if d.Delivery? && f.city == "" then {City} else {})
  }

  /** A field is flagged exactly when it fails its check. */
  lemma FormErrorsExact(d: DeliveryType, f: FormData)
    ensures forall field :: field in FormErrors(d, f) <==> FieldInvalid(d, f, field)
  {
    EmailOkMatchesPattern(f.email);
  }

  // ---------------------------------------------------------------------
  // Totals

  /** Shipping: 5.00 for home delivery, nothing for pickup. */
  function ShippingCents(d: DeliveryType): (c: nat)
    ensures c == 0 <==> d.Pickup?
  {
    if d.Delivery? then 500 else 0
  }

  /** Subtotal plus shipping, as the checkout and payment pages show it and
      the order records it. */
  function OrderTotal(cart: seq<Cart.CartItem>, d: DeliveryType): (t: int)
    ensures t >= Cart.Subtotal(cart)
    ensures t == Cart.Subtotal(cart) <==> d.Pickup?
  {
    Cart.Subtotal(cart) + ShippingCents(d)
  }

  /** The cart page's 3.99 estimate lies between what is charged for
      pickup and for delivery: the shown total is 3.99 above the pickup
      charge and 1.01 below the delivery charge. */
  lemma CartEstimateBetweenCharges(cart: seq<Cart.CartItem>)
    requires cart != []
    ensures OrderTotal(cart, Pickup) < Cart.CartPageTotal(cart) < OrderTotal(cart, Delivery)
    ensures OrderTotal(cart, Delivery) - Cart.CartPageTotal(cart) == 101
    ensures Cart.CartPageTotal(cart) - OrderTotal(cart, Pickup) == 399
  {
  }

  // ---------------------------------------------------------------------
  // The view

  class CheckoutView {
    var deliveryType: DeliveryType
    var form: FormData
    /** The fields currently flagged, the keys of `errors` set to true. */
    var errors: set<Field>

    ghost predicate Valid()
      reads this
    {
      NumericOk(form.phone) && NumericOk(form.dni)
    }

    constructor ()
      ensures Valid()
      ensures deliveryType == Delivery && form == EmptyForm && errors == {}
    {
      deliveryType := Delivery;
      form := EmptyForm;
      errors := {};
    }

    /** The delivery and pickup radio buttons. */
    method SetDeliveryType(d: DeliveryType)
      requires Valid()
      modifies this
      ensures Valid()
      ensures deliveryType == d && form == old(form) && errors == old(errors)
    {
      deliveryType := d;
    }

    /** `handleInputChange`: phone and DNI keep only the digits typed, and
        ignore an edit that would leave more than nine; other fields take
        the value as typed. Editing a field clears its flag, even when the
        edit itself is ignored. */
    method InputChange(field: Field, value: string)
      requires Valid()
      modifies this
      ensures Valid()
      ensures IsNumeric(field) && |KeepDigits(value)| <= NumericMaxLength ==>
        form == With(old(form), field, KeepDigits(value))
      ensures IsNumeric(field) && |KeepDigits(value)| > NumericMaxLength ==> form == old(form)
      ensures !IsNumeric(field) ==> form == With(old(form), field, value)
      ensures errors == old(errors) - {field}
      ensures deliveryType == old(deliveryType)
    {
      if IsNumeric(field) {
        var numericValue := KeepDigits(value);
        if |numericValue| <= NumericMaxLength {
          form := With(form, field, numericValue);
        }
      } else {
        form := With(form, field, value);
      }
      if field in errors {
        errors := errors - {field};
      }
    }

    /** `validateAndProceed`: flags exactly the invalid fields and hands on
        the form data when there are none. */
    method ValidateAndProceed() returns (next: Option<CheckoutData>)
      requires Valid()
      modifies this
      ensures Valid()
      ensures errors == FormErrors(deliveryType, form)
      ensures forall field :: field in errors <==> FieldInvalid(deliveryType, form, field)
      ensures next.Some? <==> errors == {}
      ensures next.Some? <==>
        && form.name != "" && |form.phone| == 9 && |form.dni| == 9
        && MatchesEmailPattern(form.email)
        && (deliveryType.Delivery? ==> form.address != "" && form.city != "")
      ensures next.Some? ==> next.value == CheckoutData(deliveryType, form)
      ensures form == old(form) && deliveryType == old(deliveryType)
    {
      var newErrors := FormErrors(deliveryType, form);
      FormErrorsExact(deliveryType, form);
      errors := newErrors;
      if newErrors == {} {
        next := Some(CheckoutData(deliveryType, form));
      } else {
        next := None;
      }
    }
  }
}
