/**
 * The payment form: how each keystroke is normalised before it is stored.
 * The card number keeps at most 16 digits grouped in fours, the expiry at
 * most four digits as MM/YY, the CVV at most four digits, and the holder's
 * name is upper-cased. Confirming the payment does not consult this form.
 */
module Payment {
  import opened JsText

  /** `numbers.replace(/(\d{4})(?=\d)/g, '$1 ')` on a digit string: a space
      after every complete group of four that more digits follow. */
  function GroupBy4(d: string): (r: string)
    decreases |d|
  {
    if |d| <= 4 then d else d[..4] + " " + GroupBy4(d[4..])
  }

  /** Grouping only inserts spaces: the digits come back out in order. */
  lemma {:induction false} GroupKeepsDigits(d: string)
    requires AllDigits(d)
    ensures KeepDigits(GroupBy4(d)) == d
    decreases |d|
  {
    if |d| > 4 {
      var tail := GroupBy4(d[4..]);
      GroupKeepsDigits(d[4..]);
      assert GroupBy4(d) == d[..4] + (" " + tail);
      KeepDigitsAppend(d[..4], " " + tail);
      KeepDigitsAppend(" ", tail);
      assert KeepDigits(" ") == [];
      assert d == d[..4] + d[4..];
    }
  }

  /** The grouped form has a space exactly at every fifth position, digits
      everywhere else, and no space at the end. */
  lemma {:induction false} GroupLayout(d: string)
    requires AllDigits(d)
    ensures var r := GroupBy4(d);
      && (forall i :: 0 <= i < |r| ==> (r[i] == ' ' <==> i % 5 == 4))
      && (forall i :: 0 <= i < |r| ==> r[i] == ' ' || IsDigit(r[i]))
      && (r == [] || r[|r| - 1] != ' ')
    decreases |d|
  {
    var r := GroupBy4(d);
    if |d| > 4 {
      var tail := GroupBy4(d[4..]);
      GroupLayout(d[4..]);
      assert r == d[..4] + " " + tail;
      forall i | 0 <= i < |r|
        ensures r[i] == ' ' <==> i % 5 == 4
        ensures r[i] == ' ' || IsDigit(r[i])
      {
        if i >= 5 {
          assert r[i] == tail[i - 5];
          assert (i - 5) % 5 == i % 5;
        }
      }
    }
  }

  /** A group separator per complete group that more digits follow. */
  lemma {:induction false} GroupLength(d: string)
    ensures |GroupBy4(d)| == if d == [] then 0 else |d| + (|d| - 1) / 4
    decreases |d|
  {
    if |d| > 4 {
      GroupLength(d[4..]);
    }
  }

  /** The card number field after a keystroke. */
  function FormatCardNumber(value: string): (r: string)
  {
    GroupBy4(Prefix(KeepDigits(value), 16))
  }

  /** The card number keeps the first sixteen digits typed, in order, and
      nothing but digits and separating spaces; it never exceeds the 19
      characters of four groups of four. */
  lemma CardNumberDigits(value: string)
    ensures KeepDigits(FormatCardNumber(value)) == Prefix(KeepDigits(value), 16)
    ensures var r := FormatCardNumber(value);
      && |r| <= 19
      && (forall i :: 0 <= i < |r| ==> (r[i] == ' ' <==> i % 5 == 4))
      && (r == [] || r[|r| - 1] != ' ')
  {
    var numbers := Prefix(KeepDigits(value), 16);
    GroupKeepsDigits(numbers);
    GroupLayout(numbers);
    GroupLength(numbers);
  }

  /** Reformatting a formatted card number changes nothing, so the stored
      value is always in normal form. */
  lemma CardNumberIdempotent(value: string)
    ensures FormatCardNumber(FormatCardNumber(value)) == FormatCardNumber(value)
  {
    CardNumberDigits(value);
  }

  /** The expiry field after a keystroke: up to four digits, with a slash
      after the first two once there are two. */
  function FormatExpiry(value: string): (r: string)
  {
    var numbers := Prefix(KeepDigits(value), 4);
    if |numbers| >= 2 then numbers[..2] + "/" + numbers[2..] else numbers
  }

  /** The expiry keeps the first four digits typed. */
  lemma ExpiryDigits(value: string)
    ensures KeepDigits(FormatExpiry(value)) == Prefix(KeepDigits(value), 4)
  {
    var numbers := Prefix(KeepDigits(value), 4);
    if |numbers| >= 2 {
      var mm, yy := numbers[..2], numbers[2..];
      assert numbers == mm + yy;
      DigitsAroundSeparator(mm, '/', yy);
    }
  }

  /** The expiry has a slash, at index 2 only, exactly when at least two
      digits were typed, and is at most five characters long. */
  lemma ExpirySlash(value: string)
    ensures var r := FormatExpiry(value);
      && |r| <= 5
      && ('/' in r <==> |KeepDigits(value)| >= 2)
      && (forall i :: 0 <= i < |r| ==> (r[i] == '/' <==> i == 2))
      && (forall i :: 0 <= i < |r| && i != 2 ==> IsDigit(r[i]))
  {
    var numbers := Prefix(KeepDigits(value), 4);
    assert forall i :: 0 <= i < |numbers| ==> IsDigit(numbers[i]);
    var r := FormatExpiry(value);
    if |numbers| >= 2 {
      assert r[2] == '/';
      assert forall i :: 0 <= i < |r| && i != 2 ==> IsDigit(r[i]);
    } else {
      assert forall i :: 0 <= i < |r| ==> IsDigit(r[i]);
    }
  }

  /** Filtering a separator out from between two digit strings. */
  lemma DigitsAroundSeparator(a: string, c: char, b: string)
    requires AllDigits(a) && AllDigits(b) && !IsDigit(c)
    ensures KeepDigits(a + [c] + b) == a + b
  {
    KeepDigitsAppend(a + [c], b);
    KeepDigitsAppend(a, [c]);
  }

  lemma ExpiryIdempotent(value: string)
    ensures FormatExpiry(FormatExpiry(value)) == FormatExpiry(value)
  {
    ExpiryDigits(value);
    ExpirySlash(value);
  }

  /** Deleting the slash of "MM/" puts it straight back: the field reads
      "MM" only for the instant before it is reformatted. */
  lemma ExpirySlashReappears(mm: string)
    requires |mm| == 2 && AllDigits(mm)
    ensures FormatExpiry(mm) == mm + "/"
    ensures FormatExpiry(mm + "/") == mm + "/"
  {
    KeepDigitsAppend(mm, "/");
    assert KeepDigits("/") == [];
    assert mm[..2] == mm && mm[2..] == [];
  }

  /** The CVV field after a keystroke: the first four digits typed, or
      all of them when there are fewer. */
  function FormatCvv(value: string): (r: string)
    ensures AllDigits(r) && |r| <= 4 && |r| <= |KeepDigits(value)|
    ensures r == KeepDigits(value)[..|r|]
    ensures |r| < 4 ==> r == KeepDigits(value)
  {
    Prefix(KeepDigits(value), 4)
  }

  /** The card holder's name, upper-cased; upper-casing twice changes
      nothing further. */
  function FormatCardName(value: string): (r: string)
    ensures r == UpperCase(value)
    ensures |r| == |value|
    ensures UpperCase(r) == r
  {
    UpperCaseIdempotent(value);
    UpperCase(value)
  }

  lemma UpperCaseIdempotent(s: string)
    ensures UpperCase(UpperCase(s)) == UpperCase(s)
  {
    var u := UpperCase(s);
    assert forall i :: 0 <= i < |u| ==> UpperChar(u[i]) == u[i];
  }

  /** The four inputs of the form, by their `name` attribute. */
  datatype PaymentField = CardNumber | CardName | Expiry | Cvv

  function Normalise(field: PaymentField, value: string): string {
    match field
    case CardNumber => FormatCardNumber(value)
    case CardName => FormatCardName(value)
    case Expiry => FormatExpiry(value)
    case Cvv => FormatCvv(value)
  }

  /** The form's state, `paymentForm`. */
  class PaymentView {
    var cardNumber: string
    var cardName: string
    var expiry: string
    var cvv: string

    /** Every field holds a value its formatter leaves unchanged. */
    ghost predicate Valid()
      reads this
    {
      && FormatCardNumber(cardNumber) == cardNumber
      && FormatCardName(cardName) == cardName
      && FormatExpiry(expiry) == expiry
      && FormatCvv(cvv) == cvv
    }

    constructor ()
      ensures Valid()
      ensures cardNumber == "" && cardName == "" && expiry == "" && cvv == ""
    {
      cardNumber, cardName, expiry, cvv := "", "", "", "";
    }

    /** `handlePaymentChange`: the edited field receives its normalised
        value; the other fields keep theirs. */
    method PaymentChange(field: PaymentField, value: string)
      requires Valid()
      modifies this
      ensures Valid()
      ensures field == CardNumber ==> cardNumber == FormatCardNumber(value)
      ensures field == CardName ==> cardName == FormatCardName(value)
      ensures field == Expiry ==> expiry == FormatExpiry(value)
      ensures field == Cvv ==> cvv == FormatCvv(value)
      ensures field != CardNumber ==> cardNumber == old(cardNumber)
      ensures field != CardName ==> cardName == old(cardName)
      ensures field != Expiry ==> expiry == old(expiry)
      ensures field != Cvv ==> cvv == old(cvv)
    {
      var formatted := Normalise(field, value);
      match field
      case CardNumber =>
        CardNumberIdempotent(value);
        cardNumber := formatted;
      case CardName =>
        UpperCaseIdempotent(value);
        cardName := formatted;
      case Expiry =>
        ExpiryIdempotent(value);
        expiry := formatted;
      case Cvv =>
        cvv := formatted;
    }
  }
}
