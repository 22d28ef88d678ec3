/**
 * The checkout form: the per-field rules it is validated against before submission,
 * its default values, and what a valid submission produces (an order id built from the
 * submission time and the tracking route it navigates to).
 *
 * Field lengths are counted in characters.
 */
module Checkout {
  import opened Wrappers

  datatype PaymentMethod = CreditCard | Paypal | Cod

  /** The fields that carry a rule; the three card fields carry none. */
  datatype Field = FullName | Address | City | PostalCode | Country | PaymentMethodField | AgreeToTerms

  /** The form's values. `paymentMethod` and the card fields may be absent. */
  datatype CheckoutForm = CheckoutForm(
    fullName: string,
    address: string,
    city: string,
    postalCode: string,
    country: string,
    paymentMethod: Option<string>,
    cardNumber: Option<string>,
    cardExpiry: Option<string>,
    cardCvc: Option<string>,
    agreeToTerms: bool)

  /** The values the form starts with. */
  const DefaultValues: CheckoutForm :=
    CheckoutForm("", "", "", "", "USA", None, None, None, None, false)

  // ---------------------------------------------------------------------------
  // Payment method: a closed enum of three strings

  function PaymentMethodName(m: PaymentMethod): string {
    match m
    case CreditCard => "creditCard"
    case Paypal => "paypal"
    case Cod => "cod"
  }

  /** The enum rule: the value must be one of the three names; an absent value fails. */
  function ParsePaymentMethod(value: Option<string>): (r: Option<PaymentMethod>)
    ensures r.Some? <==> value.Some? && value.value in {"creditCard", "paypal", "cod"}
    ensures r.Some? ==> value == Some(PaymentMethodName(r.value))
  {
    match value
    case None => None
    case Some(s) =>
      if s == "creditCard" then Some(CreditCard)
      else if s == "paypal" then Some(Paypal)
      else if s == "cod" then Some(Cod)
      else None
  }

  /** Every method's name is accepted and read back as that method. */
  lemma PaymentMethodRoundTrip(m: PaymentMethod)
    ensures ParsePaymentMethod(Some(PaymentMethodName(m))) == Some(m)
  {
  }

  // ---------------------------------------------------------------------------
  // Postal code: /^\d{5}(-\d{4})?$/

  /** `\d` without the unicode flag: the ASCII digits only. */
  predicate IsDigit(c: char) {
    '0' <= c <= '9'
  }

  predicate AllDigits(s: string) {
    forall i :: 0 <= i < |s| ==> IsDigit(s[i])
  }

  /** Matches `\d{n}` at the start of `s` and returns what follows. */
  function MatchDigits(s: string, n: nat): (rest: Option<string>)
    ensures rest.Some? <==> n <= |s| && AllDigits(s[..n])
    ensures rest.Some? ==> rest.value == s[n..]
  {
    if n == 0 then Some(s)
    else if s == [] || !IsDigit(s[0]) then None
    else
      var r := MatchDigits(s[1..], n - 1);
      DigitsPrefixCons(s, n);
      r
  }

  /** A digit prefix is a leading digit followed by a shorter digit prefix. */
  lemma DigitsPrefixCons(s: string, n: nat)
    requires 1 <= n && s != []
    ensures n <= |s| ==> (AllDigits(s[..n]) <==> IsDigit(s[0]) && AllDigits(s[1..][..n - 1]))
  {
    if n <= |s| {
      assert s[..n] == [s[0]] + s[1..][..n - 1];
    }
  }

  /** The anchored pattern: five digits, then either the end or `-` and four digits and the end. */
  predicate PostalCodeMatches(s: string)
    ensures PostalCodeMatches(s) ==> (|s| == 5 || |s| == 10) && AllDigits(s[..5])
  {
    match MatchDigits(s, 5)
    case None => false
    case Some(rest) => rest == [] || (rest[0] == '-' && MatchDigits(rest[1..], 4) == Some([]))
  }

  /** The codes the pattern accepts are exactly `DDDDD` and `DDDDD-DDDD`, so every accepted
      code has 5 or 10 characters. */
  lemma PostalCodeShape(s: string)
    ensures PostalCodeMatches(s) <==>
      (|s| == 5 && AllDigits(s)) ||
      (|s| == 10 && AllDigits(s[..5]) && s[5] == '-' && AllDigits(s[6..]))
    ensures PostalCodeMatches(s) ==> |s| == 5 || |s| == 10
  {
    if |s| >= 6 {
      assert s[5..][1..] == s[6..];
      if |s| == 10 {
        assert s[6..][..4] == s[6..];
      }
    }
    if |s| == 5 {
      assert s[..5] == s;
    }
  }

  // ---------------------------------------------------------------------------
  // The schema

  /** The rule of one field. */
  predicate FieldValid(form: CheckoutForm, f: Field)
    ensures FieldValid(form, f) && f == PostalCode ==> |form.postalCode| == 5 || |form.postalCode| == 10
    ensures FieldValid(form, f) && f == PaymentMethodField ==>
      form.paymentMethod.Some? && form.paymentMethod.value in {"creditCard", "paypal", "cod"}
  {
    match f
    case FullName => |form.fullName| >= 2
    case Address => |form.address| >= 5
    case City => |form.city| >= 2
    case PostalCode => PostalCodeMatches(form.postalCode)
    case Country => |form.country| >= 2
    case PaymentMethodField => ParsePaymentMethod(form.paymentMethod).Some?
    case AgreeToTerms => form.agreeToTerms
  }

  /** The form passes when every field passes. */
  predicate IsValid(form: CheckoutForm)
    ensures IsValid(form) ==> form.agreeToTerms && form.paymentMethod.Some?
    ensures IsValid(form) ==> |form.fullName| >= 2 && |form.address| >= 5 && PostalCodeMatches(form.postalCode)
  {
    var ok := forall f: Field :: FieldValid(form, f);
    assert ok ==> FieldValid(form, AgreeToTerms) && FieldValid(form, PaymentMethodField);
    assert ok ==> FieldValid(form, FullName) && FieldValid(form, Address) && FieldValid(form, PostalCode);
    ok
  }

  /** The fields in the order the schema declares them. */
  const SchemaOrder: seq<Field> := [FullName, Address, City, PostalCode, Country, PaymentMethodField, AgreeToTerms]

  /** The fields of `fields` whose rule fails, in order. */
  function FailingFields(form: CheckoutForm, fields: seq<Field>): seq<Field> {
    if fields == [] then []
    else (if FieldValid(form, fields[0]) then [] else [fields[0]]) + FailingFields(form, fields[1..])
  }

  /** A field is reported iff it is checked and its rule fails. */
  lemma {:induction false} FailingFieldsMembers(form: CheckoutForm, fields: seq<Field>)
    ensures forall f :: f in FailingFields(form, fields) <==> f in fields && !FieldValid(form, f)
  {
    if fields != [] {
      FailingFieldsMembers(form, fields[1..]);
      assert fields == [fields[0]] + fields[1..];
    }
  }

  lemma EveryFieldInSchema()
    ensures forall f: Field :: f in SchemaOrder
  {
    forall f: Field ensures f in SchemaOrder {
      var i := match f
        case FullName => 0 case Address => 1 case City => 2 case PostalCode => 3
        case Country => 4 case PaymentMethodField => 5 case AgreeToTerms => 6;
      assert SchemaOrder[i] == f;
    }
  }

  /** The failing fields, in the schema's order: empty exactly when the form is valid. */
  function Validate(form: CheckoutForm): (errors: seq<Field>)
    ensures forall f :: f in errors <==> !FieldValid(form, f)
    ensures errors == [] <==> IsValid(form)
  {
    EveryFieldInSchema();
    FailingFieldsMembers(form, SchemaOrder);
    var errors := FailingFields(form, SchemaOrder);
    assert errors != [] ==> errors[0] in errors;
    errors
  }

  /** The card fields never decide validity, whatever payment method is chosen. */
  lemma CardFieldsUnconstrained(form: CheckoutForm, number: Option<string>, expiry: Option<string>, cvc: Option<string>)
    ensures IsValid(form) <==> IsValid(form.(cardNumber := number, cardExpiry := expiry, cardCvc := cvc))
  {
    var other := form.(cardNumber := number, cardExpiry := expiry, cardCvc := cvc);
    assert forall f :: FieldValid(form, f) == FieldValid(other, f);
  }

  /** Unaccepted terms fail the form, whatever the other fields hold. */
  lemma TermsRequired(form: CheckoutForm)
    requires !form.agreeToTerms
    ensures !IsValid(form) && AgreeToTerms in Validate(form)
  {
    assert !FieldValid(form, AgreeToTerms);
  }

  /** The last three schema fields of the default form: only Country passes. */
  lemma {:induction false} DefaultsTail()
    ensures FailingFields(DefaultValues, SchemaOrder[4..]) == [PaymentMethodField, AgreeToTerms]
  {
    var d := DefaultValues;
    var order := SchemaOrder;
    assert FieldValid(d, Country);
    assert !FieldValid(d, PaymentMethodField) && !FieldValid(d, AgreeToTerms);
    assert FailingFields(d, order[7..]) == [];
    assert FailingFields(d, order[6..]) == [AgreeToTerms];
    assert FailingFields(d, order[5..]) == [PaymentMethodField, AgreeToTerms];
  }

  /** The form as first shown fails every rule except the preset country. */
  lemma {:induction false} DefaultsInvalid()
    ensures Validate(DefaultValues) == [FullName, Address, City, PostalCode, PaymentMethodField, AgreeToTerms]
    ensures FieldValid(DefaultValues, Country)
  {
    var d := DefaultValues;
    var order := SchemaOrder;
    DefaultsTail();
    assert MatchDigits("", 5) == None;
    assert !FieldValid(d, FullName) && !FieldValid(d, Address) && !FieldValid(d, City);
    assert !FieldValid(d, PostalCode) && FieldValid(d, Country);
    assert FailingFields(d, order[3..]) == [PostalCode, PaymentMethodField, AgreeToTerms];
    assert FailingFields(d, order[2..]) == [City, PostalCode, PaymentMethodField, AgreeToTerms];
    assert FailingFields(d, order[1..]) == [Address, City, PostalCode, PaymentMethodField, AgreeToTerms];
    assert FailingFields(d, order) == [FullName, Address, City, PostalCode, PaymentMethodField, AgreeToTerms];
    assert Validate(d) == FailingFields(d, order);
  }

  // ---------------------------------------------------------------------------
  // Submission

  /** A natural number in decimal, as a template literal prints an integral timestamp. */
  function DecimalString(n: nat): (s: string)
    ensures |s| >= 1 && AllDigits(s)
    ensures |s| > 1 ==> s[0] != '0'
    decreases n
  {
    if n < 10 then [DigitChar(n)]
    else DecimalString(n / 10) + [DigitChar(n % 10)]
  }

  function DigitChar(d: nat): (c: char)
    requires d < 10
    ensures IsDigit(c)
  {
    ('0' as int + d) as char
  }

  /** Reads a string of digits back as a number. */
  function DecimalValue(s: string): nat
    requires AllDigits(s)
  {
    if s == [] then 0
    else DecimalValue(s[..|s| - 1]) * 10 + (s[|s| - 1] as int - '0' as int)
  }

  /** The decimal form loses nothing: reading it back gives the timestamp. */
  lemma {:induction false} DecimalRoundTrip(n: nat)
    ensures DecimalValue(DecimalString(n)) == n
    decreases n
  {
    if n >= 10 {
      var s := DecimalString(n);
      assert s[..|s| - 1] == DecimalString(n / 10);
      DecimalRoundTrip(n / 10);
    }
  }

  const OrderIdPrefix: string := "ORD-"
  const TrackingPrefix: string := "/order-tracking/"

  /** `ORD-${Date.now()}`, with the time passed in. */
  function OrderId(nowMs: nat): (id: string)
    ensures |id| > 4 && id[..4] == "ORD-"
    ensures AllDigits(id[4..]) && DecimalValue(id[4..]) == nowMs
  {
    var id := OrderIdPrefix + DecimalString(nowMs);
    assert id[4..] == DecimalString(nowMs);
    DecimalRoundTrip(nowMs);
    id
  }

  /** A valid form yields the tracking route of a fresh order id; an invalid one yields
      its failing fields and no navigation. */
  function Submit(form: CheckoutForm, nowMs: nat): (r: Result<string, seq<Field>>)
    ensures r.Success? <==> IsValid(form)
    ensures r.Failure? ==> r.error == Validate(form) && r.error != []
  {
    var errors := Validate(form);
    if errors == [] then Success(TrackingPrefix + OrderId(nowMs)) else Failure(errors)
  }

  /** The route is `/order-tracking/ORD-` followed by the digits of the submission time,
      and those digits read back as that time. */
  lemma RouteCarriesTimestamp(form: CheckoutForm, nowMs: nat)
    requires IsValid(form)
    ensures var route := Submit(form, nowMs).value;
      && |route| > 20
      && route[..20] == "/order-tracking/ORD-"
      && AllDigits(route[20..])
      && DecimalValue(route[20..]) == nowMs
  {
    var route, id := Submit(form, nowMs).value, OrderId(nowMs);
    assert route == "/order-tracking/" + id;
    assert route[20..] == id[4..];
  }
}
