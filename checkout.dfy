/**
 * The checkout page's form (`src/pages/Checkout.tsx`): its state, the per-input update, the
 * empty-cart guard, and the submit handler's chain of checks, where the first failing check
 * decides the outcome and only a form passing all of them places the order.
 */
module Checkout {
  import opened Text

  datatype Payment = Cod | Online

  datatype CheckoutForm = CheckoutForm(
    firstName: string,
    lastName: string,
    email: string,
    phone: string,
    address: string,
    apartment: string,
    city: string,
    state: string,
    pincode: string,
    paymentMethod: Payment)

  /** The text inputs, by their `name` attribute. */
  datatype TextField = FirstName | LastName | Email | Phone | Address | Apartment | City | State | Pincode

  /** The form as the page opens: every text empty, cash on delivery. */
  const InitialForm := CheckoutForm("", "", "", "", "", "", "", "", "", Cod)

  function FieldValue(f: CheckoutForm, name: TextField): string {
    match name
    case FirstName => f.firstName
    case LastName => f.lastName
    case Email => f.email
    case Phone => f.phone
    case Address => f.address
    case Apartment => f.apartment
    case City => f.city
    case State => f.state
    case Pincode => f.pincode
  }

  /** `handleInputChange`: the named input takes the typed value, nothing else changes. */
  function HandleInputChange(f: CheckoutForm, name: TextField, value: string): (g: CheckoutForm)
    ensures FieldValue(g, name) == value
    ensures forall other :: other != name ==> FieldValue(g, other) == FieldValue(f, other)
    ensures g.paymentMethod == f.paymentMethod
  {
    match name
    case FirstName => f.(firstName := value)
    case LastName => f.(lastName := value)
    case Email => f.(email := value)
    case Phone => f.(phone := value)
    case Address => f.(address := value)
    case Apartment => f.(apartment := value)
    case City => f.(city := value)
    case State => f.(state := value)
    case Pincode => f.(pincode := value)
  }

  /** A payment radio button: only the payment method changes. */
  function SelectPayment(f: CheckoutForm, p: Payment): (g: CheckoutForm)
    ensures g.paymentMethod == p && forall name :: FieldValue(g, name) == FieldValue(f, name)
  {
    f.(paymentMethod := p)
  }

  /** Every text input but the apartment must be filled in. */
  const RequiredFields := [FirstName, LastName, Email, Phone, Address, City, State, Pincode]

  /** The required fields that are blank after trimming, in the order they are listed. */
  function MissingFields(f: CheckoutForm, fields: seq<TextField>): (missing: seq<TextField>)
    ensures forall x :: x in missing <==> x in fields && JsTrim(FieldValue(f, x)) == ""
    ensures |missing| <= |fields|
  {
    if fields == [] then []
    else (if JsTrim(FieldValue(f, fields[0])) == "" then [fields[0]] else []) + MissingFields(f, fields[1..])
  }

  // ---------------------------------------------------------------- the patterns

  /** A character of `[^\s@]`: neither JavaScript whitespace nor `@`. */
  predicate EmailChar(c: char) {
    !IsJsSpace(c) && c != '@'
  }

  predicate EmailChars(s: string) {
    forall i :: 0 <= i < |s| ==> EmailChar(s[i])
  }

  /**
   * `/^[^\s@]+@[^\s@]+\.[^\s@]+$/` matches `s`: it splits into a non-empty local part, `@`, a
   * non-empty host part, `.`, and a non-empty suffix, none of them holding whitespace or `@`.
   */
  predicate EmailPattern(s: string)
    ensures EmailPattern(s) ==> |s| >= 5 && EmailChar(s[0]) && EmailChar(s[|s| - 1])
  {
    exists i, k :: 0 < i && i + 1 < k && k + 1 < |s| && s[i] == '@' && s[k] == '.'
      && EmailChars(s[..i]) && EmailChars(s[i + 1..k]) && EmailChars(s[k + 1..])
  }

  /** Index of the first `c` in `s`, or -1. */
  function FirstIndex(s: string, c: char): (r: int)
    ensures -1 <= r < |s|
    ensures r >= 0 ==> s[r] == c
    ensures forall i :: 0 <= i < |s| && (r < 0 || i < r) ==> s[i] != c
  {
    if s == [] then -1
    else if s[0] == c then 0
    else
      var r := FirstIndex(s[1..], c);
      if r < 0 then -1 else r + 1
  }

  /** The host-and-suffix part has a `.` with something on both sides. */
  predicate InnerDot(d: string) {
    exists k :: 1 <= k < |d| - 1 && d[k] == '.'
  }

  /** The email check as it can be run: one `@`, not first, no whitespace, and an inner dot after it. */
  function ValidEmail(s: string): (ok: bool)
    ensures ok ==> |s| >= 5 && EmailChar(s[0]) && EmailChar(s[|s| - 1])
  {
    var at := FirstIndex(s, '@');
    assert at > 0 && EmailChars(s[..at]) ==> s[..at][0] == s[0];
    assert at >= 0 && at + 1 < |s| ==> s[at + 1..][|s| - at - 2] == s[|s| - 1];
    at > 0 && EmailChars(s[..at]) && EmailChars(s[at + 1..]) && InnerDot(s[at + 1..])
  }

  /** A slice of a run of `[^\s@]` characters is one too. */
  lemma EmailCharsSlice(d: string, lo: int, hi: int)
    requires EmailChars(d) && 0 <= lo <= hi <= |d|
    ensures EmailChars(d[lo..hi])
  {
    assert forall t :: 0 <= t < hi - lo ==> d[lo..hi][t] == d[lo + t];
  }

  /** A run of `[^\s@]` characters, a `.`, and another run make one run. */
  lemma EmailCharsAroundDot(s: string, lo: int, k: int)
    requires 0 <= lo <= k < |s| && s[k] == '.'
    requires EmailChars(s[lo..k]) && EmailChars(s[k + 1..])
    ensures EmailChars(s[lo..])
  {
    forall t | 0 <= t < |s| - lo ensures EmailChar(s[lo..][t]) {
      if lo + t < k {
        assert s[lo..][t] == s[lo..k][t];
      } else if lo + t > k {
        assert s[lo..][t] == s[k + 1..][lo + t - k - 1];
      }
    }
  }

  /** What the runnable check accepts, the pattern matches. */
  lemma ValidEmailIsPattern(s: string)
    requires ValidEmail(s)
    ensures EmailPattern(s)
  {
    var at := FirstIndex(s, '@');
    var d := s[at + 1..];
    var j :| 1 <= j < |d| - 1 && d[j] == '.';
    var k := at + 1 + j;
    assert s[at + 1..k] == d[..j] && s[k + 1..] == d[j + 1..];
    EmailCharsSlice(d, 0, j);
    EmailCharsSlice(d, j + 1, |d|);
    assert s[k] == '.';
  }

  /** What the pattern matches, the runnable check accepts. */
  lemma PatternIsValidEmail(s: string)
    requires EmailPattern(s)
    ensures ValidEmail(s)
  {
    var i, k :| 0 < i && i + 1 < k && k + 1 < |s| && s[i] == '@' && s[k] == '.'
      && EmailChars(s[..i]) && EmailChars(s[i + 1..k]) && EmailChars(s[k + 1..]);
    assert forall j :: 0 <= j < i ==> s[j] != '@' by {
      forall j | 0 <= j < i ensures s[j] != '@' {
        assert s[..i][j] == s[j];
      }
    }
    var at := FirstIndex(s, '@');
    assert at == i;
    EmailCharsAroundDot(s, i + 1, k);
    assert s[i + 1..][k - i - 1] == '.';
  }

  /** The runnable check accepts exactly what the pattern matches. */
  lemma ValidEmailMatchesPattern(s: string)
    ensures ValidEmail(s) <==> EmailPattern(s)
  {
    if ValidEmail(s) {
      ValidEmailIsPattern(s);
    }
    if EmailPattern(s) {
      PatternIsValidEmail(s);
    }
  }

  /** `/^[0-9]{n}$/` matches `s`: exactly `n` ASCII digits. */
  predicate Digits(s: string, n: nat)
    ensures Digits(s, n) ==> JsTrim(s) == s && (n > 0 ==> JsTrim(s) != "")
  {
    |s| == n && forall i :: 0 <= i < |s| ==> '0' <= s[i] <= '9'
  }

  // ---------------------------------------------------------------- submit

  datatype Verdict = MissingInformation | InvalidEmail | InvalidPhone | InvalidPincode | OrderPlaced

  /** `handleSubmit`: the first failing check, in the order missing, email, phone, pincode; else the order is placed. */
  function Submit(f: CheckoutForm): (v: Verdict)
    ensures v == MissingInformation <==> MissingFields(f, RequiredFields) != []
    ensures v == InvalidEmail <==> MissingFields(f, RequiredFields) == [] && !EmailPattern(f.email)
    ensures v == InvalidPhone <==> MissingFields(f, RequiredFields) == [] && EmailPattern(f.email) && !Digits(f.phone, 10)
    ensures v == InvalidPincode <==>
      MissingFields(f, RequiredFields) == [] && EmailPattern(f.email) && Digits(f.phone, 10) && !Digits(f.pincode, 6)
  {
    ValidEmailMatchesPattern(f.email);
    if MissingFields(f, RequiredFields) != [] then MissingInformation
    else if !ValidEmail(f.email) then InvalidEmail
    else if !Digits(f.phone, 10) then InvalidPhone
    else if !Digits(f.pincode, 6) then InvalidPincode
    else OrderPlaced
  }

  /** An order is placed (and the cart cleared) exactly when every required field is filled and all three patterns match. */
  lemma PlacedIffValid(f: CheckoutForm)
    ensures Submit(f) == OrderPlaced <==>
      (forall x :: x in RequiredFields ==> JsTrim(FieldValue(f, x)) != "")
      && EmailPattern(f.email) && Digits(f.phone, 10) && Digits(f.pincode, 6)
  {
    var m := MissingFields(f, RequiredFields);
    if m != [] {
      assert m[0] in m;
    }
  }

  /** The apartment is optional: a blank apartment never blocks the order. */
  lemma ApartmentOptional(f: CheckoutForm, value: string)
    ensures Submit(HandleInputChange(f, Apartment, value)) == Submit(f)
  {
    var g := HandleInputChange(f, Apartment, value);
    MissingFieldsIgnoresApartment(f, g, RequiredFields);
  }

  lemma {:induction false} MissingFieldsIgnoresApartment(f: CheckoutForm, g: CheckoutForm, fields: seq<TextField>)
    requires Apartment !in fields
    requires forall x :: x != Apartment ==> FieldValue(g, x) == FieldValue(f, x)
    ensures MissingFields(g, fields) == MissingFields(f, fields)
  {
    if fields != [] {
      MissingFieldsIgnoresApartment(f, g, fields[1..]);
    }
  }

  /** The email is matched untrimmed: an address with a space in front passes the blank check but not the pattern. */
  lemma PaddedEmailRejected(f: CheckoutForm)
    requires |f.email| > 0 && f.email[0] == ' '
    ensures !EmailPattern(f.email)
  {
  }

  // ---------------------------------------------------------------- empty cart

  datatype CheckoutView = EmptyCart | OrderForm

  /** With no items in the cart the page shows the empty state instead of the form. */
  function View(cartItems: nat): (v: CheckoutView)
    ensures v == OrderForm <==> cartItems > 0
  {
    if cartItems == 0 then EmptyCart else OrderForm
  }
}
