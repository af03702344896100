/** src/components/PaymentModal.tsx: input formatting, per-method
    validation and the submit gate of the payment form. */
module PaymentModal {
  import opened Wrappers
  import opened Strings

  function Min(a: int, b: int): int { if a <= b then a else b }

  // ------------------------------------------------------------ card number

  /** The successive four-character pieces of `m`; the last may be shorter. */
  function Chunks(m: string): (parts: seq<string>)
    ensures m == [] <==> parts == []
    decreases |m|
  {
    if m == [] then []
    else if |m| <= 4 then [m]
    else [m[..4]] + Chunks(m[4..])
  }

  /** `parts.join(' ')`. */
  function JoinSpaced(parts: seq<string>): string {
    if parts == [] then ""
    else if |parts| == 1 then parts[0]
    else parts[0] + " " + JoinSpaced(parts[1..])
  }

  /** The digits `formatCardNumber` groups: the first match of `\d{4,16}` in
      the digit string, or nothing when there are fewer than four digits. */
  function CardDigits(value: string): (m: string)
    ensures AllDigits(m)
    ensures |KeepDigits(value)| < 4 ==> m == ""
    ensures |KeepDigits(value)| >= 4 ==> m == KeepDigits(value)[..Min(16, |KeepDigits(value)|)]
  {
    var v := KeepDigits(value);
    if |v| >= 4 then v[..Min(16, |v|)] else ""
  }

  /** What `formatCardNumber(value)` returns. */
  function CardNumberText(value: string): string {
    var parts := Chunks(CardDigits(value));
    if parts != [] then JoinSpaced(parts) else KeepDigits(value)
  }

  /** `formatCardNumber(value)`. */
  method FormatCardNumber(value: string) returns (r: string)
    ensures r == CardNumberText(value)
  {
    var v := KeepDigits(RemoveSpaces(value));
    KeepDigitsIgnoresSpaces(value);
    var m := if |v| >= 4 then v[..Min(16, |v|)] else "";
    var parts := CollectChunks(m);
    if |parts| > 0 {
      r := JoinSpaced(parts);
    } else {
      r := v;
    }
  }

  /** The `for` loop of `formatCardNumber`, which pushes
      `match.substring(i, i + 4)` for i = 0, 4, 8, ... */
  method CollectChunks(m: string) returns (parts: seq<string>)
    ensures parts == Chunks(m)
  {
    parts := [];
    var i := 0;
    while i < |m|
      invariant 0 <= i
      invariant parts + Chunks(m[Min(i, |m|)..]) == Chunks(m)
      decreases |m| - i
    {
      var piece := m[i..Min(i + 4, |m|)];
      ChunksStep(m, i);
      assert (parts + [piece]) + Chunks(m[Min(i + 4, |m|)..]) == parts + ([piece] + Chunks(m[Min(i + 4, |m|)..]));
      parts := parts + [piece];
      i := i + 4;
    }
  }

  /** One step of that loop: the piece at `i`, then the pieces from where
      the next `substring` starts (clamped to the end). */
  lemma ChunksStep(m: string, i: nat)
    requires i < |m|
    ensures Chunks(m[i..]) == [m[i..Min(i + 4, |m|)]] + Chunks(m[Min(i + 4, |m|)..])
  {
    if |m| - i > 4 {
      assert m[i..][..4] == m[i..i + 4];
      assert m[i..][4..] == m[i + 4..];
    } else {
      assert m[i..Min(i + 4, |m|)] == m[i..];
      assert m[Min(i + 4, |m|)..] == [];
    }
  }

  /** Every piece but the last has four characters, the last one to four. */
  lemma {:induction false} ChunkSizes(m: string)
    ensures forall k :: 0 <= k < |Chunks(m)| - 1 ==> |Chunks(m)[k]| == 4
    ensures Chunks(m) != [] ==> 1 <= |Chunks(m)[|Chunks(m)| - 1]| <= 4
    decreases |m|
  {
    if |m| > 4 {
      ChunkSizes(m[4..]);
    }
  }

  lemma DigitsHaveNoSpaces(m: string)
    requires AllDigits(m)
    ensures RemoveSpaces(m) == m
  {
    assert forall i :: 0 <= i < |m| ==> IsDigit(m[i]);
  }

  /** Joining the pieces of a digit string and dropping the spaces gives the
      digit string back. */
  lemma {:induction false} JoinedChunksRemoveSpaces(m: string)
    requires AllDigits(m)
    ensures RemoveSpaces(JoinSpaced(Chunks(m))) == m
    decreases |m|
  {
    if |m| <= 4 {
      DigitsHaveNoSpaces(m);
      if m != [] {
        assert JoinSpaced(Chunks(m)) == m;
      }
    } else {
      var head, rest := m[..4], m[4..];
      assert AllDigits(rest) by {
        assert forall i :: 0 <= i < |rest| ==> rest[i] == m[i + 4];
      }
      JoinedChunksRemoveSpaces(rest);
      var parts := Chunks(m);
      assert parts == [head] + Chunks(rest);
      assert parts[1..] == Chunks(rest);
      assert JoinSpaced(parts) == head + " " + JoinSpaced(Chunks(rest));
      RemoveSpacesConcat(head + " ", JoinSpaced(Chunks(rest)));
      RemoveSpacesConcat(head, " ");
      assert RemoveSpaces(" ") == "";
      assert AllDigits(head) by {
        assert forall i :: 0 <= i < |head| ==> head[i] == m[i];
      }
      DigitsHaveNoSpaces(head);
      assert m == head + rest;
    }
  }

  /** Fewer than four digits come back as they are; otherwise the first
      sixteen digits at most come back in groups, and nothing but the
      spaces between groups is added. */
  lemma CardNumberShape(value: string)
    ensures |KeepDigits(value)| < 4 ==> CardNumberText(value) == KeepDigits(value)
    ensures |KeepDigits(value)| >= 4 ==>
              CardNumberText(value) == JoinSpaced(Chunks(CardDigits(value))) &&
              RemoveSpaces(CardNumberText(value)) == KeepDigits(value)[..Min(16, |KeepDigits(value)|)]
  {
    if |KeepDigits(value)| >= 4 {
      JoinedChunksRemoveSpaces(CardDigits(value));
    }
  }

  /** Formatting an already formatted card number changes nothing, so the
      field is stable as the user types. */
  lemma CardNumberIdempotent(value: string)
    ensures CardNumberText(CardNumberText(value)) == CardNumberText(value)
  {
    var v := KeepDigits(value);
    var r := CardNumberText(value);
    if |v| >= 4 {
      var m := CardDigits(value);
      JoinedChunksRemoveSpaces(m);
      KeepDigitsIgnoresSpaces(r);
      assert KeepDigits(r) == m;
      assert m[..Min(16, |m|)] == m;
    }
  }

  // ------------------------------------------------------- expiry and CVV

  /** `^\d{2}\/\d{2}$`. */
  predicate IsExpiryShape(s: string) {
    |s| == 5 && IsDigit(s[0]) && IsDigit(s[1]) && s[2] == '/' && IsDigit(s[3]) && IsDigit(s[4])
  }

  /** `formatExpiryDate(value)`: two digits, a slash and up to two more
      digits once there are two digits; the digits alone before that. */
  function ExpiryText(value: string): (r: string)
    ensures |r| <= 5
    ensures |KeepDigits(value)| < 2 ==> r == KeepDigits(value)
    ensures |KeepDigits(value)| >= 2 ==> |r| >= 3 && r[..2] == KeepDigits(value)[..2] && r[2] == '/' &&
                                         r[3..] == KeepDigits(value)[2..Min(4, |KeepDigits(value)|)]
    ensures IsExpiryShape(r) <==> |KeepDigits(value)| >= 4
  {
    var v := KeepDigits(RemoveSpaces(value));
    KeepDigitsIgnoresSpaces(value);
    if |v| >= 2 then
      var r := v[..2] + "/" + v[2..Min(4, |v|)];
      assert r[..2] == v[..2] && r[3..] == v[2..Min(4, |v|)];
      r
    else v
  }

  /** The CVV filter: `value.replace(/[^0-9]/g, '').substring(0, 4)`. */
  function CvvText(value: string): (r: string)
    ensures AllDigits(r) && |r| <= 4
    ensures r == KeepDigits(value)[..Min(4, |KeepDigits(value)|)]
  {
    var v := KeepDigits(value);
    v[..Min(4, |v|)]
  }

  // ------------------------------------------------------------ validation

  /** The keys of the form state and of the error map. */
  datatype Field =
    | CardNumber | ExpiryDate | Cvv | CardholderName | Email | BillingAddress
    | PaypalEmail | BankAccount | RoutingNumber

  datatype PaymentData = PaymentData(
    cardNumber: string,
    expiryDate: string,
    cvv: string,
    cardholderName: string,
    email: string,
    billingAddress: string,
    paypalEmail: string,
    bankAccount: string,
    routingNumber: string)

  const InitialData: PaymentData := PaymentData("", "", "", "", "", "", "", "", "")

  function Get(d: PaymentData, f: Field): string {
    match f
    case CardNumber => d.cardNumber
    case ExpiryDate => d.expiryDate
    case Cvv => d.cvv
    case CardholderName => d.cardholderName
    case Email => d.email
    case BillingAddress => d.billingAddress
    case PaypalEmail => d.paypalEmail
    case BankAccount => d.bankAccount
    case RoutingNumber => d.routingNumber
  }

  /** `{ ...prev, [field]: value }`. */
  function Set(d: PaymentData, f: Field, v: string): (r: PaymentData)
    ensures Get(r, f) == v
    ensures forall g :: g != f ==> Get(r, g) == Get(d, g)
  {
    match f
    case CardNumber => d.(cardNumber := v)
    case ExpiryDate => d.(expiryDate := v)
    case Cvv => d.(cvv := v)
    case CardholderName => d.(cardholderName := v)
    case Email => d.(email := v)
    case BillingAddress => d.(billingAddress := v)
    case PaypalEmail => d.(paypalEmail := v)
    case BankAccount => d.(bankAccount := v)
    case RoutingNumber => d.(routingNumber := v)
  }

  /** `/\S+@\S+\.\S+/.test(s)`: a non-space character, `@`, one or more
      non-space characters, `.`, and a non-space character. */
  predicate EmailLike(s: string) {
    exists p: int, q: int | 0 <= p < q < |s| :: EmailSplit(s, p, q)
  }

  /** `s[p]` is the `@` and `s[q]` the `.` of a match of that pattern. */
  predicate EmailSplit(s: string, p: int, q: int) {
    1 <= p && p + 1 < q && q + 1 < |s| && s[p] == '@' && s[q] == '.' &&
    !IsSpace(s[p - 1]) && !IsSpace(s[q + 1]) && NoSpaceBetween(s, p, q)
  }

  predicate NoSpaceBetween(s: string, p: int, q: int)
    requires 0 <= p <= q <= |s|
  {
    forall k :: p < k < q ==> !IsSpace(s[k])
  }

  lemma BlankNotEmailLike(s: string)
    requires IsBlank(s)
    ensures !EmailLike(s)
  {
  }

  /** The check `validateForm` makes of `email` and `paypalEmail`. */
  function EmailError(s: string, required: string): (e: Option<string>)
    ensures e.None? <==> EmailLike(s)
    ensures IsBlank(s) ==> e == Some(required)
  {
    if IsBlank(s) then BlankNotEmailLike(s); Some(required)
    else if !EmailLike(s) then Some("Please enter a valid email address")
    else None
  }

  /** The card-payment checks, field by field. */
  function StripeError(d: PaymentData, f: Field): Option<string> {
    match f
    case CardholderName => if IsBlank(d.cardholderName) then Some("Cardholder name is required") else None
    case CardNumber =>
      if RemoveSpaces(d.cardNumber) == "" then Some("Card number is required")
      else if |RemoveSpaces(d.cardNumber)| < 13 then Some("Please enter a valid card number")
      else None
    case ExpiryDate =>
      if d.expiryDate == "" then Some("Expiry date is required")
      else if !IsExpiryShape(d.expiryDate) then Some("Please enter a valid expiry date (MM/YY)")
      else None
    case Cvv =>
      if d.cvv == "" then Some("CVV is required")
      else if |d.cvv| < 3 then Some("Please enter a valid CVV")
      else None
    case Email => EmailError(d.email, "Email address is required")
    case BillingAddress => if IsBlank(d.billingAddress) then Some("Billing address is required") else None
    case PaypalEmail => None
    case BankAccount => None
    case RoutingNumber => None
  }

  /** The PayPal checks, field by field. */
  function PaypalError(d: PaymentData, f: Field): Option<string> {
    if f == PaypalEmail then EmailError(d.paypalEmail, "PayPal email is required") else None
  }

  /** The bank-transfer checks, field by field. */
  function BankError(d: PaymentData, f: Field): Option<string> {
    match f
    case CardholderName => if IsBlank(d.cardholderName) then Some("Account holder name is required") else None
    case BankAccount => if IsBlank(d.bankAccount) then Some("Bank account number is required") else None
    case RoutingNumber =>
      if IsBlank(d.routingNumber) then Some("Routing number is required")
      else if |d.routingNumber| != 9 then Some("Routing number must be 9 digits")
      else None
    case Email => EmailError(d.email, "Email address is required")
    case CardNumber => None
    case ExpiryDate => None
    case Cvv => None
    case BillingAddress => None
    case PaypalEmail => None
  }

  /** The error `validateForm` records for one field under one payment method. */
  function FieldError(paymentMethod: string, d: PaymentData, f: Field): Option<string> {
    if paymentMethod == "stripe" then StripeError(d, f)
    else if paymentMethod == "paypal" then PaypalError(d, f)
    else if paymentMethod == "bank-transfer" then BankError(d, f)
    else None
  }

  const AllFields: set<Field> := {CardNumber, ExpiryDate, Cvv, CardholderName, Email, BillingAddress,
                                  PaypalEmail, BankAccount, RoutingNumber}

  lemma InAllFields(f: Field)
    ensures f in AllFields
  {
    match f
    case CardNumber =>
    case ExpiryDate =>
    case Cvv =>
    case CardholderName =>
    case Email =>
    case BillingAddress =>
    case PaypalEmail =>
    case BankAccount =>
    case RoutingNumber =>
  }

  /** `validateForm()` for the invoice's payment method: the map holds an
      entry exactly for each field whose check fails, with that check's
      message; the form is valid when it is empty. */
  function ValidateForm(paymentMethod: string, d: PaymentData): (errors: map<Field, string>)
    ensures forall f :: f in errors <==> FieldError(paymentMethod, d, f).Some?
    ensures forall f :: f in errors ==> errors[f] == FieldError(paymentMethod, d, f).value
  {
    forall f ensures f in AllFields {
      InAllFields(f);
    }
    map f | f in AllFields && FieldError(paymentMethod, d, f).Some? :: FieldError(paymentMethod, d, f).value
  }

  /** Card payment: each field is reported exactly when its check fails,
      and the PayPal and bank fields are never reported. */
  lemma CardValidation(d: PaymentData)
    ensures FieldError("stripe", d, CardholderName).Some? <==> IsBlank(d.cardholderName)
    ensures FieldError("stripe", d, CardNumber).Some? <==> |RemoveSpaces(d.cardNumber)| < 13
    ensures FieldError("stripe", d, ExpiryDate).Some? <==> !IsExpiryShape(d.expiryDate)
    ensures FieldError("stripe", d, Cvv).Some? <==> |d.cvv| < 3
    ensures FieldError("stripe", d, Email).Some? <==> !EmailLike(d.email)
    ensures FieldError("stripe", d, BillingAddress).Some? <==> IsBlank(d.billingAddress)
    ensures forall f :: f in {PaypalEmail, BankAccount, RoutingNumber} ==> FieldError("stripe", d, f).None?
  {
    assert forall f :: FieldError("stripe", d, f) == StripeError(d, f);
    assert d.expiryDate == "" ==> !IsExpiryShape(d.expiryDate);
    assert RemoveSpaces(d.cardNumber) == "" ==> |RemoveSpaces(d.cardNumber)| < 13;
  }

  /** PayPal payment checks the PayPal address and nothing else. */
  lemma PaypalValidation(d: PaymentData)
    ensures forall f :: f in ValidateForm("paypal", d) ==> f == PaypalEmail
    ensures PaypalEmail in ValidateForm("paypal", d) <==> !EmailLike(d.paypalEmail)
  {
  }

  /** Bank transfer requires a routing number of exactly nine characters
      that are not all white space; the card fields are never reported. */
  lemma BankValidation(d: PaymentData)
    ensures FieldError("bank-transfer", d, RoutingNumber).Some? <==> IsBlank(d.routingNumber) || |d.routingNumber| != 9
    ensures FieldError("bank-transfer", d, CardholderName).Some? <==> IsBlank(d.cardholderName)
    ensures FieldError("bank-transfer", d, BankAccount).Some? <==> IsBlank(d.bankAccount)
    ensures FieldError("bank-transfer", d, Email).Some? <==> !EmailLike(d.email)
    ensures forall f :: f in {CardNumber, ExpiryDate, Cvv, BillingAddress, PaypalEmail} ==>
              FieldError("bank-transfer", d, f).None?
  {
    assert forall f :: FieldError("bank-transfer", d, f) == BankError(d, f);
  }

  /** Any other payment method is never refused. */
  lemma OtherMethodsUnchecked(paymentMethod: string, d: PaymentData)
    requires paymentMethod != "stripe" && paymentMethod != "paypal" && paymentMethod != "bank-transfer"
    ensures ValidateForm(paymentMethod, d) == map[]
  {
  }

  /** The bank-transfer form only has an e-mail input, so the holder,
      account and routing fields keep their initial empty values and
      validation always fails on them. */
  lemma BankTransferFormCannotSubmit(email: string)
    ensures var e := ValidateForm("bank-transfer", Set(InitialData, Email, email));
            CardholderName in e && BankAccount in e && RoutingNumber in e && e != map[]
  {
    var d := Set(InitialData, Email, email);
    assert d.cardholderName == "" && d.bankAccount == "" && d.routingNumber == "";
    assert IsBlank("");
    assert BankError(d, CardholderName).Some?;
  }

  // ------------------------------------------------------------- the modal

  /** The modal's state for an invoice paid by `paymentMethod`. */
  class Modal {
    const paymentMethod: string
    var data: PaymentData
    var errors: map<Field, string>

    constructor (paymentMethod: string)
      ensures this.paymentMethod == paymentMethod && data == InitialData && errors == map[]
    {
      this.paymentMethod := paymentMethod;
      data := InitialData;
      errors := map[];
    }

    /** `handleInputChange(field, value)`: the value is formatted for the
        card number, expiry and CVV fields and stored; a non-empty error on
        that field is blanked and every other error stays. */
    method HandleInputChange(f: Field, value: string)
      modifies this
      ensures data == Set(old(data), f, FormattedInput(f, value))
      ensures errors == if f in old(errors) && old(errors)[f] != "" then old(errors)[f := ""] else old(errors)
      ensures forall g :: g != f ==> (g in errors <==> g in old(errors)) && (g in errors ==> errors[g] == old(errors)[g])
    {
      var formatted := value;
      if f == CardNumber {
        formatted := FormatCardNumber(value);
      } else if f == ExpiryDate {
        formatted := ExpiryText(value);
      } else if f == Cvv {
        formatted := CvvText(value);
      }
      data := Set(data, f, formatted);
      if f in errors && errors[f] != "" {
        errors := errors[f := ""];
      }
    }

    /** `handleSubmit`: the errors are replaced by a fresh validation, and
        the data is handed to `onSubmit` (the result) only when it found
        nothing. */
    method HandleSubmit() returns (submitted: Option<PaymentData>)
      modifies this`errors
      ensures errors == ValidateForm(paymentMethod, data)
      ensures submitted.Some? <==> errors == map[]
      ensures submitted.Some? ==> submitted.value == data
    {
      errors := ValidateForm(paymentMethod, data);
      if errors == map[] {
        submitted := Some(data);
      } else {
        submitted := None;
      }
    }
  }

  /** The value `handleInputChange` stores for a field. */
  function FormattedInput(f: Field, value: string): (r: string)
    ensures f == CardNumber ==> r == CardNumberText(value)
    ensures f == ExpiryDate ==> r == ExpiryText(value)
    ensures f == Cvv ==> r == CvvText(value)
    ensures f != CardNumber && f != ExpiryDate && f != Cvv ==> r == value
  {
    if f == CardNumber then CardNumberText(value)
    else if f == ExpiryDate then ExpiryText(value)
    else if f == Cvv then CvvText(value)
    else value
  }
}
