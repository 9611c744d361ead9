/**
 * The body of a transfer request and its bean-validation constraints.
 *
 * The controller validates the request before the transaction register sees it;
 * a request that breaks a constraint is answered 400 with the violated messages
 * and never reaches `initiateTransaction`.  A constraint other than @NotNull and
 * @NotBlank lets an absent (null) field through, as bean validation does.
 */
module Request {
  import opened Outcomes
  import opened Money

  const MinAccountLength: int := 3
  const MaxAccountLength: int := 50
  /** @DecimalMin("0.01"), inclusive. */
  const MinAmountPaise: int := 1
  /** @DecimalMax("1000000.00"), inclusive. */
  const MaxAmountPaise: int := 100_000_000
  /** @Digits(integer = 15, fraction = 2). */
  const MaxIntegerDigits: int := 15
  const MaxFractionDigits: nat := 2

  /** The request as it arrives; an absent JSON field is None. */
  datatype RawRequest = RawRequest(
    fromAccount: Option<string>,
    toAccount: Option<string>,
    amount: Option<Decimal>,
    description: Option<string>)

  /** A request that passed validation, with its amount in paise. */
  datatype TransactionRequest = TransactionRequest(
    fromAccount: string,
    toAccount: string,
    amount: int,
    description: Option<string>)

  datatype Violation =
    | FromAccountRequired | FromAccountSize
    | ToAccountRequired | ToAccountSize
    | AmountRequired | AmountTooSmall | AmountTooLarge | AmountFormat

  /** The message each constraint reports when it is broken. */
  function Message(v: Violation): string
  {
    match v
    case FromAccountRequired => "From account is required"
    case FromAccountSize => "From account must be between 3 and 50 characters"
    case ToAccountRequired => "To account is required"
    case ToAccountSize => "To account must be between 3 and 50 characters"
    case AmountRequired => "Amount is required"
    case AmountTooSmall => "Amount must be greater than 0"
    case AmountTooLarge => "Amount must not exceed 1,000,000"
    case AmountFormat => "Invalid amount format"
  }

  /** Every broken constraint is reported with a message of its own. */
  lemma MessagesDistinct(v: Violation, w: Violation)
    requires v != w
    ensures Message(v) != Message(w)
  {
    assert |Message(v)| != |Message(w)|;
  }

  /** A code point beyond the Basic Multilingual Plane takes two UTF-16 code units, a surrogate pair. */
  function Utf16Units(c: char): nat
  {
    if c as int >= 0x1_0000 then 2 else 1
  }

  /** String.length(): the number of UTF-16 code units, which @Size counts. */
  function Utf16Length(s: string): (n: nat)
    ensures |s| <= n <= 2 * |s|
    decreases |s|
  {
    if s == [] then 0 else Utf16Units(s[0]) + Utf16Length(s[1..])
  }

  /** For text inside the Basic Multilingual Plane the UTF-16 length is the number of characters. */
  lemma {:induction false} Utf16LengthOfBmp(s: string)
    requires forall i :: 0 <= i < |s| ==> s[i] as int < 0x1_0000
    ensures Utf16Length(s) == |s|
    decreases |s|
  {
    if s != [] {
      Utf16LengthOfBmp(s[1..]);
    }
  }

  /** A two-character account number whose first character is an emoji has three code units and passes @Size. */
  lemma SizeCountsCodeUnits()
    ensures Utf16Length("\U{1F600}A") == 3
    ensures SizeOk(Some("\U{1F600}A"))
  {
    assert "\U{1F600}A"[1..] == "A";
    assert "A"[1..] == "";
  }

  /** @NotBlank: present, and not only characters that String.trim() removes (those <= ' '). */
  predicate NotBlank(s: Option<string>)
  {
    s.Some? && exists i :: 0 <= i < |s.value| && s.value[i] > ' '
  }

  /** @Size(min = 3, max = 50), on String.length(). */
  predicate SizeOk(s: Option<string>)
  {
    s.None? || MinAccountLength <= Utf16Length(s.value) <= MaxAccountLength
  }

  predicate AmountMinOk(d: Option<Decimal>)
  {
    d.None? || AtLeastPaise(d.value, MinAmountPaise)
  }

  predicate AmountMaxOk(d: Option<Decimal>)
  {
    d.None? || AtMostPaise(d.value, MaxAmountPaise)
  }

  /** @Digits compares the BigDecimal's own scale, so 1.000 fails although it equals 1.00. */
  predicate DigitsOk(d: Option<Decimal>)
  {
    d.None? || (IntegerDigits(d.value) <= MaxIntegerDigits && d.value.scale <= MaxFractionDigits)
  }

  /** Every constraint the request breaks; bean validation reports all of them at once. */
  function Violations(r: RawRequest): set<Violation>
  {
    (if NotBlank(r.fromAccount) then {} else {FromAccountRequired}) +
    (if SizeOk(r.fromAccount) then {} else {FromAccountSize}) +
    (if NotBlank(r.toAccount) then {} else {ToAccountRequired}) +
    (if SizeOk(r.toAccount) then {} else {ToAccountSize}) +
    (if r.amount.Some? then {} else {AmountRequired}) +
    (if AmountMinOk(r.amount) then {} else {AmountTooSmall}) +
    (if AmountMaxOk(r.amount) then {} else {AmountTooLarge}) +
    (if DigitsOk(r.amount) then {} else {AmountFormat})
  }

  /**
   * Validation as the controller's @Valid applies it: either the request the
   * register receives, or the non-empty set of violated constraints.
   */
  function Validate(r: RawRequest): (v: Result<TransactionRequest, set<Violation>>)
    ensures v.Err? ==> v.error != {} && v.error == Violations(r)
    ensures v.Ok? ==> r.fromAccount == Some(v.value.fromAccount) && r.toAccount == Some(v.value.toAccount)
    ensures v.Ok? ==> v.value.description == r.description
    ensures v.Ok? <==>
      && NotBlank(r.fromAccount) && SizeOk(r.fromAccount)
      && NotBlank(r.toAccount) && SizeOk(r.toAccount)
      && r.amount.Some? && AmountMinOk(r.amount) && AmountMaxOk(r.amount) && DigitsOk(r.amount)
  {
    var vs := Violations(r);
    if vs == {} then
      assert FromAccountRequired !in vs && ToAccountRequired !in vs && AmountFormat !in vs;
      Ok(TransactionRequest(r.fromAccount.value, r.toAccount.value, ToPaise(r.amount.value), r.description))
    else
      Err(vs)
  }

  lemma PaiseLowerBound(p: int, scale: nat, unscaled: int, min: int)
    requires p * Pow10(scale) == unscaled * 100
    requires unscaled * 100 >= min * Pow10(scale)
    ensures p >= min
  {
    var k := Pow10(scale);
    assert (p - min) * k == unscaled * 100 - min * k;
  }

  lemma PaiseUpperBound(p: int, scale: nat, unscaled: int, max: int)
    requires p * Pow10(scale) == unscaled * 100
    requires unscaled * 100 <= max * Pow10(scale)
    ensures p <= max
  {
    var k := Pow10(scale);
    assert (max - p) * k == max * k - unscaled * 100;
  }

  /**
   * What the register may rely on once validation has passed: both accounts hold
   * 3 to 50 UTF-16 code units, so 2 to 50 characters, one of them visible, and the amount is 1 paisa to
   * 1,000,000.00 rupees, exactly the value that was sent.
   */
  lemma AcceptedRequestFacts(r: RawRequest)
    requires Validate(r).Ok?
    ensures var q := Validate(r).value;
      && MinAccountLength <= Utf16Length(q.fromAccount) <= MaxAccountLength
      && MinAccountLength <= Utf16Length(q.toAccount) <= MaxAccountLength
      && 2 <= |q.fromAccount| <= MaxAccountLength && 2 <= |q.toAccount| <= MaxAccountLength
      && NotBlank(Some(q.fromAccount)) && NotBlank(Some(q.toAccount))
      && MinAmountPaise <= q.amount <= MaxAmountPaise
      && q.amount * Pow10(r.amount.value.scale) == r.amount.value.unscaled * 100
  {
    var d := r.amount.value;
    var p := ToPaise(d);
    PaiseLowerBound(p, d.scale, d.unscaled, MinAmountPaise);
    PaiseUpperBound(p, d.scale, d.unscaled, MaxAmountPaise);
  }

  /**
   * Within the @DecimalMin/@DecimalMax range an amount has at most 7 integer
   * digits, so the 15-digit limit of @Digits never bites: the only thing it
   * rejects there is a scale above 2.
   */
  lemma DigitsOnlyLimitsScale(d: Decimal)
    requires AtLeastPaise(d, MinAmountPaise) && AtMostPaise(d, MaxAmountPaise)
    ensures d.scale <= MaxFractionDigits ==> IntegerDigits(d) <= 7
    ensures DigitsOk(Some(d)) <==> d.scale <= MaxFractionDigits
  {
    if d.scale <= MaxFractionDigits {
      assert d.unscaled > 0;
      if d.scale == 0 {
        NumDigitsBound(d.unscaled, 7);
      } else if d.scale == 1 {
        NumDigitsBound(d.unscaled, 8);
      } else {
        NumDigitsBound(d.unscaled, 9);
      }
    }
  }
}
