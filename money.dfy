/**
 * Fixed-point amounts and their decimal text.
 *
 * Every amount of the settlement pipeline is a BigDecimal number of rupees.  Once
 * a request has passed validation its amount has at most two fraction digits, so
 * the model holds it as an integer number of paise, which records its value but
 * not its scale: 20000 and 20000.00 are both 2,000,000 paise.  The raw `Decimal`
 * value (unscaled digits plus scale) is kept for the two places where the source
 * looks at the scale itself: the `@Digits` constraint of a transfer request, and
 * the round-amount fraud rule as the source writes it, which the fraud service
 * of the model replaces by a rule on the value.
 */
module Money {

  // ---------------------------------------------------------------------------
  // Decimal digits

  predicate IsDigit(c: char) { '0' <= c <= '9' }

  function DigitChar(d: int): (c: char)
    requires 0 <= d < 10
    ensures IsDigit(c)
  {
    ('0' as int + d) as char
  }

  function DigitValue(c: char): int { c as int - '0' as int }

  /** Base-10 text of a natural number, as `Long.toString` and `%d` print it. */
  function NatToString(n: nat): (s: string)
    ensures |s| >= 1
    ensures forall i :: 0 <= i < |s| ==> IsDigit(s[i])
    decreases n
  {
    if n < 10 then [DigitChar(n)] else NatToString(n / 10) + [DigitChar(n % 10)]
  }

  /** Reads the digits of `s` as a base-10 number (the inverse of NatToString). */
  function ParseNat(s: string): int
    decreases |s|
  {
    if s == [] then 0 else ParseNat(s[..|s| - 1]) * 10 + DigitValue(s[|s| - 1])
  }

  lemma {:induction false} ParseNatToString(n: nat)
    ensures ParseNat(NatToString(n)) == n
    decreases n
  {
    if n >= 10 {
      var s := NatToString(n);
      assert s[..|s| - 1] == NatToString(n / 10);
      ParseNatToString(n / 10);
    }
  }

  /** Base-10 text of an integer, with a leading '-' when negative (`String.valueOf(long)`). */
  function IntToString(i: int): (s: string)
    ensures |s| >= 1
    ensures forall k :: 0 <= k < |s| ==> s[k] == '-' || IsDigit(s[k])
  {
    if i < 0 then "-" + NatToString(-i) else NatToString(i)
  }

  function ParseInt(s: string): int
  {
    if |s| >= 1 && s[0] == '-' then -ParseNat(s[1..]) else ParseNat(s)
  }

  lemma IntToStringRoundTrip(i: int)
    ensures ParseInt(IntToString(i)) == i
  {
    if i < 0 {
      assert IntToString(i)[1..] == NatToString(-i);
      ParseNatToString(-i);
    } else {
      ParseNatToString(i);
    }
  }

  /** Different integers have different text: the key of a published event names one transaction. */
  lemma IntToStringInjective(i: int, j: int)
    ensures IntToString(i) == IntToString(j) ==> i == j
  {
    IntToStringRoundTrip(i);
    IntToStringRoundTrip(j);
  }

  // ---------------------------------------------------------------------------
  // "%.2f" rendering of an amount held in paise

  /**
   * The text `String.format("%.2f", amount)` produces for an amount of scale at most 2:
   * an optional '-', the whole rupees, a '.', and exactly two digits of paise.  The
   * conversion is exact (no rounding happens at scale 2) and uses no digit grouping.
   */
  function FormatAmount(paise: int): (s: string)
    ensures |s| >= 4 && s[|s| - 3] == '.'
    ensures IsDigit(s[|s| - 2]) && IsDigit(s[|s| - 1])
    ensures (s[0] == '-') <==> paise < 0
    ensures ' ' !in s
  {
    var a := if paise < 0 then -paise else paise;
    (if paise < 0 then "-" else "") + FormatUnsigned(a)
  }

  function FormatUnsigned(a: nat): (s: string)
    ensures |s| >= 4 && IsDigit(s[0]) && s[|s| - 3] == '.'
    ensures IsDigit(s[|s| - 2]) && IsDigit(s[|s| - 1])
    ensures forall k :: 0 <= k < |s| ==> s[k] == '.' || IsDigit(s[k])
  {
    NatToString(a / 100) + "." + [DigitChar(a % 100 / 10), DigitChar(a % 10)]
  }

  function ParseUnsigned(t: string): int
  {
    if |t| < 3 then 0
    else ParseNat(t[..|t| - 3]) * 100 + DigitValue(t[|t| - 2]) * 10 + DigitValue(t[|t| - 1])
  }

  /** Reads back a rendered amount into paise. */
  function ParseAmount(s: string): int
  {
    if |s| >= 1 && s[0] == '-' then -ParseUnsigned(s[1..]) else ParseUnsigned(s)
  }

  lemma ParseFormatUnsigned(a: nat)
    ensures ParseUnsigned(FormatUnsigned(a)) == a
  {
    var t := FormatUnsigned(a);
    assert t[..|t| - 3] == NatToString(a / 100);
    ParseNatToString(a / 100);
  }

  /** The rendering loses nothing: the paise can be read back from the text. */
  lemma FormatAmountRoundTrip(paise: int)
    ensures ParseAmount(FormatAmount(paise)) == paise
  {
    var a := if paise < 0 then -paise else paise;
    ParseFormatUnsigned(a);
    if paise < 0 {
      assert FormatAmount(paise)[1..] == FormatUnsigned(a);
    } else {
      assert FormatAmount(paise) == FormatUnsigned(a);
    }
  }

  /** Two different amounts are never rendered alike. */
  lemma FormatAmountInjective(p: int, q: int)
    ensures FormatAmount(p) == FormatAmount(q) ==> p == q
  {
    FormatAmountRoundTrip(p);
    FormatAmountRoundTrip(q);
  }

  // ---------------------------------------------------------------------------
  // Raw BigDecimal values

  /** A BigDecimal as Java holds it: the value is unscaled / 10^scale. Negative scales are not modelled. */
  datatype Decimal = Decimal(unscaled: int, scale: nat)

  function Pow10(k: nat): (r: nat)
    ensures r >= 1
  {
    if k == 0 then 1 else 10 * Pow10(k - 1)
  }

  /** Number of decimal digits of `n`; 0 has one digit, as BigDecimal.precision() counts. */
  function NumDigits(n: nat): (d: nat)
    ensures d >= 1
    decreases n
  {
    if n < 10 then 1 else 1 + NumDigits(n / 10)
  }

  lemma {:induction false} NumDigitsBound(n: nat, k: nat)
    requires n < Pow10(k)
    ensures NumDigits(n) <= if k == 0 then 1 else k
    decreases k
  {
    if n >= 10 {
      assert k >= 2;
      assert n / 10 < Pow10(k - 1);
      NumDigitsBound(n / 10, k - 1);
    }
  }

  /** The paise a decimal of scale at most 2 stands for. */
  function ToPaise(d: Decimal): (p: int)
    requires d.scale <= 2
    ensures p * Pow10(d.scale) == d.unscaled * 100
  {
    d.unscaled * Pow10(2 - d.scale)
  }

  /** The same value written with `extra` more trailing zeros (e.g. 20000 as 20000.00). */
  function Widen(d: Decimal, extra: nat): (w: Decimal)
    ensures w.scale == d.scale + extra
  {
    Decimal(d.unscaled * Pow10(extra), d.scale + extra)
  }

  lemma Pow10Add(a: nat, b: nat)
    ensures Pow10(a + b) == Pow10(a) * Pow10(b)
    decreases a
  {
    if a > 0 {
      Pow10Add(a - 1, b);
    }
  }

  /** Trailing zeros do not change the paise. */
  lemma WidenKeepsPaise(d: Decimal, extra: nat)
    requires d.scale + extra <= 2
    ensures ToPaise(Widen(d, extra)) == ToPaise(d)
  {
    Pow10Add(extra, 2 - d.scale - extra);
  }

  /** d >= p paise, for any scale (a comparison of values, as BigDecimal.compareTo). */
  predicate AtLeastPaise(d: Decimal, p: int)
  {
    d.unscaled * 100 >= p * Pow10(d.scale)
  }

  /** d <= p paise, for any scale. */
  predicate AtMostPaise(d: Decimal, p: int)
  {
    d.unscaled * 100 <= p * Pow10(d.scale)
  }

  /** BigDecimal.precision() - scale(): the digits before the decimal point as @Digits counts them. */
  function IntegerDigits(d: Decimal): int
  {
    NumDigits(if d.unscaled < 0 then -d.unscaled else d.unscaled) - d.scale
  }
}
