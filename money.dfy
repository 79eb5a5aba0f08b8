/**
 * Amounts. The ledger stores amounts as SQL REAL and Python prints them with `str(float)`;
 * the model keeps them as whole paise (hundredths of a rupee), for which Python's float
 * rendering is the integer part, a dot, and one or two fraction digits ("450.0", "450.5", "0.05").
 */
module Money {
  import opened Text
  import opened Wrappers

  /** An amount in paise. */
  type Amount = int

  function Digit(d: nat): (c: char)
    requires d < 10
    ensures IsDigit(c)
  {
    "0123456789"[d]
  }

  function DigitValue(c: char): (d: nat)
    requires IsDigit(c)
    ensures d < 10 && Digit(d) == c
  {
    (c as int - '0' as int) as nat
  }

  /** Python's `str(n)` for a non-negative integer. */
  function NatToString(n: nat): (s: string)
    ensures IsDigits(s)
  {
    if n < 10 then [Digit(n)] else NatToString(n / 10) + [Digit(n % 10)]
  }

  /** Python's `int(s)` on a string of ASCII digits. */
  function ParseNat(s: string): nat
    requires IsDigits(s)
  {
    if |s| == 1 then DigitValue(s[0]) else 10 * ParseNat(s[..|s| - 1]) + DigitValue(s[|s| - 1])
  }

  lemma {:induction false} ParseNatToString(n: nat)
    ensures ParseNat(NatToString(n)) == n
  {
    if n >= 10 {
      var s := NatToString(n);
      assert s[..|s| - 1] == NatToString(n / 10);
      ParseNatToString(n / 10);
    }
  }

  /** Python's `str(i)` for any integer (ledger row ids). */
  function IntToString(i: int): (s: string)
    ensures s != []
  {
    if i < 0 then "-" + NatToString(-i) else NatToString(i)
  }

  /** The fraction digits Python prints for `f` hundredths: at least one, no trailing zero after the first. */
  function FractionText(f: nat): (s: string)
    requires f < 100
    ensures 1 <= |s| <= 2 && IsDigits(s)
  {
    if f % 10 == 0 then [Digit(f / 10)] else [Digit(f / 10), Digit(f % 10)]
  }

  /**
   * `str(float(amount))` for an amount of whole paise. A double keeps every such amount of at most
   * 15 significant digits (below 10^15 paise), and Python's shortest rendering then prints it exactly.
   */
  function FormatAmount(a: Amount): string {
    if a < 0 then "-" + UnsignedText(-a) else UnsignedText(a)
  }

  function UnsignedText(m: nat): (s: string)
    ensures s != [] && IsDigit(s[0])
  {
    NatToString(m / 100) + "." + FractionText(m % 100)
  }

  /** The hundredths written by one or two fraction digits. */
  function FractionValue(fraction: string): nat
    requires IsDigits(fraction) && |fraction| <= 2
  {
    if |fraction| == 1 then 10 * DigitValue(fraction[0])
    else 10 * DigitValue(fraction[0]) + DigitValue(fraction[1])
  }

  /** Reads an unsigned amount back: digits, a dot, one or two digits. */
  function ParseUnsigned(body: string): Option<nat> {
    var dot := IndexOf(body, '.');
    var whole := body[..dot];
    var fraction := if dot < |body| then body[dot + 1..] else [];
    if dot == |body| || !IsDigits(whole) || !IsDigits(fraction) || |fraction| > 2 then None
    else Some(100 * ParseNat(whole) + FractionValue(fraction))
  }

  /** Reads an amount back from the text `FormatAmount` produces. */
  function ParseAmount(s: string): Option<Amount> {
    if |s| > 0 && s[0] == '-' then
      match ParseUnsigned(s[1..])
      case Some(m) => var negated: Amount := 0 - m as int; Some(negated)
      case None => None
    else
      match ParseUnsigned(s)
      case Some(m) => Some(m)
      case None => None
  }

  /** The unsigned rendering reads back as the same number of paise. */
  lemma UnsignedRoundTrip(m: nat)
    ensures ParseUnsigned(UnsignedText(m)) == Some(m)
  {
    var w, f := m / 100, m % 100;
    ParseNatToString(w);
    FractionRoundTrip(f);
    SplitRoundTrip(NatToString(w), FractionText(f));
    assert UnsignedText(m) == NatToString(w) + "." + FractionText(f);
  }

  lemma FractionRoundTrip(f: nat)
    requires f < 100
    ensures FractionValue(FractionText(f)) == f
  {
    var fraction := FractionText(f);
    if f % 10 == 0 {
      assert DigitValue(fraction[0]) == f / 10;
    } else {
      assert DigitValue(fraction[0]) == f / 10 && DigitValue(fraction[1]) == f % 10;
    }
  }

  lemma SplitRoundTrip(whole: string, fraction: string)
    requires IsDigits(whole) && IsDigits(fraction) && |fraction| <= 2
    ensures ParseUnsigned(whole + "." + fraction) == Some(100 * ParseNat(whole) + FractionValue(fraction))
  {
    var body := whole + "." + fraction;
    assert '.' !in whole by {
      assert forall k :: 0 <= k < |whole| ==> IsDigit(whole[k]);
    }
    IndexOfAfter(whole, '.', fraction);
    assert body[..|whole|] == whole;
    assert body[|whole| + 1..] == fraction;
  }

  /** The text of a negative amount reads back as that amount. */
  lemma ParseNegative(body: string, a: Amount)
    requires a < 0 && ParseUnsigned(body) == Some(-a)
    ensures ParseAmount("-" + body) == Some(a)
  {
    assert ("-" + body)[1..] == body;
  }

  /** The text of a non-negative amount reads back as that amount. */
  lemma ParseNonNegative(body: string, a: Amount)
    requires a >= 0 && ParseUnsigned(body) == Some(a)
    requires body != [] && IsDigit(body[0])
    ensures ParseAmount(body) == Some(a)
  {
  }

  /** The rendering loses nothing: every amount can be read back from its text. */
  lemma FormatAmountRoundTrip(a: Amount)
    ensures ParseAmount(FormatAmount(a)) == Some(a)
  {
    var m: nat := if a < 0 then -a else a;
    var body := UnsignedText(m);
    UnsignedRoundTrip(m);
    if a < 0 {
      assert FormatAmount(a) == "-" + body;
      ParseNegative(body, a);
    } else {
      assert FormatAmount(a) == body;
      ParseNonNegative(body, a);
    }
  }

  /** Two different amounts never print alike, so a printed amount identifies the value. */
  lemma FormatAmountInjective(a: Amount, b: Amount)
    requires FormatAmount(a) == FormatAmount(b)
    ensures a == b
  {
    FormatAmountRoundTrip(a);
    FormatAmountRoundTrip(b);
  }

  /** A whole number of rupees prints like Python's float of it: the rupees, then ".0". */
  lemma FormatWholeRupees(r: nat)
    ensures FormatAmount(100 * r) == NatToString(r) + ".0"
  {
    assert (100 * r) / 100 == r && (100 * r) % 100 == 0;
  }
}
