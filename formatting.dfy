/** Display helpers (src/shared/lib/formatting.ts): shortened addresses and
 *  field ids, and the split of an integer amount into a whole part and a
 *  decimal fraction. The locale rendering of the whole part is not modelled:
 *  an amount's text is its whole part, then "." and the fraction when the
 *  fraction is not empty. */
module Formatting {
  import opened Text

  // ---------------------------------------------------------------------------
  // Addresses

  /** `truncateAddress` with a non-negative `chars`. `slice(-0)` is the whole
      text, so with `chars == 0` a long address keeps all its characters
      behind the dots. */
  function TruncateAddress(address: string, chars: nat): (r: string)
    ensures r == address <==> |address| <= 2 * chars + 3
    ensures |address| > 2 * chars + 3 && chars > 0 ==>
              && |r| == 2 * chars + 3
              && StartsWith(r, address[..chars]) && EndsWith(r, address[|address| - chars..])
              && r[chars..chars + 3] == "..."
    ensures |address| > 2 * chars + 3 && chars == 0 ==> r == "..." + address
  {
    if |address| <= 2 * chars + 3 then address
    else
      var tail := if chars == 0 then address else address[|address| - chars..];
      var r := address[..chars] + "..." + tail;
      assert |r| != |address| && r[chars..chars + 3] == "...";
      r
  }

  /** Truncating a truncated address changes nothing. */
  lemma TruncateAddressIdempotent(address: string, chars: nat)
    requires chars > 0
    ensures TruncateAddress(TruncateAddress(address, chars), chars) == TruncateAddress(address, chars)
  {
  }

  // ---------------------------------------------------------------------------
  // Field ids

  /** The id without one trailing `field`. */
  function StripField(field: string): (r: string)
    ensures EndsWith(field, "field") ==> r + "field" == field
    ensures !EndsWith(field, "field") ==> r == field
  {
    if EndsWith(field, "field") then field[..|field| - 5] else field
  }

  /** `formatField`: the stripped id, shortened to its first 8 and last 6
      characters around "..." when longer than 16. */
  function FormatField(field: string): (r: string)
    ensures |r| <= 17
    ensures |StripField(field)| <= 16 ==> r == StripField(field)
    ensures |StripField(field)| > 16 ==>
              var v := StripField(field);
              |r| == 17 && r == v[..8] + "..." + v[|v| - 6..]
  {
    var v := StripField(field);
    if |v| > 16 then v[..8] + "..." + v[|v| - 6..] else v
  }

  /** A short numeric id printed with its `field` type suffix displays as the
      number alone. */
  lemma FormatFieldOfId(digits: string)
    requires IsDigits(digits) && |digits| <= 16
    ensures FormatField(digits + "field") == digits
  {
    assert (digits + "field")[|digits|..] == "field";
    assert (digits + "field")[..|digits|] == digits;
  }

  // ---------------------------------------------------------------------------
  // Amounts

  /** `10n ** BigInt(decimals)`. */
  function Pow10(k: nat): (r: nat)
    ensures r >= 1
  {
    if k == 0 then 1 else 10 * Pow10(k - 1)
  }

  /** `padStart(width, "0")`. */
  function PadStart(s: string, width: nat): (r: string)
    ensures |r| == Max(width, |s|)
    ensures |s| < width ==> r == seq(width - |s|, _ => '0') + s
    ensures |s| >= width ==> r == s
  {
    if |s| >= width then s else seq(width - |s|, _ => '0') + s
  }

  /** `replace(/0+$/, "")`: every trailing zero removed. */
  function StripTrailingZeros(s: string): (r: string)
    ensures |r| <= |s| && r == s[..|r|]
    ensures r == [] || r[|r| - 1] != '0'
    ensures forall i :: |r| <= i < |s| ==> s[i] == '0'
  {
    if s == [] || s[|s| - 1] != '0' then s else StripTrailingZeros(s[..|s| - 1])
  }

  /** An amount's text: `whole` is rendered by the locale, and `fraction`,
      when not empty, follows a ".". */
  datatype AmountText = AmountText(whole: int, fraction: string)

  /** `formatAmount`. Division and remainder truncate toward zero, as
      `BigInt` does; `decimals == 0` shows the amount itself. */
  function FormatAmount(amount: int, decimals: nat): (r: AmountText)
    ensures decimals == 0 ==> r == AmountText(amount, "")
    ensures decimals > 0 && amount >= 0 ==> r.whole == amount / Pow10(decimals)
  {
    if decimals == 0 then AmountText(amount, "")
    else
      var divisor := Pow10(decimals);
      var frac := TruncMod(amount, divisor);
      AmountText(TruncDiv(amount, divisor), FractionText(frac, decimals))
  }

  /** Leading zeros add nothing to a digit string's value. */
  lemma {:induction false} LeadingZerosValue(zeros: nat, s: string)
    requires IsDigits(s)
    ensures IsDigits(seq(zeros, _ => '0') + s)
    ensures DigitsValue(seq(zeros, _ => '0') + s) == DigitsValue(s)
    decreases |s|
  {
    var t := seq(zeros, _ => '0') + s;
    if s == [] {
      assert t == seq(zeros, _ => '0');
      AllZerosValue(zeros);
    } else {
      LeadingZerosValue(zeros, s[..|s| - 1]);
      assert t[..|t| - 1] == seq(zeros, _ => '0') + s[..|s| - 1];
    }
  }

  lemma {:induction false} AllZerosValue(n: nat)
    ensures IsDigits(seq(n, _ => '0')) && DigitsValue(seq(n, _ => '0')) == 0
  {
    if n > 0 {
      AllZerosValue(n - 1);
      assert seq(n, _ => '0')[..n - 1] == seq(n - 1, _ => '0');
    }
  }

  /** Each trailing zero removed divides the value by ten. */
  lemma {:induction false} StripTrailingZerosValue(s: string)
    requires IsDigits(s)
    ensures var r := StripTrailingZeros(s);
      IsDigits(r) && DigitsValue(s) == DigitsValue(r) * Pow10(|s| - |r|)
    decreases |s|
  {
    if s != [] && s[|s| - 1] == '0' {
      StripTrailingZerosValue(s[..|s| - 1]);
    }
  }

  /** A digit string ending in a non-zero digit has a positive value. */
  lemma PositiveLastDigit(s: string)
    requires IsDigits(s) && s != [] && s[|s| - 1] != '0'
    ensures DigitsValue(s) > 0
  {
  }

  /** A number below `10^k` has at most `k` digits. */
  lemma {:induction false} NatToDigitsLength(n: nat, k: nat)
    requires k >= 1 && n < Pow10(k)
    ensures |NatToDigits(n)| <= k
    decreases n
  {
    if n >= 10 {
      NatToDigitsLength(n / 10, k - 1);
    }
  }

  /** The fraction text of a remainder below `10^decimals`. */
  function FractionText(frac: int, decimals: nat): string
  {
    StripTrailingZeros(PadStart(IntToText(frac), decimals))
  }

  /** A remainder below `10^decimals`, padded, is a digit string of exactly
      `decimals` digits whose value is the remainder. */
  lemma PaddedValue(frac: nat, decimals: nat)
    requires decimals > 0 && frac < Pow10(decimals)
    ensures var padded := PadStart(IntToText(frac), decimals);
      |padded| == decimals && IsDigits(padded) && DigitsValue(padded) == frac
  {
    var digits := NatToDigits(frac);
    assert IntToText(frac) == digits;
    NatToDigitsLength(frac, decimals);
    NatToDigitsValue(frac);
    LeadingZerosValue(decimals - |digits|, digits);
  }

  /** Stripping the trailing zeros of a digit string leaves a digit string
      with no trailing zero, empty exactly when the value is 0, whose value
      at the original length's position is the original value. */
  lemma StrippedValue(padded: string)
    requires IsDigits(padded)
    ensures var r := StripTrailingZeros(padded);
      && IsDigits(r) && (r == [] || r[|r| - 1] != '0')
      && DigitsValue(padded) == DigitsValue(r) * Pow10(|padded| - |r|)
      && (r == [] <==> DigitsValue(padded) == 0)
  {
    var r := StripTrailingZeros(padded);
    StripTrailingZerosValue(padded);
    if r != [] {
      PositiveLastDigit(r);
      PositiveProduct(DigitsValue(r), Pow10(|padded| - |r|));
    }
  }

  lemma PositiveProduct(a: nat, b: nat)
    requires a > 0 && b > 0
    ensures a * b > 0
  {
  }

  /** The fraction text is a digit string of at most `decimals` digits with
      no trailing zero, empty exactly for a zero remainder, and read back at
      its decimal position it is the remainder. */
  lemma FractionTextValue(frac: nat, decimals: nat)
    requires decimals > 0 && frac < Pow10(decimals)
    ensures var r := FractionText(frac, decimals);
      && IsDigits(r) && |r| <= decimals
      && (r == [] || r[|r| - 1] != '0')
      && frac == DigitsValue(r) * Pow10(decimals - |r|)
      && (r == [] <==> frac == 0)
  {
    PaddedValue(frac, decimals);
    StrippedValue(PadStart(IntToText(frac), decimals));
  }

  /** The fraction of a non-negative amount is a digit string of at most
      `decimals` digits with no trailing zero, empty exactly when the amount
      is a whole number of units; read back at its decimal position it
      rebuilds the amount with the whole part. */
  lemma FormatAmountRoundTrip(amount: nat, decimals: nat)
    requires decimals > 0
    ensures var r := FormatAmount(amount, decimals);
      && IsDigits(r.fraction) && |r.fraction| <= decimals
      && (r.fraction == [] || r.fraction[|r.fraction| - 1] != '0')
      && amount == r.whole * Pow10(decimals) + DigitsValue(r.fraction) * Pow10(decimals - |r.fraction|)
      && (r.fraction == [] <==> amount % Pow10(decimals) == 0)
  {
    var divisor := Pow10(decimals);
    var frac := amount % divisor;
    assert TruncMod(amount, divisor) == frac;
    assert FormatAmount(amount, decimals) == AmountText(amount / divisor, FractionText(frac, decimals));
    FractionTextValue(frac, decimals);
  }
}
