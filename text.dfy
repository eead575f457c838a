/** Text and number helpers shared by the whole model.
 *
 *  The dashboard leans on a handful of JavaScript built-ins: `BigInt(text)`,
 *  `Number(text)`, `String.prototype.includes`, `replace` with a string
 *  pattern, `endsWith`, `trim` and the `\s` character class. This module gives
 *  each of them a definition over `string` (a `seq<char>`), restricted to the
 *  decimal integer texts the dashboard produces and reads. */
module Text {

  /** A value that may be absent: JavaScript's `null` / `undefined`. */
  datatype Option<T> = None | Some(value: T)

  /** `if (s)` on a `string | null`: both null and the empty string are falsy. */
  predicate Truthy(s: Option<string>)
  {
    s.Some? && s.value != ""
  }

  /** The result of a JavaScript call that may throw. */
  datatype Outcome<T> = Returns(value: T) | Throws

  /** A JavaScript `number` as far as the model needs one: an integer or NaN. */
  datatype Num = NaN | Finite(v: int)

  function Min(a: int, b: int): int { if a <= b then a else b }

  function Max(a: int, b: int): int { if a >= b then a else b }

  /** `Math.floor(a / b)` for a non-zero divisor. */
  function FloorDiv(a: int, b: int): (q: int)
    requires b != 0
    ensures b > 0 ==> q * b <= a < q * b + b
    ensures b < 0 ==> q * b >= a > q * b + b
  {
    if b > 0 then a / b else (-a) / (-b)
  }

  /** BigInt `/`: the quotient truncated toward zero. */
  function TruncDiv(a: int, b: int): (q: int)
    requires b != 0
    ensures a >= 0 && b > 0 ==> q == a / b
    ensures (a >= 0) == (b > 0) ==> q >= 0
    ensures (a >= 0) != (b > 0) ==> q <= 0
  {
    if a >= 0 then (if b > 0 then a / b else -(a / -b))
    else (if b > 0 then -((-a) / b) else (-a) / (-b))
  }

  /** BigInt `%`: the remainder takes the sign of the dividend. */
  function TruncMod(a: int, b: int): (r: int)
    requires b != 0
    ensures a == TruncDiv(a, b) * b + r
    ensures a >= 0 ==> 0 <= r < (if b > 0 then b else -b)
  {
    a - TruncDiv(a, b) * b
  }

  // ---------------------------------------------------------------------------
  // Characters

  predicate IsDigit(c: char) { '0' <= c <= '9' }

  predicate IsDigits(s: string) { forall i :: 0 <= i < |s| ==> IsDigit(s[i]) }

  /** The white space that JavaScript's `\s` and `trim()` recognise. */
  predicate IsSpace(c: char)
  {
    || c == ' ' || c == '\t' || c == '\n' || c == '\r' || c == '\U{000B}' || c == '\U{000C}'
    || c == '\U{00A0}' || c == '\U{1680}' || ('\U{2000}' <= c <= '\U{200A}')
    || c == '\U{2028}' || c == '\U{2029}' || c == '\U{202F}' || c == '\U{205F}'
    || c == '\U{3000}' || c == '\U{FEFF}'
  }

  function DigitValue(c: char): nat
    requires IsDigit(c)
  {
    (c as int) - ('0' as int)
  }

  function DigitChar(d: nat): (c: char)
    requires d < 10
    ensures IsDigit(c) && DigitValue(c) == d
  {
    ('0' as int + d) as char
  }

  // ---------------------------------------------------------------------------
  // Decimal digit strings

  /** The value of a decimal digit string, most significant digit first; "" is 0. */
  function DigitsValue(s: string): nat
    requires IsDigits(s)
  {
    if s == [] then 0 else DigitsValue(s[..|s| - 1]) * 10 + DigitValue(s[|s| - 1])
  }

  /** The decimal text of a natural number, as `String(n)` prints it. */
  function NatToDigits(n: nat): (s: string)
    ensures IsDigits(s) && |s| > 0
    decreases n
  {
    if n < 10 then [DigitChar(n)] else NatToDigits(n / 10) + [DigitChar(n % 10)]
  }

  /** The decimal text of an integer, with a leading '-' when negative. */
  function IntToText(n: int): (s: string)
    ensures |s| > 0
  {
    if n < 0 then "-" + NatToDigits(-n) else NatToDigits(n)
  }

  lemma {:induction false} NatToDigitsValue(n: nat)
    ensures DigitsValue(NatToDigits(n)) == n
    decreases n
  {
    if n >= 10 {
      NatToDigitsValue(n / 10);
      var s := NatToDigits(n);
      assert s[..|s| - 1] == NatToDigits(n / 10);
    }
  }

  /** Keeps the digits of a text and drops every other character: what the
      inputs' `value.replace(/[^0-9]/g, "")` filter leaves. */
  function KeepDigits(s: string): (r: string)
    ensures IsDigits(r) && |r| <= |s|
    ensures IsDigits(s) ==> r == s
  {
    if s == [] then []
    else if IsDigit(s[0]) then [s[0]] + KeepDigits(s[1..])
    else KeepDigits(s[1..])
  }

  // ---------------------------------------------------------------------------
  // Subsequences

  /** `xs` is `ys` with some elements left out, the rest in their order. */
  predicate IsSubsequence<T(==)>(xs: seq<T>, ys: seq<T>)
    decreases |ys|
  {
    if xs == [] then true
    else if ys == [] then false
    else if xs[0] == ys[0] then IsSubsequence(xs[1..], ys[1..])
    else IsSubsequence(xs, ys[1..])
  }

  /** A subsequence of the tail is a subsequence of the whole. */
  lemma {:induction false} SubsequenceSkip<T>(xs: seq<T>, ys: seq<T>)
    requires ys != [] && IsSubsequence(xs, ys[1..])
    ensures IsSubsequence(xs, ys)
    decreases |xs| + |ys|
  {
    if xs != [] && xs[0] == ys[0] {
      SubsequenceDrop(xs, ys[1..]);
    }
  }

  /** Dropping the head of a subsequence keeps it a subsequence. */
  lemma {:induction false} SubsequenceDrop<T>(xs: seq<T>, ys: seq<T>)
    requires xs != [] && IsSubsequence(xs, ys)
    ensures IsSubsequence(xs[1..], ys)
    decreases |xs| + |ys|
  {
    if xs[0] != ys[0] {
      SubsequenceDrop(xs, ys[1..]);
    }
    SubsequenceSkip(xs[1..], ys);
  }

  /** Every position moved one place on, as when a head is put in front. */
  function Shifted(pos: seq<nat>): (r: seq<nat>)
    ensures |r| == |pos| && forall k :: 0 <= k < |r| ==> r[k] == pos[k] + 1
  {
    seq(|pos|, k requires 0 <= k < |pos| => pos[k] + 1)
  }

  /** The elements of a subsequence sit at strictly increasing positions of
      the sequence it was taken from. */
  lemma {:induction false} SubsequencePositions<T>(xs: seq<T>, ys: seq<T>) returns (pos: seq<nat>)
    requires IsSubsequence(xs, ys)
    ensures |pos| == |xs|
    ensures forall i :: 0 <= i < |xs| ==> pos[i] < |ys| && ys[pos[i]] == xs[i]
    ensures forall i, j :: 0 <= i < j < |pos| ==> pos[i] < pos[j]
    decreases |ys|
  {
    if xs == [] {
      pos := [];
    } else if xs[0] == ys[0] {
      var rest := SubsequencePositions(xs[1..], ys[1..]);
      pos := [0] + Shifted(rest);
    } else {
      var rest := SubsequencePositions(xs, ys[1..]);
      pos := Shifted(rest);
    }
  }

  // ---------------------------------------------------------------------------
  // String operations

  predicate StartsWith(s: string, prefix: string)
  {
    |prefix| <= |s| && s[..|prefix|] == prefix
  }

  predicate EndsWith(s: string, suffix: string)
  {
    |suffix| <= |s| && s[|s| - |suffix|..] == suffix
  }

  /** Does `pat` occur in `s` at position `i`? */
  predicate OccursAt(s: string, pat: string, i: nat)
  {
    i + |pat| <= |s| && s[i..i + |pat|] == pat
  }

  /** An occurrence after the first character is an occurrence in the tail. */
  lemma OccursInTail(s: string, pat: string, j: nat)
    requires s != [] && 1 <= j
    ensures OccursAt(s, pat, j) <==> OccursAt(s[1..], pat, j - 1)
  {
    if j + |pat| <= |s| {
      var a, b := s[j..j + |pat|], s[1..][j - 1..j - 1 + |pat|];
      assert |a| == |b|;
      forall t | 0 <= t < |a| ensures a[t] == b[t] {
        assert a[t] == s[j + t] && b[t] == s[1..][j - 1 + t];
      }
      assert a == b;
    }
  }

  /** `s.indexOf(pat)`: the first position where `pat` occurs, if any. */
  function IndexOf(s: string, pat: string): (r: Option<nat>)
    ensures r.Some? ==> OccursAt(s, pat, r.value)
    ensures r.Some? ==> forall j :: 0 <= j < r.value ==> !OccursAt(s, pat, j)
    ensures r.None? ==> forall j :: 0 <= j <= |s| ==> !OccursAt(s, pat, j)
    decreases |s|
  {
    if StartsWith(s, pat) then Some(0)
    else if s == [] then None
    else
      match IndexOf(s[1..], pat)
      case None =>
        assert forall j :: 1 <= j <= |s| ==> !OccursAt(s, pat, j) by {
          forall j | 1 <= j <= |s| ensures !OccursAt(s, pat, j) { OccursInTail(s, pat, j); }
        }
        None
      case Some(k) =>
        assert forall j :: 1 <= j <= k ==> !OccursAt(s, pat, j) by {
          forall j | 1 <= j <= k ensures !OccursAt(s, pat, j) { OccursInTail(s, pat, j); }
        }
        OccursInTail(s, pat, k + 1);
        Some(k + 1)
  }

  /** `s.includes(pat)`. */
  predicate Contains(s: string, pat: string)
  {
    IndexOf(s, pat).Some?
  }

  /** `s.replace(pat, rep)` with a string pattern: only the first occurrence is replaced. */
  function ReplaceFirst(s: string, pat: string, rep: string): string
  {
    match IndexOf(s, pat)
    case None => s
    case Some(i) => s[..i] + rep + s[i + |pat|..]
  }

  function TrimStart(s: string): (r: string)
    ensures |r| <= |s| && r == s[|s| - |r|..]
    ensures r == [] || !IsSpace(r[0])
    ensures forall i :: 0 <= i < |s| - |r| ==> IsSpace(s[i])
  {
    if s != [] && IsSpace(s[0]) then TrimStart(s[1..]) else s
  }

  function TrimEnd(s: string): (r: string)
    ensures |r| <= |s| && r == s[..|r|]
    ensures r == [] || !IsSpace(r[|r| - 1])
    ensures forall i :: |r| <= i < |s| ==> IsSpace(s[i])
  {
    if s != [] && IsSpace(s[|s| - 1]) then TrimEnd(s[..|s| - 1]) else s
  }

  /** `s.trim()`. */
  function Trim(s: string): string
  {
    TrimEnd(TrimStart(s))
  }

  lemma TrimNoSpace(s: string)
    requires forall i :: 0 <= i < |s| ==> !IsSpace(s[i])
    ensures Trim(s) == s
  {
  }

  // ---------------------------------------------------------------------------
  // JavaScript's text-to-number conversions

  /** `BigInt(text)` for decimal texts: surrounding white space is ignored, an
      empty text is 0, an optional sign precedes the digits, and anything else
      throws a SyntaxError. */
  function ParseInteger(s: string): Outcome<int>
  {
    var t := Trim(s);
    if t == [] then Returns(0)
    else if t[0] == '-' && |t| > 1 && IsDigits(t[1..]) then Returns(-(DigitsValue(t[1..]) as int))
    else if t[0] == '+' && |t| > 1 && IsDigits(t[1..]) then Returns(DigitsValue(t[1..]))
    else if IsDigits(t) then Returns(DigitsValue(t))
    else Throws
  }

  /** A digit string (the empty one included) is read as its decimal value. */
  lemma ParseDigits(s: string)
    requires IsDigits(s)
    ensures ParseInteger(s) == Returns(DigitsValue(s))
  {
    TrimNoSpace(s);
  }

  /** `Number(text)` on the same texts; what `BigInt` would reject is NaN. */
  function ToNumber(s: string): (r: Num)
    ensures r.Finite? <==> ParseInteger(s).Returns?
    ensures r.Finite? ==> r.v == ParseInteger(s).value
  {
    match ParseInteger(s)
    case Returns(v) => Finite(v)
    case Throws => NaN
  }

  /** `BigInt(text || "0")`: an empty text reads as 0. */
  function BigIntOrZero(text: string): (r: Outcome<int>)
    ensures text != "" ==> r == ParseInteger(text)
  {
    if text == "" then Returns(0) else ParseInteger(text)
  }

  /** A digit string, the empty one included, reads as its decimal value. */
  lemma DigitsOrZero(s: string)
    requires IsDigits(s)
    ensures BigIntOrZero(s) == Returns(DigitsValue(s))
  {
    if s != "" {
      ParseDigits(s);
    }
  }

  /** `Number(text || "0")`: an empty text reads as 0. */
  function NumberOrZero(text: string): (r: Num)
    ensures text != "" ==> r == ToNumber(text)
  {
    if text == "" then Finite(0) else ToNumber(text)
  }

  /** `a <= b` on numbers: false as soon as either side is NaN. */
  predicate NumLessEq(a: Num, b: Num)
  {
    a.Finite? && b.Finite? && a.v <= b.v
  }

  /** `BigInt(String(n))` gives `n` back. */
  lemma {:induction false} IntToTextParses(n: int)
    ensures ParseInteger(IntToText(n)) == Returns(n)
  {
    NatToDigitsValue(if n < 0 then -n else n);
    if n < 0 {
      var t := IntToText(n);
      assert t[1..] == NatToDigits(-n);
      TrimNoSpace(t);
    } else {
      ParseDigits(IntToText(n));
    }
  }
}
