/**
 * Strings as JavaScript sees them, restricted to what the modelled code uses:
 * the `\d` and `\s` classes, `trim`, decimal rendering (`String(n)`, `toFixed`),
 * `parseInt` on a digit run, `Array.prototype.join`, `String.prototype.replace`
 * with a one-character pattern, and the lengths the validators and the columns count.
 */
module Text {

  /** `\d` of a regular expression without the `u` flag: ASCII digits only. */
  predicate IsDigit(c: char) {
    '0' <= c <= '9'
  }

  /**
   * ECMAScript WhiteSpace or LineTerminator: the set matched by `\s` and the set
   * `String.prototype.trim` removes (Unicode category Zs as of Unicode 6.3 and later).
   */
  predicate IsSpace(c: char) {
    var n := c as int;
    n == 0x09 || n == 0x0A || n == 0x0B || n == 0x0C || n == 0x0D || n == 0x20
    || n == 0xA0 || n == 0x1680 || (0x2000 <= n <= 0x200A) || n == 0x2028
    || n == 0x2029 || n == 0x202F || n == 0x205F || n == 0x3000 || n == 0xFEFF
  }

  /**
   * Lower-case folding of ASCII letters only. For the all-ASCII words this model
   * compares against, it decides equality exactly as the source's case-insensitive
   * matching does: no non-ASCII character folds onto a lone ASCII letter there.
   */
  function LowerAscii(c: char): char {
    if 'A' <= c <= 'Z' then (c as int + 32) as char else c
  }

  function LowerAsciiString(s: string): string {
    seq(|s|, i requires 0 <= i < |s| => LowerAscii(s[i]))
  }

  function DigitChar(d: nat): char
    requires d < 10
  {
    ('0' as int + d) as char
  }

  function DigitValue(c: char): nat
    requires IsDigit(c)
  {
    c as int - '0' as int
  }

  /** Decimal rendering of a natural number, as `String(n)` gives it. */
  function NatToString(n: nat): (s: string)
    ensures |s| >= 1
    ensures forall i :: 0 <= i < |s| ==> IsDigit(s[i])
  {
    if n < 10 then [DigitChar(n)] else NatToString(n / 10) + [DigitChar(n % 10)]
  }

  /** Decimal rendering of an integer, with a leading '-' when negative. */
  function IntToString(n: int): string {
    if n < 0 then "-" + NatToString(-n) else NatToString(n)
  }

  /** `parseInt` on a non-empty run of ASCII digits (leading zeros allowed). */
  function DigitsValue(s: string): nat
    requires forall i :: 0 <= i < |s| ==> IsDigit(s[i])
  {
    if s == [] then 0 else DigitsValue(s[..|s| - 1]) * 10 + DigitValue(s[|s| - 1])
  }

  /** Parsing the rendering of a number gives the number back. */
  lemma {:induction false} DigitsRoundTrip(n: nat)
    ensures DigitsValue(NatToString(n)) == n
  {
    var s := NatToString(n);
    if n >= 10 {
      assert s[..|s| - 1] == NatToString(n / 10);
      DigitsRoundTrip(n / 10);
    }
  }

  /** `parts.join(sep)`. */
  function Join(parts: seq<string>, sep: string): string {
    if |parts| == 0 then ""
    else if |parts| == 1 then parts[0]
    else parts[0] + sep + Join(parts[1..], sep)
  }

  /** The join of a list is empty exactly when the list is empty or holds one empty string, given a non-empty separator. */
  lemma {:induction false} JoinEmpty(parts: seq<string>, sep: string)
    requires sep != ""
    ensures Join(parts, sep) == "" <==> (|parts| == 0 || (|parts| == 1 && parts[0] == ""))
  {
    if |parts| > 1 {
      assert |Join(parts, sep)| >= |sep|;
    }
  }

  /** The index of the first occurrence of `c` in `s`, if any. */
  function IndexOf(s: string, c: char): (k: int)
    ensures -1 <= k < |s|
    ensures k == -1 <==> c !in s
    ensures k >= 0 ==> s[k] == c && c !in s[..k]
  {
    if s == [] then -1
    else if s[0] == c then 0
    else
      var k := IndexOf(s[1..], c);
      if k == -1 then -1
      else
        assert s[..k + 1] == [s[0]] + s[1..][..k];
        k + 1
  }

  /** `s.replace(from, to)` with one-character string patterns: only the first occurrence changes. */
  function ReplaceFirst(s: string, from: char, to: char): (r: string)
    ensures from !in s ==> r == s
    ensures from in s ==> r == s[..IndexOf(s, from)] + [to] + s[IndexOf(s, from) + 1..]
  {
    if s == [] then []
    else if s[0] == from then [to] + s[1..]
    else [s[0]] + ReplaceFirst(s[1..], from, to)
  }

  /** Number of leading characters of `s` that `trim` removes. */
  function LeadingSpaces(s: string): (n: nat)
    ensures n <= |s|
    ensures forall i :: 0 <= i < n ==> IsSpace(s[i])
    ensures n < |s| ==> !IsSpace(s[n])
  {
    if s == [] || !IsSpace(s[0]) then 0 else 1 + LeadingSpaces(s[1..])
  }

  /** Number of trailing characters of `s` that `trim` removes. */
  function TrailingSpaces(s: string): (n: nat)
    ensures n <= |s|
    ensures forall i :: |s| - n <= i < |s| ==> IsSpace(s[i])
    ensures n < |s| ==> !IsSpace(s[|s| - 1 - n])
  {
    if s == [] || !IsSpace(s[|s| - 1]) then 0 else 1 + TrailingSpaces(s[..|s| - 1])
  }

  /** `s.trim()`: the slice between the leading and the trailing white space. */
  function Trim(s: string): string {
    var a := LeadingSpaces(s);
    s[a..|s| - TrailingSpaces(s[a..])]
  }

  /** The trimmed text is a slice of the input that neither starts nor ends with white space. */
  lemma TrimShape(s: string)
    ensures exists a, b :: 0 <= a <= b <= |s| && Trim(s) == s[a..b]
    ensures Trim(s) != "" ==> !IsSpace(Trim(s)[0]) && !IsSpace(Trim(s)[|Trim(s)| - 1])
  {
    var a := LeadingSpaces(s);
    var b := |s| - TrailingSpaces(s[a..]);
    assert Trim(s) == s[a..b];
  }

  /** `trim` gives the empty string exactly when every character is white space. */
  lemma TrimEmptyIff(s: string)
    ensures Trim(s) == "" <==> forall i :: 0 <= i < |s| ==> IsSpace(s[i])
  {
    var a := LeadingSpaces(s);
    if a < |s| {
      assert !IsSpace(s[a]);
      assert s[a..][0] == s[a];
    }
  }

  /** Length in UTF-16 code units, which is what JavaScript's `length` counts. */
  function Utf16Length(s: string): (n: nat)
    ensures |s| <= n <= 2 * |s|
  {
    if s == [] then 0 else (if s[0] as int > 0xFFFF then 2 else 1) + Utf16Length(s[1..])
  }

  /** Length in UTF-8 bytes, which is what a MySQL TEXT column limits. */
  function Utf8Length(s: string): nat {
    if s == [] then 0
    else
      var n := s[0] as int;
      (if n < 0x80 then 1 else if n < 0x800 then 2 else if n < 0x10000 then 3 else 4) + Utf8Length(s[1..])
  }

  /** Every character takes at most three UTF-8 bytes per UTF-16 code unit. */
  lemma {:induction false} Utf8WithinUtf16(s: string)
    ensures Utf8Length(s) <= 3 * Utf16Length(s)
  {
    if s != [] {
      Utf8WithinUtf16(s[1..]);
    }
  }

  /** `hay` contains `needle` as a contiguous substring. */
  predicate Contains(hay: string, needle: string) {
    exists i :: 0 <= i <= |hay| - |needle| && OccursAt(hay, needle, i)
  }

  predicate OccursAt(hay: string, needle: string, i: nat)
    requires i + |needle| <= |hay|
  {
    hay[i..i + |needle|] == needle
  }

  /** `x / unit` rounded to the nearest integer, halves upwards, for `x >= 0`. */
  function RoundDiv(x: nat, unit: nat): nat
    requires unit > 0
  {
    (x + unit / 2) / unit
  }

  /** The rounded quotient is the whole number of steps nearest to `x`, halves going up. */
  lemma RoundDivNearest(x: nat, unit: nat)
    requires unit > 0
    ensures RoundDiv(x, unit) * unit <= x + unit / 2 < RoundDiv(x, unit) * unit + unit
  {
  }

  function Pow10(d: nat): (p: nat)
    ensures p >= 1
  {
    if d == 0 then 1 else 10 * Pow10(d - 1)
  }

  /** `n` written with at least `width` digits, padded with leading zeros. */
  function PadDigits(n: nat, width: nat): (r: string)
    ensures forall i :: 0 <= i < |r| ==> IsDigit(r[i])
  {
    var s := NatToString(n);
    if |s| >= width then s else seq(width - |s|, _ => '0') + s
  }

  /** Padding a number below `10^width` gives exactly `width` digits. */
  lemma PadDigitsLength(n: nat, width: nat)
    requires width > 0 && n < Pow10(width)
    ensures |PadDigits(n, width)| == width
  {
    NatToStringLength(n, width);
  }

  /** A number below `10^width` takes at most `width` digits. */
  lemma {:induction false} NatToStringLength(n: nat, width: nat)
    ensures width > 0 && n < Pow10(width) ==> |NatToString(n)| <= width
  {
    if n >= 10 && width > 1 && n < Pow10(width) {
      assert n / 10 < Pow10(width - 1);
      NatToStringLength(n / 10, width - 1);
    }
  }

  /** Reading a digit string split in two: the head is worth `10^|tail|` times its value. */
  lemma {:induction false} DigitsValueAppend(a: string, b: string)
    requires forall i :: 0 <= i < |a| ==> IsDigit(a[i])
    requires forall i :: 0 <= i < |b| ==> IsDigit(b[i])
    ensures DigitsValue(a + b) == DigitsValue(a) * Pow10(|b|) + DigitsValue(b)
    decreases |b|
  {
    if b == [] {
      assert a + b == a;
    } else {
      var c, b' := a + b, b[..|b| - 1];
      assert c[..|c| - 1] == a + b';
      DigitsValueAppend(a, b');
      ShiftStep(DigitsValue(a), DigitsValue(b'), Pow10(|b'|), DigitValue(b[|b| - 1]));
    }
  }

  lemma ShiftStep(va: int, vb: int, p: int, d: int)
    ensures (va * p + vb) * 10 + d == va * (10 * p) + (vb * 10 + d)
  {
  }

  /** Leading zeros do not change the value read. */
  lemma {:induction false} PadDigitsValue(n: nat, width: nat)
    ensures DigitsValue(PadDigits(n, width)) == n
  {
    var s := NatToString(n);
    DigitsRoundTrip(n);
    if |s| < width {
      var z := seq(width - |s|, _ => '0');
      ZerosValue(z);
      DigitsValueAppend(z, s);
    }
  }

  lemma {:induction false} ZerosValue(z: string)
    requires forall i :: 0 <= i < |z| ==> z[i] == '0'
    ensures DigitsValue(z) == 0
    decreases |z|
  {
    if z != [] {
      ZerosValue(z[..|z| - 1]);
    }
  }

  /** Whole steps of `10^decimals`, a dot, and the remaining steps padded to `decimals` digits. */
  function FixedBody(q: nat, decimals: nat): string {
    var p := Pow10(decimals);
    NatToString(Quot(q, p)) + "." + PadDigits(Rem(q, p), decimals)
  }

  function Quot(q: nat, p: nat): nat
    requires p >= 1
  {
    q / p
  }

  function Rem(q: nat, p: nat): nat
    requires p >= 1
  {
    q % p
  }

  /** Quotient and remainder put back together give the dividend. */
  lemma DivModParts(q: nat, p: nat)
    requires p >= 1
    ensures Quot(q, p) * p + Rem(q, p) == q && Rem(q, p) < p
  {
  }

  /**
   * `(x / (unit * 10^decimals)).toFixed(decimals)`: `unit` is the value of one step
   * of the last digit shown. The quotient is rounded half away from zero on its exact
   * decimal value, with a minus sign whenever `x` is negative (so a small negative
   * value shows "-0.0").
   */
  function ToFixed(x: int, unit: nat, decimals: nat): string
    requires unit > 0
  {
    var q := RoundDiv(if x < 0 then -x else x, unit);
    (if x < 0 then "-" else "") + (if decimals == 0 then NatToString(q) else FixedBody(q, decimals))
  }

  /** Splitting `q` at `p = 10^width` and rendering both parts: `width` digits after the split, reading back as `q`. */
  lemma PartsRead(q: nat, p: nat, width: nat)
    requires width > 0 && p == Pow10(width)
    ensures |PadDigits(Rem(q, p), width)| == width
    ensures DigitsValue(NatToString(Quot(q, p))) * p + DigitsValue(PadDigits(Rem(q, p), width)) == q
  {
    DivModParts(q, p);
    PadDigitsLength(Rem(q, p), width);
    DigitsRoundTrip(Quot(q, p));
    PadDigitsValue(Rem(q, p), width);
  }

  /**
   * What `ToFixed` shows: a minus sign exactly for negative `x`, then a non-empty whole
   * part, a dot and exactly `decimals` digits; read as one number, the digits are
   * `|x| / unit` rounded to the nearest step, so the value shown is within half a
   * step of the exact one.
   */
  lemma ToFixedReadsBack(x: int, unit: nat, decimals: nat)
    requires unit > 0 && decimals > 0
    ensures exists whole: string, frac: string ::
      && ToFixed(x, unit, decimals) == (if x < 0 then "-" else "") + (whole + "." + frac)
      && |whole| >= 1 && |frac| == decimals
      && (forall i :: 0 <= i < |whole| ==> IsDigit(whole[i]))
      && (forall i :: 0 <= i < |frac| ==> IsDigit(frac[i]))
      && DigitsValue(whole) * Pow10(decimals) + DigitsValue(frac) == RoundDiv(if x < 0 then -x else x, unit)
  {
    var q := RoundDiv(if x < 0 then -x else x, unit);
    var p := Pow10(decimals);
    PartsRead(q, p, decimals);
    var whole, frac := NatToString(Quot(q, p)), PadDigits(Rem(q, p), decimals);
    assert ToFixed(x, unit, decimals) == (if x < 0 then "-" else "") + (whole + "." + frac);
  }
}
