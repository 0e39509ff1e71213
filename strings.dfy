/** The JavaScript string operations the views rely on: the `\s` character
    class and `trim()`, `\d`, `startsWith`, `indexOf`/`replace` with a string
    pattern, `String(n)` for integers, `padStart`, and `length` counted in
    UTF-16 code units. */
module Strings {

  /** ECMAScript's `\s`, which is also the set `trim()` removes: WhiteSpace
      and LineTerminator code points. */
  predicate IsWhitespace(c: char) {
    var n := c as int;
    (0x09 <= n <= 0x0D) || n == 0x20 || n == 0xA0 || n == 0x1680
    || (0x2000 <= n <= 0x200A) || n == 0x2028 || n == 0x2029
    || n == 0x202F || n == 0x205F || n == 0x3000 || n == 0xFEFF
  }

  /** `\d`: an ASCII decimal digit. */
  predicate IsDigit(c: char) {
    '0' <= c <= '9'
  }

  predicate AllDigits(s: string) {
    forall i :: 0 <= i < |s| ==> IsDigit(s[i])
  }

  /** Every character is whitespace (vacuously so for the empty string). */
  predicate IsBlank(s: string) {
    forall i :: 0 <= i < |s| ==> IsWhitespace(s[i])
  }

  function TrimStart(s: string): (r: string)
    ensures |r| <= |s| && r == s[|s| - |r|..]
    ensures r == [] || !IsWhitespace(r[0])
    ensures IsBlank(s[..|s| - |r|])
  {
    if s == [] || !IsWhitespace(s[0]) then s
    else
      var r := TrimStart(s[1..]);
      assert s[1..][..|s| - 1 - |r|] == s[1..|s| - |r|];
      r
  }

  function TrimEnd(s: string): (r: string)
    ensures |r| <= |s| && r == s[..|r|]
    ensures r == [] || !IsWhitespace(r[|r| - 1])
    ensures IsBlank(s[|r|..])
  {
    if s == [] || !IsWhitespace(s[|s| - 1]) then s
    else
      var r := TrimEnd(s[..|s| - 1]);
      assert s[..|s| - 1][|r|..] == s[|r|..|s| - 1];
      r
  }

  /** `s.trim()`: no longer than `s`, and neither starting nor ending with
      whitespace. */
  function Trim(s: string): (r: string)
    ensures |r| <= |s|
    ensures r == [] || (!IsWhitespace(r[0]) && !IsWhitespace(r[|r| - 1]))
  {
    TrimEnd(TrimStart(s))
  }

  /** `!s.trim()` holds exactly when the string is all whitespace. */
  lemma TrimEmptyIffBlank(s: string)
    ensures Trim(s) == "" <==> IsBlank(s)
  {
    var t := TrimStart(s);
    if Trim(s) == "" {
      assert IsBlank(t[0..]);
      assert t == [];
      assert s[..|s|] == s;
    } else {
      var r := Trim(s);
      assert !IsWhitespace(r[0]);
      assert r[0] == t[0];
      assert t[0] == s[|s| - |t|];
    }
  }

  /** `s.startsWith(p)`. */
  predicate StartsWith(s: string, p: string) {
    |p| <= |s| && s[..|p|] == p
  }

  predicate OccursAt(s: string, p: string, k: nat) {
    k + |p| <= |s| && s[k..k + |p|] == p
  }

  /** `s.indexOf(p)`: the first position where `p` occurs, or -1. */
  function IndexOf(s: string, p: string, from: nat := 0): (r: int)
    requires from <= |s|
    ensures r == -1 || (from <= r && OccursAt(s, p, r))
    ensures forall k :: from <= k && (r == -1 || k < r) ==> !OccursAt(s, p, k)
    decreases |s| - from
  {
    if OccursAt(s, p, from) then from
    else if from == |s| then -1
    else IndexOf(s, p, from + 1)
  }

  /** `s.replace(p, q)` with a string pattern: only the first occurrence of
      `p` is replaced. */
  function ReplaceFirst(s: string, p: string, q: string): (r: string)
    ensures (forall k: nat :: !OccursAt(s, p, k)) ==> r == s
    ensures forall i: nat :: OccursAt(s, p, i) && (forall k: nat :: k < i ==> !OccursAt(s, p, k)) ==>
      r == s[..i] + q + s[i + |p|..]
  {
    var i := IndexOf(s, p);
    if i == -1 then s else s[..i] + q + s[i + |p|..]
  }

  /** A string that starts with the pattern loses exactly that prefix. */
  lemma ReplaceFirstOfPrefix(p: string, rest: string)
    ensures ReplaceFirst(p + rest, p, "") == rest
  {
    assert OccursAt(p + rest, p, 0) by { assert (p + rest)[0..|p|] == p; }
    assert (p + rest)[|p|..] == rest;
  }

  function DigitChar(d: nat): (c: char)
    requires d < 10
    ensures IsDigit(c)
  {
    ['0', '1', '2', '3', '4', '5', '6', '7', '8', '9'][d]
  }

  function DigitValue(c: char): (d: nat)
    requires IsDigit(c)
    ensures d < 10
  {
    (c as int - '0' as int) as nat
  }

  lemma DigitRoundTrip(d: nat)
    requires d < 10
    ensures DigitValue(DigitChar(d)) == d
  {
  }

  /** Decimal notation of a natural number, without leading zeros. */
  function NatToString(n: nat): (r: string)
    ensures |r| >= 1 && AllDigits(r)
    ensures n < 10 <==> |r| == 1
    ensures 10 <= n < 100 <==> |r| == 2
  {
    if n < 10 then [DigitChar(n)] else NatToString(n / 10) + [DigitChar(n % 10)]
  }

  /** `String(n)` for an integer. */
  function IntToString(n: int): string {
    if n < 0 then "-" + NatToString(-n) else NatToString(n)
  }

  /** The value of a string of decimal digits. */
  function DigitsValue(s: string): (n: nat)
    requires AllDigits(s)
  {
    if s == [] then 0 else DigitsValue(s[..|s| - 1]) * 10 + DigitValue(s[|s| - 1])
  }

  /** Reading back a number's decimal notation gives the number. */
  lemma {:induction false} NatToStringRoundTrip(n: nat)
    ensures DigitsValue(NatToString(n)) == n
  {
    var s := NatToString(n);
    if n >= 10 {
      NatToStringRoundTrip(n / 10);
      assert s[..|s| - 1] == NatToString(n / 10);
      DigitRoundTrip(n % 10);
    } else {
      DigitRoundTrip(n);
      assert s[..0] == [];
    }
  }

  /** Leading zeros do not change the value of a digit string. */
  lemma {:induction false} DigitsValueLeadingZero(s: string)
    requires AllDigits(s)
    ensures AllDigits("0" + s) && DigitsValue("0" + s) == DigitsValue(s)
    decreases |s|
  {
    var z := "0" + s;
    if s != [] {
      assert z[..|z| - 1] == "0" + s[..|s| - 1];
      DigitsValueLeadingZero(s[..|s| - 1]);
    } else {
      assert z[..0] == [];
    }
  }

  /** `s.padStart(n, c)` for a single-character pad string. */
  function PadStart(s: string, n: nat, c: char): (r: string)
    ensures |r| == if |s| >= n then |s| else n
    ensures r[|r| - |s|..] == s
    ensures forall i :: 0 <= i < |r| - |s| ==> r[i] == c
  {
    if |s| >= n then s else seq(n - |s|, _ => c) + s
  }

  /** `s.length` in JavaScript: code points above U+FFFF take two code units. */
  function Utf16Length(s: string): (n: nat)
    ensures |s| <= n <= 2 * |s|
  {
    if s == [] then 0 else (if s[0] as int > 0xFFFF then 2 else 1) + Utf16Length(s[1..])
  }
}
