/**
 * The string operations the client's display code relies on: JavaScript's toUpperCase and
 * toLowerCase restricted to ASCII letters, trim() over the ECMAScript WhiteSpace and
 * LineTerminator characters, and Number.prototype.toString for integers.
 */
module Text {

  function UpperChar(c: char): char {
    if 'a' <= c <= 'z' then (c as int - 32) as char else c
  }

  function LowerChar(c: char): char {
    if 'A' <= c <= 'Z' then (c as int + 32) as char else c
  }

  /** `s.toUpperCase()` on ASCII letters: same length, each character mapped on its own. */
  function Upper(s: string): (r: string)
    ensures |r| == |s|
    ensures forall i :: 0 <= i < |s| ==> r[i] == UpperChar(s[i])
  {
    if s == [] then [] else [UpperChar(s[0])] + Upper(s[1..])
  }

  /** `s.toLowerCase()` on ASCII letters. */
  function Lower(s: string): (r: string)
    ensures |r| == |s|
    ensures forall i :: 0 <= i < |s| ==> r[i] == LowerChar(s[i])
  {
    if s == [] then [] else [LowerChar(s[0])] + Lower(s[1..])
  }

  /** Lower-casing forgets the case of the input: an upper-cased string lower-cases like the original. */
  lemma LowerOfUpper(s: string)
    ensures Lower(Upper(s)) == Lower(s)
  {
    var a, b := Lower(Upper(s)), Lower(s);
    forall i | 0 <= i < |s| ensures a[i] == b[i] {
      var c := s[i];
      if 'a' <= c <= 'z' {
        assert UpperChar(c) as int == c as int - 32;
      }
    }
  }

  /** A string with no upper-case letter is its own lower-case form. */
  lemma LowerOfLowerCase(s: string)
    requires forall i :: 0 <= i < |s| ==> !('A' <= s[i] <= 'Z')
    ensures Lower(s) == s
  {
  }

  lemma LowerIdempotent(s: string)
    ensures Lower(Lower(s)) == Lower(s)
  {
    var a := Lower(Lower(s));
    forall i | 0 <= i < |s| ensures a[i] == Lower(s)[i] {
      var c := s[i];
      if 'A' <= c <= 'Z' {
        assert LowerChar(c) as int == c as int + 32;
      }
    }
  }

  lemma UpperIdempotent(s: string)
    ensures Upper(Upper(s)) == Upper(s)
  {
    var a := Upper(Upper(s));
    forall i | 0 <= i < |s| ensures a[i] == Upper(s)[i] {
      var c := s[i];
      if 'a' <= c <= 'z' {
        assert UpperChar(c) as int == c as int - 32;
      }
    }
  }

  /** The characters trim() removes: ECMAScript WhiteSpace (including the Zs category) and LineTerminator. */
  predicate IsSpace(c: char) {
    || c == '\t' || c == '\n' || c == '\U{B}' || c == '\U{C}' || c == '\r' || c == ' '
    || c == '\U{A0}' || c == '\U{1680}' || ('\U{2000}' <= c <= '\U{200A}')
    || c == '\U{2028}' || c == '\U{2029}' || c == '\U{202F}' || c == '\U{205F}'
    || c == '\U{3000}' || c == '\U{FEFF}'
  }

  /** s holds no character other than white space (the empty string included). */
  predicate Blank(s: string) {
    forall i :: 0 <= i < |s| ==> IsSpace(s[i])
  }

  /** Leading white space removed: a suffix of s that starts with a non-space, all of whose prefix is space. */
  function TrimStart(s: string): (r: string)
    ensures |r| <= |s| && r == s[|s| - |r|..]
    ensures r == [] || !IsSpace(r[0])
    ensures Blank(s[..|s| - |r|])
  {
    if s != [] && IsSpace(s[0]) then TrimStart(s[1..]) else s
  }

  /** Trailing white space removed: a prefix of s that ends with a non-space, all of whose rest is space. */
  function TrimEnd(s: string): (r: string)
    ensures |r| <= |s| && r == s[..|r|]
    ensures r == [] || !IsSpace(r[|r| - 1])
    ensures Blank(s[|r|..])
  {
    if s != [] && IsSpace(s[|s| - 1]) then TrimEnd(s[..|s| - 1]) else s
  }

  /** `s.trim()`: what is left neither starts nor ends with white space. */
  function Trim(s: string): (r: string)
    ensures r == [] || (!IsSpace(r[0]) && !IsSpace(r[|r| - 1]))
  {
    var t := TrimStart(s);
    var r := TrimEnd(t);
    assert r != [] ==> r[0] == t[0];
    r
  }

  /** `!s.trim()` holds exactly when s is made of white space only. */
  lemma TrimEmptyIffBlank(s: string)
    ensures Trim(s) == [] <==> Blank(s)
  {
    var t := TrimStart(s);
    if Trim(s) == [] {
      assert t[0..] == t;
      assert t == [];
      assert s[..|s|] == s;
    }
  }

  /** The trimmed text is a contiguous piece of the original, all of whose removed prefix and suffix is white space, and it neither starts nor ends with white space. */
  lemma TrimIsInfix(s: string)
    ensures exists i, j :: 0 <= i <= j <= |s| && Trim(s) == s[i..j] && Blank(s[..i]) && Blank(s[j..])
    ensures Trim(s) == [] || (!IsSpace(Trim(s)[0]) && !IsSpace(Trim(s)[|Trim(s)| - 1]))
  {
    var t := TrimStart(s);
    var r := TrimEnd(t);
    var i := |s| - |t|;
    assert r == s[i..i + |r|];
    assert t[|r|..] == s[i + |r|..];
    if r != [] {
      assert r[0] == t[0];
    }
  }

  function DigitChar(d: int): (c: char)
    requires 0 <= d < 10
    ensures '0' <= c <= '9'
  {
    ('0' as int + d) as char
  }

  predicate IsDigit(c: char) { '0' <= c <= '9' }

  predicate AllDigits(s: string) { forall i :: 0 <= i < |s| ==> IsDigit(s[i]) }

  /** The decimal digits of n: at least one digit, and no leading zero unless n is 0. */
  function NatToString(n: nat): (s: string)
    ensures |s| >= 1 && AllDigits(s)
    ensures s[0] == '0' ==> n == 0 && s == "0"
  {
    if n < 10 then [DigitChar(n)] else NatToString(n / 10) + [DigitChar(n % 10)]
  }

  /**
   * `n.toString()` for an integer: a minus sign before the digits of a negative number. The text is
   * a decimal numeral and reads back as n.
   */
  function IntToString(n: int): (s: string)
    ensures IsNumeral(s) && NumeralValue(s) == n
  {
    NatToStringValue(if n < 0 then -n else n);
    if n < 0 then
      var s := "-" + NatToString(-n);
      assert s[1..] == NatToString(-n);
      s
    else NatToString(n)
  }

  /** The number a string of decimal digits denotes. */
  function DigitsValue(s: string): nat
    requires AllDigits(s)
  {
    if s == [] then 0 else DigitsValue(s[..|s| - 1]) * 10 + (s[|s| - 1] as int - '0' as int)
  }

  /** A decimal numeral: digits, optionally after one minus sign. */
  predicate IsNumeral(s: string) {
    s != [] && (AllDigits(s) || (s[0] == '-' && AllDigits(s[1..])))
  }

  /** The integer a decimal numeral denotes. */
  function NumeralValue(s: string): int
    requires IsNumeral(s)
  {
    if s[0] == '-' then 0 - DigitsValue(s[1..]) else DigitsValue(s)
  }

  lemma {:induction false} NatToStringValue(n: nat)
    ensures DigitsValue(NatToString(n)) == n
  {
    if n >= 10 {
      NatToStringValue(n / 10);
      var s := NatToString(n);
      assert s[..|s| - 1] == NatToString(n / 10);
    }
  }

  /** "1 item", "2 items": a numeral reading back as the count, a space, and the noun, singular exactly for one. */
  function CountLabel(n: nat): (r: string)
    ensures var k := |NatToString(n)|;
      k + 1 < |r| && AllDigits(r[..k]) && DigitsValue(r[..k]) == n && r[k] == ' ' &&
      (r[k + 1..] == "item" <==> n == 1) && (n != 1 ==> r[k + 1..] == "items")
  {
    NatToStringValue(n);
    var digits := NatToString(n);
    var r := digits + " " + (if n == 1 then "item" else "items");
    assert r[..|digits|] == digits;
    assert r[|digits| + 1..] == (if n == 1 then "item" else "items");
    r
  }
}
