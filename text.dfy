/** Character- and string-level helpers the plugin relies on: Python's
    `str(int)`, `str.upper()`, `str.translate` onto subscript numerals and
    `s.split(sep)[0]`, each with an independent characterisation. */
module Text {

  // ---------------------------------------------------------------------------
  // Prefixes and suffixes
  // ---------------------------------------------------------------------------

  predicate StartsWith(s: string, prefix: string) {
    prefix <= s
  }

  predicate EndsWith(s: string, suffix: string) {
    |suffix| <= |s| && s[|s| - |suffix|..] == suffix
  }

  lemma EndsWithConcat(a: string, b: string)
    ensures EndsWith(a + b, b)
  {
    assert (a + b)[|a + b| - |b|..] == b;
  }

  // ---------------------------------------------------------------------------
  // Decimal digits: Python's str() on integers
  // ---------------------------------------------------------------------------

  predicate IsDigit(c: char) {
    '0' <= c <= '9'
  }

  predicate AllDigits(s: string) {
    forall i :: 0 <= i < |s| ==> IsDigit(s[i])
  }

  function DigitValue(c: char): (d: nat)
    requires IsDigit(c)
    ensures d < 10
  {
    c as int - '0' as int
  }

  function DigitChar(d: nat): (c: char)
    requires d < 10
    ensures IsDigit(c) && DigitValue(c) == d
  {
    ('0' as int + d) as char
  }

  /** The value of a string of decimal digits, most significant first. */
  function DecimalValue(s: string): (v: nat)
    requires AllDigits(s)
  {
    if s == [] then 0 else DecimalValue(s[..|s| - 1]) * 10 + DigitValue(s[|s| - 1])
  }

  /** The canonical decimal rendering of a natural number: at least one digit
      and no leading zero unless the number is zero. */
  function NatToDecimal(n: nat): (s: string)
    ensures |s| >= 1 && AllDigits(s)
    ensures s[0] == '0' ==> n == 0
  {
    if n < 10 then [DigitChar(n)] else NatToDecimal(n / 10) + [DigitChar(n % 10)]
  }

  lemma {:induction false} DecimalRoundTrip(n: nat)
    ensures DecimalValue(NatToDecimal(n)) == n
  {
    if n >= 10 {
      var s := NatToDecimal(n);
      DecimalRoundTrip(n / 10);
      assert s[..|s| - 1] == NatToDecimal(n / 10);
    }
  }

  /** Python's str() on an int: a leading '-' for negative values. */
  function IntToString(i: int): (s: string)
    ensures i >= 0 ==> s == NatToDecimal(i)
    ensures i < 0 ==> |s| >= 2 && s[0] == '-' && s[1..] == NatToDecimal(-i)
  {
    if i < 0 then "-" + NatToDecimal(-i) else NatToDecimal(i)
  }

  // ---------------------------------------------------------------------------
  // Subscript numerals: str.translate with "0123456789" -> "₀₁₂₃₄₅₆₇₈₉"
  // ---------------------------------------------------------------------------

  predicate IsSubscriptDigit(c: char) {
    '₀' <= c <= '₉'
  }

  /** The translation table applied to one character: a digit becomes its
      subscript glyph, any other character is left alone. */
  function SubscriptChar(c: char): (r: char)
    ensures IsDigit(c) ==> IsSubscriptDigit(r) && r as int - '₀' as int == DigitValue(c)
    ensures !IsDigit(c) ==> r == c
  {
    if IsDigit(c) then ('₀' as int + (c as int - '0' as int)) as char else c
  }

  /** Inverse table: a subscript glyph back to its digit. */
  function PlainChar(c: char): (r: char)
    ensures IsSubscriptDigit(c) ==> IsDigit(r)
  {
    if IsSubscriptDigit(c) then ('0' as int + (c as int - '₀' as int)) as char else c
  }

  function Subscripted(s: string): (r: string)
    ensures |r| == |s|
    ensures forall i :: 0 <= i < |s| ==> r[i] == SubscriptChar(s[i])
  {
    seq(|s|, i requires 0 <= i < |s| => SubscriptChar(s[i]))
  }

  function Unsubscripted(s: string): (r: string)
    ensures |r| == |s|
    ensures forall i :: 0 <= i < |s| ==> r[i] == PlainChar(s[i])
  {
    seq(|s|, i requires 0 <= i < |s| => PlainChar(s[i]))
  }

  /** Translating a digit string yields only subscript glyphs, one per digit,
      and translating back gives the digits again. */
  lemma SubscriptRoundTrip(s: string)
    requires AllDigits(s)
    ensures forall i :: 0 <= i < |s| ==> IsSubscriptDigit(Subscripted(s)[i])
    ensures Unsubscripted(Subscripted(s)) == s
  {
    var t := Unsubscripted(Subscripted(s));
    forall i | 0 <= i < |s| ensures t[i] == s[i] {
      assert IsDigit(s[i]);
    }
  }

  // ---------------------------------------------------------------------------
  // Upper case: str.upper(), restricted to ASCII letters
  // ---------------------------------------------------------------------------

  predicate IsLower(c: char) {
    'a' <= c <= 'z'
  }

  function UpperChar(c: char): (r: char)
    ensures IsLower(c) ==> 'A' <= r <= 'Z' && r as int + 32 == c as int
    ensures !IsLower(c) ==> r == c
  {
    if IsLower(c) then (c as int - 32) as char else c
  }

  function Upper(s: string): (r: string)
    ensures |r| == |s|
    ensures forall i :: 0 <= i < |s| ==> r[i] == UpperChar(s[i])
  {
    seq(|s|, i requires 0 <= i < |s| => UpperChar(s[i]))
  }

  /** Upper case leaves no lower-case letter, changes nothing else, and is
      idempotent. */
  lemma UpperProperties(s: string)
    ensures forall i :: 0 <= i < |s| ==> !IsLower(Upper(s)[i])
    ensures forall i :: 0 <= i < |s| && !IsLower(s[i]) ==> Upper(s)[i] == s[i]
    ensures Upper(Upper(s)) == Upper(s)
  {
  }

  /** A character that is not a lower-case letter occurs in the upper-cased
      string exactly when it occurs in the original. */
  lemma UpperKeepsOtherChars(s: string, c: char)
    requires !IsLower(c) && !('A' <= c <= 'Z')
    ensures c in Upper(s) <==> c in s
  {
    var u := Upper(s);
    if c in s {
      var i :| 0 <= i < |s| && s[i] == c;
      assert u[i] == c;
    }
    if c in u {
      var i :| 0 <= i < |u| && u[i] == c;
      assert s[i] == c;
    }
  }

  // ---------------------------------------------------------------------------
  // s.split(sep)[0]
  // ---------------------------------------------------------------------------

  /** The part of `s` before the first occurrence of `sep`, or all of `s`
      when `sep` does not occur: the first element of Python's `s.split(sep)`. */
  function BeforeFirst(s: string, sep: char): (r: string)
    ensures r <= s
    ensures sep !in r
    ensures r == s || s[|r|] == sep
  {
    if s == [] then []
    else if s[0] == sep then []
    else [s[0]] + BeforeFirst(s[1..], sep)
  }

  /** The three properties above determine the result: it is the longest
      prefix without `sep`. */
  lemma BeforeFirstUnique(s: string, sep: char, p: string)
    requires p <= s && sep !in p && (p == s || s[|p|] == sep)
    ensures p == BeforeFirst(s, sep)
  {
  }
}
