/**
 * The pieces of JavaScript's string library the application relies on:
 * `trim`, `includes`, `split(' ')[0]`, `Number.prototype.toString` on
 * integers and `parseInt` with the default radix. A `char` is a Unicode
 * scalar value, while JavaScript strings are sequences of UTF-16 code
 * units; the two agree on every character below U+10000, which covers all
 * whitespace, digits and signs these functions look at.
 */
module Strings {
  import opened Options

  // ---------------------------------------------------------------------
  // Whitespace and trim
  // ---------------------------------------------------------------------

  /**
   * The characters `String.prototype.trim` and `parseInt` skip: the
   * ECMAScript WhiteSpace set (tab, vertical tab, form feed, space,
   * no-break space, byte-order mark and the Unicode space separators) and
   * the LineTerminator set (line feed, carriage return, U+2028, U+2029).
   */
  predicate IsSpace(c: char) {
    c == '\t' || c == '\n' || c == '\U{000B}' || c == '\U{000C}' || c == '\r' ||
    c == ' ' || c == '\U{00A0}' || c == '\U{1680}' ||
    ('\U{2000}' <= c <= '\U{200A}') ||
    c == '\U{2028}' || c == '\U{2029}' || c == '\U{202F}' || c == '\U{205F}' ||
    c == '\U{3000}' || c == '\U{FEFF}'
  }

  /** Every character of `s` is whitespace (the empty string included). */
  predicate IsBlank(s: string) {
    forall i :: 0 <= i < |s| ==> IsSpace(s[i])
  }

  /** `s` with its leading whitespace removed. */
  function TrimStart(s: string): (r: string)
    ensures |r| <= |s| && r == s[|s| - |r|..]
    ensures r == [] || !IsSpace(r[0])
    ensures IsBlank(s[..|s| - |r|])
  {
    if s != [] && IsSpace(s[0]) then
      BlankPrefixGrows(s, |s| - |TrimStart(s[1..])|);
      TrimStart(s[1..])
    else s
  }

  /** A blank prefix of `s[1..]` grows by one when `s` starts with whitespace. */
  lemma BlankPrefixGrows(s: string, k: nat)
    requires 1 <= k <= |s| && IsSpace(s[0]) && IsBlank(s[1..][..k - 1])
    ensures IsBlank(s[..k]) && s[1..][k - 1..] == s[k..]
  {
    forall i | 1 <= i < k
      ensures IsSpace(s[i])
    {
      assert s[i] == s[1..][..k - 1][i - 1];
    }
  }

  /** `s` with its trailing whitespace removed. */
  function TrimEnd(s: string): (r: string)
    ensures |r| <= |s| && r == s[..|r|]
    ensures r == [] || !IsSpace(r[|r| - 1])
    ensures IsBlank(s[|r|..])
  {
    if s != [] && IsSpace(s[|s| - 1]) then
      BlankSuffixGrows(s, |TrimEnd(s[..|s| - 1])|);
      TrimEnd(s[..|s| - 1])
    else s
  }

  /** A blank suffix of `s[..|s| - 1]` grows by one when `s` ends with whitespace. */
  lemma BlankSuffixGrows(s: string, k: nat)
    requires k < |s| && IsSpace(s[|s| - 1]) && IsBlank(s[..|s| - 1][k..])
    ensures IsBlank(s[k..]) && s[..|s| - 1][..k] == s[..k]
  {
    forall i | k <= i < |s| - 1
      ensures IsSpace(s[i])
    {
      assert s[i] == s[..|s| - 1][k..][i - k];
    }
  }

  /**
   * `String.prototype.trim`: `s` with its leading and trailing whitespace
   * removed; the result neither starts nor ends with whitespace.
   */
  function Trim(s: string): (r: string)
    ensures r == [] || (!IsSpace(r[0]) && !IsSpace(r[|r| - 1]))
    ensures exists a, b :: 0 <= a <= b <= |s| && r == s[a..b] && BlankOutside(s, a, b)
  {
    TrimIsInfix(s);
    TrimEnd(TrimStart(s))
  }

  /** Every character of `s` before `a` and from `b` on is whitespace. */
  predicate BlankOutside(s: string, a: nat, b: nat)
    requires a <= b <= |s|
  {
    IsBlank(s[..a]) && IsBlank(s[b..])
  }

  /** Cutting the leading, then the trailing whitespace leaves an infix between blank margins. */
  lemma TrimIsInfix(s: string)
    ensures var r := TrimEnd(TrimStart(s));
      exists a, b :: 0 <= a <= b <= |s| && r == s[a..b] && BlankOutside(s, a, b)
  {
    var t := TrimStart(s);
    var a, b := InfixBetweenBlanks(s, t, TrimEnd(t));
  }

  /**
   * A prefix `r` of a suffix `t` of `s`, where `s` has only whitespace
   * before `t` and `t` only whitespace after `r`, is an infix of `s` between
   * blank margins.
   */
  lemma InfixBetweenBlanks(s: string, t: string, r: string) returns (a: nat, b: nat)
    requires |t| <= |s| && t == s[|s| - |t|..] && IsBlank(s[..|s| - |t|])
    requires |r| <= |t| && r == t[..|r|] && IsBlank(t[|r|..])
    ensures a <= b <= |s| && r == s[a..b] && BlankOutside(s, a, b)
  {
    a := |s| - |t|;
    b := a + |r|;
    InfixOfSuffix(s, t, r);
  }

  /** A prefix `r` of a suffix `t` of `s` sits in `s` right after the part `t` leaves out. */
  lemma InfixOfSuffix(s: string, t: string, r: string)
    requires |t| <= |s| && t == s[|s| - |t|..]
    requires |r| <= |t| && r == t[..|r|]
    ensures var a := |s| - |t|; r == s[a..a + |r|] && t[|r|..] == s[a + |r|..]
  {
  }

  /** `!s.trim()` in JavaScript: the trimmed string is empty exactly when `s` is all whitespace. */
  lemma TrimEmptyIffBlank(s: string)
    ensures Trim(s) == [] <==> IsBlank(s)
  {
    var t := TrimStart(s);
    TrimEndEmptyIffBlank(t);
    TrimStartEmptyIffBlank(s);
    if t != [] {
      assert !IsSpace(t[0]);
    }
  }

  /** Removing leading whitespace leaves nothing exactly when `s` is all whitespace. */
  lemma TrimStartEmptyIffBlank(s: string)
    ensures TrimStart(s) == [] <==> IsBlank(s)
  {
    var t := TrimStart(s);
    if t == [] {
      assert s[..|s|] == s;
    } else {
      assert t[0] == s[|s| - |t|];
    }
  }

  /** Removing trailing whitespace leaves nothing exactly when `s` is all whitespace. */
  lemma TrimEndEmptyIffBlank(s: string)
    ensures TrimEnd(s) == [] <==> IsBlank(s)
  {
    var r := TrimEnd(s);
    if r == [] {
      assert s[0..] == s;
    } else {
      assert r[|r| - 1] == s[|r| - 1];
    }
  }

  // ---------------------------------------------------------------------
  // Substrings
  // ---------------------------------------------------------------------

  /** `s.includes(sub)`: `sub` occurs at some offset of `s`. */
  predicate Contains(s: string, sub: string) {
    exists i :: 0 <= i <= |s| && OccursAt(s, sub, i)
  }

  /** `sub` occurs in `s` starting at offset `i`. */
  predicate OccursAt(s: string, sub: string, i: nat) {
    i + |sub| <= |s| && s[i..i + |sub|] == sub
  }

  /** `s.split(' ')[0]`: everything before the first space (U+0020 only). */
  function FirstWord(s: string): (w: string)
    ensures w <= s
    ensures ' ' !in w
    ensures |w| == |s| || s[|w|] == ' '
  {
    if s == [] || s[0] == ' ' then [] else [s[0]] + FirstWord(s[1..])
  }

  /** The first word ends at the first space. */
  lemma {:induction false} FirstWordEndsAtSpace(s: string, k: nat)
    requires k < |s| && s[k] == ' ' && ' ' !in s[..k]
    ensures FirstWord(s) == s[..k]
  {
    if k > 0 {
      assert s[0] == s[..k][0];
      assert s[1..][..k - 1] == s[1..k];
      FirstWordEndsAtSpace(s[1..], k - 1);
    }
  }

  // ---------------------------------------------------------------------
  // Decimal numerals
  // ---------------------------------------------------------------------

  predicate IsDigit(c: char) {
    '0' <= c <= '9'
  }

  predicate AllDigits(s: string) {
    forall i :: 0 <= i < |s| ==> IsDigit(s[i])
  }

  function DigitValue(c: char): (d: nat)
    requires IsDigit(c)
    ensures d < 10
  {
    c as int - '0' as int
  }

  function DigitChar(d: nat): (c: char)
    requires d < 10
    ensures IsDigit(c) && DigitValue(c) == d
  {
    "0123456789"[d]
  }

  /** The decimal numeral of `n` without leading zeros (`n.toString()`). */
  function NatToString(n: nat): (s: string)
    ensures s != [] && AllDigits(s)
    ensures |s| > 1 ==> s[0] != '0'
  {
    if n < 10 then [DigitChar(n)] else NatToString(n / 10) + [DigitChar(n % 10)]
  }

  /** The value of a string of decimal digits, most significant first. */
  function DigitsValue(s: string): nat
    requires AllDigits(s)
  {
    if s == [] then 0 else DigitsValue(s[..|s| - 1]) * 10 + DigitValue(s[|s| - 1])
  }

  /** Reading back the numeral of `n` gives `n`. */
  lemma {:induction false} NatToStringRoundTrip(n: nat)
    ensures DigitsValue(NatToString(n)) == n
  {
    var s := NatToString(n);
    if n >= 10 {
      assert s[..|s| - 1] == NatToString(n / 10);
      NatToStringRoundTrip(n / 10);
    }
  }

  /** Different numbers have different numerals. */
  lemma NatToStringInjective(m: nat, n: nat)
    requires NatToString(m) == NatToString(n)
    ensures m == n
  {
    NatToStringRoundTrip(m);
    NatToStringRoundTrip(n);
  }

  /** `n.toString()` for an integer: a minus sign before the numeral of `|n|` when negative. */
  function IntToString(n: int): (s: string)
    ensures s != []
    ensures n < 0 <==> s[0] == '-'
    ensures n >= 0 ==> AllDigits(s)
  {
    if n < 0 then "-" + NatToString(-n) else NatToString(n)
  }

  /** The longest prefix of `s` made of decimal digits. */
  function DigitPrefix(s: string): (p: string)
    ensures p <= s && AllDigits(p)
    ensures |p| == |s| || !IsDigit(s[|p|])
  {
    if s != [] && IsDigit(s[0]) then [s[0]] + DigitPrefix(s[1..]) else []
  }

  /**
   * `parseInt(s)` with the default radix, restricted to decimal: leading
   * whitespace is skipped, one optional sign is read, then the longest run
   * of digits; anything after it is ignored. `None` stands for `NaN`,
   * which is what JavaScript returns when no digit follows the sign.
   */
  function ParseInt(s: string): (r: Option<int>)
    ensures r.Some? ==> exists i :: 0 <= i < |s| && IsDigit(s[i])
    ensures r.None? <==>
      var t := TrimStart(s);
      var k := if t != [] && (t[0] == '-' || t[0] == '+') then 1 else 0;
      k == |t| || !IsDigit(t[k])
    ensures r.Some? ==>
      var t := TrimStart(s);
      t != [] &&
      var k := if t[0] == '-' || t[0] == '+' then 1 else 0;
      r.value == (if t[0] == '-' then -1 else 1) * DigitsValue(DigitPrefix(t[k..]))
  {
    var t := TrimStart(s);
    var negative := t != [] && t[0] == '-';
    var body := if t != [] && (t[0] == '-' || t[0] == '+') then t[1..] else t;
    var digits := DigitPrefix(body);
    if digits == [] then None
    else
      assert IsDigit(s[|s| - |body|]) by { assert s[|s| - |body|] == body[0] == digits[0]; }
      var magnitude: int := DigitsValue(digits);
      Some(if negative then -magnitude else magnitude)
  }

  /** `parseInt(s) || 0`: `NaN` (and zero) become 0. */
  function ParseIntOrZero(s: string): (r: int)
    ensures (forall i :: 0 <= i < |s| ==> !IsDigit(s[i])) ==> r == 0
  {
    ParseInt(s).GetOr(0)
  }

  /** `parseInt(n.toString())` gives `n` back. */
  lemma ParseIntRoundTrip(n: int)
    ensures ParseInt(IntToString(n)) == Some(n)
    ensures ParseIntOrZero(IntToString(n)) == n
  {
    var m: nat := if n < 0 then -n else n;
    var digits := NatToString(m);
    var s := IntToString(n);
    var body := if n < 0 then s[1..] else s;
    assert body == digits;
    NoLeadingSpace(s);
    DigitPrefixOfDigits(digits);
    NatToStringRoundTrip(m);
  }

  /** A string that does not start with whitespace is its own `TrimStart`. */
  lemma NoLeadingSpace(s: string)
    requires s != [] && (s[0] == '-' || IsDigit(s[0]))
    ensures TrimStart(s) == s
  {
    assert !IsSpace(s[0]);
  }

  /** The digit prefix of a string of digits is the whole string. */
  lemma {:induction false} DigitPrefixOfDigits(s: string)
    requires AllDigits(s)
    ensures DigitPrefix(s) == s
  {
    if s != [] {
      DigitPrefixOfDigits(s[1..]);
    }
  }
}
