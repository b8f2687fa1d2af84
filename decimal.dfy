/** Decimal text for integers, as the frontend forms use it: `n.toString()`
    to pre-fill an input and `parseInt(text)` to read it back. */
module Decimal {
  import opened Common

  predicate IsDigit(c: char) { '0' <= c <= '9' }

  predicate IsBlank(c: char) { c == ' ' || c == '\t' || c == '\n' || c == '\r' }

  function DigitValue(c: char): (d: nat)
    requires IsDigit(c)
    ensures d < 10
  {
    (c as int) - ('0' as int)
  }

  function DigitChar(d: nat): (c: char)
    requires d < 10
    ensures IsDigit(c) && DigitValue(c) == d
  {
    (('0' as int) + d) as char
  }

  /** The digits of a natural number, most significant first, no leading zero. */
  function NatDigits(n: nat): (s: string)
    ensures |s| > 0
    ensures forall i :: 0 <= i < |s| ==> IsDigit(s[i])
    decreases n
  {
    if n < 10 then [DigitChar(n)] else NatDigits(n / 10) + [DigitChar(n % 10)]
  }

  /** `n.toString()` for an integer `n`. */
  function ToDecimal(n: int): string
  {
    if n < 0 then "-" + NatDigits(-n) else NatDigits(n)
  }

  /** The value of a string of decimal digits. */
  function DigitsValue(s: string): nat
    requires forall i :: 0 <= i < |s| ==> IsDigit(s[i])
  {
    if s == [] then 0 else DigitsValue(s[..|s| - 1]) * 10 + DigitValue(s[|s| - 1])
  }

  /** The longest prefix of `s` made of decimal digits. */
  function DigitPrefix(s: string): (p: string)
    ensures |p| <= |s| && p == s[..|p|]
    ensures forall i :: 0 <= i < |p| ==> IsDigit(p[i])
    ensures |p| < |s| ==> !IsDigit(s[|p|])
  {
    if s == [] || !IsDigit(s[0]) then [] else [s[0]] + DigitPrefix(s[1..])
  }

  function SkipBlanks(s: string): (t: string)
    ensures |t| <= |s| && t == s[|s| - |t|..]
    ensures t != [] ==> !IsBlank(t[0])
  {
    if s != [] && IsBlank(s[0]) then SkipBlanks(s[1..]) else s
  }

  /** The value of the longest run of digits at the start of `body`;
      `None` when there is none. */
  function LeadingDigits(body: string): Option<int>
  {
    var digits := DigitPrefix(body);
    if digits == [] then None else Some(DigitsValue(digits))
  }

  /** `parseInt(text)`: leading blanks, an optional sign, then the longest run
      of digits; `None` stands for NaN (no digit at all). */
  function ParseInt(text: string): Option<int>
  {
    var t := SkipBlanks(text);
    if t != [] && t[0] == '-' then
      match LeadingDigits(t[1..])
      case None => None
      case Some(v) => Some(-v)
    else if t != [] && t[0] == '+' then LeadingDigits(t[1..])
    else LeadingDigits(t)
  }

  /** `parseInt(text) || 0`: NaN (and 0) become 0. */
  function ParseIntOrZero(text: string): int
  {
    match ParseInt(text)
    case None => 0
    case Some(v) => v
  }

  lemma {:induction false} DigitsValueOfNatDigits(n: nat)
    ensures DigitsValue(NatDigits(n)) == n
    decreases n
  {
    if n >= 10 {
      DigitsValueOfNatDigits(n / 10);
      var s := NatDigits(n);
      assert s[..|s| - 1] == NatDigits(n / 10);
    }
  }

  lemma {:induction false} DigitPrefixOfDigits(s: string)
    requires forall i :: 0 <= i < |s| ==> IsDigit(s[i])
    ensures DigitPrefix(s) == s
  {
    if s != [] {
      DigitPrefixOfDigits(s[1..]);
    }
  }

  /** Reading back a pre-filled integer gives the integer: `parseInt(n.toString()) == n`. */
  lemma ParseIntOfToDecimal(n: int)
    ensures ParseInt(ToDecimal(n)) == Some(n)
    ensures ParseIntOrZero(ToDecimal(n)) == n
  {
    var m: nat := if n < 0 then -n else n;
    var ds := NatDigits(m);
    DigitPrefixOfDigits(ds);
    DigitsValueOfNatDigits(m);
    assert LeadingDigits(ds) == Some(m);
    var t := ToDecimal(n);
    assert !IsBlank(t[0]);
    assert SkipBlanks(t) == t;
    if n < 0 {
      assert t[1..] == ds;
    } else {
      assert IsDigit(t[0]);
    }
  }
}
