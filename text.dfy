/**
 * Conversions between integers and their decimal text: Python's `str(n)`,
 * used when an order line renders its quantity, and Python's `int(s)`, used
 * by Flask when it reads the `page` query argument with `type=int`.
 */
module Text {
  import opened Wrappers

  predicate IsDigit(c: char)
  {
    '0' <= c <= '9'
  }

  predicate AllDigits(s: string)
  {
    forall i :: 0 <= i < |s| ==> IsDigit(s[i])
  }

  function DigitChar(d: nat): (c: char)
    requires d < 10
    ensures IsDigit(c) && c as int - '0' as int == d
  {
    ('0' as int + d) as char
  }

  /** Python's `str(n)` for a natural number: shortest decimal form, no sign. */
  function NatToString(n: nat): (s: string)
    ensures |s| > 0 && AllDigits(s)
    ensures n < 10 <==> |s| == 1
    ensures n == 0 <==> s == "0"
    ensures n > 0 ==> s[0] != '0'
    decreases n
  {
    if n < 10 then [DigitChar(n)] else NatToString(n / 10) + [DigitChar(n % 10)]
  }

  /** Python's `str(i)` for any integer: a leading `-` exactly for negatives. */
  function IntToString(i: int): (s: string)
    ensures |s| > 0 && IsDigit(s[|s| - 1])
    ensures s[0] == '-' <==> i < 0
    ensures i >= 0 ==> IsDigit(s[0])
    ensures i > 0 ==> s[0] != '0'
    ensures i < 0 ==> |s| >= 2 && s[1] != '0'
    ensures i == 0 <==> s == "0"
  {
    if i < 0 then "-" + NatToString(-i) else NatToString(i)
  }

  /** The number a string of decimal digits denotes (leading zeros allowed). */
  function DigitsValue(s: string): nat
    requires AllDigits(s)
    decreases |s|
  {
    if s == [] then 0
    else DigitsValue(s[..|s| - 1]) * 10 + (s[|s| - 1] as int - '0' as int)
  }

  lemma {:induction false} DigitsValueOfNatToString(n: nat)
    ensures DigitsValue(NatToString(n)) == n
    decreases n
  {
    if n >= 10 {
      var s := NatToString(n / 10);
      DigitsValueOfNatToString(n / 10);
      assert (s + [DigitChar(n % 10)])[..|s|] == s;
    }
  }

  /** The ASCII whitespace `int()` strips: space and `\t` through `\r`. */
  predicate IsSpace(c: char)
  {
    c == ' ' || ('\t' <= c <= '\r')
  }

  function StripLeft(s: string): (r: string)
    ensures r == [] || !IsSpace(r[0])
    decreases |s|
  {
    if s != [] && IsSpace(s[0]) then StripLeft(s[1..]) else s
  }

  function StripRight(s: string): (r: string)
    ensures r == [] || !IsSpace(r[|r| - 1])
    decreases |s|
  {
    if s != [] && IsSpace(s[|s| - 1]) then StripRight(s[..|s| - 1]) else s
  }

  /**
   * The digit part `int()` accepts: digits, where a single `_` may stand
   * between two digits (`1_000`), never first, last or doubled.
   */
  predicate IsDigitRun(s: string)
  {
    && |s| > 0
    && IsDigit(s[0])
    && IsDigit(s[|s| - 1])
    && (forall i :: 0 <= i < |s| ==> IsDigit(s[i]) || s[i] == '_')
    && (forall i :: 0 <= i < |s| - 1 ==> s[i] == '_' ==> s[i + 1] != '_')
  }

  function DropUnderscores(s: string): (r: string)
    requires forall i :: 0 <= i < |s| ==> IsDigit(s[i]) || s[i] == '_'
    ensures AllDigits(r)
    decreases |s|
  {
    if s == [] then []
    else (if s[0] == '_' then [] else [s[0]]) + DropUnderscores(s[1..])
  }

  /** The value of an unsigned digit run; `None` when the text is not one. */
  function ParseDigitRun(s: string): Option<nat>
  {
    if IsDigitRun(s) then Some(DigitsValue(DropUnderscores(s))) else None
  }

  /**
   * Python's `int(s)` on text: surrounding whitespace is ignored, an
   * optional sign, then a digit run. `None` is the `ValueError` case.
   */
  function ParseInt(s: string): Option<int>
  {
    var t := StripRight(StripLeft(s));
    if t != [] && (t[0] == '-' || t[0] == '+') then
      match ParseDigitRun(t[1..])
      case None => None
      case Some(magnitude) => Some(if t[0] == '-' then -(magnitude as int) else magnitude)
    else
      match ParseDigitRun(t)
      case None => None
      case Some(magnitude) => Some(magnitude)
  }

  lemma {:induction false} DropUnderscoresOfDigits(s: string)
    requires AllDigits(s)
    ensures DropUnderscores(s) == s
    decreases |s|
  {
    if s != [] {
      DropUnderscoresOfDigits(s[1..]);
    }
  }

  /** Text that neither starts nor ends with whitespace is left as it is by stripping. */
  lemma StripUnchanged(s: string)
    requires s != [] && !IsSpace(s[0]) && !IsSpace(s[|s| - 1])
    ensures StripRight(StripLeft(s)) == s
  {
    assert StripLeft(s) == s;
  }

  /** A plain digit string is a digit run denoting its value. */
  lemma ParseDigitRunOfDigits(digits: string)
    requires |digits| > 0 && AllDigits(digits)
    ensures ParseDigitRun(digits) == Some(DigitsValue(digits))
  {
    DropUnderscoresOfDigits(digits);
    assert IsDigitRun(digits);
  }

  /** `int()` reads an unsigned digit string as its value. */
  lemma ParseIntOfDigits(digits: string)
    requires |digits| > 0 && AllDigits(digits)
    ensures ParseInt(digits) == Some(DigitsValue(digits))
  {
    StripUnchanged(digits);
    ParseDigitRunOfDigits(digits);
  }

  /** `int()` reads `-` followed by a digit string as the negated value. */
  lemma ParseIntOfNegatedDigits(s: string)
    requires |s| > 1 && s[0] == '-' && AllDigits(s[1..])
    ensures ParseInt(s) == Some(-(DigitsValue(s[1..]) as int))
  {
    assert IsDigit(s[1..][|s| - 2]);
    StripUnchanged(s);
    ParseDigitRunOfDigits(s[1..]);
  }

  /** Reading back what `str` printed gives the integer again. */
  lemma ParseIntOfIntToString(i: int)
    ensures ParseInt(IntToString(i)) == Some(i)
  {
    var s := IntToString(i);
    if i < 0 {
      var digits := NatToString(-i);
      assert s[1..] == digits;
      ParseIntOfNegatedDigits(s);
      DigitsValueOfNatToString(-i);
    } else {
      ParseIntOfDigits(s);
      DigitsValueOfNatToString(i);
    }
  }
}
