/**
 * Python's `str()` of an integer, as used in the session cart's line keys
 * (`f"{product.id}_{size}"`) and in payment references (`f"ORD-{order.id}-..."`),
 * together with its inverse `int()`. The round trip is what makes keys and
 * references carry their ids unambiguously.
 */
module DecimalText {

  predicate IsDigit(c: char) {
    '0' <= c <= '9'
  }

  predicate AllDigits(s: string) {
    forall i :: 0 <= i < |s| ==> IsDigit(s[i])
  }

  /** The decimal digit whose value is `d`. */
  function DigitChar(d: nat): (c: char)
    requires d < 10
    ensures IsDigit(c) && c as int - '0' as int == d
  {
    ('0' as int + d) as char
  }

  /** `str(n)` for a non-negative integer: its decimal digits, most significant first. */
  function NatToStr(n: nat): (s: string)
    ensures 1 <= |s| && AllDigits(s)
    ensures n < 10 <==> |s| == 1
  {
    if n < 10 then [DigitChar(n)] else NatToStr(n / 10) + [DigitChar(n % 10)]
  }

  /** `int(s)` for a string of decimal digits. */
  function DigitsValue(s: string): nat
    requires AllDigits(s)
  {
    if s == [] then 0 else DigitsValue(s[..|s| - 1]) * 10 + (s[|s| - 1] as int - '0' as int)
  }

  /** `str(i)` for any integer: a minus sign before the digits of a negative number. */
  function IntToStr(i: int): (s: string)
    ensures 1 <= |s|
    ensures i < 0 <==> s[0] == '-'
  {
    if i < 0 then "-" + NatToStr(-i) else NatToStr(i)
  }

  /** `int(s)` for a string produced by `str()` of an integer. */
  function ParseInt(s: string): int
    requires 1 <= |s|
    requires if s[0] == '-' then AllDigits(s[1..]) else AllDigits(s)
  {
    if s[0] == '-' then -(DigitsValue(s[1..]) as int) else DigitsValue(s)
  }

  /** `int(str(n)) == n`. */
  lemma {:induction false} NatRoundTrip(n: nat)
    ensures DigitsValue(NatToStr(n)) == n
  {
    if n >= 10 {
      var s := NatToStr(n);
      assert s[..|s| - 1] == NatToStr(n / 10);
      NatRoundTrip(n / 10);
    }
  }

  lemma NatToStrInjective(a: nat, b: nat)
    requires NatToStr(a) == NatToStr(b)
    ensures a == b
  {
    NatRoundTrip(a);
    NatRoundTrip(b);
  }

  /** `int(str(i)) == i` for every integer, negative ones included. */
  lemma IntRoundTrip(i: int)
    ensures var s := IntToStr(i);
            (if s[0] == '-' then AllDigits(s[1..]) else AllDigits(s)) && ParseInt(s) == i
  {
    var s := IntToStr(i);
    if i < 0 {
      assert s[1..] == NatToStr(-i);
      NatRoundTrip(-i);
    } else {
      assert s[0] != '-';
      NatRoundTrip(i);
    }
  }

  lemma IntToStrInjective(a: int, b: int)
    requires IntToStr(a) == IntToStr(b)
    ensures a == b
  {
    IntRoundTrip(a);
    IntRoundTrip(b);
  }

  /**
   * A run of digits followed by a non-digit separator is read back unambiguously:
   * if `str(a) + sep` is a prefix of `str(b) + sep + rest`, then `a == b`.
   */
  lemma SeparatedPrefix(a: nat, b: nat, sep: char, rest: string)
    requires !IsDigit(sep)
    requires NatToStr(a) + [sep] <= NatToStr(b) + [sep] + rest
    ensures a == b
  {
    var x, y := NatToStr(a), NatToStr(b);
    var whole := y + [sep] + rest;
    // Compare the first position where one digit run may have ended.
    var k := if |x| < |y| then |x| else |y|;
    assert (x + [sep])[k] == whole[k];
    assert |x| == |y|;
    assert x == (x + [sep])[..|x|] == whole[..|y|] == y;
    NatToStrInjective(a, b);
  }
}
