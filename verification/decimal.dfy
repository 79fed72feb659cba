/** Decimal text of integers, as Kotlin's string templates write an `Int`
    ("${maxIdx}" gives "-1", "0", "1000"), and the reading of such text
    back into the integer it denotes. */
module Decimal {

  predicate IsDigit(c: char) {
    '0' <= c <= '9'
  }

  predicate AllDigits(s: string) {
    forall i :: 0 <= i < |s| ==> IsDigit(s[i])
  }

  function DigitChar(d: nat): (c: char)
    requires d < 10
    ensures IsDigit(c) && c as int - '0' as int == d
  {
    ('0' as int + d) as char
  }

  /** The shortest decimal text of `n`: at least one digit, no sign. */
  function NatText(n: nat): (s: string)
    ensures |s| >= 1 && AllDigits(s)
    ensures |s| > 1 ==> s[0] != '0'
    decreases n
  {
    if n < 10 then [DigitChar(n)] else NatText(n / 10) + [DigitChar(n % 10)]
  }

  /** The value of a string of digits, most significant first. */
  function DigitsValue(s: string): nat
    requires AllDigits(s)
  {
    if |s| == 0 then 0
    else DigitsValue(s[..|s| - 1]) * 10 + (s[|s| - 1] as int - '0' as int)
  }

  /** Decimal text of an integer: a '-' before the digits when negative. */
  function IntText(i: int): string {
    if i < 0 then "-" + NatText(-i) else NatText(i)
  }

  /** An optional '-' followed by at least one digit. */
  predicate IsIntText(s: string) {
    |s| > 0 && (if s[0] == '-' then |s| > 1 && AllDigits(s[1..]) else AllDigits(s))
  }

  /** The integer denoted by an optional '-' followed by digits. */
  function IntValue(s: string): int
    requires IsIntText(s)
  {
    if s[0] == '-' then 0 - DigitsValue(s[1..]) else DigitsValue(s)
  }

  /** A character that can occur in the text of an integer. */
  predicate IsNumberChar(c: char) {
    IsDigit(c) || c == '-'
  }

  lemma IntTextChars(i: int)
    ensures forall k :: 0 <= k < |IntText(i)| ==> IsNumberChar(IntText(i)[k])
  {
  }

  /** A number's text followed by a character that cannot continue it splits
      in one way only. */
  lemma SplitAfterNumber(a: string, t: string, a2: string, t2: string)
    requires forall k :: 0 <= k < |a| ==> IsNumberChar(a[k])
    requires forall k :: 0 <= k < |a2| ==> IsNumberChar(a2[k])
    requires |t| > 0 && !IsNumberChar(t[0]) && |t2| > 0 && !IsNumberChar(t2[0])
    requires a + t == a2 + t2
    ensures a == a2 && t == t2
  {
    assert a == (a + t)[..|a|] && a2 == (a2 + t2)[..|a2|];
    assert t == (a + t)[|a|..] && t2 == (a2 + t2)[|a2|..];
  }

  lemma {:induction false} NatTextRoundTrip(n: nat)
    ensures DigitsValue(NatText(n)) == n
    decreases n
  {
    if n >= 10 {
      NatTextRoundTrip(n / 10);
      var s := NatText(n);
      assert s[..|s| - 1] == NatText(n / 10);
    }
  }

  /** Reading the text of an integer back gives that integer, so the text
      determines the value it quotes. */
  lemma IntTextRoundTrip(i: int)
    ensures IsIntText(IntText(i)) && (IntText(i)[0] == '-' <==> i < 0)
    ensures IntValue(IntText(i)) == i
  {
    if i < 0 {
      NatTextRoundTrip(-i);
      assert IntText(i)[1..] == NatText(-i);
    } else {
      NatTextRoundTrip(i);
    }
  }

  /** Different integers are written differently. */
  lemma IntTextInjective(i: int, j: int)
    requires IntText(i) == IntText(j)
    ensures i == j
  {
    IntTextRoundTrip(i);
    IntTextRoundTrip(j);
  }
}
