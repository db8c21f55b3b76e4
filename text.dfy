/** Decimal text of numbers as JavaScript writes them with template literals
    (`${n}`) and as `parseInt` reads a run of digits back. */
module Text {

  predicate IsDigit(ch: char) {
    '0' <= ch <= '9'
  }

  predicate AllDigits(s: string) {
    forall k :: 0 <= k < |s| ==> IsDigit(s[k])
  }

  function DigitChar(d: nat): (ch: char)
    requires d < 10
    ensures IsDigit(ch) && ch as int - '0' as int == d
  {
    ('0' as int + d) as char
  }

  /** `${n}` for a natural number: the shortest decimal text, no leading zeros. */
  function NatText(n: nat): (s: string)
    ensures |s| >= 1 && AllDigits(s)
    decreases n
  {
    if n < 10 then [DigitChar(n)] else NatText(n / 10) + [DigitChar(n % 10)]
  }

  /** `${n}` for an integer: a minus sign before the digits of a negative number. */
  function IntText(n: int): string {
    if n < 0 then "-" + NatText(-n) else NatText(n)
  }

  /** What `parseInt` gives for a string made of decimal digits only. */
  function DigitsValue(s: string): nat
    requires AllDigits(s)
  {
    if s == [] then 0
    else DigitsValue(s[..|s| - 1]) * 10 + (s[|s| - 1] as int - '0' as int)
  }

  lemma {:induction false} NatTextRoundTrip(n: nat)
    ensures DigitsValue(NatText(n)) == n
    decreases n
  {
    if n >= 10 {
      var s := NatText(n);
      assert s[..|s| - 1] == NatText(n / 10);
      NatTextRoundTrip(n / 10);
    }
  }

  /** The length of the run of digits in `s` that starts at index `i`: how far a
      greedy `\d+` reaches from there. */
  function DigitRun(s: string, i: nat): (k: nat)
    requires i <= |s|
    ensures i + k <= |s|
    ensures forall j :: i <= j < i + k ==> IsDigit(s[j])
    ensures i + k == |s| || !IsDigit(s[i + k])
    decreases |s| - i
  {
    if i < |s| && IsDigit(s[i]) then 1 + DigitRun(s, i + 1) else 0
  }

  /** A greedy digit run stops exactly at the first non-digit. */
  lemma {:induction false} DigitRunStops(s: string, i: nat, n: nat)
    requires i + n <= |s|
    requires forall j :: i <= j < i + n ==> IsDigit(s[j])
    requires i + n == |s| || !IsDigit(s[i + n])
    ensures DigitRun(s, i) == n
    decreases n
  {
    if n > 0 {
      DigitRunStops(s, i + 1, n - 1);
    }
  }

  /** The decimal fraction JavaScript prints for a number of eighths 1..7. */
  function FracText(e: nat): (s: string)
    requires 0 < e < 8
    ensures |s| >= 1 && AllDigits(s)
  {
    ["125", "25", "375", "5", "625", "75", "875"][e - 1]
  }

  /** `${x}` for a non-negative number x given in eighths, x == e / 8: the integer
      part, then a point and the fraction when x is not whole. A double holds
      every such value exactly and JavaScript prints it exactly. */
  function EighthsText(e: nat): (s: string)
    ensures forall k :: 0 <= k < |s| ==> IsDigit(s[k]) || s[k] == '.'
    ensures |NatText(e / 8)| <= |s| && s[..|NatText(e / 8)|] == NatText(e / 8)
    ensures e % 8 == 0 <==> s == NatText(e / 8)
    ensures e % 8 != 0 ==> s[|NatText(e / 8)|] == '.'
  {
    if e % 8 == 0 then NatText(e / 8)
    else
      NatText(e / 8) + "." + FracText(e % 8)
  }
}
