/**
 * Decimal text of integers, as Python's `str(int)` writes it and as `int(str)`
 * reads it (an optional sign followed by decimal digits).
 */
module Decimal {
  import opened Wrappers

  predicate IsDigit(c: char) { '0' <= c <= '9' }

  predicate AllDigits(s: string) { forall i :: 0 <= i < |s| ==> IsDigit(s[i]) }

  function DigitChar(d: nat): (c: char)
    requires d < 10
    ensures IsDigit(c)
  {
    (('0' as int) + d) as char
  }

  function DigitValue(c: char): (d: nat)
    requires IsDigit(c)
    ensures d < 10 && DigitChar(d) == c
  {
    c as int - '0' as int
  }

  /** The number a run of decimal digits denotes (most significant first). */
  function DigitsValue(s: string): nat
    requires AllDigits(s)
  {
    if s == [] then 0 else 10 * DigitsValue(s[..|s| - 1]) + DigitValue(s[|s| - 1])
  }

  /** `str(n)` for `n >= 0`: a non-empty run of digits without a leading zero that denotes `n`. */
  function NatToString(n: nat): (s: string)
    ensures |s| > 0 && AllDigits(s)
    ensures |s| > 1 ==> s[0] != '0'
    ensures DigitsValue(s) == n
  {
    if n < 10 then
      [DigitChar(n)]
    else
      var prefix := NatToString(n / 10);
      var s := prefix + [DigitChar(n % 10)];
      assert s[..|s| - 1] == prefix;
      s
  }

  /** `str(i)` for any integer: a minus sign before the digits of a negative value. */
  function IntToString(i: int): (s: string)
    ensures |s| > 0
  {
    if i < 0 then "-" + NatToString(-i) else NatToString(i)
  }

  /** `int(s)` restricted to the syntax `[+-]?[0-9]+`; `None` is Python's ValueError. */
  function ParseInt(s: string): Option<int>
  {
    if |s| > 0 && (s[0] == '-' || s[0] == '+') then
      var body := s[1..];
      if |body| > 0 && AllDigits(body) then
        Some(if s[0] == '-' then -(DigitsValue(body) as int) else DigitsValue(body) as int)
      else
        None
    else if |s| > 0 && AllDigits(s) then
      Some(DigitsValue(s) as int)
    else
      None
  }

  /** Reading back what `str` wrote gives the integer back. */
  lemma ParseIntToString(i: int)
    ensures ParseInt(IntToString(i)) == Some(i)
  {
    if i < 0 {
      var t := NatToString(-i);
      assert ("-" + t)[1..] == t;
    }
  }

  /** The number of decimal digits at the end of `s`. */
  function TrailingDigitCount(s: string): (k: nat)
    ensures k <= |s|
    ensures forall j :: |s| - k <= j < |s| ==> IsDigit(s[j])
    ensures k < |s| ==> !IsDigit(s[|s| - k - 1])
  {
    if s == [] || !IsDigit(s[|s| - 1]) then 0 else TrailingDigitCount(s[..|s| - 1]) + 1
  }

  /**
   * Splits an integer written at the end of `s` off the text before it:
   * the trailing digits, and a minus sign just before them if there is one.
   */
  function SplitTrailingInt(s: string): Option<(string, int)>
  {
    var k := TrailingDigitCount(s);
    if k == 0 then
      None
    else
      var digits := s[|s| - k..];
      var rest := s[..|s| - k];
      if |rest| > 0 && rest[|rest| - 1] == '-' then
        Some((rest[..|rest| - 1], -(DigitsValue(digits) as int)))
      else
        Some((rest, DigitsValue(digits) as int))
  }

  lemma {:induction false} TrailingDigitCountAppend(p: string, d: string)
    requires AllDigits(d)
    requires p == [] || !IsDigit(p[|p| - 1])
    ensures TrailingDigitCount(p + d) == |d|
    decreases |d|
  {
    if d == [] {
      assert p + d == p;
    } else {
      var d' := d[..|d| - 1];
      assert (p + d)[..|p + d| - 1] == p + d';
      TrailingDigitCountAppend(p, d');
    }
  }

  /** Digits appended to text that does not end in a digit are found again as its trailing run. */
  lemma SplitDigitsAppend(q: string, t: string)
    requires |t| > 0 && AllDigits(t)
    requires q == [] || !IsDigit(q[|q| - 1])
    ensures var s := q + t; TrailingDigitCount(s) == |t| && s[|s| - |t|..] == t && s[..|s| - |t|] == q
  {
    TrailingDigitCountAppend(q, t);
    var s := q + t;
    assert s[|s| - |t|..] == t;
    assert s[..|s| - |t|] == q;
  }

  /** `SplitTrailingInt` on text already known to split as `q + t` at a digit run `t`. */
  lemma SplitAtDigitRun(s: string, q: string, t: string)
    requires |t| > 0 && AllDigits(t) && s == q + t
    requires TrailingDigitCount(s) == |t|
    requires s[|s| - |t|..] == t && s[..|s| - |t|] == q
    ensures q != [] && q[|q| - 1] == '-' ==> SplitTrailingInt(s) == Some((q[..|q| - 1], -(DigitsValue(t) as int)))
    ensures (q == [] || q[|q| - 1] != '-') ==> SplitTrailingInt(s) == Some((q, DigitsValue(t) as int))
  {
    var k := TrailingDigitCount(s);
    assert s[|s| - k..] == t && s[..|s| - k] == q;
  }

  /** What `SplitTrailingInt` makes of text that ends in a known run of digits. */
  lemma SplitTrailingDigits(q: string, t: string)
    requires |t| > 0 && AllDigits(t)
    requires q == [] || !IsDigit(q[|q| - 1])
    ensures q != [] && q[|q| - 1] == '-' ==> SplitTrailingInt(q + t) == Some((q[..|q| - 1], -(DigitsValue(t) as int)))
    ensures (q == [] || q[|q| - 1] != '-') ==> SplitTrailingInt(q + t) == Some((q, DigitsValue(t) as int))
  {
    SplitDigitsAppend(q, t);
    SplitAtDigitRun(q + t, q, t);
  }

  /**
   * An integer written after text that does not end in a digit or a minus
   * sign is split off again exactly.
   */
  lemma SplitTrailingIntToString(p: string, i: int)
    requires p == [] || (!IsDigit(p[|p| - 1]) && p[|p| - 1] != '-')
    ensures SplitTrailingInt(p + IntToString(i)) == Some((p, i))
  {
    if i < 0 {
      var t := NatToString(-i);
      assert p + IntToString(i) == (p + "-") + t;
      SplitTrailingDigits(p + "-", t);
      assert (p + "-")[..|p + "-"| - 1] == p;
    } else {
      SplitTrailingDigits(p, NatToString(i));
    }
  }
}
