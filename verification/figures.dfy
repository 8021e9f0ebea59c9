/** Numbers in figures: how a run of digits and commas is read, and how a number
    is written (backend/libs/guardrails/normalize.py:162-165). */
module Figures {
  import opened Ascii

  predicate InFigure(c: char) { IsDigit(c) || c == ',' }

  /** The length of the run of digits and commas at the front. */
  function RunLength(s: string): (n: nat)
    ensures n <= |s|
    ensures forall i :: 0 <= i < n ==> InFigure(s[i])
    ensures n < |s| ==> !InFigure(s[n])
  {
    if s != "" && InFigure(s[0]) then 1 + RunLength(s[1..]) else 0
  }

  /** int() of the run with its commas removed. */
  function Value(s: string): nat {
    if s == "" then 0
    else if IsDigit(s[|s| - 1]) then 10 * Value(s[..|s| - 1]) + (s[|s| - 1] as int - '0' as int)
    else Value(s[..|s| - 1])
  }

  lemma {:induction false} RunLengthIs(d: string, q: string)
    requires forall i :: 0 <= i < |d| ==> InFigure(d[i])
    requires q == "" || !InFigure(q[0])
    ensures RunLength(d + q) == |d|
  {
    if d == "" { assert d + q == q; } else {
      assert (d + q)[1..] == d[1..] + q;
      RunLengthIs(d[1..], q);
    }
  }

  function Digit(n: nat): char
    requires n < 10
  {
    ('0' as int + n) as char
  }

  /** A number in figures. */
  function Digits(n: nat): (d: string)
    ensures d != "" && forall i :: 0 <= i < |d| ==> IsDigit(d[i])
    ensures Value(d) == n
  {
    if n < 10 then
      assert Value([]) == 0;
      assert [Digit(n)][..0] == [];
      [Digit(n)]
    else
      var front := Digits(n / 10);
      assert (front + [Digit(n % 10)])[..|front|] == front;
      front + [Digit(n % 10)]
  }

  function ThreeDigits(n: nat): string
    requires n < 1000
  {
    [Digit(n / 100), Digit(n / 10 % 10), Digit(n % 10)]
  }

  lemma ValueAfter(s: string, c: char)
    requires InFigure(c)
    ensures Value(s + [c]) == if c == ',' then Value(s) else 10 * Value(s) + (c as int - '0' as int)
  {
    assert (s + [c])[..|s + [c]| - 1] == s;
  }

  /** A number in figures with a comma before every three digits. */
  function Grouped(n: nat): (d: string)
    ensures d != "" && IsDigit(d[0]) && forall i :: 0 <= i < |d| ==> InFigure(d[i])
  {
    if n < 1000 then Digits(n) else Grouped(n / 1000) + "," + ThreeDigits(n % 1000)
  }

  lemma ThreeDigitsAdd(k: nat)
    requires k < 1000
    ensures k / 100 < 10 && k == k / 100 * 100 + k / 10 % 10 * 10 + k % 10
    ensures InFigure(Digit(k / 100)) && InFigure(Digit(k / 10 % 10)) && InFigure(Digit(k % 10)) && InFigure(',')
    ensures ',' !in [Digit(k / 100), Digit(k / 10 % 10), Digit(k % 10)]
  {
  }

  lemma {:induction false} GroupedReadsBack(n: nat)
    ensures Value(Grouped(n)) == n
  {
    if n >= 1000 {
      hide Value, InFigure;
      ThreeDigitsAdd(n % 1000);
      GroupedReadsBack(n / 1000);
      var s, k := Grouped(n / 1000), n % 1000;
      ValueAfter(s, ',');
      ValueAfter(s + ",", Digit(k / 100));
      ValueAfter(s + "," + [Digit(k / 100)], Digit(k / 10 % 10));
      ValueAfter(s + "," + [Digit(k / 100)] + [Digit(k / 10 % 10)], Digit(k % 10));
      assert s + "," + ThreeDigits(k) == s + "," + [Digit(k / 100)] + [Digit(k / 10 % 10)] + [Digit(k % 10)];
    }
  }

  // ------------------------------------------------------ figures in a text

  /** Something that is no digit and no comma comes after i, at k at the latest. */
  predicate BrokenOff(s: string, i: int, k: int)
    requires 0 <= i && k <= |s|
  {
    exists j :: i < j <= k && j < |s| && !InFigure(s[j])
  }

  /** A figure of the text: it starts at a digit that no comma ties to an earlier
      digit, and runs as far as digits and commas do. */
  predicate IsFigure(s: string, start: int, end: int) {
    && 0 <= start < end <= |s| && IsDigit(s[start])
    && (forall i :: start <= i < end ==> InFigure(s[i]))
    && (end < |s| ==> !InFigure(s[end]))
    && (forall i :: 0 <= i < start && IsDigit(s[i]) ==> BrokenOff(s, i, start))
  }

  /** No figure reaches from before `at` past it. */
  predicate Clean(s: string, at: nat)
    requires at <= |s|
  {
    at == |s| || forall i :: 0 <= i < at && IsDigit(s[i]) ==> BrokenOff(s, i, at)
  }

  /** The figure that starts at a digit is the run from there, and no other starts
      in it. */
  lemma RunIsTheFigure(s: string, at: nat)
    requires at < |s| && Clean(s, at) && IsDigit(s[at])
    ensures var n := RunLength(s[at..]);
      && n > 0 && Clean(s, at + n) && IsFigure(s, at, at + n)
      && (forall j :: IsFigure(s, at, j) ==> j == at + n)
      && (forall i, j :: IsFigure(s, i, j) && i > at ==> i >= at + n)
  {
    var n := RunLength(s[at..]);
    forall i | at <= i < at + n ensures InFigure(s[i]) { assert s[i] == s[at..][i - at]; }
    if at + n < |s| { assert s[at + n] == s[at..][n]; }
    forall i, j | IsFigure(s, i, j) && i > at ensures i >= at + n { assert BrokenOff(s, at, i); }
  }

  lemma CleanGoesOn(s: string, at: nat)
    requires at < |s| && Clean(s, at) && !IsDigit(s[at])
    ensures Clean(s, at + 1)
  {
    forall i | 0 <= i < at && IsDigit(s[i]) ensures at + 1 < |s| ==> BrokenOff(s, i, at + 1) {
      var j :| i < j <= at && !InFigure(s[j]);
    }
  }

  lemma CleanAtStart(s: string)
    ensures Clean(s, 0)
  {
  }
}
