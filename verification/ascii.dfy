/** ASCII character classes and the few string operations the sources use. */
module Ascii {

  predicate IsDigit(c: char) { '0' <= c <= '9' }

  predicate IsLowerLetter(c: char) { 'a' <= c <= 'z' }

  predicate IsUpperLetter(c: char) { 'A' <= c <= 'Z' }

  /** The ASCII characters that Python's `\s`, `split` and `strip` take as blank. */
  predicate IsSpace(c: char) {
    c == ' ' || '\t' <= c <= '\r' || '\U{1C}' <= c <= '\U{1F}'
  }

  function LowerChar(c: char): char {
    if IsUpperLetter(c) then ((c as int) + 32) as char else c
  }

  function UpperChar(c: char): char {
    if IsLowerLetter(c) then ((c as int) - 32) as char else c
  }

  function Lower(s: string): (r: string)
    ensures |r| == |s|
    ensures forall i :: 0 <= i < |s| ==> r[i] == LowerChar(s[i])
  {
    seq(|s|, i requires 0 <= i < |s| => LowerChar(s[i]))
  }

  function Upper(s: string): (r: string)
    ensures |r| == |s|
    ensures forall i :: 0 <= i < |s| ==> r[i] == UpperChar(s[i])
  {
    seq(|s|, i requires 0 <= i < |s| => UpperChar(s[i]))
  }

  function LStrip(s: string): (r: string)
    ensures |r| <= |s| && r == s[|s| - |r|..]
    ensures forall i :: 0 <= i < |s| - |r| ==> IsSpace(s[i])
    ensures r != "" ==> !IsSpace(r[0])
  {
    if s != "" && IsSpace(s[0]) then LStrip(s[1..]) else s
  }

  function RStrip(s: string): (r: string)
    ensures r <= s
    ensures forall i :: |r| <= i < |s| ==> IsSpace(s[i])
    ensures r != "" ==> !IsSpace(r[|r| - 1])
  {
    if s != "" && IsSpace(s[|s| - 1]) then RStrip(s[..|s| - 1]) else s
  }

  function Strip(s: string): string { RStrip(LStrip(s)) }

  predicate Blank(s: string) { forall i :: 0 <= i < |s| ==> IsSpace(s[i]) }

  /** A letter and itself, or a capital and its small letter. */
  predicate SameLetter(c: char, small: char) { c == small || (IsUpperLetter(c) && c as int + 32 == small as int) }

  predicate SameWord(s: string, small: string) { |s| == |small| && forall i :: 0 <= i < |s| ==> SameLetter(s[i], small[i]) }

  /** `s` is the word `small` in any capitals, with blanks around it. */
  ghost predicate IsTheWord(s: string, small: string) {
    exists i, j :: 0 <= i <= j <= |s| && Blank(s[..i]) && Blank(s[j..]) && SameWord(s[i..j], small)
  }

  lemma LowerIff(s: string, small: string)
    requires forall i :: 0 <= i < |small| ==> !IsUpperLetter(small[i])
    ensures Lower(s) == small <==> SameWord(s, small)
  {
    if SameWord(s, small) { assert forall i :: 0 <= i < |s| ==> LowerChar(s[i]) == small[i]; }
    if Lower(s) == small { assert forall i :: 0 <= i < |s| ==> Lower(s)[i] == small[i]; }
  }

  /** Stripping takes off what is blank at either end, and nothing else. */
  lemma StripTakesBlanks(s: string) returns (i: nat, j: nat)
    ensures i <= j <= |s| && Blank(s[..i]) && Blank(s[j..]) && Strip(s) == s[i..j]
    ensures i < j ==> !IsSpace(s[i]) && !IsSpace(s[j - 1])
  {
    hide Blank, IsSpace, LStrip, RStrip;
    var left := LStrip(s);
    i, j := |s| - |left|, |s| - |left| + |RStrip(left)|;
    StrippedEnds(s, left, RStrip(left), i, j);
  }

  lemma StrippedEnds(s: string, left: string, middle: string, i: nat, j: nat)
    requires i <= j <= |s| && left == s[i..] && |middle| == j - i && middle <= left
    requires (forall k :: 0 <= k < i ==> IsSpace(s[k])) && (forall k :: |middle| <= k < |left| ==> IsSpace(left[k]))
    requires left != "" ==> !IsSpace(left[0])
    requires middle != "" ==> !IsSpace(middle[|middle| - 1])
    ensures Blank(s[..i]) && Blank(s[j..]) && middle == s[i..j]
    ensures i < j ==> !IsSpace(s[i]) && !IsSpace(s[j - 1])
  {
    forall k | 0 <= k < |s[j..]| ensures IsSpace(s[j..][k]) { assert s[j..][k] == left[j - i + k]; }
  }

  /** Stripped and in small letters, it is a word without blanks at its ends, exactly
      when it is that word with blanks around it. */
  lemma StripLowerIff(s: string, small: string)
    requires small != "" && (forall i :: 0 <= i < |small| ==> !IsUpperLetter(small[i]))
    requires !IsSpace(small[0]) && !IsSpace(small[|small| - 1])
    ensures Lower(Strip(s)) == small <==> IsTheWord(s, small)
  {
    hide Strip, Lower;
    var i, j := StripTakesBlanks(s);
    LowerIff(Strip(s), small);
    if IsTheWord(s, small) {
      var k, l :| 0 <= k <= l <= |s| && Blank(s[..k]) && Blank(s[l..]) && SameWord(s[k..l], small);
      SameEnds(s, i, j, k, l, small);
    }
  }

  lemma SameEnds(s: string, i: int, j: int, k: int, l: int, small: string)
    requires 0 <= i <= j <= |s| && Blank(s[..i]) && Blank(s[j..]) && (i < j ==> !IsSpace(s[i]) && !IsSpace(s[j - 1]))
    requires 0 <= k <= l <= |s| && Blank(s[..k]) && Blank(s[l..]) && SameWord(s[k..l], small)
    requires small != "" && !IsSpace(small[0]) && !IsSpace(small[|small| - 1])
    ensures i == k && j == l
  {
    assert s[k..l][0] == s[k] && s[k..l][l - k - 1] == s[l - 1];
    assert !IsSpace(s[k]) && !IsSpace(s[l - 1]);
    BlankEnds(s, i, j);
    BlankEnds(s, k, l);
  }

  lemma BlankEnds(s: string, i: int, j: int)
    requires 0 <= i <= j <= |s| && Blank(s[..i]) && Blank(s[j..])
    ensures forall m :: 0 <= m < i || j <= m < |s| ==> IsSpace(s[m])
  {
    forall m | 0 <= m < i ensures IsSpace(s[m]) { assert s[..i][m] == s[m]; }
    forall m | j <= m < |s| ensures IsSpace(s[m]) { assert s[j..][m - j] == s[m]; }
  }

  lemma NothingToStrip(s: string)
    requires s != "" && !IsSpace(s[0]) && !IsSpace(s[|s| - 1])
    ensures Strip(s) == s
  {
  }

  lemma LowerStays(s: string)
    requires forall i :: 0 <= i < |s| ==> !IsUpperLetter(s[i])
    ensures Lower(s) == s
  {
  }
}
