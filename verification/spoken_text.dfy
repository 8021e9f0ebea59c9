/** From words to text: what is said or written anywhere in a message is found
    in it (backend/libs/guardrails/normalize.py:147-193). */
module SpokenText {
  import opened Ascii
  import opened Figures
  import opened NumberWords
  import opened SpokenAmounts

  predicate Gap(s: string) { s != "" && forall i :: 0 <= i < |s| ==> !IsLowerLetter(s[i]) }

  predicate StartsWithLetter(s: string) { s != "" && IsLowerLetter(s[0]) }

  predicate EndsWithLetter(s: string) { s != "" && IsLowerLetter(s[|s| - 1]) }

  // --------------------------------------------------------------- splitting

  lemma {:induction false} LetterRunIs(w: string, rest: string)
    requires forall i :: 0 <= i < |w| ==> IsLowerLetter(w[i])
    requires !StartsWithLetter(rest)
    ensures LetterRun(w + rest) == |w|
  {
    if w == "" { assert w + rest == rest; } else {
      assert (w + rest)[1..] == w[1..] + rest;
      LetterRunIs(w[1..], rest);
    }
  }

  lemma {:induction false} GapRunIs(g: string, rest: string)
    requires forall i :: 0 <= i < |g| ==> !IsLowerLetter(g[i])
    requires rest == "" || StartsWithLetter(rest)
    ensures GapRun(g + rest) == |g|
  {
    if g == "" { assert g + rest == rest; } else {
      assert (g + rest)[1..] == g[1..] + rest;
      GapRunIs(g[1..], rest);
    }
  }

  /** A word and the gap after it split off the front. */
  lemma SplitOff(w: string, g: string, rest: string)
    requires forall i :: 0 <= i < |w| ==> IsLowerLetter(w[i])
    requires Gap(g) && (rest == "" || StartsWithLetter(rest))
    ensures Split(w + g + rest) == [w] + Split(rest)
  {
    var s := w + g + rest;
    assert s == w + (g + rest);
    LetterRunIs(w, g + rest);
    GapRunIs(g, rest);
    assert s[|w|..] == g + rest && s[..|w|] == w;
    assert s[|w| + |g|..] == rest;
  }

  function AllButLast(tokens: seq<string>): seq<string>
    requires tokens != []
  {
    tokens[..|tokens| - 1]
  }

  /** The words in front of a position that a gap precedes. */
  function WordsBefore(p: string): seq<string> { if p == "" then [] else AllButLast(Split(p)) }

  /** The words behind a position that a gap follows. */
  function WordsAfter(q: string): seq<string> { if q == "" then [] else Split(q)[1..] }

  lemma SplitWord(w: string)
    requires forall i :: 0 <= i < |w| ==> IsLowerLetter(w[i])
    ensures Split(w) == [w]
  {
    LetterRunIs(w, "");
    assert w + "" == w;
  }

  lemma PeelWord(p: string) returns (w: string, r: string)
    requires p != "" && !EndsWithLetter(p)
    ensures p == w + r && r != "" && !IsLowerLetter(r[0]) && !EndsWithLetter(r)
    ensures forall i :: 0 <= i < |w| ==> IsLowerLetter(w[i])
  {
    hide LetterRun;
    w, r := p[..LetterRun(p)], p[LetterRun(p)..];
  }

  lemma PeelGap(r: string) returns (gap: string, p1: string)
    requires r != "" && !IsLowerLetter(r[0]) && !EndsWithLetter(r)
    ensures r == gap + p1 && Gap(gap)
    ensures p1 == "" || (StartsWithLetter(p1) && !EndsWithLetter(p1))
  {
    hide GapRun;
    gap, p1 := r[..GapRun(r)], r[GapRun(r)..];
  }

  /** The first word of a text that a gap ends, the gap, and the rest. */
  lemma Peel(p: string) returns (w: string, gap: string, p1: string)
    requires p != "" && !EndsWithLetter(p)
    ensures p == w + gap + p1 && Gap(gap)
    ensures forall i :: 0 <= i < |w| ==> IsLowerLetter(w[i])
    ensures p1 == "" || (StartsWithLetter(p1) && !EndsWithLetter(p1))
  {
    hide Gap, EndsWithLetter, StartsWithLetter;
    var r;
    w, r := PeelWord(p);
    gap, p1 := PeelGap(r);
    assert w + (gap + p1) == w + gap + p1;
  }

  lemma {:induction false} SplitBehind(p: string, rest: string)
    requires !EndsWithLetter(p) && (rest == "" || StartsWithLetter(rest))
    ensures Split(p + rest) == WordsBefore(p) + Split(rest)
    decreases |p|
  {
    hide Split, Gap, EndsWithLetter, StartsWithLetter;
    if p == "" {
      assert p + rest == rest;
      assert [] + Split(rest) == Split(rest);
    } else {
      var w, gap, p1 := Peel(p);
      SplitOff(w, gap, p1);
      assert |gap| > 0 by { GapIsLong(gap); }
      if p1 == "" {
        SplitWord("");
        SplitOff(w, gap, rest);
        assert p + rest == w + gap + rest;
        assert WordsBefore(p) == [w];
      } else {
        SplitBehind(p1, rest);
        JoinedStarts(p1, rest);
        SplitOff(w, gap, p1 + rest);
        assert p + rest == w + gap + (p1 + rest);
        assert WordsBefore(p) == [w] + WordsBefore(p1);
        assert [w] + (WordsBefore(p1) + Split(rest)) == WordsBefore(p) + Split(rest);
      }
    }
  }

  lemma GapIsLong(g: string)
    requires Gap(g)
    ensures |g| > 0
  {
  }

  lemma JoinedStarts(p: string, rest: string)
    requires StartsWithLetter(p)
    ensures StartsWithLetter(p + rest)
  {
  }

  // ----------------------------------------------------------------- phrases

  /** Words with a gap between each and the next. */
  function Phrase(words: seq<string>, gaps: seq<string>): string
    requires |words| == |gaps| + 1
  {
    if gaps == [] then words[0] else words[0] + gaps[0] + Phrase(words[1..], gaps[1..])
  }

  predicate WellSpaced(words: seq<string>, gaps: seq<string>) {
    && |words| == |gaps| + 1
    && (forall i :: 0 <= i < |words| ==> Letters(words[i]))
    && (forall i :: 0 <= i < |gaps| ==> Gap(gaps[i]))
  }

  lemma PhraseStarts(words: seq<string>, gaps: seq<string>, q: string)
    requires WellSpaced(words, gaps)
    ensures StartsWithLetter(Phrase(words, gaps)) && StartsWithLetter(Phrase(words, gaps) + q)
  {
  }

  /** The last word of a phrase, and what follows it. */
  lemma SplitLast(w: string, q: string)
    requires Letters(w) && !StartsWithLetter(q)
    ensures Split(w + q) == [w] + WordsAfter(q)
  {
    hide Split;
    if q == "" {
      assert w + q == w;
      SplitWord(w);
      assert [w] + [] == [w];
    } else {
      var g := GapRun(q);
      assert q == q[..g] + q[g..];
      SplitOff(w, q[..g], q[g..]);
      SplitOff("", q[..g], q[g..]);
      assert w + q == w + q[..g] + q[g..] && q == "" + q[..g] + q[g..];
      assert WordsAfter(q) == Split(q[g..]);
    }
  }

  lemma {:induction false} SplitPhrase(words: seq<string>, gaps: seq<string>, q: string)
    requires WellSpaced(words, gaps) && !StartsWithLetter(q)
    ensures Split(Phrase(words, gaps) + q) == words + WordsAfter(q)
  {
    hide Split, Letters, Gap, WordsAfter;
    if gaps == [] {
      assert words == [words[0]];
      SplitLast(words[0], q);
    } else {
      var rest := Phrase(words[1..], gaps[1..]);
      PhraseStarts(words[1..], gaps[1..], q);
      SplitPhrase(words[1..], gaps[1..], q);
      LettersAre(words[0]);
      SplitOff(words[0], gaps[0], rest + q);
      assert Phrase(words, gaps) + q == words[0] + gaps[0] + (rest + q);
      assert words + WordsAfter(q) == [words[0]] + (words[1..] + WordsAfter(q));
    }
  }

  lemma LettersAre(w: string)
    requires Letters(w)
    ensures forall i :: 0 <= i < |w| ==> IsLowerLetter(w[i])
  {
  }

  lemma KindsJoin(a: seq<string>, b: seq<string>)
    ensures Kinds(a + b) == Kinds(a) + Kinds(b)
  {
    hide Kind;
  }

  /** In a message of any case, punctuation and spacing, an amount of a hundred
      dollars or more that is said in any style is found, unless the words on
      either side run into it. */
  lemma SpokenAmountIsFound(text: string, p: string, words: seq<string>, gaps: seq<string>, q: string, n: Numeral)
    requires WellSpaced(words, gaps) && Lower(text) == p + Phrase(words, gaps) + q
    requires !EndsWithLetter(p) && !StartsWithLetter(q)
    requires WellSaid(n) && Kinds(words) == NumeralWords(n) && NumeralValue(n) >= SPOKEN_FLOOR
    requires FreshStart(Kinds(WordsBefore(p))) && EndsThere(Kinds(WordsAfter(q)))
    ensures NumeralValue(n) in Amounts(text)
  {
    hide Kind, Kinds, Split, NumeralWords, Written;
    assert p + Phrase(words, gaps) + q == p + (Phrase(words, gaps) + q);
    PhraseStarts(words, gaps, q);
    SplitBehind(p, Phrase(words, gaps) + q);
    SplitPhrase(words, gaps, q);
    KindsJoin(WordsBefore(p), words + WordsAfter(q));
    KindsJoin(words, WordsAfter(q));
    SpokenIsHeard(Kinds(WordsBefore(p)), n, Kinds(WordsAfter(q)));
    assert Kinds(WordsBefore(p)) + (Kinds(words) + Kinds(WordsAfter(q))) == Kinds(WordsBefore(p)) + NumeralWords(n) + Kinds(WordsAfter(q));
  }

  // --------------------------------------------------------------- printing

  /** The words by their usual names, a space between. */
  function Names(ws: seq<Word>): (r: seq<string>)
    requires forall w :: w in ws ==> Nameable(w)
    ensures |r| == |ws|
  {
    seq(|ws|, i requires 0 <= i < |ws| => Name(ws[i]))
  }

  function Spaces(n: nat): (r: seq<string>)
    ensures |r| == n && forall i :: 0 <= i < n ==> r[i] == " "
  {
    seq(n, i requires 0 <= i < n => " ")
  }

  function Say(n: Numeral): string
    requires WellSaid(n) && NumeralValue(n) > 0
  {
    NumeralIsNameable(n);
    Phrase(Names(NumeralWords(n)), Spaces(|NumeralWords(n)| - 1))
  }

  lemma GroupIsNameable(g: Group)
    requires Sayable(g)
    ensures forall w :: w in GroupWords(g) ==> Nameable(w)
    ensures Worth(g) > 0 ==> GroupWords(g) != []
  {
    UnderHundredIsNameable(g.rest);
    UnderHundredIsNameable(g.hundreds);
  }

  lemma UnderHundredIsNameable(n: nat)
    requires n < 100
    ensures forall w :: w in UnderHundred(n) ==> Nameable(w)
    ensures n > 0 ==> UnderHundred(n) != []
  {
  }

  lemma NumeralIsNameable(n: Numeral)
    requires WellSaid(n) && NumeralValue(n) > 0
    ensures NumeralWords(n) != [] && forall w :: w in NumeralWords(n) ==> Nameable(w)
  {
    hide GroupWords;
    GroupIsNameable(n.millions);
    GroupIsNameable(n.thousands);
    GroupIsNameable(n.last);
  }

  lemma NamesAreHeard(ws: seq<Word>)
    requires ws != [] && forall w :: w in ws ==> Nameable(w)
    ensures Kinds(Names(ws)) == ws && WellSpaced(Names(ws), Spaces(|ws| - 1))
  {
    hide Kind, Name, Letters, Nameable;
    forall i | 0 <= i < |ws| ensures Kind(Names(ws)[i]) == ws[i] && Letters(Names(ws)[i]) {
      assert ws[i] in ws;
      NamesAreKnown(ws[i]);
    }
    assert Gap(" ");
  }

  /** The reader undoes the printer: for every way of saying n out loud. */
  lemma ReaderUndoesPrinter(n: Numeral, p: string, q: string, text: string)
    requires WellSaid(n) && NumeralValue(n) >= SPOKEN_FLOOR
    requires Lower(text) == p + Say(n) + q
    requires !EndsWithLetter(p) && !StartsWithLetter(q)
    requires FreshStart(Kinds(WordsBefore(p))) && EndsThere(Kinds(WordsAfter(q)))
    ensures NumeralValue(n) in Amounts(text)
  {
    hide Kind, Kinds, Phrase, Amounts, NumeralWords;
    var ws := NumeralWords(n);
    NumeralIsNameable(n);
    NamesAreHeard(ws);
    SpokenAmountIsFound(text, p, Names(ws), Spaces(|ws| - 1), q, n);
  }

  /** Every whole amount from a hundred dollars up to a thousand million, in
      the plain style or, below ten thousand, in hundreds: with "and" or without. */
  lemma EveryAmountIsFound(n: nat, joined: bool, p: string, q: string, text: string)
    requires SPOKEN_FLOOR <= n < 1000000000
    requires !EndsWithLetter(p) && !StartsWithLetter(q)
    requires FreshStart(Kinds(WordsBefore(p))) && EndsThere(Kinds(WordsAfter(q)))
    ensures NumeralValue(InScales(n, joined)) == n
    ensures Lower(text) == p + Say(InScales(n, joined)) + q ==> n in Amounts(text)
    ensures n < 10000 && Lower(text) == p + Say(InHundreds(n, joined)) + q ==> n in Amounts(text)
  {
    hide Kinds, Say, Amounts, InScales, InHundreds;
    InScalesIsExact(n, joined);
    if Lower(text) == p + Say(InScales(n, joined)) + q { ReaderUndoesPrinter(InScales(n, joined), p, q, text); }
    if n < 10000 && Lower(text) == p + Say(InHundreds(n, joined)) + q { ReaderUndoesPrinter(InHundreds(n, joined), p, q, text); }
  }

  // ---------------------------------------------------------------- figures

  /** A written figure that nothing digit-like touches is found, whatever
      surrounds it. */
  lemma {:induction false} FigureIsFound(p: string, d: string, q: string)
    requires d != "" && IsDigit(d[0]) && (forall i :: 0 <= i < |d| ==> InFigure(d[i])) && Value(d) >= 1
    requires p == "" || !InFigure(p[|p| - 1])
    requires q == "" || !InFigure(q[0])
    ensures Value(d) in Written(p + d + q)
    decreases |p|
  {
    hide Value;
    var s := p + d + q;
    if p == "" {
      assert s == d + q;
      RunLengthIs(d, q);
      assert s[..|d|] == d;
    } else {
      var n := if IsDigit(p[0]) then RunLength(p) else 1;
      assert n < |p| || n == 1;
      if IsDigit(p[0]) {
        RunLengthIs(p[..n], p[n..] + d + q);
        assert s == p[..n] + (p[n..] + d + q);
      }
      FigureIsFound(p[n..], d, q);
      assert s[n..] == p[n..] + d + q;
    }
  }

  /** Every written amount of at least a dollar is found, with its commas or
      without, and with a comma of the sentence straight after it. */
  lemma WrittenAmountIsFound(n: nat, p: string, q: string)
    requires n >= 1
    requires p == "" || !InFigure(p[|p| - 1])
    requires q == "" || !InFigure(q[0])
    ensures n in Amounts(p + Grouped(n) + q) && n in Amounts(p + Digits(n) + q)
    ensures n in Amounts(p + (Grouped(n) + ",") + q)
  {
    hide Kinds, Value, Grouped, Spoken, Written;
    GroupedReadsBack(n);
    ValueAfter(Grouped(n), ',');
    FigureIsFound(p, Grouped(n), q);
    FigureIsFound(p, Digits(n), q);
    FigureIsFound(p, Grouped(n) + ",", q);
  }
}
