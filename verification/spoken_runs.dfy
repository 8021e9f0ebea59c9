/** What the reader of amounts finds, and that it finds nothing else: one amount at
    most for each run of number words, and one for each figure
    (backend/libs/guardrails/normalize.py:147-193). */
module SpokenRuns {
  import opened Ascii
  import opened Figures
  import opened NumberWords
  import opened SpokenAmounts

  // ------------------------------------------------------------ written figures

  lemma {:induction false} WrittenFrom(s: string, at: nat)
    requires at <= |s| && Clean(s, at)
    ensures forall v: nat :: v in Written(s[at..]) <==>
      v >= 1 && exists i, j :: i >= at && IsFigure(s, i, j) && Value(s[i..j]) == v
    decreases |s| - at
  {
    hide Value, Clean, IsFigure;
    FiguresAreInside(s);
    if at == |s| {
    } else if IsDigit(s[at]) {
      var rest, n := s[at..], RunLength(s[at..]);
      RunIsTheFigure(s, at);
      WrittenFrom(s, at + n);
      assert rest[n..] == s[at + n..] && rest[..n] == s[at..at + n];
    } else {
      CleanGoesOn(s, at);
      WrittenFrom(s, at + 1);
      assert s[at..][1..] == s[at + 1..];
    }
  }

  lemma FiguresAreInside(s: string)
    ensures forall i, j :: IsFigure(s, i, j) ==> 0 <= i < j <= |s| && IsDigit(s[i])
  {
  }

  /** Exactly the figures of the text that are worth a dollar or more. */
  lemma WrittenIff(s: string)
    ensures forall v: nat :: v in Written(s) <==> v >= 1 && exists i, j :: IsFigure(s, i, j) && Value(s[i..j]) == v
  {
    hide Value, IsFigure, Written;
    FiguresAreInside(s);
    CleanAtStart(s);
    WrittenFrom(s, 0);
    assert s[0..] == s;
  }

  // -------------------------------------------------------------- spoken runs

  predicate Counts(w: Word) { w.Unit? || w.Ten? || w.Hundred? || w.Thousand? || w.Million? }

  predicate GoesOn(w: Word) { Counts(w) || w.And? }

  /** The words i..j are one run: they begin with a number word and are number words
      and "and"s, no number word goes on after them, and none leads up to them. */
  predicate IsRun(ws: seq<Word>, i: int, j: int) {
    && 0 <= i < j <= |ws| && Counts(ws[i])
    && (forall k :: i <= k < j ==> GoesOn(ws[k]))
    && (j < |ws| ==> !GoesOn(ws[j]))
    && (forall k :: 0 <= k < i && Counts(ws[k]) ==> Interrupted(ws, k, i))
  }

  predicate Interrupted(ws: seq<Word>, k: int, i: int)
    requires 0 <= k && i <= |ws|
  {
    exists m :: k < m < i && !GoesOn(ws[m])
  }

  // what a run is worth: scale by scale, and within a scale hundreds and the rest

  function Small(w: Word): nat { match w case Unit(n) => n case Ten(n) => n case _ => 0 }

  function Sum(ws: seq<Word>): nat { if ws == [] then 0 else Small(ws[0]) + Sum(ws[1..]) }

  /** The place after the last "hundred", or 0. */
  function AfterHundred(ws: seq<Word>): (k: nat)
    ensures k <= |ws|
    ensures k > 0 ==> ws[k - 1].Hundred?
    ensures forall m :: k <= m < |ws| ==> !ws[m].Hundred?
  {
    if ws == [] then 0 else if ws[|ws| - 1].Hundred? then |ws| else AfterHundred(ws[..|ws| - 1])
  }

  predicate IsScale(w: Word) { w.Thousand? || w.Million? }

  /** The place after the last "thousand" or "million", or 0. */
  function AfterScale(ws: seq<Word>): (k: nat)
    ensures k <= |ws|
    ensures k > 0 ==> IsScale(ws[k - 1])
    ensures forall m :: k <= m < |ws| ==> !IsScale(ws[m])
  {
    if ws == [] then 0 else if IsScale(ws[|ws| - 1]) then |ws| else AfterScale(ws[..|ws| - 1])
  }

  /** So many hundreds, or one when none are counted, and the words after them. */
  function GroupValue(ws: seq<Word>): nat
    decreases |ws|
  {
    var k := AfterHundred(ws);
    if k == 0 then Sum(ws) else AtLeastOne(GroupValue(ws[..k - 1])) * 100 + Sum(ws[k..])
  }

  function AtLeastOne(n: nat): nat { if n >= 1 then n else 1 }

  /** The groups with a scale after them, each so many thousands or millions, or one. */
  function ScaledValue(ws: seq<Word>): nat
    decreases |ws|
  {
    if ws == [] then 0
    else
      var front := ws[..|ws| - 1];
      var k := AfterScale(front);
      ScaledValue(front[..k]) + AtLeastOne(GroupValue(front[k..])) * (if ws[|ws| - 1].Million? then 1000000 else 1000)
  }

  function RunValue(ws: seq<Word>): nat {
    var k := AfterScale(ws);
    ScaledValue(ws[..k]) + GroupValue(ws[k..])
  }

  // -------------------------------------------------------- the scanner's value

  lemma {:induction false} SumSnoc(ws: seq<Word>, w: Word)
    ensures Sum(ws + [w]) == Sum(ws) + Small(w)
  {
    if ws == [] {
      assert [] + [w] == [w] && [w][1..] == [];
    } else {
      assert (ws + [w])[1..] == ws[1..] + [w];
      SumSnoc(ws[1..], w);
    }
  }

  lemma AnotherHundred(ws: seq<Word>)
    ensures GroupValue(ws + [Hundred]) == AtLeastOne(GroupValue(ws)) * 100
  {
    var more := ws + [Hundred];
    assert more[..|ws|] == ws && more[|ws| + 1..] == [];
    assert AfterHundred(more) == |ws| + 1;
  }

  lemma AnotherSmall(ws: seq<Word>, w: Word)
    requires !w.Hundred?
    ensures GroupValue(ws + [w]) == GroupValue(ws) + Small(w)
  {
    var more, k := ws + [w], AfterHundred(ws);
    assert more[..|ws|] == ws;
    assert AfterHundred(more) == k;
    hide AfterHundred;
    if k == 0 {
      SumSnoc(ws, w);
    } else {
      assert more[..k - 1] == ws[..k - 1] && more[k..] == ws[k..] + [w];
      SumSnoc(ws[k..], w);
    }
  }

  lemma AnotherScale(front: seq<Word>, w: Word)
    requires IsScale(w)
    ensures var ws, k := front + [w], AfterScale(front);
      && AfterScale(ws) == |ws|
      && ScaledValue(ws) == ScaledValue(front[..k]) + AtLeastOne(GroupValue(front[k..])) * (if w.Million? then 1000000 else 1000)
  {
    var ws := front + [w];
    assert ws[..|ws| - 1] == front;
  }

  lemma NoScale(front: seq<Word>, w: Word)
    requires !IsScale(w)
    ensures AfterScale(front + [w]) == AfterScale(front)
  {
    assert (front + [w])[..|front|] == front;
  }

  lemma EmptyIsNothing()
    ensures GroupValue([]) == 0 && ScaledValue([]) == 0 && AfterScale([]) == 0
  {
  }

  /** What the scanner holds over words of one run. */
  ghost predicate HoldsRun(s: Scan, ws: seq<Word>, found: set<nat>) {
    var k := AfterScale(ws);
    s.total == ScaledValue(ws[..k]) && s.current == GroupValue(ws[k..]) && s.found == found
  }

  lemma HearOnRun(s: Scan, front: seq<Word>, w: Word, found: set<nat>)
    requires HoldsRun(s, front, found) && GoesOn(w) && (w.And? ==> s.seen)
    ensures HoldsRun(Hear(s, w), front + [w], found) && Hear(s, w).seen
  {
    var ws, k := front + [w], AfterScale(front);
    EmptyIsNothing();
    hide GroupValue, ScaledValue, AfterScale;
    if IsScale(w) {
      AnotherScale(front, w);
      assert ws[..|ws|] == ws && ws[|ws|..] == [];
    } else {
      NoScale(front, w);
      assert ws[..k] == front[..k] && ws[k..] == front[k..] + [w];
      if w.Hundred? { AnotherHundred(front[k..]); } else { AnotherSmall(front[k..], w); }
    }
  }

  /** Over a run the scanner holds the scaled groups and the group in hand. */
  lemma {:induction false} HearRun(s: Scan, ws: seq<Word>)
    requires ws != [] && Counts(ws[0]) && (forall k :: 0 <= k < |ws| ==> GoesOn(ws[k]))
    requires s.total == s.current == 0 && !s.seen
    ensures HoldsRun(HearAll(s, ws), ws, s.found) && HearAll(s, ws).seen
  {
    var n := |ws| - 1;
    var front := ws[..n];
    assert ws == front + [ws[n]];
    if n == 0 {
      assert front == [];
      EmptyIsNothing();
    } else {
      HearRun(s, front);
    }
    hide HoldsRun, Hear;
    assert HoldsRun(HearAll(s, front), front, s.found) by { if n == 0 { NothingYet(s); } }
    HearOnRun(HearAll(s, front), front, ws[n], s.found);
  }

  lemma NothingYet(s: Scan)
    requires s.total == s.current == 0
    ensures HearAll(s, []) == s && HoldsRun(s, [], s.found)
  {
    EmptyIsNothing();
  }

  // ------------------------------------------------------------- run by run

  /** The start of the run that the first n words leave open. */
  function Begun(ws: seq<Word>, n: nat): (b: int)
    requires n <= |ws|
    ensures -1 <= b < n
  {
    if n == 0 then -1
    else if Counts(ws[n - 1]) then (if Begun(ws, n - 1) >= 0 then Begun(ws, n - 1) else n - 1)
    else if ws[n - 1].And? then Begun(ws, n - 1)
    else -1
  }

  lemma {:induction false} BegunIs(ws: seq<Word>, n: nat)
    requires n <= |ws|
    ensures var b := Begun(ws, n);
      && (b >= 0 ==> Counts(ws[b]) && forall k :: b <= k < n ==> GoesOn(ws[k]))
      && (b >= 0 ==> forall k :: 0 <= k < b && Counts(ws[k]) ==> Interrupted(ws, k, b))
      && (b < 0 ==> forall k :: 0 <= k < n && Counts(ws[k]) ==> Interrupted(ws, k, n))
  {
    if n > 0 {
      BegunIs(ws, n - 1);
      if Begun(ws, n) < 0 {
        forall k | 0 <= k < n && Counts(ws[k]) ensures Interrupted(ws, k, n) {
          if !ws[n - 1].And? { assert !GoesOn(ws[n - 1]); } else { assert Interrupted(ws, k, n - 1); }
        }
      }
    }
  }

  /** A run that ends at j is the one left open there. */
  lemma RunIsBegun(ws: seq<Word>, i: int, j: int)
    ensures IsRun(ws, i, j) <==> 0 <= j <= |ws| && 0 <= i == Begun(ws, j) && (j < |ws| ==> !GoesOn(ws[j]))
  {
    if 0 <= j <= |ws| { BegunIs(ws, j); }
    if IsRun(ws, i, j) {
      var b := Begun(ws, j);
      assert !Interrupted(ws, i, j);
      assert 0 <= b < i ==> !Interrupted(ws, b, i);
    }
  }

  predicate FoundBy(ws: seq<Word>, n: nat, v: nat)
    requires n <= |ws|
  {
    v >= SPOKEN_FLOOR && exists j :: 0 <= j < n && EndsAt(ws, j, v)
  }

  predicate EndsAt(ws: seq<Word>, j: int, v: nat)
    requires 0 <= j <= |ws|
  {
    Begun(ws, j) >= 0 && (j < |ws| ==> !GoesOn(ws[j])) && RunValue(ws[Begun(ws, j)..j]) == v
  }

  /** After n words: what was found is the runs that have ended, and what is held is
      the one that has not. */
  ghost predicate Holds(ws: seq<Word>, n: nat, s: Scan)
    requires n <= |ws|
  {
    && (forall v: nat :: v in s.found <==> FoundBy(ws, n, v))
    && (var b := Begun(ws, n);
        if b < 0 then !s.seen && s.total == s.current == 0
        else s.seen && s.total + s.current == RunValue(ws[b..n]))
  }

  /** The scanner over an open run is the scanner started at its first word. */
  ghost predicate HeardFrom(ws: seq<Word>, n: nat, s: Scan)
    requires n <= |ws|
  {
    var b := Begun(ws, n); b >= 0 ==> s == HearAll(IDLE.(found := s.found), ws[b..n])
  }

  lemma {:induction false} HearingHolds(ws: seq<Word>, n: nat)
    requires n <= |ws|
    ensures Holds(ws, n, HearAll(IDLE, ws[..n])) && HeardFrom(ws, n, HearAll(IDLE, ws[..n]))
  {
    if n == 0 {
      assert ws[..0] == [];
    } else {
      HearingHolds(ws, n - 1);
      assert ws[..n][..n - 1] == ws[..n - 1];
      var s := HearAll(IDLE, ws[..n - 1]);
      BegunIs(ws, n - 1);
      if Counts(ws[n - 1]) {
        OneMoreCounts(ws, n, s);
      } else if ws[n - 1].And? && Begun(ws, n - 1) >= 0 {
        OneMoreAnd(ws, n, s);
      } else {
        OneMoreBreaks(ws, n, s);
      }
    }
  }

  lemma SameFound(ws: seq<Word>, n: nat, s: Scan, s1: Scan)
    requires 0 < n <= |ws| && Holds(ws, n - 1, s) && s1.found == s.found && (Begun(ws, n - 1) < 0 || GoesOn(ws[n - 1]))
    ensures forall v: nat :: v in s1.found <==> FoundBy(ws, n, v)
  {
    hide RunValue;
    forall v: nat ensures FoundBy(ws, n, v) <==> FoundBy(ws, n - 1, v) {
      assert !EndsAt(ws, n - 1, v);
    }
  }

  lemma ValueHeld(ws: seq<Word>, b: int, n: nat, s: Scan)
    requires 0 <= b < n <= |ws| && Counts(ws[b]) && (forall k :: b <= k < n ==> GoesOn(ws[k]))
    requires s == HearAll(IDLE.(found := s.found), ws[b..n])
    ensures s.seen && s.total + s.current == RunValue(ws[b..n])
  {
    HearRun(IDLE.(found := s.found), ws[b..n]);
  }

  lemma OneMoreCounts(ws: seq<Word>, n: nat, s: Scan)
    requires 0 < n <= |ws| && Holds(ws, n - 1, s) && HeardFrom(ws, n - 1, s) && Counts(ws[n - 1])
    ensures Holds(ws, n, Hear(s, ws[n - 1])) && HeardFrom(ws, n, Hear(s, ws[n - 1]))
  {
    hide RunValue;
    var s1, b := Hear(s, ws[n - 1]), Begun(ws, n);
    SameFound(ws, n, s, s1);
    BegunIs(ws, n);
    if Begun(ws, n - 1) < 0 {
      assert ws[b..n] == [ws[n - 1]];
      HearOne(s, ws[n - 1]);
      assert s == IDLE.(found := s.found);
    } else {
      assert ws[b..n][..n - 1 - b] == ws[b..n - 1];
    }
    ValueHeld(ws, b, n, s1);
  }

  lemma OneMoreAnd(ws: seq<Word>, n: nat, s: Scan)
    requires 0 < n <= |ws| && Holds(ws, n - 1, s) && HeardFrom(ws, n - 1, s) && ws[n - 1].And? && Begun(ws, n - 1) >= 0
    ensures Holds(ws, n, Hear(s, ws[n - 1])) && HeardFrom(ws, n, Hear(s, ws[n - 1]))
  {
    hide RunValue;
    var s1, b := Hear(s, ws[n - 1]), Begun(ws, n);
    SameFound(ws, n, s, s1);
    BegunIs(ws, n);
    assert ws[b..n][..n - 1 - b] == ws[b..n - 1];
    ValueHeld(ws, b, n, s1);
  }

  lemma OneMoreBreaks(ws: seq<Word>, n: nat, s: Scan)
    requires 0 < n <= |ws| && Holds(ws, n - 1, s) && !Counts(ws[n - 1]) && (ws[n - 1].And? ==> Begun(ws, n - 1) < 0)
    ensures Holds(ws, n, Hear(s, ws[n - 1])) && HeardFrom(ws, n, Hear(s, ws[n - 1]))
  {
    hide RunValue;
    var s1 := Hear(s, ws[n - 1]);
    assert s1 == Flushed(s);
    if Begun(ws, n - 1) < 0 {
      SameFound(ws, n, s, s1);
    } else {
      forall v: nat ensures v in s1.found <==> FoundBy(ws, n, v) {
        assert EndsAt(ws, n - 1, v) <==> v == RunValue(ws[Begun(ws, n - 1)..n - 1]);
        assert FoundBy(ws, n, v) <==> FoundBy(ws, n - 1, v) || (v >= SPOKEN_FLOOR && EndsAt(ws, n - 1, v));
      }
    }
  }

  /** Exactly the runs of number words that are worth a hundred dollars or more, each
      once, at its worth. */
  lemma SpokenIff(ws: seq<Word>)
    ensures forall v: nat :: v in Spoken(ws) <==>
      v >= 100 && exists i, j :: IsRun(ws, i, j) && RunValue(ws[i..j]) == v
  {
    hide RunValue, HearAll;
    var n := |ws|;
    HearingHolds(ws, n);
    assert ws[..n] == ws;
    forall v: nat ensures v in Spoken(ws) <==> v >= 100 && exists i, j :: IsRun(ws, i, j) && RunValue(ws[i..j]) == v {
      assert v in Spoken(ws) <==> v >= SPOKEN_FLOOR && exists j :: 0 <= j <= n && EndsAt(ws, j, v) by { LastRun(ws, v); }
      if v in Spoken(ws) {
        var j :| 0 <= j <= n && EndsAt(ws, j, v);
        RunIsBegun(ws, Begun(ws, j), j);
      }
      if i, j :| IsRun(ws, i, j) && RunValue(ws[i..j]) == v {
        RunIsBegun(ws, i, j);
        assert EndsAt(ws, j, v);
      }
    }
  }

  lemma LastRun(ws: seq<Word>, v: nat)
    requires Holds(ws, |ws|, HearAll(IDLE, ws))
    ensures v in Spoken(ws) <==> v >= SPOKEN_FLOOR && exists j :: 0 <= j <= |ws| && EndsAt(ws, j, v)
  {
    hide RunValue, HearAll;
    var s, n := HearAll(IDLE, ws), |ws|;
    assert EndsAt(ws, n, v) <==> Begun(ws, n) >= 0 && RunValue(ws[Begun(ws, n)..n]) == v;
  }

  /** Of the words of one numeral, between words that say no number, that number is
      heard and no other. */
  lemma NothingElseIsHeard(before: seq<Word>, n: Numeral, after: seq<Word>)
    requires WellSaid(n) && NumeralValue(n) >= 100
    requires (forall w :: w in before ==> !Counts(w)) && (forall w :: w in after ==> !Counts(w))
    ensures Spoken(before + NumeralWords(n) + after) == {NumeralValue(n)}
  {
    hide NumeralWords;
    NothingHeard(before);
    HearNumeral(IDLE, n);
    HearJoin(IDLE, before, NumeralWords(n));
    HearJoin(IDLE, before + NumeralWords(n), after);
    OneNumberEnds(HearAll(IDLE, NumeralWords(n)), after);
  }

  lemma {:induction false} NothingHeard(ws: seq<Word>)
    requires forall w :: w in ws ==> !Counts(w)
    ensures HearAll(IDLE, ws) == IDLE
  {
    if ws != [] {
      NothingHeard(ws[..|ws| - 1]);
      assert ws[|ws| - 1] in ws;
    }
  }

  lemma {:induction false} OneNumberEnds(s: Scan, ws: seq<Word>)
    requires s.seen && s.found == {} && s.total + s.current >= SPOKEN_FLOOR && forall w :: w in ws ==> !Counts(w)
    ensures var s1 := HearAll(s, ws);
      s1 == s || s1 == IDLE.(found := {s.total + s.current})
  {
    if ws != [] {
      OneNumberEnds(s, ws[..|ws| - 1]);
      assert ws[|ws| - 1] in ws;
    }
  }

  // ------------------------------------------------------------- the text

  predicate LettersOnly(s: string) { forall i :: 0 <= i < |s| ==> IsLowerLetter(s[i]) }

  predicate GapOnly(s: string) { s != "" && forall i :: 0 <= i < |s| ==> !IsLowerLetter(s[i]) }

  function Woven(tokens: seq<string>, gaps: seq<string>): string
    requires |tokens| == |gaps| + 1
  {
    if gaps == [] then tokens[0] else tokens[0] + gaps[0] + Woven(tokens[1..], gaps[1..])
  }

  /** A text splits into its first run of letters and what comes after the gap. */
  lemma SplitOnce(s: string) returns (run: string, gap: string, rest: string)
    requires LetterRun(s) < |s|
    ensures s == run + gap + rest && LettersOnly(run) && GapOnly(gap) && |rest| < |s|
    ensures Split(s) == [run] + Split(rest)
    ensures rest != "" ==> IsLowerLetter(rest[0])
  {
    var n := LetterRun(s);
    var m := GapRun(s[n..]);
    run, gap, rest := s[..n], s[n..n + m], s[n + m..];
    forall i | 0 <= i < m ensures !IsLowerLetter(gap[i]) { assert gap[i] == s[n..][i]; }
    assert s[n..] != "" && s[n..][0] == s[n];
    if rest != "" { assert rest[0] == s[n..][m]; }
  }

  /** What a text is split into: runs of small letters, in order, parted by what holds
      none; only the first and the last can be empty. */
  ghost predicate Weave(s: string, tokens: seq<string>, gaps: seq<string>) {
    && |tokens| == |gaps| + 1 && Woven(tokens, gaps) == s
    && (forall i :: 0 <= i < |tokens| ==> LettersOnly(tokens[i]))
    && (forall i :: 0 <= i < |gaps| ==> GapOnly(gaps[i]))
    && (forall i :: 0 < i < |tokens| - 1 ==> tokens[i] != "")
  }

  lemma {:induction false} SplitWeaves(s: string) returns (gaps: seq<string>)
    ensures Weave(s, Split(s), gaps)
    decreases |s|
  {
    if LetterRun(s) == |s| {
      gaps := [];
    } else {
      var run, gap, rest := SplitOnce(s);
      var more := SplitWeaves(rest);
      gaps := [gap] + more;
      if rest != "" { StartsWithARun(rest); } else { assert Split(rest) == [""]; }
      hide Split, LetterRun, GapRun, LettersOnly, GapOnly;
      WeaveMore(run, gap, rest, Split(rest), more);
    }
  }

  lemma WeaveMore(run: string, gap: string, rest: string, tokens: seq<string>, gaps: seq<string>)
    requires Weave(rest, tokens, gaps) && LettersOnly(run) && GapOnly(gap) && (|tokens| > 1 ==> tokens[0] != "")
    ensures Weave(run + gap + rest, [run] + tokens, [gap] + gaps)
  {
    hide LettersOnly, GapOnly;
    assert ([run] + tokens)[1..] == tokens && ([gap] + gaps)[1..] == gaps;
  }

  lemma StartsWithARun(s: string)
    requires s != "" && IsLowerLetter(s[0])
    ensures Split(s)[0] != ""
  {
  }

  /** The figures and the runs of number words of a text, and their worth. */
  ghost predicate GivenIn(text: string, v: nat) {
    || (v >= 1 && exists i, j :: IsFigure(text, i, j) && Value(text[i..j]) == v)
    || (v >= 100 && SpokenIn(Kinds(Split(Lower(text))), v))
  }

  ghost predicate SpokenIn(ws: seq<Word>, v: nat) { exists i, j :: IsRun(ws, i, j) && RunValue(ws[i..j]) == v }

  /** The amounts found in a text are exactly those given in it. */
  lemma AmountsIff(text: string)
    ensures forall v: nat :: v in Amounts(text) <==> GivenIn(text, v)
  {
    hide Value, IsFigure, Written, Split, Kinds, IsRun, RunValue, Spoken;
    WrittenIff(text);
    SpokenIff(Kinds(Split(Lower(text))));
  }
}
