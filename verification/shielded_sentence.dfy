/** Where removing false comparisons twice is not removing them once: blanks
    that open the text can shield the sentence after them. */
module ShieldedSentence {
  import opened Options
  import opened Ascii
  import opened Figures
  import opened Contradictions
  import opened Sentences

  const SHIELDED := " under 900 under 300. "
  const EXPOSED := "under 900 under 300. "
  const FALSE_CLAIM := "900 under 300."

  lemma SliceLacks(s: string, i: nat, j: nat, c: char)
    requires i <= j <= |s| && c !in s
    ensures c !in s[i..j]
  {
  }

  lemma NotThere(hay: string, needle: string, c: char)
    requires c in needle && c !in hay
    ensures Find(hay, needle, 0) == None
  {
    forall k: nat ensures !OccursAt(hay, needle, k) {
      if k + |needle| <= |hay| { SliceLacks(hay, k, k + |needle|, c); }
    }
  }

  /** The first occurrence, when the needle's first two characters stand
      together nowhere before it. */
  lemma FirstAt(hay: string, needle: string, at: nat)
    requires OccursAt(hay, needle, at) && |needle| >= 2
    requires forall j: nat :: j < at ==> hay[j] != needle[0] || hay[j + 1] != needle[1]
    ensures Find(hay, needle, 0) == Some(at)
  {
    forall j: nat | j < at ensures !OccursAt(hay, needle, j) {
      if j + |needle| <= |hay| {
        assert hay[j..j + |needle|][0] == hay[j] && hay[j..j + |needle|][1] == hay[j + 1];
      }
    }
    assert Find(hay, needle, 0).Some?;
  }

  /** In lower case, without an "x", a "b" or an "h". */
  predicate Bare(s: string) { Lower(s) == s && 'x' !in s && 'h' !in s && 'b' !in s }

  /** In such a sentence the only term that can occur is "under". */
  lemma OnlyUnder(s: string)
    requires Bare(s)
    ensures Contradicts(s) <==> Verdict(s, "under", false) == Some(false)
  {
    hide Compared, Lower;
    NoGreater(s);
    forall term | term in LESSER[1..] ensures Verdict(s, term, false) == None {
      assert " below "[1] == 'b' && " less than "[7] == 'h' && " lower than "[8] == 'h' && " cheaper than "[2] == 'h';
      NotThere(s, " " + term + " ", if term == "below" then 'b' else 'h');
    }
    NoVerdict(s, LESSER[1..], false);
    assert LESSER[0] == "under";
  }

  lemma NoGreater(s: string)
    requires Lower(s) == s && 'x' !in s && 'h' !in s
    ensures FirstVerdict(s, GREATER, true) == None
  {
    hide Compared, Lower;
    forall term | term in GREATER ensures Verdict(s, term, true) == None {
      assert " exceeds "[2] == 'x' && " exceed "[2] == 'x' && " exceeding "[2] == 'x';
      assert " more than "[7] == 'h' && " greater than "[10] == 'h' && " higher than "[1] == 'h';
      NotThere(s, " " + term + " ", if term in ["exceeds", "exceed", "exceeding"] then 'x' else 'h');
    }
    NoVerdict(s, GREATER, true);
  }

  lemma {:induction false} NoVerdict(s: string, terms: seq<string>, greater: bool)
    requires forall term :: term in terms ==> Verdict(s, term, greater) == None
    ensures FirstVerdict(s, terms, greater) == None
  {
    hide Verdict;
    if terms != [] { NoVerdict(s, terms[1..], greater); }
  }

  lemma {:induction false} NoMoneyBetween(s: string, from: nat, to: nat)
    requires from <= to <= |s| && forall i :: from <= i < to ==> !IsDigit(s[i])
    ensures MoneyFrom(s, from) == MoneyFrom(s, to)
    decreases |s| - from
  {
    if from < to { NoMoneyBetween(s, from + 1, to); }
  }

  lemma NineHundred(s: string, n: nat)
    requires n + 4 == |s| && s[n..] == "900 " && forall i :: 0 <= i < n ==> !IsDigit(s[i])
    ensures MoneyFrom(s, 0) == [Money(n, n + 3, 900)]
  {
    assert RunLength("900 ") == 3;
    assert s[n..n + 3] == "900" && s[n] == '9' && s[n + 3] == ' ';
    assert Value("900") == 900 by { assert "900"[..2] == "90"; assert "90"[..1] == "9"; assert "9"[..0] == ""; }
    NoMoneyBetween(s, n + 3, n + 4);
    NoMoneyBetween(s, 0, n);
  }

  lemma ThreeHundred(back: string)
    requires back in [".", ". "]
    ensures MoneyFrom(" 300" + back, 0) == [Money(1, 4, 300)]
  {
    var s := " 300";
    assert s[1..] == "300" && RunLength("300") == 3;
    assert s[1..4] == "300";
    assert Value("300") == 300 by { assert "300"[..2] == "30"; assert "30"[..1] == "3"; assert "3"[..0] == ""; }
    assert MoneyFrom(s, 4) == [];
    assert MoneyFrom(s, 0) == [Money(1, 4, 300)];
    assert Silent(back);
    MoneyIgnoresSilence(s, back, 0);
  }

  lemma ClaimIsBare(front: string, back: string)
    requires front in ["", "under "] && back in [".", ". "]
    ensures Bare(front + "900 under 300" + back)
  {
  }

  lemma VerdictAt(s: string, term: string, at: nat)
    requires Lower(s) == s && Find(s, " " + term + " ", 0) == Some(at) && at + 1 + |term| <= |s|
    ensures Verdict(s, term, false) == (if Compared(s, at + 1, |term|) == None then None
      else Some(Compared(s, at + 1, |term|).value.0 < Compared(s, at + 1, |term|).value.1))
  {
    hide Compared, Find, OccursAt, Lower;
  }

  lemma ClaimCompares(front: string, back: string)
    requires front in ["", "under "] && back in [".", ". "]
    ensures Compared(front + "900 under 300" + back, |front| + 4, 5) == Some((900, 300))
  {
    hide MoneyFrom;
    var s := front + "900 under 300" + back;
    var at := |front| + 3;
    assert s[..at + 1] == front + "900 " && s[at + 6..] == " 300" + back;
    NineHundred(front + "900 ", |front|);
    ThreeHundred(back);
    assert (front + "900 ")[|front| + 3..] == " " && (" 300" + back)[..1] == " ";
  }

  lemma Between(a: string, b: string, c: string)
    ensures (a + b + c)[|a|..|a| + |b|] == b
  {
  }

  lemma ClaimIsFalse(front: string, back: string)
    requires front in ["", "under "] && back in [".", ". "]
    ensures Contradicts(front + "900 under 300" + back)
  {
    hide Contradicts, Compared, Find, Verdict;
    var s := front + "900 under 300" + back;
    ClaimIsBare(front, back);
    OnlyUnder(s);
    var at := |front| + 3;
    var a, c := front + "900", "300" + back;
    assert "900 under 300" == "900" + " under " + "300";
    assert s == a + " under " + c && |a| == at;
    Between(a, " under ", c);
    FirstAt(s, " under ", at);
    assert " " + "under" + " " == " under ";
    VerdictAt(s, "under", at);
    ClaimCompares(front, back);
  }

  lemma ShieldIsBare()
    ensures Bare(SHIELDED)
  {
  }

  lemma ShieldHolds()
    ensures !Contradicts(SHIELDED)
  {
    hide Contradicts, Find, Verdict, Compared;
    ShieldIsBare();
    OnlyUnder(SHIELDED);
    assert SHIELDED[0..7] == " under ";
    FirstAt(SHIELDED, " under ", 0);
    assert " " + "under" + " " == " under ";
    VerdictAt(SHIELDED, "under", 0);
    NothingCompared();
  }

  lemma NothingCompared()
    ensures Compared(SHIELDED, 1, 5) == None
  {
    assert SHIELDED[..1] == " ";
    NoMoneyBetween(" ", 0, 1);
  }

  lemma SplitsInTwo()
    ensures Split(SHIELDED + FALSE_CLAIM) == [SHIELDED, FALSE_CLAIM]
  {
    hide FirstLength;
    var a, b := Parts(" under 900 under 300", ".", " "), Parts("900 under 300", ".", "");
    assert Text(a) == SHIELDED && Text(b) == FALSE_CLAIM;
    FirstIs(a, FALSE_CLAIM);
    FirstIs(b, "");
    assert Text(b) + "" == FALSE_CLAIM;
    var s := SHIELDED + FALSE_CLAIM;
    assert s[..|SHIELDED|] == SHIELDED && s[|SHIELDED|..] == FALSE_CLAIM;
    assert FALSE_CLAIM[..|FALSE_CLAIM|] == FALSE_CLAIM && FALSE_CLAIM[|FALSE_CLAIM|..] == "";
  }

  /** A text with a blank in front from which removing twice removes more. */
  lemma TwiceIsNotAlwaysOnce()
    ensures Drop(Drop(SHIELDED + FALSE_CLAIM)) != Drop(SHIELDED + FALSE_CLAIM)
  {
    hide Contradicts, Split, LStrip;
    var text := SHIELDED + FALSE_CLAIM;
    SplitsInTwo();
    ShieldHolds();
    assert "" + "900 under 300" + "." == FALSE_CLAIM && "under " + "900 under 300" + ". " == EXPOSED;
    ClaimIsFalse("", ".");
    ClaimIsFalse("under ", ". ");
    assert Split(text)[1..] == [FALSE_CLAIM] && [FALSE_CLAIM][1..] == [];
    assert Kept([FALSE_CLAIM]) == Kept([]) == [];
    assert Kept(Split(text)) == [SHIELDED];
    assert LStrip(SHIELDED) == EXPOSED by {
      assert SHIELDED[1..] == EXPOSED;
      LStripOnce(SHIELDED);
      LStripFlush(EXPOSED);
    }
    DropTwiceIff(text);
  }

  lemma LStripOnce(s: string)
    requires s != "" && IsSpace(s[0])
    ensures LStrip(s) == LStrip(s[1..])
  {
  }
}
