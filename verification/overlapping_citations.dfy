/** Where cutting invented citations takes prose with them: one head inside the
    title of another. */
module OverlappingCitations {
  import opened Ascii
  import opened Citations

  const FIRST := "x.md \U{00A7} "
  const SECOND := "B.md \U{00A7} "
  const ANSWER := FIRST + SECOND + "C is"

  lemma {:induction false} NameRunIs(name: string, rest: string)
    requires (forall i :: 0 <= i < |name| ==> InName(name[i])) && (rest == "" || !InName(rest[0]))
    ensures NameRun(name + rest) == |name|
  {
    if name == "" { assert name + rest == rest; } else {
      assert (name + rest)[1..] == name[1..] + rest;
      NameRunIs(name[1..], rest);
    }
  }

  lemma OneSpace(rest: string)
    requires rest == "" || !IsSpace(rest[0])
    ensures SpaceRun(" " + rest) == 1
  {
    assert (" " + rest)[1..] == rest;
  }

  /** A head of this shape is seven characters long. */
  lemma HeadIs(name: string, rest: string)
    requires |name| == 4 && (forall i :: 0 <= i < 4 ==> InName(name[i])) && name[1..4] == ".md"
    requires rest == "" || !IsSpace(rest[0])
    ensures HeadLength(name + " " + [SECTION] + " " + rest) == 7
  {
    hide NameRun, SpaceRun;
    var s := name + " " + [SECTION] + " " + rest;
    assert s == name + (" " + [SECTION] + " " + rest);
    NameRunIs(name, " " + [SECTION] + " " + rest);
    assert s[1..4] == ".md";
    assert s[4..] == " " + ([SECTION] + " " + rest);
    OneSpace([SECTION] + " " + rest);
    assert s[6..] == " " + rest;
    OneSpace(rest);
  }

  lemma NoHead(s: string, k: nat)
    requires k < 4 && k <= |s| && (forall i :: 0 <= i < k ==> InName(s[i])) && (k == |s| || !InName(s[k]))
    ensures HeadLength(s) == 0
  {
    NameRunIs(s[..k], s[k..]);
    assert s == s[..k] + s[k..];
  }

  lemma {:induction false} WholeLine(s: string, room: nat)
    requires |s| <= room && forall i :: 0 <= i < |s| ==> s[i] !in ['\n', ',', ';', ')']
    ensures TitleRun(s, room) == |s|
  {
    if s != "" { WholeLine(s[1..], room - 1); }
  }

  lemma {:induction false} WordEnds(s: string, n: nat)
    requires n <= |s| && (forall i :: 0 <= i < n ==> s[i] != ' ') && (n == |s| || s[n] == ' ')
    ensures WordRun(s) == n
  {
    if n > 0 { WordEnds(s[1..], n - 1); }
  }

  lemma NextWord(s: string, n: nat)
    requires 1 + n <= |s| && s[0] == ' ' && (forall i :: 1 <= i <= n ==> s[i] != ' ') && (1 + n == |s| || s[1 + n] == ' ')
    ensures MoreTitle(s) == if IsTitleWord(s[1..1 + n]) then 1 + n + MoreTitle(s[1 + n..]) else 0
  {
    hide IsTitleWord, WordRun;
    assert WordRun(s[1..]) == n by { WordEnds(s[1..], n); }
  }

  const MORE := " \U{00A7} C is"

  lemma MoreOfTheTitle()
    ensures MoreTitle(MORE) == 4
  {
    hide MoreTitle, WordRun;
    assert MORE[1..2] == "\U{00A7}" && MORE[2..] == " C is";
    NextWord(MORE, 1);
    assert " C is"[1..2] == "C" && " C is"[2..] == " is";
    NextWord(" C is", 1);
    assert " is"[1..3] == "is";
    NextWord(" is", 2);
  }

  /** The first heading goes on through the second head to its first word. */
  lemma FirstTitle()
    ensures TitleLength(SECOND + "C is") == 8
  {
    hide MoreTitle, WordRun, TitleRun;
    var title := SECOND + "C is";
    WholeLine(title, TITLE_REACH);
    assert title[..|title|] == title && title[4..] == MORE;
    WordEnds(title, 4);
    MoreOfTheTitle();
  }

  lemma SecondTitle()
    ensures TitleLength("C is") == 1
  {
    hide MoreTitle, WordRun, TitleRun;
    WholeLine("C is", TITLE_REACH);
    assert "C is"[..4] == "C is" && "C is"[1..] == " is" && " is"[1..3] == "is";
    WordEnds("C is", 1);
    NextWord(" is", 2);
  }

  lemma NothingRetrieved(text: string, start: nat)
    requires start <= |text| && HeadLength(text[start..]) > 0
    ensures var tail := text[start..];
      SpanAt(text, start, []) == Span(start, start + HeadLength(tail) + TitleLength(tail[HeadLength(tail)..]), false)
  {
    hide HeadLength, TitleLength, Flat;
  }

  lemma TwoSpans()
    ensures SpansFrom(ANSWER, 0, []) == [Span(0, 15, false), Span(7, 15, false)]
  {
    hide HeadLength, TitleLength, SpanAt;
    assert "x.md"[1..4] == ".md" && "B.md"[1..4] == ".md";
    assert ANSWER == "x.md" + " " + [SECTION] + " " + (SECOND + "C is");
    HeadIs("x.md", SECOND + "C is");
    assert ANSWER[0..] == ANSWER && ANSWER[7..] == SECOND + "C is" && ANSWER[14..] == "C is";
    assert SECOND + "C is" == "B.md" + " " + [SECTION] + " " + "C is";
    HeadIs("B.md", "C is");
    FirstTitle();
    SecondTitle();
    assert (SECOND + "C is")[7..] == "C is";
    NothingRetrieved(ANSWER, 0);
    NothingRetrieved(ANSWER, 7);
    assert ANSWER[15..] == " is" && ANSWER[16..] == "is" && ANSWER[17..] == "s";
    NoHead(ANSWER[14..], 1);
    NoHead(ANSWER[15..], 0);
    NoHead(ANSWER[16..], 2);
    NoHead(ANSWER[17..], 1);
    assert SpansFrom(ANSWER, 18, []) == [];
    assert SpansFrom(ANSWER, 14, []) == SpansFrom(ANSWER, 15, []) == SpansFrom(ANSWER, 16, []) == SpansFrom(ANSWER, 17, []) == [];
  }

  const SPANS := [Span(0, 15, false), Span(7, 15, false)]

  lemma CutTakesAll()
    ensures Cut(ANSWER, SPANS) == ""
  {
    hide Removed;
    assert SPANS[1..] == [SPANS[1]] && [SPANS[1]][1..] == [];
    assert Cut(ANSWER, [SPANS[1]]) == Removed(ANSWER, SPANS[1]);
    RemovedAre();
  }

  lemma RemovedAre()
    ensures Removed(ANSWER, SPANS[1]) == FIRST + " is" && Removed(FIRST + " is", SPANS[0]) == ""
  {
    assert |ANSWER| == 18 && ANSWER[..7] == FIRST && ANSWER[15..] == " is";
    assert |FIRST + " is"| == 10;
  }

  lemma ProseIsOutside()
    ensures Outside(ANSWER, SPANS, 0, |ANSWER|) == " is"
  {
    forall k: nat ensures Covered(SPANS, k) <==> k < 15 {
      if k < 15 { assert SPANS[0].start <= k < SPANS[0].end; }
    }
    assert |ANSWER| == 18 && ANSWER[15..18] == " is";
    OutsideJoins(ANSWER, SPANS, 0, 15, 18);
    OutsideNone(ANSWER, SPANS, 0, 15);
    OutsideAll(ANSWER, SPANS, 15, 18);
  }

  /** Both spans are cut at places of their own text, so " is", which is in
      neither, goes with them. */
  lemma OverlapCutsProse()
    ensures Cut(ANSWER, SpansFrom(ANSWER, 0, [])) == "" && Outside(ANSWER, ToCut(ANSWER, []), 0, |ANSWER|) == " is"
  {
    hide SpansFrom, Cut, Outside;
    TwoSpans();
    CutTakesAll();
    ProseIsOutside();
    assert Invented(SPANS) == SPANS by {
      assert SPANS[1..] == [SPANS[1]] && [SPANS[1]][1..] == [];
    }
  }
}
