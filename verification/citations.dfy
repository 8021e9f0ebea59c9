/** Citations in an answer: where they start and end, which are real, and the
    cutting of those that are not (backend/agent/app/graph/nodes.py:493-578,
    804-842, 1150-1164). */
module Citations {
  import opened Ascii
  import opened Options

  const SECTION := '\U{00A7}'   // the section sign

  predicate InName(c: char) { IsLowerLetter(c) || IsUpperLetter(c) || IsDigit(c) || c == '_' || c == '.' || c == '-' }

  function NameRun(s: string): (n: nat)
    ensures n <= |s|
    ensures forall i :: 0 <= i < n ==> InName(s[i])
    ensures n < |s| ==> !InName(s[n])
  {
    if s != "" && InName(s[0]) then 1 + NameRun(s[1..]) else 0
  }

  function SpaceRun(s: string): (n: nat)
    ensures n <= |s|
    ensures forall i :: 0 <= i < n ==> IsSpace(s[i])
    ensures n < |s| ==> !IsSpace(s[n])
  {
    if s != "" && IsSpace(s[0]) then 1 + SpaceRun(s[1..]) else 0
  }

  /** The length of the citation head at the front, or 0: a file name ending in
      .md, blanks, the section sign, blanks. Neither a blank nor the sign may
      stand in a name, so the name is the whole run. */
  function HeadLength(s: string): (n: nat)
    ensures n <= |s|
  {
    var name := NameRun(s);
    if name < 4 || s[name - 3..name] != ".md" then 0
    else
      var sign := name + SpaceRun(s[name..]);
      if sign == |s| || s[sign] != SECTION then 0
      else sign + 1 + SpaceRun(s[sign + 1..])
  }

  // ------------------------------------------------------------- flattening

  function Plain(c: char): char {
    if c in ['\U{00A0}', '\U{202F}', '\U{2009}', '\U{2007}'] then ' '
    else if '\U{2010}' <= c <= '\U{2014}' || c == '\U{2212}' then '-'
    else if c == '\U{2018}' || c == '\U{2019}' then '\''
    else if c == '\U{201C}' || c == '\U{201D}' then '\"'
    else c
  }

  function Plained(s: string): string { if s == "" then "" else [Plain(s[0])] + Plained(s[1..]) }

  predicate IsTrim(c: char) { c in [' ', '*', '_', '`', '\"', '\'', '.', ',', ';', ':'] }

  function TrimLeft(s: string): string { if s != "" && IsTrim(s[0]) then TrimLeft(s[1..]) else s }

  function TrimRight(s: string): string { if s != "" && IsTrim(s[|s| - 1]) then TrimRight(s[..|s| - 1]) else s }

  /** Runs of blanks become one space. */
  function Collapse(s: string): string
    decreases |s|
  {
    if s == "" then ""
    else if IsSpace(s[0]) then " " + Collapse(s[1 + SpaceRun(s[1..])..])
    else [s[0]] + Collapse(s[1..])
  }

  /** A citation with its typography flattened, for comparison only. */
  function Flat(s: string): string { Lower(Strip(Collapse(TrimRight(TrimLeft(Plained(s)))))) }

  // ---------------------------------------------------------------- the title

  const TITLE_REACH := 90

  /** What may belong to a title: up to ninety characters of its line. */
  function TitleRun(s: string, room: nat): (n: nat)
    ensures n <= |s| && n <= room
    decreases room
  {
    if room > 0 && s != "" && s[0] !in ['\n', ',', ';', ')'] then 1 + TitleRun(s[1..], room - 1) else 0
  }

  function WordRun(s: string): (n: nat)
    ensures n <= |s|
    ensures forall i :: 0 <= i < n ==> s[i] != ' '
    ensures n < |s| ==> s[n] == ' '
  {
    if s != "" && s[0] != ' ' then 1 + WordRun(s[1..]) else 0
  }

  /** A word that reads as part of a heading. */
  predicate IsTitleWord(w: string) {
    w != "" && !IsLowerLetter(w[0]) && forall i :: 0 <= i < |w| ==> !IsSpace(w[i])
  }

  /** How far the heading goes on after its first word: space, title word. */
  function MoreTitle(s: string): (n: nat)
    ensures n <= |s|
    decreases |s|
  {
    if s == "" || s[0] != ' ' then 0
    else
      var w := WordRun(s[1..]);
      if IsTitleWord(s[1..1 + w]) then 1 + w + MoreTitle(s[1 + w..]) else 0
  }

  function TitleLength(s: string): (n: nat)
    ensures n <= |s|
  {
    var title := s[..TitleRun(s, TITLE_REACH)];
    WordRun(title) + MoreTitle(title[WordRun(title)..])
  }

  // ------------------------------------------------------------------- spans

  datatype Span = Span(start: nat, end: nat, isReal: bool)

  /** The first of the retrieved citations, longest first, that the text opens with. */
  function Opens(tail: string, ordered: seq<string>): (c: Option<string>)
    ensures c.Some? ==> c.value in ordered
  {
    if ordered == [] then None
    else if Flat(if |ordered[0]| <= |tail| then tail[..|ordered[0]|] else tail) == Flat(ordered[0]) then Some(ordered[0])
    else Opens(tail, ordered[1..])
  }

  /** The retrieved citations that a claimed text abbreviates. */
  function Abbreviated(claimed: string, ordered: seq<string>): seq<string> {
    if ordered == [] then []
    else (if claimed <= Flat(ordered[0]) then [ordered[0]] else []) + Abbreviated(claimed, ordered[1..])
  }

  /** The span of the head at a position. */
  function SpanAt(text: string, start: nat, ordered: seq<string>): (span: Span)
    requires start <= |text| && HeadLength(text[start..]) > 0
    ensures span.start == start && (!span.isReal ==> span.start < span.end <= |text|)
  {
    var tail := text[start..];
    match Opens(tail, ordered)
    case Some(c) => Span(start, start + |c|, true)
    case None =>
      var end := start + HeadLength(tail) + TitleLength(tail[HeadLength(tail)..]);
      Span(start, end, |Abbreviated(Flat(text[start..end]), ordered)| == 1)
  }

  /** Every citation-shaped run from a position on. Heads do not overlap;
      titles may. */
  function SpansFrom(text: string, at: nat, ordered: seq<string>): (spans: seq<Span>)
    requires at <= |text|
    ensures forall span :: span in spans ==> at <= span.start < |text| && (!span.isReal ==> span.start < span.end <= |text|)
    decreases |text| - at
  {
    if at == |text| then []
    else if HeadLength(text[at..]) > 0 then
      [SpanAt(text, at, ordered)] + SpansFrom(text, at + HeadLength(text[at..]), ordered)
    else SpansFrom(text, at + 1, ordered)
  }

  method CitationSpans(text: string, ordered: seq<string>) returns (spans: seq<Span>)
    ensures spans == SpansFrom(text, 0, ordered)
  {
    hide SpanAt, HeadLength;
    spans := [];
    var at := 0;
    while at < |text|
      invariant at <= |text| && spans + SpansFrom(text, at, ordered) == SpansFrom(text, 0, ordered)
      decreases |text| - at
    {
      var head := HeadLength(text[at..]);
      if head > 0 {
        spans := spans + [SpanAt(text, at, ordered)];
        at := at + head;
      } else {
        at := at + 1;
      }
    }
  }

  /** Spans come in the order of their starts, no two at one place. */
  lemma {:induction false} StartsIncrease(text: string, at: nat, ordered: seq<string>)
    requires at <= |text|
    ensures forall i, j :: 0 <= i < j < |SpansFrom(text, at, ordered)| ==>
      SpansFrom(text, at, ordered)[i].start < SpansFrom(text, at, ordered)[j].start
    decreases |text| - at
  {
    hide SpanAt, HeadLength;
    if at < |text| {
      var head := HeadLength(text[at..]);
      StartsIncrease(text, at + if head > 0 then head else 1, ordered);
      if head > 0 {
        var rest := SpansFrom(text, at + head, ordered);
        var spans := SpansFrom(text, at, ordered);
        forall i, j | 0 <= i < j < |spans| ensures spans[i].start < spans[j].start {
          assert spans[j] == rest[j - 1];
          if i > 0 { assert spans[i] == rest[i - 1]; } else { assert rest[j - 1] in rest; }
        }
      }
    }
  }

  // ------------------------------------------------------------ what is real

  predicate Distinct(s: seq<string>) { forall i, j :: 0 <= i < j < |s| ==> s[i] != s[j] }

  /** The retrieved citations, in the order in which they are tried. */
  ghost predicate LongestFirst(ordered: seq<string>, valid: set<string>) {
    && Distinct(ordered)
    && (forall c :: c in ordered <==> c in valid)
    && (forall i, j :: 0 <= i < j < |ordered| ==> |ordered[i]| >= |ordered[j]|)
  }

  predicate Matches(tail: string, c: string) { Flat(if |c| <= |tail| then tail[..|c|] else tail) == Flat(c) }

  lemma {:induction false} OpensIff(tail: string, ordered: seq<string>)
    ensures Opens(tail, ordered).Some? <==> exists c :: c in ordered && Matches(tail, c)
    ensures Opens(tail, ordered).Some? ==> Matches(tail, Opens(tail, ordered).value)
    ensures Opens(tail, ordered).Some? && (forall i, j :: 0 <= i < j < |ordered| ==> |ordered[i]| >= |ordered[j]|) ==>
      forall c :: c in ordered && Matches(tail, c) ==> |c| <= |Opens(tail, ordered).value|
  {
    hide Flat;
    if ordered != [] {
      var rest := ordered[1..];
      OpensIff(tail, rest);
      assert forall c :: c in ordered <==> c == ordered[0] || c in rest;
      if forall i, j :: 0 <= i < j < |ordered| ==> |ordered[i]| >= |ordered[j]| {
        assert forall j :: 0 <= j < |rest| ==> rest[j] == ordered[j + 1];
      }
    }
  }

  lemma {:induction false} AbbreviatedAre(claimed: string, ordered: seq<string>)
    requires Distinct(ordered)
    ensures Distinct(Abbreviated(claimed, ordered))
    ensures forall c :: c in Abbreviated(claimed, ordered) <==> c in ordered && claimed <= Flat(c)
  {
    hide Flat;
    if ordered != [] {
      var rest := ordered[1..];
      assert forall j :: 0 <= j < |rest| ==> rest[j] == ordered[j + 1];
      assert ordered[0] !in rest;
      AbbreviatedAre(claimed, rest);
      assert forall c :: c in ordered <==> c == ordered[0] || c in rest;
    }
  }

  ghost predicate Sole(cs: iset<string>, c: string) { c in cs && forall d :: d in cs ==> d == c }

  /** The retrieved citations that a claimed text could mean. */
  ghost function Meanings(claimed: string, valid: set<string>): iset<string> {
    iset c | c in valid && claimed <= Flat(c)
  }

  lemma OneIff(s: seq<string>, cs: iset<string>)
    requires Distinct(s) && forall c :: c in s <==> c in cs
    ensures |s| == 1 <==> exists c :: Sole(cs, c)
  {
    if |s| == 1 { assert Sole(cs, s[0]); }
    if c :| Sole(cs, c) { SoleMeansOne(s, cs, c); }
  }

  lemma SoleMeansOne(s: seq<string>, cs: iset<string>, c: string)
    requires Distinct(s) && (forall d :: d in s <==> d in cs) && Sole(cs, c)
    ensures |s| == 1
  {
    assert c in s;
    forall i | 0 <= i < |s| ensures s[i] == c { assert s[i] in s; }
    assert s != [];
    assert s[0] == s[|s| - 1];
  }

  /** A head is a real citation exactly when the text there is one of the
      retrieved, flattened, or what it claims abbreviates one of them only. */
  lemma RealIff(text: string, start: nat, ordered: seq<string>, valid: set<string>)
    requires start <= |text| && HeadLength(text[start..]) > 0 && LongestFirst(ordered, valid)
    ensures var span := SpanAt(text, start, ordered); var tail := text[start..];
      var end := start + HeadLength(tail) + TitleLength(tail[HeadLength(tail)..]);
      span.isReal <==>
        (exists c :: c in valid && Matches(tail, c)) || (exists c :: Sole(Meanings(Flat(text[start..end]), valid), c))
  {
    hide Flat, HeadLength, TitleLength, Matches, Opens, Abbreviated;
    var tail := text[start..];
    var end := start + HeadLength(tail) + TitleLength(tail[HeadLength(tail)..]);
    OpensIff(tail, ordered);
    var claimed := Flat(text[start..end]);
    AbbreviatedAre(claimed, ordered);
    OneIff(Abbreviated(claimed, ordered), Meanings(claimed, valid));
  }

  // ----------------------------------------------------------------- cutting

  function Least(a: nat, b: nat): nat { if a <= b then a else b }

  /** text[:start] + text[end:], where slices stop at the text's end. */
  function Removed(text: string, span: Span): string {
    text[..Least(span.start, |text|)] + text[Least(span.end, |text|)..]
  }

  /** Cutting from the last span to the first. */
  function Cut(text: string, spans: seq<Span>): string {
    if spans == [] then text
    else if spans[0].isReal then Cut(text, spans[1..])
    else Removed(Cut(text, spans[1..]), spans[0])
  }

  method CutInvented(text: string, spans: seq<Span>) returns (out: string)
    ensures out == Cut(text, spans)
  {
    out := text;
    for i := |spans| downto 0
      invariant out == Cut(text, spans[i..])
    {
      assert spans[i..][1..] == spans[i + 1..];
      if !spans[i].isReal { out := Removed(out, spans[i]); }
    }
    assert spans[0..] == spans;
  }

  function Invented(spans: seq<Span>): (r: seq<Span>)
    ensures forall span :: span in r <==> span in spans && !span.isReal
  {
    if spans == [] then [] else (if spans[0].isReal then [] else [spans[0]]) + Invented(spans[1..])
  }

  predicate Covered(spans: seq<Span>, k: nat) { exists i :: 0 <= i < |spans| && spans[i].start <= k < spans[i].end }

  /** The characters from lo up to hi that lie in no span, in order. */
  function Outside(text: string, spans: seq<Span>, lo: nat, hi: nat): (r: string)
    requires lo <= hi <= |text|
    ensures |r| <= hi - lo
    decreases hi - lo
  {
    if lo == hi then ""
    else (if Covered(spans, lo) then "" else [text[lo]]) + Outside(text, spans, lo + 1, hi)
  }

  /** Invented spans as the scan gives them: in order, non-empty, in the text. */
  predicate Rising(text: string, spans: seq<Span>) {
    && (forall i, j :: 0 <= i < j < |spans| ==> spans[i].start < spans[j].start)
    && (forall i :: 0 <= i < |spans| ==> !spans[i].isReal && spans[i].start < spans[i].end <= |text|)
  }

  /** No span runs into the next; or after the first that does, nothing is left. */
  predicate Clean(text: string, spans: seq<Span>)
    requires Rising(text, spans)
  {
    if |spans| <= 1 then true
    else if spans[0].end > spans[1].start then Outside(text, spans, spans[0].start, |text|) == ""
    else Clean(text, spans[1..])
  }

  lemma {:induction false} CutIgnoresReal(text: string, spans: seq<Span>)
    ensures Cut(text, spans) == Cut(text, Invented(spans))
  {
    if spans != [] {
      CutIgnoresReal(text, spans[1..]);
      if !spans[0].isReal { assert Invented(spans)[1..] == Invented(spans[1..]); } else { assert Invented(spans) == Invented(spans[1..]); }
    }
  }

  lemma RisingCons(text: string, span: Span, rest: seq<Span>)
    requires Rising(text, rest) && !span.isReal && span.start < span.end <= |text|
    requires forall later :: later in rest ==> span.start < later.start
    ensures Rising(text, [span] + rest)
  {
    var spans := [span] + rest;
    assert forall i :: 0 < i < |spans| ==> spans[i] == rest[i - 1] && spans[i] in rest;
  }

  lemma {:induction false} InventedRise(text: string, spans: seq<Span>)
    requires forall i, j :: 0 <= i < j < |spans| ==> spans[i].start < spans[j].start
    requires forall span :: span in spans && !span.isReal ==> span.start < span.end <= |text|
    ensures Rising(text, Invented(spans))
  {
    hide Rising;
    if spans == [] {
      NothingRises(text);
    } else {
      var rest := spans[1..];
      InventedRise(text, rest);
      assert spans[0] in spans;
      if spans[0].isReal {
        assert Invented(spans) == Invented(rest);
      } else {
        RisingCons(text, spans[0], Invented(rest));
      }
    }
  }

  lemma NothingRises(text: string)
    ensures Rising(text, [])
  {
  }

  // --------------------------------------------------------- outside, by parts

  lemma {:induction false} OutsideJoins(text: string, spans: seq<Span>, lo: nat, mid: nat, hi: nat)
    requires lo <= mid <= hi <= |text|
    ensures Outside(text, spans, lo, hi) == Outside(text, spans, lo, mid) + Outside(text, spans, mid, hi)
    decreases mid - lo
  {
    if lo < mid { OutsideJoins(text, spans, lo + 1, mid, hi); }
  }

  lemma {:induction false} OutsideAll(text: string, spans: seq<Span>, lo: nat, hi: nat)
    requires lo <= hi <= |text| && forall k: nat :: lo <= k < hi ==> !Covered(spans, k)
    ensures Outside(text, spans, lo, hi) == text[lo..hi]
    decreases hi - lo
  {
    if lo < hi { OutsideAll(text, spans, lo + 1, hi); }
  }

  lemma {:induction false} OutsideNone(text: string, spans: seq<Span>, lo: nat, hi: nat)
    requires lo <= hi <= |text| && forall k: nat :: lo <= k < hi ==> Covered(spans, k)
    ensures Outside(text, spans, lo, hi) == ""
    decreases hi - lo
  {
    if lo < hi { OutsideNone(text, spans, lo + 1, hi); }
  }

  lemma {:induction false} OutsideSame(text: string, a: seq<Span>, b: seq<Span>, lo: nat, hi: nat)
    requires lo <= hi <= |text| && forall k: nat :: lo <= k < hi ==> (Covered(a, k) <==> Covered(b, k))
    ensures Outside(text, a, lo, hi) == Outside(text, b, lo, hi)
    decreases hi - lo
  {
    if lo < hi { OutsideSame(text, a, b, lo + 1, hi); }
  }

  lemma CoveredCons(spans: seq<Span>, k: nat)
    requires spans != []
    ensures Covered(spans, k) <==> spans[0].start <= k < spans[0].end || Covered(spans[1..], k)
  {
    var rest := spans[1..];
    if Covered(rest, k) {
      var i :| 0 <= i < |rest| && rest[i].start <= k < rest[i].end;
      assert spans[i + 1] == rest[i];
    }
    if Covered(spans, k) {
      var i :| 0 <= i < |spans| && spans[i].start <= k < spans[i].end;
      if i > 0 { assert rest[i - 1] == spans[i]; }
    }
  }

  lemma NotBefore(text: string, spans: seq<Span>, k: nat)
    requires Rising(text, spans) && (spans != [] ==> k < spans[0].start)
    ensures !Covered(spans, k)
  {
  }

  lemma RestRises(text: string, spans: seq<Span>)
    requires Rising(text, spans) && spans != []
    ensures Rising(text, spans[1..])
  {
    assert forall i :: 0 <= i < |spans| - 1 ==> spans[1..][i] == spans[i + 1];
  }

  /** Cutting leaves everything in front of the first span alone. */
  lemma {:induction false} FrontStays(text: string, spans: seq<Span>, upTo: nat)
    requires Rising(text, spans) && upTo <= |text| && (spans != [] ==> upTo <= spans[0].start)
    ensures |Cut(text, spans)| >= upTo && Cut(text, spans)[..upTo] == text[..upTo]
  {
    if spans != [] {
      RestRises(text, spans);
      FrontStays(text, spans[1..], upTo);
    }
  }

  /** All of a text's front is outside. */
  lemma OutsideFront(text: string, spans: seq<Span>, upTo: nat)
    requires Rising(text, spans) && upTo <= |text| && (spans != [] ==> upTo <= spans[0].start)
    ensures Outside(text, spans, 0, |text|) == text[..upTo] + Outside(text, spans, upTo, |text|)
  {
    forall k: nat | k < upTo ensures !Covered(spans, k) { NotBefore(text, spans, k); }
    OutsideJoins(text, spans, 0, upTo, |text|);
    OutsideAll(text, spans, 0, upTo);
  }

  /** A first span that ends before the next starts takes just itself. */
  lemma OutsideApart(text: string, spans: seq<Span>, next: nat)
    requires Rising(text, spans) && spans != [] && spans[0].end <= next <= |text|
    requires |spans| > 1 ==> next == spans[1].start
    requires |spans| == 1 ==> next == |text|
    ensures Outside(text, spans, spans[0].start, |text|)
      == text[spans[0].end..next] + Outside(text, spans[1..], next, |text|)
  {
    var rest, a, b := spans[1..], spans[0].start, spans[0].end;
    RestRises(text, spans);
    OutsideJoins(text, spans, a, b, |text|);
    OutsideJoins(text, spans, b, next, |text|);
    forall k: nat ensures Covered(spans, k) <==> a <= k < b || Covered(rest, k) { CoveredCons(spans, k); }
    forall k: nat | k < next ensures !Covered(rest, k) { NotBefore(text, rest, k); }
    OutsideNone(text, spans, a, b);
    OutsideAll(text, spans, b, next);
    OutsideSame(text, spans, rest, next, |text|);
  }

  /** A first span that runs into the next leaves no more than that one's start
      and the characters between the two ends could. */
  lemma OutsideOverlapping(text: string, spans: seq<Span>)
    requires Rising(text, spans) && |spans| > 1 && spans[0].end > spans[1].start
    ensures var s1 := spans[1].start; var e := Least(spans[0].end, |text|);
      && s1 < e
      && Outside(text, spans, spans[0].start, |text|) == Outside(text, spans[1..], e, |text|)
      && |Outside(text, spans[1..], s1, |text|)| < (e - s1) + |Outside(text, spans[1..], e, |text|)|
  {
    var rest, a, s1, e := spans[1..], spans[0].start, spans[1].start, Least(spans[0].end, |text|);
    forall k: nat ensures Covered(spans, k) <==> a <= k < spans[0].end || Covered(rest, k) { CoveredCons(spans, k); }
    OutsideJoins(text, spans, a, e, |text|);
    OutsideNone(text, spans, a, e);
    OutsideSame(text, spans, rest, e, |text|);
    OutsideJoins(text, rest, s1, e, |text|);
    assert rest[0].start <= s1 < rest[0].end;
    assert Covered(rest, s1);
  }

  /** The cut never leaves more than it should, and leaves exactly the right
      text if and only if the spans are clean. */
  lemma {:induction false} CutAgainstOutside(text: string, spans: seq<Span>)
    requires Rising(text, spans)
    ensures |Cut(text, spans)| <= |Outside(text, spans, 0, |text|)|
    ensures Cut(text, spans) == Outside(text, spans, 0, |text|) <==> Clean(text, spans)
  {
    hide Outside, Rising, Covered;
    if spans == [] {
      NothingOutside(text);
    } else {
      RestRises(text, spans);
      CutAgainstOutside(text, spans[1..]);
      if |spans| > 1 && spans[0].end > spans[1].start { CutOverlapping(text, spans); } else { CutApart(text, spans); }
    }
  }

  lemma NothingOutside(text: string)
    ensures Outside(text, [], 0, |text|) == text
  {
    OutsideAll(text, [], 0, |text|);
    assert text[0..|text|] == text;
  }

  lemma CutApart(text: string, spans: seq<Span>)
    requires Rising(text, spans) && spans != [] && (|spans| > 1 ==> spans[0].end <= spans[1].start)
    requires Rising(text, spans[1..])
    requires |Cut(text, spans[1..])| <= |Outside(text, spans[1..], 0, |text|)|
    ensures |Cut(text, spans)| <= |Outside(text, spans, 0, |text|)|
    ensures Cut(text, spans) == Outside(text, spans, 0, |text|) <==> Cut(text, spans[1..]) == Outside(text, spans[1..], 0, |text|)
  {
    hide Outside, Covered;
    var rest, c, a, e := spans[1..], Cut(text, spans[1..]), spans[0].start, spans[0].end;
    var next := if rest == [] then |text| else rest[0].start;
    FrontStays(text, rest, next);
    OutsideFront(text, spans, a);
    OutsideFront(text, rest, next);
    OutsideApart(text, spans, next);
    var left, kept, tail, out := text[..a], text[e..next], c[next..], Outside(text, rest, next, |text|);
    assert c == text[..next] + tail;
    assert Cut(text, spans) == c[..a] + c[e..];
    assert c[..a] == left && c[e..] == kept + tail;
    SameFront(left + kept, tail, out);
    SameFront(text[..next], tail, out);
    assert Cut(text, spans) == (left + kept) + tail && Outside(text, spans, 0, |text|) == (left + kept) + out;
  }

  lemma SameFront(front: string, a: string, b: string)
    ensures front + a == front + b <==> a == b
  {
    assert (front + a)[|front|..] == a && (front + b)[|front|..] == b;
  }

  lemma CutOverlapping(text: string, spans: seq<Span>)
    requires Rising(text, spans) && |spans| > 1 && spans[0].end > spans[1].start
    requires Rising(text, spans[1..])
    requires |Cut(text, spans[1..])| <= |Outside(text, spans[1..], 0, |text|)|
    ensures |Cut(text, spans)| <= |Outside(text, spans, 0, |text|)|
    ensures Cut(text, spans) == Outside(text, spans, 0, |text|) <==> Outside(text, spans, spans[0].start, |text|) == ""
  {
    var rest, c, a, s1 := spans[1..], Cut(text, spans[1..]), spans[0].start, spans[1].start;
    OutsideFront(text, spans, a);
    OutsideFront(text, rest, s1);
    OutsideOverlapping(text, spans);
    FrontStays(text, rest, s1);
    hide Outside, Covered, Rising;
    assert Cut(text, spans) == c[..a] + c[Least(spans[0].end, |c|)..];
    assert c[..a] == text[..a] by { assert c[..s1][..a] == c[..a] && text[..s1][..a] == text[..a]; }
  }

  // ------------------------------------------------------------ main results

  /** The spans to cut, as the scan of a text gives them. */
  function ToCut(text: string, ordered: seq<string>): (r: seq<Span>)
    ensures Rising(text, r)
  {
    StartsIncrease(text, 0, ordered);
    InventedRise(text, SpansFrom(text, 0, ordered));
    Invented(SpansFrom(text, 0, ordered))
  }

  /** Back to front, the cut leaves exactly the characters outside the invented
      spans, in order, if and only if no invented span runs into the next, or
      nothing would be left after the first that does. */
  lemma CutIsExactIff(text: string, ordered: seq<string>)
    ensures Cut(text, SpansFrom(text, 0, ordered)) == Outside(text, ToCut(text, ordered), 0, |text|)
      <==> Clean(text, ToCut(text, ordered))
  {
    CutIgnoresReal(text, SpansFrom(text, 0, ordered));
    CutAgainstOutside(text, ToCut(text, ordered));
  }

  lemma {:induction false} DisjointIsClean(text: string, spans: seq<Span>)
    requires Rising(text, spans) && forall i :: 0 <= i < |spans| - 1 ==> spans[i].end <= spans[i + 1].start
    ensures Clean(text, spans)
  {
    if |spans| > 1 {
      RestRises(text, spans);
      assert forall i :: 0 <= i < |spans| - 1 ==> spans[1..][i] == spans[i + 1];
      DisjointIsClean(text, spans[1..]);
    }
  }

  /** A real citation that no invented one reaches into is in the cut text,
      letter for letter. */
  lemma RealCitationsSurvive(text: string, ordered: seq<string>, lo: nat, hi: nat)
    requires lo <= hi <= |text| && Clean(text, ToCut(text, ordered))
    requires forall span :: span in ToCut(text, ordered) ==> span.end <= lo || hi <= span.start
    ensures var out := Cut(text, SpansFrom(text, 0, ordered)); var spans := ToCut(text, ordered);
      out == Outside(text, spans, 0, lo) + text[lo..hi] + Outside(text, spans, hi, |text|)
  {
    hide Cut, ToCut, Clean, Outside;
    var spans := ToCut(text, ordered);
    CutIsExactIff(text, ordered);
    OutsideJoins(text, spans, 0, lo, |text|);
    OutsideJoins(text, spans, lo, hi, |text|);
    OutsideAll(text, spans, lo, hi);
  }
}
