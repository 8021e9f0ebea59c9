/** What the readers of citations take out of a text: the words that two citations
    are compared by, where a head ends, and where its title does
    (backend/agent/app/graph/nodes.py:493-505, 550-567, 804-832). */
module CitationText {
  import opened Ascii
  import opened Citations

  // ------------------------------------------------------------- comparison

  predicate WordLike(w: string) { w != "" && forall i :: 0 <= i < |w| ==> !IsSpace(w[i]) }

  function Joined(words: seq<string>): string {
    if words == [] then "" else if |words| == 1 then words[0] else words[0] + " " + Joined(words[1..])
  }

  function Woven(gaps: seq<string>, words: seq<string>): string
    requires |gaps| == |words| + 1
  {
    if words == [] then gaps[0] else gaps[0] + words[0] + Woven(gaps[1..], words[1..])
  }

  /** The words of a text, and the blanks before, between and after them. */
  ghost predicate HasWords(s: string, gaps: seq<string>, words: seq<string>) {
    && |gaps| == |words| + 1 && Woven(gaps, words) == s
    && (forall i :: 0 <= i < |words| ==> WordLike(words[i]))
    && (forall i :: 0 <= i < |gaps| ==> Blank(gaps[i]))
    && (forall i :: 0 < i < |words| ==> gaps[i] != "")
  }

  /** i..j is what is left of s without what may be trimmed off either end. */
  ghost predicate TrimsTo(s: string, i: int, j: int) {
    && 0 <= i <= j <= |s|
    && (forall k :: 0 <= k < i || j <= k < |s| ==> IsTrim(s[k]))
    && (i < j ==> !IsTrim(s[i]) && !IsTrim(s[j - 1]))
  }

  lemma {:induction false} PlainedAt(s: string)
    ensures |Plained(s)| == |s| && forall k :: 0 <= k < |s| ==> Plained(s)[k] == Plain(s[k])
  {
    if s != "" { PlainedAt(s[1..]); }
  }

  /** The typographic spaces, dashes and quotes, and nothing else, are made plain. */
  lemma PlainIff(c: char)
    ensures c != ' ' ==> (Plain(c) == ' ' <==> c in "\U{00A0}\U{202F}\U{2009}\U{2007}")
    ensures c != '-' ==> (Plain(c) == '-' <==> c in "\U{2010}\U{2011}\U{2012}\U{2013}\U{2014}\U{2212}")
    ensures c != '\'' ==> (Plain(c) == '\'' <==> c in "\U{2018}\U{2019}")
    ensures c != '\"' ==> (Plain(c) == '\"' <==> c in "\U{201C}\U{201D}")
    ensures Plain(c) == c || Plain(c) in " -\'\""
    ensures c in " -\'\"" ==> Plain(c) == c
  {
  }

  lemma {:induction false} TrimLeftIs(s: string) returns (i: nat)
    ensures i <= |s| && TrimLeft(s) == s[i..] && (forall k :: 0 <= k < i ==> IsTrim(s[k])) && (i < |s| ==> !IsTrim(s[i]))
  {
    if s != "" && IsTrim(s[0]) {
      i := TrimLeftIs(s[1..]);
      i := i + 1;
    } else {
      i := 0;
    }
  }

  lemma {:induction false} TrimRightIs(s: string) returns (j: nat)
    ensures j <= |s| && TrimRight(s) == s[..j] && (forall k :: j <= k < |s| ==> IsTrim(s[k])) && (j > 0 ==> !IsTrim(s[j - 1]))
  {
    if s != "" && IsTrim(s[|s| - 1]) {
      j := TrimRightIs(s[..|s| - 1]);
      assert s[..|s| - 1][..j] == s[..j];
    } else {
      j := |s|;
    }
  }

  lemma TrimmedIs(s: string) returns (i: nat, j: nat)
    ensures TrimsTo(s, i, j) && TrimRight(TrimLeft(s)) == s[i..j]
  {
    hide TrimLeft, TrimRight, IsTrim;
    i := TrimLeftIs(s);
    var left := s[i..];
    var n := TrimRightIs(left);
    j := i + n;
    assert left[..n] == s[i..j];
    forall k | j <= k < |s| ensures IsTrim(s[k]) { assert s[k] == left[k - i]; }
  }

  function One(gap: string): string { if gap == "" then "" else " " }

  function Ones(gaps: seq<string>): (r: seq<string>)
    ensures |r| == |gaps| && forall i :: 0 <= i < |gaps| ==> r[i] == One(gaps[i])
  {
    seq(|gaps|, i requires 0 <= i < |gaps| => One(gaps[i]))
  }

  /** Every gap becomes one space, or none. */
  lemma {:induction false} CollapseKeepsWords(s: string) returns (gaps: seq<string>, words: seq<string>)
    ensures HasWords(s, gaps, words) && Collapse(s) == Woven(Ones(gaps), words)
    decreases |s|
  {
    if s == "" {
      gaps, words := [""], [];
    } else if IsSpace(s[0]) {
      var n := 1 + SpaceRun(s[1..]);
      gaps, words := CollapseKeepsWords(s[n..]);
      NoGapFirst(s[n..], gaps, words);
      WiderGap(s[..n], s[n..], gaps, words);
      assert s == s[..n] + s[n..];
      gaps := [s[..n]] + gaps[1..];
    } else {
      gaps, words := CollapseKeepsWords(s[1..]);
      assert s == [s[0]] + s[1..];
      if words != [] && gaps[0] == "" {
        LongerWord(s[0], s[1..], gaps, words);
        words := [[s[0]] + words[0]] + words[1..];
      } else {
        NewWord(s[0], s[1..], gaps, words);
        gaps, words := [""] + gaps, [[s[0]]] + words;
      }
    }
  }

  lemma NoGapFirst(s: string, gaps: seq<string>, words: seq<string>)
    requires HasWords(s, gaps, words) && (s != "" ==> !IsSpace(s[0]))
    ensures gaps[0] == ""
  {
    GapLeads(s, gaps, words);
  }

  lemma GapLeads(s: string, gaps: seq<string>, words: seq<string>)
    requires HasWords(s, gaps, words)
    ensures gaps[0] != "" ==> s != "" && s[0] == gaps[0][0]
  {
    hide WordLike, Blank;
  }

  lemma WiderGap(gap: string, s: string, gaps: seq<string>, words: seq<string>)
    requires gap != "" && Blank(gap) && HasWords(s, gaps, words) && gaps[0] == ""
    ensures HasWords(gap + s, [gap] + gaps[1..], words)
    ensures Woven(Ones([gap] + gaps[1..]), words) == " " + Woven(Ones(gaps), words)
  {
    var wider := [gap] + gaps[1..];
    assert wider[1..] == gaps[1..] && Ones(wider)[1..] == Ones(gaps)[1..];
    if words != [] { assert gaps[0] + words[0] == words[0]; }
  }

  lemma LongerWord(c: char, s: string, gaps: seq<string>, words: seq<string>)
    requires !IsSpace(c) && HasWords(s, gaps, words) && words != [] && gaps[0] == ""
    ensures var longer := [[c] + words[0]] + words[1..];
      HasWords([c] + s, gaps, longer) && Woven(Ones(gaps), longer) == [c] + Woven(Ones(gaps), words)
  {
    var longer := [[c] + words[0]] + words[1..];
    assert WordLike(words[0]) && WordLike(longer[0]);
    hide WordLike, Blank;
    assert longer[1..] == words[1..];
    assert gaps[0] + longer[0] == longer[0] && gaps[0] + words[0] == words[0];
    assert Ones(gaps)[0] + longer[0] == longer[0] && Ones(gaps)[0] + words[0] == words[0];
    StartsWith(c, words[0], Woven(gaps[1..], words[1..]));
    StartsWith(c, words[0], Woven(Ones(gaps)[1..], words[1..]));
  }

  lemma StartsWith(c: char, word: string, rest: string)
    ensures ([c] + word) + rest == [c] + (word + rest)
  {
  }

  lemma NewWord(c: char, s: string, gaps: seq<string>, words: seq<string>)
    requires !IsSpace(c) && HasWords(s, gaps, words) && (words == [] || gaps[0] != "")
    ensures HasWords([c] + s, [""] + gaps, [[c]] + words)
    ensures Woven(Ones([""] + gaps), [[c]] + words) == [c] + Woven(Ones(gaps), words)
  {
    var more := [""] + gaps;
    assert more[1..] == gaps && Ones(more)[1..] == Ones(gaps) && ([[c]] + words)[1..] == words;
  }

  lemma {:induction false} WovenOnes(gaps: seq<string>, words: seq<string>)
    requires |gaps| == |words| + 1 && words != [] && forall i :: 0 < i < |words| ==> gaps[i] != ""
    ensures Woven(Ones(gaps), words) == One(gaps[0]) + Joined(words) + One(gaps[|words|])
  {
    var ones := Ones(gaps);
    assert ones[1..] == Ones(gaps[1..]);
    if |words| == 1 {
      assert words[1..] == [] && Woven(ones[1..], words[1..]) == ones[1];
    } else {
      WovenOnes(gaps[1..], words[1..]);
      assert ones[1] == " ";
      hide Ones, One;
      assert Joined(words) == words[0] + (" " + Joined(words[1..]));
    }
  }

  lemma {:induction false} JoinedEnds(words: seq<string>)
    requires words != [] && forall i :: 0 <= i < |words| ==> WordLike(words[i])
    ensures Joined(words) != "" && !IsSpace(Joined(words)[0]) && !IsSpace(Joined(words)[|Joined(words)| - 1])
  {
    assert WordLike(words[0]);
    if |words| > 1 { JoinedEnds(words[1..]); }
  }

  lemma StripBetween(a: string, middle: string, b: string)
    requires Blank(a) && Blank(b) && (middle != "" ==> !IsSpace(middle[0]) && !IsSpace(middle[|middle| - 1]))
    requires middle == "" ==> b == ""
    ensures Strip(a + middle + b) == middle
  {
    var s := a + middle + b;
    var i, j := StripTakesBlanks(s);
    hide Strip;
    BlankEnds(s, i, j);
    if middle == "" {
      assert forall k :: 0 <= k < |s| ==> IsSpace(s[k]);
    } else {
      assert s[|a|] == middle[0] && s[|a| + |middle| - 1] == middle[|middle| - 1];
      assert forall k :: 0 <= k < |a| ==> IsSpace(s[k]);
      assert forall k :: |a| + |middle| <= k < |s| ==> s[k] == b[k - |a| - |middle|];
      assert s[|a|..|a| + |middle|] == middle;
    }
  }

  /** A citation is compared by its words: made plain and trimmed at the ends, the
      words that blanks part, in small letters, with one space between. */
  lemma FlatIs(s: string) returns (i: nat, j: nat, gaps: seq<string>, words: seq<string>)
    ensures |Plained(s)| == |s| && TrimsTo(Plained(s), i, j) && HasWords(Plained(s)[i..j], gaps, words)
    ensures Flat(s) == Lower(Joined(words))
  {
    hide TrimLeft, TrimRight, Strip, Collapse, Lower, Plained;
    PlainedAt(s);
    i, j := TrimmedIs(Plained(s));
    gaps, words := CollapseKeepsWords(Plained(s)[i..j]);
    StripJoined(gaps, words);
  }

  lemma NoWords(gaps: seq<string>)
    requires |gaps| == 1
    ensures Woven(Ones(gaps), []) == One(gaps[0]) && Joined([]) == ""
  {
  }

  lemma StripJoined(gaps: seq<string>, words: seq<string>)
    requires |gaps| == |words| + 1 && (forall i :: 0 <= i < |words| ==> WordLike(words[i]))
    requires forall i :: 0 < i < |words| ==> gaps[i] != ""
    ensures Strip(Woven(Ones(gaps), words)) == Joined(words)
  {
    hide Strip, WordLike, Woven, Joined;
    if words == [] {
      StripBetween(One(gaps[0]), "", "");
      assert One(gaps[0]) + "" + "" == One(gaps[0]);
      NoWords(gaps);
    } else {
      WovenOnes(gaps, words);
      JoinedEnds(words);
      StripBetween(One(gaps[0]), Joined(words), One(gaps[|words|]));
    }
  }

  function LowerWords(words: seq<string>): (r: seq<string>)
    ensures |r| == |words| && forall k :: 0 <= k < |r| ==> r[k] == Lower(words[k])
  {
    seq(|words|, k requires 0 <= k < |words| => Lower(words[k]))
  }

  lemma LowerJoin(a: string, b: string)
    ensures Lower(a + b) == Lower(a) + Lower(b)
  {
  }

  lemma {:induction false} LowerJoined(words: seq<string>)
    ensures Lower(Joined(words)) == Joined(LowerWords(words))
  {
    if |words| > 1 {
      LowerJoined(words[1..]);
      assert LowerWords(words)[1..] == LowerWords(words[1..]);
      LowerJoin(words[0] + " ", Joined(words[1..]));
      LowerJoin(words[0], " ");
      assert Lower(" ") == " ";
    }
  }

  lemma {:induction false} JoinedTellsWords(a: seq<string>, b: seq<string>)
    requires (forall k :: 0 <= k < |a| ==> WordLike(a[k])) && (forall k :: 0 <= k < |b| ==> WordLike(b[k]))
    requires Joined(a) == Joined(b)
    ensures a == b
  {
    if a == [] || b == [] {
      if a != [] { JoinedEnds(a); } else if b != [] { JoinedEnds(b); }
    } else {
      assert WordLike(a[0]) && WordLike(b[0]);
      FirstWord(a);
      FirstWord(b);
      JoinedTellsWords(a[1..], b[1..]);
      assert a == [a[0]] + a[1..] && b == [b[0]] + b[1..];
    }
  }

  lemma FirstWord(a: seq<string>)
    requires a != [] && WordLike(a[0])
    ensures var s, n := Joined(a), |a[0]|;
      && n <= |s| && s[..n] == a[0] && (|a| == 1 <==> n == |s|)
      && (n < |s| ==> IsSpace(s[n]) && s[n + 1..] == Joined(a[1..]))
      && (forall k :: 0 <= k < n ==> !IsSpace(s[k]))
  {
    if |a| > 1 { assert Joined(a)[|a[0]|] == ' '; }
  }

  /** Two citations pass for the same exactly when they have the same words, but for
      capitals. */
  lemma SameCitationIff(s: string, t: string) returns (a: seq<string>, b: seq<string>)
    ensures exists i, j, gaps :: TrimsTo(Plained(s), i, j) && HasWords(Plained(s)[i..j], gaps, a)
    ensures exists i, j, gaps :: TrimsTo(Plained(t), i, j) && HasWords(Plained(t)[i..j], gaps, b)
    ensures Flat(s) == Flat(t) <==> |a| == |b| && forall k :: 0 <= k < |a| ==> Lower(a[k]) == Lower(b[k])
  {
    hide Flat, Plained, WordLike, Woven, Blank, Lower;
    var i, j, gaps, i1, j1, gaps1;
    i, j, gaps, a := FlatIs(s);
    i1, j1, gaps1, b := FlatIs(t);
    LowerJoined(a);
    LowerJoined(b);
    LowWordsAreWords(gaps, a, Plained(s)[i..j]);
    LowWordsAreWords(gaps1, b, Plained(t)[i1..j1]);
    if Flat(s) == Flat(t) {
      JoinedTellsWords(LowerWords(a), LowerWords(b));
      assert forall k :: 0 <= k < |a| ==> Lower(a[k]) == LowerWords(a)[k];
    }
    assert |a| == |b| && (forall k :: 0 <= k < |a| ==> Lower(a[k]) == Lower(b[k])) ==> LowerWords(a) == LowerWords(b);
  }

  lemma LowWordsAreWords(gaps: seq<string>, words: seq<string>, s: string)
    requires HasWords(s, gaps, words)
    ensures forall k :: 0 <= k < |words| ==> WordLike(LowerWords(words)[k])
  {
    forall k | 0 <= k < |words| ensures WordLike(LowerWords(words)[k]) { assert WordLike(words[k]); }
  }

  // -------------------------------------------------------------- the head

  /** A name in ".md" up to `name`, blanks, the section sign, and blanks up to `end`. */
  ghost predicate IsHead(s: string, name: int, sign: int, end: int) {
    && 4 <= name <= sign < end <= |s|
    && s[name - 3..name] == ".md" && s[sign] == SECTION
    && (forall i :: 0 <= i < name ==> InName(s[i]))
    && (forall i :: name <= i < end && i != sign ==> IsSpace(s[i]))
    && (end < |s| ==> !IsSpace(s[end]))
  }

  lemma NamesAreSolid(c: char)
    requires InName(c)
    ensures !IsSpace(c) && c != SECTION
  {
  }

  /** The head at the front is all of it: name, sign and the blanks about the sign. */
  lemma HeadIff(s: string, end: nat)
    requires end > 0
    ensures HeadLength(s) == end <==> exists name, sign :: IsHead(s, name, sign, end)
  {
    hide InName, IsSpace;
    if HeadLength(s) == end {
      var name := NameRun(s);
      var gap := s[name..];
      var sign := name + SpaceRun(gap);
      var more := s[sign + 1..];
      forall i | name <= i < end && i != sign ensures IsSpace(s[i]) {
        if i < sign { assert s[i] == gap[i - name]; } else { assert s[i] == more[i - sign - 1]; }
      }
      if end < |s| { assert s[end] == more[end - sign - 1]; }
      assert IsHead(s, name, sign, end);
    }
    if name, sign :| IsHead(s, name, sign, end) { HeadIsFound(s, name, sign, end); }
  }

  lemma HeadIsFound(s: string, name: int, sign: int, end: int)
    requires IsHead(s, name, sign, end)
    ensures HeadLength(s) == end
  {
    var n := NameRun(s);
    forall i | 0 <= i < n ensures !IsSpace(s[i]) && s[i] != SECTION { NamesAreSolid(s[i]); }
    assert s[name] == SECTION || IsSpace(s[name]);
    hide InName, IsSpace;
    assert n == name;
    RunOfBlanks(s, name, sign);
    RunOfBlanks(s, sign + 1, end);
  }

  lemma RunOfBlanks(s: string, at: int, end: int)
    requires 0 <= at <= end <= |s| && (forall i :: at <= i < end ==> IsSpace(s[i])) && (end < |s| ==> !IsSpace(s[end]))
    ensures SpaceRun(s[at..]) == end - at
  {
    hide IsSpace;
    var rest, n := s[at..], SpaceRun(s[at..]);
    assert forall i :: 0 <= i < |rest| ==> rest[i] == s[at + i];
  }

  // -------------------------------------------------------------- the title

  /** The words of a line from p to q: spaces part them. */
  predicate WordAt(t: string, p: int, q: int) {
    && 0 <= p <= q <= |t| && (p == 0 || t[p - 1] == ' ') && (q == |t| || t[q] == ' ')
    && forall i :: p <= i < q ==> t[i] != ' '
  }

  /** The word after the space at n does not read as part of a heading. */
  ghost predicate ProseAfter(t: string, n: int) {
    exists p, q :: p == n + 1 && WordAt(t, p, q) && !IsTitleWord(t[p..q])
  }

  /** The first word of a line and the title words right after it. */
  ghost predicate IsTitle(t: string, n: int) {
    && 0 <= n <= |t| && (n == |t| || t[n] == ' ')
    && (forall p, q :: 0 < p <= n && WordAt(t, p, q) ==> q <= n && IsTitleWord(t[p..q]))
    && (n == |t| || ProseAfter(t, n))
  }

  /** What may belong to a title: the line as far as a stop, and ninety characters of
      it at the most. */
  predicate IsReach(s: string, n: int) {
    && 0 <= n <= |s| && n <= 90
    && (forall i :: 0 <= i < n ==> s[i] !in "\n,;)")
    && (n == |s| || n == 90 || s[n] in "\n,;)")
  }

  lemma {:induction false} TitleRunIs(s: string, room: nat)
    ensures var n := TitleRun(s, room);
      && (forall i :: 0 <= i < n ==> s[i] !in "\n,;)")
      && (n == |s| || n == room || s[n] in "\n,;)")
    decreases room
  {
    if room > 0 && s != "" && s[0] !in ['\n', ',', ';', ')'] { TitleRunIs(s[1..], room - 1); }
  }

  /** From a space at `at` the heading goes on up to n. */
  ghost predicate GoesOn(t: string, at: int, n: int) {
    && 0 <= at <= n <= |t| && (n == |t| || t[n] == ' ')
    && (forall p, q :: at < p <= n && WordAt(t, p, q) ==> q <= n && IsTitleWord(t[p..q]))
    && (n == |t| || ProseAfter(t, n))
  }

  lemma {:induction false} MoreTitleIs(t: string, at: nat)
    requires at <= |t| && (at == |t| || t[at] == ' ')
    ensures GoesOn(t, at, at + MoreTitle(t[at..]))
    decreases |t| - at
  {
    hide IsTitleWord, WordRun, WordAt, GoesOn, MoreTitle, OnlyWord;
    if at == |t| {
      AtTheEnd(t);
    } else {
      var w := WordRun(t[at + 1..]);
      var end := at + 1 + w;
      WordIs(t, at + 1);
      OneTitleStep(t[at..]);
      assert t[at..][1..] == t[at + 1..] && t[at..][1..1 + w] == t[at + 1..end] && t[at..][1 + w..] == t[end..];
      if IsTitleWord(t[at + 1..end]) {
        MoreTitleIs(t, end);
        OneMoreWord(t, at, end, end + MoreTitle(t[end..]));
      } else {
        NoMoreWord(t, at, end);
      }
    }
  }

  lemma OneTitleStep(s: string)
    requires s != "" && s[0] == ' '
    ensures var w := WordRun(s[1..]);
      MoreTitle(s) == if IsTitleWord(s[1..1 + w]) then 1 + w + MoreTitle(s[1 + w..]) else 0
  {
  }

  lemma AtTheEnd(t: string)
    ensures t[|t|..] == "" && MoreTitle("") == 0 && GoesOn(t, |t|, |t|)
  {
  }

  /** p..q is the only word that starts after the space at `at` and up to q. */
  ghost predicate OnlyWord(t: string, at: int, end: int) {
    forall p, q :: at < p <= end && WordAt(t, p, q) ==> p == at + 1 && q == end
  }

  lemma OneMoreWord(t: string, at: int, end: int, n: int)
    requires 0 <= at < end && GoesOn(t, end, n) && IsTitleWord(t[at + 1..end]) && OnlyWord(t, at, end)
    ensures GoesOn(t, at, n)
  {
    hide IsTitleWord, WordAt;
  }

  lemma NoMoreWord(t: string, at: int, end: int)
    requires 0 <= at < |t| && t[at] == ' ' && WordAt(t, at + 1, end) && !IsTitleWord(t[at + 1..end])
    ensures GoesOn(t, at, at)
  {
    hide IsTitleWord;
  }

  lemma WordIs(t: string, p: nat)
    requires 0 < p <= |t| && t[p - 1] == ' '
    ensures var end := p + WordRun(t[p..]); end <= |t| && WordAt(t, p, end) && OnlyWord(t, p - 1, end)
    ensures var end := p + WordRun(t[p..]); end == |t| || t[end] == ' '
  {
    var rest, w := t[p..], WordRun(t[p..]);
    forall i | p <= i < p + w ensures t[i] != ' ' { assert t[i] == rest[i - p]; }
    if p + w < |t| { assert t[p + w] == rest[w]; }
  }

  /** A title ends where the line does, at a stop, after ninety characters, or before
      the first word that does not read as part of a heading. */
  lemma TitleIs(s: string) returns (reach: nat)
    ensures IsReach(s, reach) && IsTitle(s[..reach], TitleLength(s))
  {
    hide WordAt, IsTitleWord, TitleRun, WordRun, MoreTitle;
    reach := TitleRun(s, TITLE_REACH);
    TitleRunIs(s, TITLE_REACH);
    var t := s[..reach];
    var w := WordRun(t);
    FirstWordIsFree(t, w);
    MoreTitleIs(t, w);
  }

  lemma FirstWordIsFree(t: string, w: nat)
    requires w == WordRun(t)
    ensures forall p, q :: 0 < p <= w ==> !WordAt(t, p, q)
    ensures w == |t| || t[w] == ' '
  {
  }

  /** There is only one such end. */
  lemma OneTitle(t: string, n: int, m: int)
    requires IsTitle(t, n) && IsTitle(t, m)
    ensures n == m
  {
    hide IsTitleWord;
    EarlierTitle(t, n, m);
    EarlierTitle(t, m, n);
  }

  lemma EarlierTitle(t: string, n: int, m: int)
    requires IsTitle(t, n) && IsTitle(t, m)
    ensures !(n < m)
  {
    hide IsTitleWord;
  }

  /** A citation that some retrieved one opens runs as long as the longest of these;
      any other ends where its title does. */
  lemma SpanEndsIff(text: string, start: nat, ordered: seq<string>, valid: set<string>)
    requires start <= |text| && HeadLength(text[start..]) > 0 && LongestFirst(ordered, valid)
    ensures var span := SpanAt(text, start, ordered); var tail := text[start..];
      && span.start == start
      && ((exists c :: c in valid && Matches(tail, c)) ==> span.isReal && Longest(tail, valid, span.end - start))
      && ((forall c :: c in valid ==> !Matches(tail, c)) ==>
            span.end == start + HeadLength(tail) + TitleLength(tail[HeadLength(tail)..]))
  {
    hide Flat, HeadLength, TitleLength, Matches, Opens, Abbreviated;
    OpensIff(text[start..], ordered);
  }

  ghost predicate Longest(tail: string, valid: set<string>, length: int) {
    && (exists c :: c in valid && Matches(tail, c) && |c| == length)
    && forall c :: c in valid && Matches(tail, c) ==> |c| <= length
  }
}
