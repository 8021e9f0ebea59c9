/** Sentence by sentence: the split is lossless, and what the removal of
    self-contradicting sentences does and does not change
    (backend/agent/app/graph/nodes.py:586-593, 718-734). */
module Sentences {
  import opened Ascii
  import opened Contradictions

  predicate IsStop(c: char) { c == '.' || c == '!' || c == '?' }

  predicate IsBody(c: char) { !IsStop(c) }

  /** The length of the run of such characters at the front. */
  function Run(p: char -> bool, s: string): (n: nat)
    ensures n <= |s|
    ensures forall i :: 0 <= i < n ==> p(s[i])
    ensures n < |s| ==> !p(s[n])
  {
    if s != "" && p(s[0]) then 1 + Run(p, s[1..]) else 0
  }

  /** How much the sentence pattern matches at the front of a text: a body, its
      stops and the blanks after them, or a body that runs to the end. */
  function FirstLength(s: string): (n: nat)
    ensures n <= |s| && (s != "" ==> n > 0)
  {
    var body := Run(IsBody, s);
    if body == |s| then |s|
    else
      var stops := Run(IsStop, s[body..]);
      body + stops + Run(IsSpace, s[body + stops..])
  }

  function Split(s: string): seq<string>
    decreases |s|
  {
    if s == "" then [] else [s[..FirstLength(s)]] + Split(s[FirstLength(s)..])
  }

  function Concat(xs: seq<string>): string { if xs == [] then "" else xs[0] + Concat(xs[1..]) }

  /** Nothing of the text is lost or doubled by splitting it. */
  lemma {:induction false} SplitTiles(s: string)
    ensures Concat(Split(s)) == s
    decreases |s|
  {
    if s != "" {
      SplitTiles(s[FirstLength(s)..]);
      assert s == s[..FirstLength(s)] + s[FirstLength(s)..];
    }
  }

  // ------------------------------------------------------------------- shape

  /** One sentence: body, stops, blanks. */
  datatype Parts = Parts(body: string, stops: string, blanks: string)

  predicate All(p: char -> bool, s: string) { forall i :: 0 <= i < |s| ==> p(s[i]) }

  predicate Shaped(x: Parts) {
    && All(IsBody, x.body) && All(IsStop, x.stops) && All(IsSpace, x.blanks)
    && (x.stops == "" ==> x.body != "" && x.blanks == "")
  }

  function Text(x: Parts): string { x.body + x.stops + x.blanks }

  function Texts(xs: seq<Parts>): (r: seq<string>)
    ensures |r| == |xs| && forall i :: 0 <= i < |r| ==> r[i] == Text(xs[i])
  {
    seq(|xs|, i requires 0 <= i < |xs| => Text(xs[i]))
  }

  predicate Flush(x: Parts) { Text(x) != "" && !IsSpace(Text(x)[0]) }

  /** A list of sentences as a text holds them: each is shaped, all but the last
      are stopped, and none but the first opens with a blank. */
  predicate Sound(xs: seq<Parts>) {
    && (forall x :: x in xs ==> Shaped(x))
    && (forall i :: 0 <= i < |xs| - 1 ==> xs[i].stops != "")
    && (forall i :: 0 < i < |xs| ==> Flush(xs[i]))
  }

  lemma {:induction false} RunIs(p: char -> bool, a: string, b: string)
    requires All(p, a) && (b == "" || !p(b[0]))
    ensures Run(p, a + b) == |a|
  {
    if a == "" { assert a + b == b; } else {
      assert (a + b)[1..] == a[1..] + b;
      RunIs(p, a[1..], b);
    }
  }

  /** The front of a text, taken apart. */
  function Front(s: string): Parts {
    var body := Run(IsBody, s);
    var stops := Run(IsStop, s[body..]);
    if body == |s| then Parts(s, "", "")
    else Parts(s[..body], s[body..body + stops], s[body + stops..FirstLength(s)])
  }

  lemma FrontIsFirst(s: string)
    requires s != ""
    ensures Shaped(Front(s)) && Text(Front(s)) == s[..FirstLength(s)]
    ensures FirstLength(s) < |s| ==> Front(s).stops != "" && !IsSpace(s[FirstLength(s)])
  {
    hide Run;
    var body := Run(IsBody, s);
    if body < |s| {
      var stops := Run(IsStop, s[body..]);
      assert s[body..][0] == s[body] && stops > 0;
      var rest := s[body + stops..];
      var n := FirstLength(s);
      assert s[..n] == s[..body] + s[body..body + stops] + s[body + stops..n];
      assert rest[..n - body - stops] == s[body + stops..n];
      assert n < |s| ==> rest[n - body - stops] == s[n];
    }
  }

  /** The sentences of a text, taken apart. */
  function Taken(s: string): seq<Parts>
    decreases |s|
  {
    if s == "" then [] else [Front(s)] + Taken(s[FirstLength(s)..])
  }

  predicate AllFlush(xs: seq<Parts>) { forall i :: 0 <= i < |xs| ==> Flush(xs[i]) }

  lemma EmptyIsSound()
    ensures Sound([]) && AllFlush([])
  {
  }

  lemma SoundCons(x: Parts, ks: seq<Parts>)
    requires Sound(ks) && AllFlush(ks) && Shaped(x) && (ks != [] ==> x.stops != "")
    ensures Sound([x] + ks) && (Flush(x) ==> AllFlush([x] + ks))
  {
    hide Flush, Shaped;
    var xs := [x] + ks;
    assert forall i :: 0 < i < |xs| ==> xs[i] == ks[i - 1];
    assert forall y :: y in xs ==> y == x || y in ks;
  }

  lemma TextsCons(x: Parts, rest: seq<Parts>)
    ensures Texts([x] + rest) == [Text(x)] + Texts(rest)
  {
    hide Text;
  }

  lemma {:induction false} TakenIsSplit(s: string)
    ensures Texts(Taken(s)) == Split(s)
    ensures s == "" <==> Taken(s) == []
    decreases |s|
  {
    hide FirstLength, Front, Text;
    if s != "" {
      FrontIsFirst(s);
      TakenIsSplit(s[FirstLength(s)..]);
      TextsCons(Front(s), Taken(s[FirstLength(s)..]));
    }
  }

  lemma {:induction false} TakenIsSound(s: string)
    ensures Sound(Taken(s))
    ensures s == "" || !IsSpace(s[0]) ==> AllFlush(Taken(s))
    decreases |s|
  {
    hide FirstLength, Front, Text, Sound, AllFlush, Shaped, IsSpace;
    if s == "" {
      EmptyIsSound();
    } else {
      var n := FirstLength(s);
      var rest := s[n..];
      FrontIsFirst(s);
      assert n < |s| ==> rest[0] == s[n];
      assert n == |s| ==> rest == "";
      TakenIsSound(rest);
      assert Text(Front(s))[0] == s[..n][0] == s[0];
      SoundCons(Front(s), Taken(rest));
    }
  }

  // --------------------------------------------------------- splitting again

  lemma FirstOfParts(body: string, stops: string, blanks: string, r: string)
    requires All(IsBody, body) && All(IsStop, stops) && All(IsSpace, blanks) && stops != ""
    requires r != "" ==> !IsSpace(r[0]) && (blanks == "" ==> !IsStop(r[0]))
    ensures FirstLength(body + (stops + (blanks + r))) == |body| + |stops| + |blanks|
  {
    hide Run;
    var r2 := blanks + r;
    var r1 := stops + r2;
    var s := body + r1;
    assert r1[0] == stops[0];
    RunIs(IsBody, body, r1);
    assert s[|body|..] == r1;
    assert r2 != "" ==> !IsStop(r2[0]) by {
      assert blanks != "" ==> r2[0] == blanks[0];
      assert blanks == "" ==> r2 == r;
    }
    RunIs(IsStop, stops, r2);
    assert s[|body| + |stops|..] == r2;
    RunIs(IsSpace, blanks, r);
  }

  lemma FirstIs(x: Parts, r: string)
    requires Shaped(x) && (x.stops == "" ==> r == "")
    requires r != "" ==> !IsSpace(r[0]) && (x.blanks == "" ==> !IsStop(r[0]))
    ensures FirstLength(Text(x) + r) == |Text(x)|
  {
    hide FirstLength, IsStop, IsSpace, IsBody, All;
    if x.stops == "" {
      FirstOfBody(x.body);
      assert Text(x) + r == x.body;
    } else {
      FirstOfParts(x.body, x.stops, x.blanks, r);
      assert Text(x) + r == x.body + (x.stops + (x.blanks + r));
    }
  }

  lemma FirstOfBody(body: string)
    requires All(IsBody, body)
    ensures FirstLength(body) == |body|
  {
    RunIs(IsBody, body, "");
    assert body + "" == body;
  }

  ghost predicate SomeContradicts(xs: seq<string>) { exists i :: 0 <= i < |xs| && Contradicts(xs[i]) }

  lemma SomeFirst(x: string, xs: seq<string>)
    ensures SomeContradicts([x] + xs) <==> Contradicts(x) || SomeContradicts(xs)
  {
    hide Contradicts;
    if SomeContradicts(xs) {
      var i :| 0 <= i < |xs| && Contradicts(xs[i]);
      assert Contradicts(([x] + xs)[i + 1]);
    }
    if Contradicts(x) { assert Contradicts(([x] + xs)[0]); }
  }

  /** Splitting a list of sentences again may weld bare stops onto the sentence
      before them, but finds a contradiction exactly when the list holds one. */
  lemma {:induction false} SplitAgain(xs: seq<Parts>)
    requires Sound(xs)
    ensures SomeContradicts(Split(Concat(Texts(xs)))) <==> SomeContradicts(Texts(xs))
    decreases |xs|
  {
    hide Contradicts, FirstLength;
    if xs != [] {
      assert xs[0] in xs;
      var rest := xs[1..];
      assert Sound(rest) by { assert forall i :: 0 <= i < |rest| ==> rest[i] == xs[i + 1]; }
      assert Texts(xs)[1..] == Texts(rest);
      assert Texts(xs) == [Text(xs[0])] + Texts(rest);
      SomeFirst(Text(xs[0]), Texts(rest));
      if rest != [] && xs[0].blanks == "" && IsStop(Text(rest[0])[0]) {
        Weld(xs);
      } else {
        var r := Concat(Texts(rest));
        NextOpens(rest);
        FirstIs(xs[0], r);
        SplitAgain(rest);
        assert (Text(xs[0]) + r)[..|Text(xs[0])|] == Text(xs[0]) && (Text(xs[0]) + r)[|Text(xs[0])|..] == r;
        TextIsThere(xs[0]);
        SomeFirst(Text(xs[0]), Split(r));
      }
    }
  }

  lemma TextIsThere(x: Parts)
    requires Shaped(x)
    ensures Text(x) != ""
  {
  }

  /** What follows a sentence opens as the next one does. */
  lemma NextOpens(rest: seq<Parts>)
    requires rest != [] ==> Flush(rest[0])
    ensures var r := Concat(Texts(rest)); if rest == [] then r == "" else r != "" && r[0] == Text(rest[0])[0]
  {
  }

  lemma SoundWeld(xs: seq<Parts>)
    requires Sound(xs) && |xs| > 1 && xs[0].blanks == "" && IsStop(Text(xs[1])[0])
    ensures Shaped(xs[0]) && xs[0].stops != "" && Shaped(xs[1]) && Text(xs[1]) != ""
    ensures Sound([Parts(xs[0].body, xs[0].stops + xs[1].stops, xs[1].blanks)] + xs[2..])
  {
    hide Text, IsSpace;
    var ys := [Parts(xs[0].body, xs[0].stops + xs[1].stops, xs[1].blanks)] + xs[2..];
    assert xs[0] in xs && xs[1] in xs;
    assert forall i :: 0 < i < |ys| ==> ys[i] == xs[i + 1];
  }

  lemma Weld(xs: seq<Parts>)
    requires Sound(xs) && |xs| > 1 && xs[0].blanks == "" && IsStop(Text(xs[1])[0])
    ensures SomeContradicts(Split(Concat(Texts(xs)))) <==> SomeContradicts(Texts(xs))
    decreases |xs|, 0
  {
    hide Contradicts, FirstLength, Sound, Shaped, Text, Split, Concat, SomeContradicts, IsStop;
    var a, b, rest := xs[0], xs[1], xs[2..];
    SoundWeld(xs);
    WeldIsShaped(a, b);
    var ab := Parts(a.body, a.stops + b.stops, b.blanks);
    var ys := [ab] + rest;
    SplitAgain(ys);
    assert xs == [a] + ([b] + rest);
    TextsCons(a, [b] + rest);
    TextsCons(b, rest);
    TextsCons(ab, rest);
    ConcatPair(Text(a), Text(b), Texts(rest));
    SomeFirst(Text(a), [Text(b)] + Texts(rest));
    SomeFirst(Text(b), Texts(rest));
    SomeFirst(Text(ab), Texts(rest));
  }

  lemma ConcatPair(a: string, b: string, rest: seq<string>)
    ensures Concat([a] + ([b] + rest)) == Concat([a + b] + rest)
  {
    assert ([a] + ([b] + rest))[1..] == [b] + rest && ([b] + rest)[1..] == rest && ([a + b] + rest)[1..] == rest;
  }

  lemma StopOpens(b: Parts)
    requires Shaped(b) && Text(b) != "" && IsStop(Text(b)[0])
    ensures b.body == ""
  {
    assert Text(b) == b.body + (b.stops + b.blanks);
    NoBodyBefore(b.body, b.stops + b.blanks);
  }

  lemma NoBodyBefore(body: string, rest: string)
    requires All(IsBody, body) && body + rest != "" && IsStop((body + rest)[0])
    ensures body == ""
  {
  }

  lemma WeldIsShaped(a: Parts, b: Parts)
    requires Shaped(a) && Shaped(b) && a.stops != "" && a.blanks == "" && Text(b) != "" && IsStop(Text(b)[0])
    ensures var ab := Parts(a.body, a.stops + b.stops, b.blanks);
      Shaped(ab) && Text(ab) == Text(a) + Text(b) && Contradicts(Text(ab)) == Contradicts(Text(a)) && !Contradicts(Text(b))
  {
    hide Contradicts;
    StopOpens(b);
    assert Text(b) == b.stops + b.blanks;
    assert Text(Parts(a.body, a.stops + b.stops, b.blanks)) == Text(a) + Text(b);
    assert Silent(Text(b));
    ContradictsIgnoresSilence(Text(a), Text(b));
    ContradictsIgnoresSilence("", Text(b));
    assert "" + Text(b) == Text(b);
    NothingSaysNothing();
  }

  lemma NothingSaysNothing()
    ensures !Contradicts("")
  {
  }

  // --------------------------------------------------------------- dropping

  function Kept(xs: seq<string>): seq<string> {
    if xs == [] then [] else (if Contradicts(xs[0]) then [] else [xs[0]]) + Kept(xs[1..])
  }

  /** _drop_false_comparisons: the text itself, or its other sentences. */
  function Drop(text: string): string {
    var sentences := Split(text);
    if |Kept(sentences)| == |sentences| then text else Strip(Concat(Kept(sentences)))
  }

  lemma {:induction false} KeptAllIff(xs: seq<string>)
    ensures |Kept(xs)| <= |xs|
    ensures |Kept(xs)| == |xs| <==> !SomeContradicts(xs)
    ensures |Kept(xs)| == |xs| ==> Kept(xs) == xs
  {
    hide Contradicts;
    if xs != [] {
      KeptAllIff(xs[1..]);
      assert xs == [xs[0]] + xs[1..];
      SomeFirst(xs[0], xs[1..]);
    }
  }

  /** What is kept is every sentence that does not contradict itself, and no other, in
      the order of the text: kept[i] is the sentence at places[i]. */
  lemma {:induction false} KeptAreTheRest(xs: seq<string>) returns (places: seq<nat>)
    ensures |places| == |Kept(xs)| && forall i, j :: 0 <= i < j < |places| ==> places[i] < places[j]
    ensures forall i :: 0 <= i < |places| ==> places[i] < |xs| && Kept(xs)[i] == xs[places[i]]
    ensures forall n :: 0 <= n < |xs| ==> (n in places <==> !Contradicts(xs[n]))
  {
    hide Contradicts;
    if xs == [] {
      places := [];
    } else {
      var front, last := xs[..|xs| - 1], xs[|xs| - 1];
      var before := KeptAreTheRest(front);
      KeptSnoc(front, last);
      assert xs == front + [last];
      places := before + (if Contradicts(last) then [] else [|front|]);
      assert forall n :: n in before ==> n < |front|;
    }
  }

  lemma {:induction false} KeptSnoc(xs: seq<string>, x: string)
    ensures Kept(xs + [x]) == Kept(xs) + (if Contradicts(x) then [] else [x])
  {
    hide Contradicts;
    if xs == [] {
      assert [] + [x] == [x] && [x][1..] == [];
    } else {
      assert (xs + [x])[1..] == xs[1..] + [x];
      KeptSnoc(xs[1..], x);
    }
  }

  lemma {:induction false} KeptIsShorter(xs: seq<string>)
    ensures |Concat(Kept(xs))| <= |Concat(xs)|
    ensures SomeContradicts(xs) ==> |Concat(Kept(xs))| < |Concat(xs)|
  {
    hide Contradicts;
    if xs != [] {
      KeptIsShorter(xs[1..]);
      assert xs == [xs[0]] + xs[1..];
      SomeFirst(xs[0], xs[1..]);
      NothingSaysNothing();
      if !Contradicts(xs[0]) { assert Kept(xs)[1..] == Kept(xs[1..]); } else { assert Kept(xs) == Kept(xs[1..]); }
    }
  }

  /** A text is given back as it stands exactly when no sentence contradicts
      itself; otherwise it comes back shorter. */
  lemma DropKeepsIff(text: string)
    ensures Drop(text) == text <==> !SomeContradicts(Split(text))
    ensures SomeContradicts(Split(text)) ==> |Drop(text)| < |text|
  {
    hide Contradicts, Split;
    KeptAllIff(Split(text));
    KeptIsShorter(Split(text));
    SplitTiles(text);
  }

  function KeptParts(xs: seq<Parts>): seq<Parts> {
    if xs == [] then [] else (if Contradicts(Text(xs[0])) then [] else [xs[0]]) + KeptParts(xs[1..])
  }

  lemma {:induction false} KeptPartsAre(xs: seq<Parts>)
    ensures Texts(KeptParts(xs)) == Kept(Texts(xs)) && !SomeContradicts(Texts(KeptParts(xs)))
  {
    hide Contradicts, Text;
    if xs != [] {
      var ks := KeptParts(xs[1..]);
      KeptPartsAre(xs[1..]);
      assert Texts(xs)[1..] == Texts(xs[1..]);
      if Contradicts(Text(xs[0])) {
        assert KeptParts(xs) == ks;
      } else {
        assert Texts([xs[0]] + ks) == [Text(xs[0])] + Texts(ks);
        SomeFirst(Text(xs[0]), Texts(ks));
      }
    }
  }

  lemma SoundRest(xs: seq<Parts>)
    requires Sound(xs) && xs != []
    ensures Sound(xs[1..]) && AllFlush(xs[1..]) && Shaped(xs[0]) && (|xs| > 1 ==> xs[0].stops != "")
  {
    hide Flush, Shaped;
    assert xs[0] in xs;
    assert forall i :: 0 <= i < |xs| - 1 ==> xs[1..][i] == xs[i + 1];
  }

  /** What is kept is still a list of sentences as a text holds them. */
  lemma {:induction false} KeptIsSound(xs: seq<Parts>)
    requires Sound(xs)
    ensures Sound(KeptParts(xs)) && (AllFlush(xs) ==> AllFlush(KeptParts(xs)))
    ensures KeptParts(xs) != [] ==> KeptParts(xs)[0] == xs[0] || Flush(KeptParts(xs)[0])
  {
    hide Contradicts, Text, Flush, Shaped, Sound;
    if xs == [] {
      assert Sound([]) by { EmptyIsSound(); }
    } else {
      var ks := KeptParts(xs[1..]);
      SoundRest(xs);
      KeptIsSound(xs[1..]);
      if Contradicts(Text(xs[0])) {
        assert KeptParts(xs) == ks;
      } else {
        SoundCons(xs[0], ks);
      }
    }
  }

  // ------------------------------------------------------------- stripping

  lemma {:induction false} LStripJoins(x: string, r: string)
    requires LStrip(x) != ""
    ensures LStrip(x + r) == LStrip(x) + r
  {
    hide IsSpace;
    var s := x + r;
    assert s[0] == x[0];
    if IsSpace(x[0]) {
      assert s[1..] == x[1..] + r;
      LStripJoins(x[1..], r);
    }
  }

  lemma {:induction false} RStripJoins(a: string, x: string)
    requires RStrip(x) != ""
    ensures RStrip(a + x) == a + RStrip(x)
  {
    if IsSpace(x[|x| - 1]) {
      assert (a + x)[..|a + x| - 1] == a + x[..|x| - 1];
      RStripJoins(a, x[..|x| - 1]);
    }
  }

  lemma {:induction false} LStripUpTo(b: string, r: string)
    requires r != "" && !IsSpace(r[0])
    ensures LStrip(b + r) == LStrip(b) + r
  {
    if b == "" { assert b + r == r; } else if IsSpace(b[0]) {
      assert (b + r)[1..] == b[1..] + r;
      LStripUpTo(b[1..], r);
    } else {
      assert (b + r)[0] == b[0];
    }
  }

  lemma {:induction false} RStripBlanks(s: string, b: string)
    requires All(IsSpace, b)
    ensures RStrip(s + b) == RStrip(s)
  {
    if b == "" { assert s + b == s; } else {
      assert (s + b)[..|s + b| - 1] == s + b[..|b| - 1];
      RStripBlanks(s, b[..|b| - 1]);
    }
  }

  lemma LStripFlush(s: string)
    requires s != "" && !IsSpace(s[0])
    ensures LStrip(s) == s
  {
  }

  lemma TextJoins(x: Parts)
    ensures Text(x) == x.body + (x.stops + x.blanks)
  {
  }

  lemma TrimBody(x: Parts) returns (y: Parts)
    requires Shaped(x) && x.stops != ""
    ensures Shaped(y) && Text(y) == LStrip(Text(x)) && y.stops == x.stops
  {
    hide Text, All, IsStop, IsSpace, IsBody;
    var rest := x.stops + x.blanks;
    y := Parts(LStrip(x.body), x.stops, x.blanks);
    BodyLStrips(x.body);
    TextJoins(x);
    TextJoins(y);
    StopIsNoBlank(x.stops);
    assert rest[0] == x.stops[0];
    hide LStrip;
    LStripUpTo(x.body, rest);
  }

  /** A sentence without the blanks in front of it. */
  lemma TrimFront(x: Parts) returns (y: Parts)
    requires Shaped(x) && (x.stops != "" || Flush(x))
    ensures Shaped(y) && Flush(y) && Text(y) == LStrip(Text(x)) && y.stops == x.stops
  {
    hide Shaped, Text, LStrip;
    if Flush(x) {
      LStripFlush(Text(x));
      y := x;
    } else {
      y := TrimBody(x);
      TextIsThere(y);
    }
  }

  lemma BlanksBehind(s: string)
    ensures s == RStrip(s) + s[|RStrip(s)|..] && Silent(s[|RStrip(s)|..])
  {
  }

  /** A sentence without the blanks behind it says the same. */
  lemma TrimBack(x: Parts) returns (y: Parts)
    requires Shaped(x) && Flush(x)
    ensures Shaped(y) && Flush(y) && Text(y) == RStrip(Text(x)) && Contradicts(Text(y)) == Contradicts(Text(x))
  {
    hide Contradicts, RStrip, IsStop;
    if x.stops == "" {
      y := Parts(RStrip(x.body), "", "");
      assert Text(x) == x.body && Text(y) == y.body;
    } else {
      y := Parts(x.body, x.stops, "");
      assert Text(x) == Text(y) + x.blanks;
      RStripBlanks(Text(y), x.blanks);
      assert Text(y)[|Text(y)| - 1] == x.stops[|x.stops| - 1];
      StopIsNoBlank(x.stops);
      RStripSolid(Text(y));
    }
    NotAllBlank(Text(x));
    BlanksBehind(Text(x));
    ContradictsIgnoresSilence(RStrip(Text(x)), Text(x)[|RStrip(Text(x))|..]);
  }

  lemma StopIsNoBlank(stops: string)
    requires All(IsStop, stops) && stops != ""
    ensures !IsSpace(stops[0]) && !IsSpace(stops[|stops| - 1])
  {
  }

  lemma BodyLStrips(body: string)
    requires All(IsBody, body)
    ensures All(IsBody, LStrip(body))
  {
    hide LStrip, IsBody, IsSpace;
    var r := LStrip(body);
    forall i | 0 <= i < |r| ensures IsBody(r[i]) { assert r[i] == body[|body| - |r| + i]; }
  }

  lemma RStripSolid(s: string)
    requires s != "" && !IsSpace(s[|s| - 1])
    ensures RStrip(s) == s
  {
  }

  lemma NotAllBlank(s: string)
    requires s != "" && !IsSpace(s[0])
    ensures RStrip(s) != "" && RStrip(s)[0] == s[0]
  {
  }

  // ------------------------------------------------------- dropping, twice

  lemma {:induction false} ConcatLast(xs: seq<string>, x: string)
    ensures Concat(xs + [x]) == Concat(xs) + x
  {
    if xs == [] {
      assert [] + [x] == [x];
      assert Concat([x][1..]) == "";
    } else {
      assert (xs + [x])[1..] == xs[1..] + [x];
      ConcatLast(xs[1..], x);
    }
  }

  /** Stripping a list of sentences strips its first and its last. */
  lemma StripSentences(ks: seq<Parts>) returns (zs: seq<Parts>)
    requires Sound(ks) && ks != [] && (ks[0].stops != "" || Flush(ks[0]))
    ensures Sound(zs) && |zs| == |ks|
    ensures Concat(Texts(zs)) == Strip(Concat(Texts(ks)))
    ensures Contradicts(Text(zs[0])) == Contradicts(LStrip(Text(ks[0])))
    ensures forall i :: 0 < i < |ks| ==> Contradicts(Text(zs[i])) == Contradicts(Text(ks[i]))
  {
    hide Contradicts, Text, Flush, Shaped, Sound, LStrip, RStrip;
    var ys := StripFirst(ks);
    zs := StripLast(ys);
  }

  lemma StripFirst(ks: seq<Parts>) returns (ys: seq<Parts>)
    requires Sound(ks) && ks != [] && (ks[0].stops != "" || Flush(ks[0]))
    ensures Sound(ys) && AllFlush(ys) && |ys| == |ks| && Text(ys[0]) == LStrip(Text(ks[0]))
    ensures forall i :: 0 < i < |ks| ==> ys[i] == ks[i]
    ensures Concat(Texts(ys)) == LStrip(Concat(Texts(ks)))
  {
    hide Contradicts, Text, Shaped, LStrip, Sound, AllFlush, IsSpace;
    SoundRest(ks);
    var y := TrimFront(ks[0]);
    ys := [y] + ks[1..];
    SoundCons(y, ks[1..]);
    FlushIsThere(y);
    LStripJoins(Text(ks[0]), Concat(Texts(ks[1..])));
    assert Texts(ks)[1..] == Texts(ks[1..]) && Texts(ys)[1..] == Texts(ks[1..]);
  }

  lemma FlushIsThere(y: Parts)
    requires Flush(y)
    ensures Text(y) != ""
  {
  }

  lemma StripLast(ys: seq<Parts>) returns (zs: seq<Parts>)
    requires Sound(ys) && AllFlush(ys) && ys != []
    ensures Sound(zs) && |zs| == |ys|
    ensures forall i :: 0 <= i < |ys| ==> Contradicts(Text(zs[i])) == Contradicts(Text(ys[i]))
    ensures Concat(Texts(zs)) == RStrip(Concat(Texts(ys)))
  {
    hide Contradicts, Text, Shaped, RStrip, IsSpace;
    var n := |ys| - 1;
    assert ys[n] in ys;
    var z := TrimBack(ys[n]);
    zs := ys[..n] + [z];
    assert forall x :: x in zs ==> x == z || x in ys;
    FlushIsThere(z);
    RStripJoins(Concat(Texts(ys[..n])), Text(ys[n]));
    ConcatLast(Texts(ys[..n]), Text(ys[n]));
    ConcatLast(Texts(ys[..n]), Text(z));
    assert Texts(ys) == Texts(ys[..n]) + [Text(ys[n])] && Texts(zs) == Texts(ys[..n]) + [Text(z)];
  }

  predicate DropsNothing(text: string) { |Kept(Split(text))| == |Split(text)| }

  /** What is left of a text that lost a sentence, split again, contradicts
      itself exactly when its first sentence does once it opens the text. */
  lemma LeftoversSplitAgain(text: string)
    requires !DropsNothing(text) && Kept(Split(text)) != []
    ensures SomeContradicts(Split(Drop(text))) <==> Contradicts(LStrip(Kept(Split(text))[0]))
  {
    hide Contradicts, Text, Flush, Shaped, Sound, LStrip, RStrip, Split;
    var ps := Taken(text);
    TakenIsSplit(text);
    TakenIsSound(text);
    KeptPartsAre(ps);
    KeptIsSound(ps);
    var ks := KeptParts(ps);
    KeptAllIff(Split(text));
    assert |Texts(ks)| == |ks| && ks != [];
    assert ks[0] == ps[0] ==> ps[0].stops != "" by { if |ps| > 1 { SoundRest(ps); } }
    var zs := StripSentences(ks);
    SplitAgain(zs);
    FirstOfMany(zs, ks);
  }

  lemma FirstOfMany(zs: seq<Parts>, ks: seq<Parts>)
    requires |zs| == |ks| > 0 && !SomeContradicts(Texts(ks))
    requires forall i :: 0 < i < |ks| ==> Contradicts(Text(zs[i])) == Contradicts(Text(ks[i]))
    ensures SomeContradicts(Texts(zs)) <==> Contradicts(Text(zs[0]))
  {
    hide Contradicts, Text;
    forall i | 0 < i < |ks| ensures !Contradicts(Text(zs[i])) { assert !Contradicts(Texts(ks)[i]); }
    if Contradicts(Text(zs[0])) { assert Contradicts(Texts(zs)[0]); }
  }

  /** Exactly when doing it twice is doing it once: nothing was dropped, nothing
      was left, or the first sentence left does not contradict itself when the
      blanks before it are gone. */
  lemma DropTwiceIff(text: string)
    ensures Drop(Drop(text)) == Drop(text) <==>
      DropsNothing(text) || Kept(Split(text)) == [] || !Contradicts(LStrip(Kept(Split(text))[0]))
  {
    hide Contradicts, Split, LStrip, RStrip;
    DropKeepsIff(text);
    KeptAllIff(Split(text));
    DropKeepsIff(Drop(text));
    if !DropsNothing(text) {
      if Kept(Split(text)) == [] {
        NothingLeft(text);
      } else {
        LeftoversSplitAgain(text);
      }
    }
  }

  lemma NothingLeft(text: string)
    requires !DropsNothing(text) && Kept(Split(text)) == []
    ensures !SomeContradicts(Split(Drop(text)))
  {
    hide Contradicts;
    assert Split("") == [];
  }

  /** On any text that does not open with a blank, twice is once. */
  lemma DropIsIdempotent(text: string)
    requires text == "" || !IsSpace(text[0])
    ensures Drop(Drop(text)) == Drop(text)
  {
    hide Contradicts, Split, LStrip, RStrip, Drop, Text;
    DropTwiceIff(text);
    var ps := Taken(text);
    TakenIsSplit(text);
    TakenIsSound(text);
    KeptPartsAre(ps);
    KeptIsSound(ps);
    var ks := KeptParts(ps);
    if ks != [] {
      LStripFlush(Text(ks[0]));
      assert Kept(Split(text))[0] == Text(ks[0]);
      assert !Contradicts(Texts(ks)[0]);
    }
  }
}
