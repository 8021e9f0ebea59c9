/** Reading a policy or claim number out of what follows its cue
    (backend/libs/guardrails/normalize.py:41-95, 128-131). */
module SpokenIds {
  import opened Options
  import opened Ascii
  import opened NumberWords
  import opened Figures

  // --------------------------------------------------------------- the words

  predicate InNumber(w: Word) { w.Figure? || w.Unit? || w.Ten? }

  predicate Completes(w: Word) { w.Unit? && 1 <= w.n <= 9 }

  /** Digit groups concatenated: a tens word takes the unit after it. */
  function ToDigits(ws: seq<Word>): string {
    if ws == [] then ""
    else match ws[0]
      case Figure(d) => d + ToDigits(ws[1..])
      case Unit(n) => Digits(n) + ToDigits(ws[1..])
      case Ten(n) =>
        if |ws| > 1 && Completes(ws[1]) then Digits(n + ws[1].n) + ToDigits(ws[2..])
        else Digits(n) + ToDigits(ws[1..])
      case _ => ToDigits(ws[1..])
  }

  /** The first run of number words, if only filler comes before it. */
  function IdentifierRun(ws: seq<Word>, begun: bool): seq<Word> {
    if ws == [] then []
    else if InNumber(ws[0]) then [ws[0]] + IdentifierRun(ws[1..], true)
    else if begun || !ws[0].Filler? then []
    else IdentifierRun(ws[1..], false)
  }

  predicate IsPunctuation(c: char) { c == ',' || c == '.' || c == ';' || c == ':' }

  function TrimRight(s: string): (r: string)
    ensures forall c :: c in r ==> c in s
  {
    if s != "" && IsPunctuation(s[|s| - 1]) then TrimRight(s[..|s| - 1]) else s
  }

  function Trim(s: string): (r: string)
    ensures forall c :: c in r ==> c in s
  {
    if s != "" && IsPunctuation(s[0]) then Trim(s[1..]) else TrimRight(s)
  }

  /** Tokens as the run reads them: lower case, without punctuation. */
  function Cleaned(tokens: seq<string>): (r: seq<string>)
    ensures |r| == |tokens|
  {
    seq(|tokens|, i requires 0 <= i < |tokens| => Trim(Lower(tokens[i])))
  }

  function Lowered(tokens: seq<string>): (r: seq<string>)
    ensures |r| == |tokens|
  {
    seq(|tokens|, i requires 0 <= i < |tokens| => Lower(tokens[i]))
  }

  /** The four marks that may stand at either end of a token. */
  predicate IsMark(c: char) { c in ",.;:" }

  predicate Marks(s: string) { forall i :: 0 <= i < |s| ==> IsMark(s[i]) }

  /** `word` is the token without the marks at its ends. */
  ghost predicate IsTrimmed(word: string, token: string) {
    && (word != "" ==> !IsMark(word[0]) && !IsMark(word[|word| - 1]))
    && exists i, j :: 0 <= i <= j <= |token| && Marks(token[..i]) && Marks(token[j..]) && word == token[i..j]
  }

  lemma {:induction false} TrimRightIs(s: string)
    ensures TrimRight(s) <= s && Marks(s[|TrimRight(s)|..])
    ensures TrimRight(s) != "" ==> !IsMark(TrimRight(s)[|TrimRight(s)| - 1])
  {
    if s != "" && IsPunctuation(s[|s| - 1]) {
      var front := s[..|s| - 1];
      TrimRightIs(front);
      assert s[|TrimRight(s)|..] == front[|TrimRight(s)|..] + [s[|s| - 1]];
    }
  }

  lemma TrimmedBehind(c: char, rest: string, word: string)
    requires IsMark(c) && IsTrimmed(word, rest)
    ensures IsTrimmed(word, [c] + rest)
  {
    hide IsMark;
    var i, j :| 0 <= i <= j <= |rest| && Marks(rest[..i]) && Marks(rest[j..]) && word == rest[i..j];
    var s := [c] + rest;
    assert s[..i + 1] == [c] + rest[..i] && s[j + 1..] == rest[j..] && s[i + 1..j + 1] == rest[i..j];
  }

  lemma {:induction false} TrimIs(s: string)
    ensures IsTrimmed(Trim(s), s)
  {
    if s != "" && IsPunctuation(s[0]) {
      TrimIs(s[1..]);
      assert IsMark(s[0]) && s == [s[0]] + s[1..];
      hide IsTrimmed, IsMark;
      TrimmedBehind(s[0], s[1..], Trim(s[1..]));
    } else {
      assert s != "" ==> !IsMark(s[0]);
      hide IsMark, Marks;
      TrimRightIs(s);
      EndsAreTrimmed(s, |TrimRight(s)|);
    }
  }

  lemma EndsAreTrimmed(s: string, n: nat)
    requires n <= |s| && Marks(s[n..]) && (s != "" ==> !IsMark(s[0])) && (n > 0 ==> !IsMark(s[n - 1]))
    ensures IsTrimmed(s[..n], s)
  {
    hide IsMark;
    assert s[..0] == [] && s[0..n] == s[..n];
  }

  lemma OneTrimmed(a: string, b: string, token: string)
    requires IsTrimmed(a, token) && IsTrimmed(b, token)
    ensures a == b
  {
    hide IsMark, Marks;
    var i, j :| 0 <= i <= j <= |token| && Marks(token[..i]) && Marks(token[j..]) && a == token[i..j];
    var k, l :| 0 <= k <= l <= |token| && Marks(token[..k]) && Marks(token[l..]) && b == token[k..l];
    MarkedEnds(token, i, j);
    MarkedEnds(token, k, l);
    assert i < j ==> !IsMark(token[i]) && !IsMark(token[j - 1]);
    assert k < l ==> !IsMark(token[k]) && !IsMark(token[l - 1]);
  }

  lemma MarkedEnds(s: string, i: int, j: int)
    requires 0 <= i <= j <= |s| && Marks(s[..i]) && Marks(s[j..])
    ensures forall m :: 0 <= m < i || j <= m < |s| ==> IsMark(s[m])
  {
    forall m | 0 <= m < i ensures IsMark(s[m]) { assert s[..i][m] == s[m]; }
    forall m | j <= m < |s| ensures IsMark(s[m]) { assert s[j..][m - j] == s[m]; }
  }

  /** Tokens are read as their words: in small letters, the marks at their ends gone. */
  lemma CleanedIff(tokens: seq<string>, words: seq<string>)
    ensures Cleaned(tokens) == words <==>
      |words| == |tokens| && forall i :: 0 <= i < |words| ==> IsTrimmed(words[i], Lower(tokens[i]))
  {
    hide Trim, Lower, IsTrimmed;
    forall i | 0 <= i < |tokens| ensures IsTrimmed(Cleaned(tokens)[i], Lower(tokens[i])) { TrimIs(Lower(tokens[i])); }
    if |words| == |tokens| && forall i :: 0 <= i < |words| ==> IsTrimmed(words[i], Lower(tokens[i])) {
      forall i | 0 <= i < |words| ensures words[i] == Cleaned(tokens)[i] { OneTrimmed(words[i], Cleaned(tokens)[i], Lower(tokens[i])); }
    }
  }

  lemma LoweredAt(tokens: seq<string>)
    ensures forall i :: 0 <= i < |tokens| ==> Kinds(Lowered(tokens))[i] == Kind(Lower(tokens[i]))
  {
    hide Kind, Lower;
  }

  /** What one step of the loop adds, and how far it moves. */
  function Step(ws: seq<Word>, i: nat): (r: (string, nat))
    requires i < |ws|
    ensures i < i + r.1 <= |ws|
  {
    match ws[i]
    case Figure(d) => (d, 1)
    case Unit(n) => (Digits(n), 1)
    case Ten(n) => if i + 1 < |ws| && Completes(ws[i + 1]) then (Digits(n + ws[i + 1].n), 2) else (Digits(n), 1)
    case _ => ("", 1)
  }

  lemma DigitsFrom(ws: seq<Word>, i: nat)
    requires i < |ws|
    ensures ToDigits(ws[i..]) == Step(ws, i).0 + ToDigits(ws[i + Step(ws, i).1..])
  {
    hide Digits;
    var rest := ws[i..];
    assert rest[1..] == ws[i + 1..];
    assert i + 1 < |ws| ==> rest[2..] == ws[i + 2..] && rest[1] == ws[i + 1];
  }

  /** Joins the groups with an index that a tens word may move twice. */
  method WordsToDigits(tokens: seq<string>) returns (out: string)
    ensures out == ToDigits(Kinds(Lowered(tokens)))
  {
    hide Kind, Digits, ToDigits, Kinds, Lowered, Lower;
    out := "";
    ghost var ws := Kinds(Lowered(tokens));
    LoweredAt(tokens);
    assert ws[0..] == ws;
    var i := 0;
    while i < |tokens|
      invariant i <= |tokens| && out + ToDigits(ws[i..]) == ToDigits(ws)
    {
      DigitsFrom(ws, i);
      match Kind(Lower(tokens[i])) {
        case Figure(d) => out := out + d;
        case Ten(value) =>
          if i + 1 < |tokens| && Completes(Kind(Lower(tokens[i + 1]))) {
            out := out + Digits(value + Kind(Lower(tokens[i + 1])).n);
            i := i + 1;
          } else {
            out := out + Digits(value);
          }
        case Unit(n) => out := out + Digits(n);
        case _ =>
      }
      i := i + 1;
    }
    assert ws[i..] == [];
    ToDigitsOfNothing();
  }

  lemma CleanedAt(tokens: seq<string>, i: nat)
    requires i < |tokens|
    ensures Kinds(Cleaned(tokens))[i] == Kind(Trim(Lower(tokens[i]))) && Trim(Lower(tokens[i])) in Cleaned(tokens)
  {
    hide Kind, Trim, Lower;
    assert Cleaned(tokens)[i] == Trim(Lower(tokens[i]));
  }

  lemma KindsGrow(run: seq<string>, word: string)
    ensures Kinds(run + [word]) == Kinds(run) + [Kind(word)]
  {
    hide Kind;
  }

  lemma KindsOfNothing()
    ensures Kinds([]) == []
  {
  }

  lemma RunAt(ws: seq<Word>, i: nat, begun: bool)
    requires i < |ws|
    ensures IdentifierRun(ws[i..], begun) ==
      if InNumber(ws[i]) then [ws[i]] + IdentifierRun(ws[i + 1..], true)
      else if begun || !ws[i].Filler? then [] else IdentifierRun(ws[i + 1..], false)
  {
    assert ws[i..][1..] == ws[i + 1..];
  }

  lemma RunOfNothing(ws: seq<Word>, begun: bool)
    ensures IdentifierRun(ws[|ws|..], begun) == []
  {
  }

  method TakeIdentifierRun(tokens: seq<string>) returns (run: seq<string>)
    ensures Kinds(run) == IdentifierRun(Kinds(Cleaned(tokens)), false)
    ensures forall w :: w in run ==> w in Cleaned(tokens)
  {
    hide Kind, Kinds, Cleaned, IdentifierRun, Trim, Lower;
    run := [];
    ghost var ws := Kinds(Cleaned(tokens));
    KindsOfNothing();
    assert ws[0..] == ws;
    for i := 0 to |tokens|
      invariant forall w :: w in run ==> w in Cleaned(tokens)
      invariant Kinds(run) + IdentifierRun(ws[i..], run != []) == IdentifierRun(ws, false)
    {
      var word := Trim(Lower(tokens[i]));
      CleanedAt(tokens, i);
      RunAt(ws, i, run != []);
      if InNumber(Kind(word)) {
        KindsGrow(run, word);
        run := run + [word];
      } else if run != [] {
        return;
      } else if !Kind(word).Filler? {
        return;
      }
    }
    RunOfNothing(ws, run != []);
  }

  // ----------------------------------------------------------- saying an id

  /** The ways a group of digits is said: "ninety two", "ninety", "nine" or
      "nineteen", or figures the recogniser wrote itself. */
  datatype Group = Pair(tens: nat, unit: nat) | Round(tens: nat) | Small(n: nat) | Written(d: string)

  predicate Sound(g: Group) {
    match g
    case Pair(t, u) => t % 10 == 0 && 20 <= t < 100 && 1 <= u <= 9
    case Round(t) => t % 10 == 0 && 20 <= t < 100
    case Small(n) => n < 20
    case Written(d) => AllDigits(d)
  }

  function Words(g: Group): seq<Word> {
    match g
    case Pair(t, u) => [Ten(t), Unit(u)]
    case Round(t) => [Ten(t)]
    case Small(n) => [Unit(n)]
    case Written(d) => [Figure(d)]
  }

  function DigitsOf(g: Group): string {
    match g
    case Pair(t, u) => Digits(t + u)
    case Round(t) => Digits(t)
    case Small(n) => Digits(n)
    case Written(d) => d
  }

  function Rendered(gs: seq<Group>): seq<Word> { if gs == [] then [] else Words(gs[0]) + Rendered(gs[1..]) }

  function Meant(gs: seq<Group>): string { if gs == [] then "" else DigitsOf(gs[0]) + Meant(gs[1..]) }

  /** A bare tens word runs into a unit that could complete it. */
  predicate Collides(gs: seq<Group>, i: nat) {
    i + 1 < |gs| && gs[i].Round? && gs[i + 1].Small? && 1 <= gs[i + 1].n <= 9
  }

  ghost predicate Ambiguous(gs: seq<Group>) { exists i: nat :: Collides(gs, i) }

  /** How many collisions the reader merges. */
  function Merges(gs: seq<Group>): nat {
    if gs == [] then 0 else if Collides(gs, 0) then 1 + Merges(gs[2..]) else Merges(gs[1..])
  }

  lemma {:induction false} MergesIffAmbiguous(gs: seq<Group>)
    ensures Merges(gs) > 0 <==> Ambiguous(gs)
  {
    if gs != [] {
      MergesIffAmbiguous(gs[1..]);
      if Ambiguous(gs[1..]) {
        var i: nat :| Collides(gs[1..], i);
        assert Collides(gs, i + 1);
      }
      if Ambiguous(gs) && !Collides(gs, 0) {
        var i: nat :| Collides(gs, i);
        assert Collides(gs[1..], i - 1);
      }
    }
  }

  lemma TwoDigits(n: nat)
    requires 10 <= n < 100
    ensures |Digits(n)| == 2
  {
    assert |Digits(n / 10)| == 1;
  }

  lemma OneGroup(g: Group, rest: seq<Word>)
    requires g.Round? ==> rest == [] || !Completes(rest[0])
    requires Sound(g)
    ensures ToDigits(Words(g) + rest) == DigitsOf(g) + ToDigits(rest)
  {
    hide Digits;
    var ws := Words(g) + rest;
    if g.Pair? { assert ws[2..] == rest && ws[1] == Unit(g.unit); } else { assert ws[1..] == rest; }
  }

  lemma MergedGroup(a: Group, b: Group, rest: seq<Word>)
    requires a.Round? && b.Small? && 1 <= b.n <= 9
    ensures ToDigits(Words(a) + (Words(b) + rest)) == Digits(a.tens + b.n) + ToDigits(rest)
  {
    hide Digits;
    var ws := Words(a) + (Words(b) + rest);
    assert ws[2..] == rest && ws[1] == Unit(b.n);
  }

  /** Read back, each collision costs one digit, and without one nothing is lost. */
  lemma {:induction false} ReadBack(gs: seq<Group>)
    requires forall g :: g in gs ==> Sound(g)
    ensures |ToDigits(Rendered(gs))| + Merges(gs) == |Meant(gs)|
    ensures Merges(gs) == 0 ==> ToDigits(Rendered(gs)) == Meant(gs)
  {
    hide ToDigits, Digits;
    if gs == [] {
      ToDigitsOfNothing();
    } else if Collides(gs, 0) {
      ReadBack(gs[2..]);
      assert Rendered(gs[1..]) == Words(gs[1]) + Rendered(gs[2..]) && Meant(gs[1..]) == DigitsOf(gs[1]) + Meant(gs[2..]) by {
        assert gs[1..][1..] == gs[2..];
      }
      MergedGroup(gs[0], gs[1], Rendered(gs[2..]));
      assert gs[0] in gs;
      TwoDigits(gs[0].tens);
      TwoDigits(gs[0].tens + gs[1].n);
      OneDigit(gs[1].n);
    } else {
      ReadBack(gs[1..]);
      assert gs[0] in gs;
      FirstWord(gs[1..]);
      OneGroup(gs[0], Rendered(gs[1..]));
    }
  }

  lemma ToDigitsOfNothing()
    ensures ToDigits([]) == ""
  {
  }

  lemma OneDigit(n: nat)
    requires n < 10
    ensures |Digits(n)| == 1
  {
  }

  lemma FirstWord(gs: seq<Group>)
    requires forall g :: g in gs ==> Sound(g)
    ensures Rendered(gs) == [] <==> gs == []
    ensures gs != [] ==> (Completes(Rendered(gs)[0]) <==> gs[0].Small? && 1 <= gs[0].n <= 9)
  {
  }

  /** Exactly when the digits come back as meant: no bare tens word is followed
      by a group said as one to nine. */
  lemma DigitsComeBackIff(gs: seq<Group>)
    requires forall g :: g in gs ==> Sound(g)
    ensures ToDigits(Rendered(gs)) == Meant(gs) <==> !Ambiguous(gs)
  {
    ReadBack(gs);
    MergesIffAmbiguous(gs);
  }

  // ----------------------------------------------------------------- the run

  /** Filler, number words, and something that is none: how a tail divides. */
  predicate Divides(ws: seq<Word>, filler: seq<Word>, run: seq<Word>, rest: seq<Word>) {
    && ws == filler + run + rest
    && (forall w :: w in filler ==> w.Filler?)
    && (forall w :: w in run ==> InNumber(w))
    && (rest == [] || !InNumber(rest[0]))
  }

  lemma {:induction false} RunBegun(run: seq<Word>, rest: seq<Word>)
    requires forall w :: w in run ==> InNumber(w)
    requires rest == [] || !InNumber(rest[0])
    ensures IdentifierRun(run + rest, true) == run
  {
    if run == [] {
      assert run + rest == rest;
    } else {
      assert (run + rest)[1..] == run[1..] + rest;
      assert run[0] in run;
      RunBegun(run[1..], rest);
    }
  }

  lemma {:induction false} RunFollows(filler: seq<Word>, run: seq<Word>, rest: seq<Word>)
    requires Divides(filler + run + rest, filler, run, rest) && run != []
    ensures IdentifierRun(filler + run + rest, false) == run
  {
    var ws := filler + run + rest;
    if filler == [] {
      assert ws == run + rest && ws[1..] == run[1..] + rest;
      assert run[0] in run;
      RunBegun(run[1..], rest);
    } else {
      assert filler[0] in filler;
      assert ws[1..] == filler[1..] + run + rest;
      RunFollows(filler[1..], run, rest);
    }
  }

  lemma {:induction false} RunEnds(ws: seq<Word>) returns (rest: seq<Word>)
    ensures Divides(ws, [], IdentifierRun(ws, true), rest)
  {
    if ws == [] || !InNumber(ws[0]) {
      rest := ws;
      assert ws == [] + [] + rest;
    } else {
      rest := RunEnds(ws[1..]);
      assert ws == [] + ([ws[0]] + IdentifierRun(ws[1..], true)) + rest;
    }
  }

  lemma {:induction false} RunIsFound(ws: seq<Word>) returns (filler: seq<Word>, rest: seq<Word>)
    requires IdentifierRun(ws, false) != []
    ensures Divides(ws, filler, IdentifierRun(ws, false), rest)
  {
    if InNumber(ws[0]) {
      rest := RunEnds(ws[1..]);
      filler := [];
      assert ws == [] + ([ws[0]] + IdentifierRun(ws[1..], true)) + rest;
    } else {
      filler, rest := RunIsFound(ws[1..]);
      assert ws == [ws[0]] + filler + IdentifierRun(ws[1..], false) + rest;
      filler := [ws[0]] + filler;
    }
  }

  /** The run is what it should be, exactly: a non-empty run of number words is
      taken if and only if filler alone precedes it and no number word follows. */
  lemma RunIsExact(ws: seq<Word>, run: seq<Word>)
    requires run != []
    ensures IdentifierRun(ws, false) == run <==> exists filler, rest :: Divides(ws, filler, run, rest)
  {
    if IdentifierRun(ws, false) == run {
      var filler, rest := RunIsFound(ws);
      assert Divides(ws, filler, run, rest);
    }
    if filler, rest :| Divides(ws, filler, run, rest) { RunFollows(filler, run, rest); }
  }

  // ---------------------------------------------------------------- the whole

  function Identifier(prefix: string, digits: string): Option<string> {
    if |digits| == 4 then Some(Upper(prefix) + "-" + digits) else None
  }

  lemma {:induction false} RenderedIsNumber(gs: seq<Group>)
    ensures forall w :: w in Rendered(gs) ==> InNumber(w)
  {
    if gs != [] { RenderedIsNumber(gs[1..]); }
  }

  /** A four-digit id said in any groups, after any filler and before any word
      that is no number, is read as itself unless a bare tens word collides with
      the group after it; then nothing is read, never a wrong id. */
  lemma SpokenIdIsReadIff(prefix: string, filler: seq<Word>, gs: seq<Group>, rest: seq<Word>)
    requires (forall g :: g in gs ==> Sound(g)) && |Meant(gs)| == 4
    requires (forall w :: w in filler ==> w.Filler?) && (rest == [] || !InNumber(rest[0]))
    ensures var heard := IdentifierRun(filler + Rendered(gs) + rest, false);
      Identifier(prefix, ToDigits(heard)) == if Ambiguous(gs) then None else Some(Upper(prefix) + "-" + Meant(gs))
  {
    hide ToDigits, IdentifierRun, Upper;
    RenderedIsNumber(gs);
    FirstWord(gs);
    RunFollows(filler, Rendered(gs), rest);
    ReadBack(gs);
    MergesIffAmbiguous(gs);
  }

  /** The end of _canonicalize: the tail behind the cue, or nothing. */
  method FromTail(prefix: string, tail: seq<string>) returns (id: Option<string>)
    ensures id == Identifier(prefix, ToDigits(IdentifierRun(Kinds(Cleaned(tail)), false)))
  {
    hide Kind, ToDigits, IdentifierRun;
    var run := TakeIdentifierRun(tail);
    CleanedStay(tail, run);
    var digits := WordsToDigits(run);
    if |digits| == 4 { return Some(Upper(prefix) + "-" + digits); }
    return None;
  }

  lemma LowerHasNoCapitals(s: string)
    ensures forall c :: c in Lower(s) ==> !IsUpperLetter(c)
  {
  }

  /** Lower-casing again what was cleaned changes nothing. */
  lemma CleanedStay(tokens: seq<string>, run: seq<string>)
    requires forall w :: w in run ==> w in Cleaned(tokens)
    ensures Lowered(run) == run
  {
    hide Trim;
    forall k | 0 <= k < |run| ensures Lower(run[k]) == run[k] {
      assert run[k] in Cleaned(tokens);
      var i :| 0 <= i < |tokens| && run[k] == Trim(Lower(tokens[i]));
      LowerHasNoCapitals(tokens[i]);
      assert forall c :: c in run[k] ==> !IsUpperLetter(c);
      assert forall j :: 0 <= j < |run[k]| ==> run[k][j] in run[k];
    }
  }
}
