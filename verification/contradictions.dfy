/** Sentences that their own figures disprove, and how they are taken out
    (backend/agent/app/graph/nodes.py:593-685, 718-744). */
module Contradictions {
  import opened Options
  import opened Ascii
  import opened Figures

  // ------------------------------------------------------------ money spans

  const MONEY_FLOOR := 100

  datatype Money = Money(start: nat, end: nat, value: nat)

  /** Each money-sized number from position `at` on, in order. */
  function MoneyFrom(s: string, at: nat): (r: seq<Money>)
    requires at <= |s|
    ensures forall m :: m in r ==> at <= m.start < m.end <= |s| && m.value >= MONEY_FLOOR
    decreases |s| - at
  {
    if at == |s| then []
    else if IsDigit(s[at]) then
      var n := RunLength(s[at..]);
      var rest := MoneyFrom(s, at + n);
      if Value(s[at..at + n]) >= MONEY_FLOOR then [Money(at, at + n, Value(s[at..at + n]))] + rest else rest
    else MoneyFrom(s, at + 1)
  }

  /** A figure of the text worth a hundred or more. */
  predicate IsAmount(s: string, m: Money) {
    IsFigure(s, m.start, m.end) && m.value == Value(s[m.start..m.end]) >= 100
  }

  predicate InOrder(r: seq<Money>) { forall i, j :: 0 <= i < j < |r| ==> r[i].start < r[j].start }

  /** What the scan finds is every figure of the text, from left to right. */
  lemma {:induction false} AmountsAreFound(s: string, at: nat)
    requires at <= |s| && Clean(s, at)
    ensures forall m :: m in MoneyFrom(s, at) <==> IsAmount(s, m) && m.start >= at
    ensures InOrder(MoneyFrom(s, at))
    decreases |s| - at
  {
    hide IsAmount, Value, Clean, IsFigure, RunLength;
    if at == |s| {
      AmountsAreInside(s);
    } else if IsDigit(s[at]) {
      AmountHere(s, at);
      OneMoreAmount(s, at);
      hide MoneyFrom;
      AmountsAreFound(s, at + RunLength(s[at..]));
    } else {
      CleanGoesOn(s, at);
      AmountsAreInside(s);
      AmountsAreFound(s, at + 1);
    }
  }

  lemma OneMoreAmount(s: string, at: nat)
    requires at < |s| && IsDigit(s[at])
    ensures var n := RunLength(s[at..]); var here := Money(at, at + n, Value(s[at..at + n]));
      n > 0 && MoneyFrom(s, at) == (if here.value >= MONEY_FLOOR then [here] else []) + MoneyFrom(s, at + n)
  {
    hide Value;
  }

  lemma AmountsAreInside(s: string)
    ensures forall m :: IsAmount(s, m) ==> m.start < |s| && IsDigit(s[m.start])
  {
  }

  lemma AmountHere(s: string, at: nat)
    requires at < |s| && Clean(s, at) && IsDigit(s[at])
    ensures var n := RunLength(s[at..]); var here := Money(at, at + n, Value(s[at..at + n]));
      && n > 0 && Clean(s, at + n)
      && (forall m :: IsAmount(s, m) && m.start == at ==> m == here)
      && (forall m :: IsAmount(s, m) && m.start > at ==> m.start >= at + n)
      && (IsAmount(s, here) <==> here.value >= MONEY_FLOOR)
  {
    hide IsFigure, Value, Clean;
    RunIsTheFigure(s, at);
  }

  method MoneySpans(text: string) returns (out: seq<Money>)
    ensures out == MoneyFrom(text, 0)
    ensures InOrder(out) && forall m :: m in out <==> IsAmount(text, m)
  {
    hide Value;
    AmountsAreFound(text, 0);
    out := [];
    var at := 0;
    while at < |text|
      invariant at <= |text| && out + MoneyFrom(text, at) == MoneyFrom(text, 0)
    {
      if IsDigit(text[at]) {
        var n := RunLength(text[at..]);
        if Value(text[at..at + n]) >= MONEY_FLOOR { out := out + [Money(at, at + n, Value(text[at..at + n]))]; }
        at := at + n;
      } else {
        at := at + 1;
      }
    }
  }

  // ---------------------------------------------------------- the comparison

  const GREATER := ["exceeds", "exceed", "exceeding", "more than", "greater than", "higher than"]
  const LESSER := ["under", "below", "less than", "lower than", "cheaper than"]
  const REACH := 25

  predicate OccursAt(hay: string, needle: string, k: nat) {
    k + |needle| <= |hay| && hay[k..k + |needle|] == needle
  }

  /** str.find, from a position on. */
  function Find(hay: string, needle: string, from: nat): (at: Option<nat>)
    ensures at.Some? ==> from <= at.value && OccursAt(hay, needle, at.value)
    ensures at.Some? ==> forall k: nat :: from <= k < at.value ==> !OccursAt(hay, needle, k)
    ensures at == None ==> forall k: nat :: from <= k ==> !OccursAt(hay, needle, k)
    decreases |hay| - from
  {
    if from + |needle| > |hay| then None
    else if OccursAt(hay, needle, from) then Some(from)
    else Find(hay, needle, from + 1)
  }

  /** A gap the comparison may reach across. */
  predicate Near(gap: string) { |gap| <= REACH && ',' !in gap && ';' !in gap }

  /** The amounts on either side of the words at `at`, when they are compared. */
  function Compared(sentence: string, at: nat, length: nat): Option<(nat, nat)>
    requires at + length <= |sentence|
  {
    var left, right := sentence[..at], sentence[at + length..];
    var before, after := MoneyFrom(left, 0), MoneyFrom(right, 0);
    if before == [] || after == [] then None
    else
      var a, b := before[|before| - 1], after[0];
      if Near(left[a.end..]) && Near(right[..b.start]) then Some((a.value, b.value)) else None
  }

  ghost predicate LastAmount(s: string, a: Money) { IsAmount(s, a) && forall m :: IsAmount(s, m) ==> m.start <= a.start }

  ghost predicate FirstAmount(s: string, b: Money) { IsAmount(s, b) && forall m :: IsAmount(s, m) ==> b.start <= m.start }

  /** At most twenty-five characters, and no comma or semicolon. */
  predicate Adjoins(gap: string) { |gap| <= 25 && forall i :: 0 <= i < |gap| ==> gap[i] != ',' && gap[i] != ';' }

  lemma NearIff(gap: string)
    ensures Near(gap) <==> Adjoins(gap)
  {
  }

  /** The words at `at` relate two figures: the last before them and the first
      after, and neither gap is long or holds a comma or a semicolon. */
  ghost predicate Relates(sentence: string, at: nat, length: nat, a: Money, b: Money)
    requires at + length <= |sentence|
  {
    var left, right := sentence[..at], sentence[at + length..];
    LastAmount(left, a) && FirstAmount(right, b) && Adjoins(left[a.end..]) && Adjoins(right[..b.start])
  }

  lemma LastOf(s: string, r: seq<Money>)
    requires r == MoneyFrom(s, 0)
    ensures r != [] ==> forall a :: LastAmount(s, a) <==> a == r[|r| - 1]
    ensures r == [] ==> forall a :: !LastAmount(s, a)
  {
    hide IsAmount, MoneyFrom;
    CleanAtStart(s);
    AmountsAreFound(s, 0);
    if r != [] {
      var last := r[|r| - 1];
      assert last in r;
      forall m | m in r ensures m.start <= last.start && (m.start == last.start ==> m == last) {
        var i :| 0 <= i < |r| && r[i] == m;
      }
    }
  }

  lemma FirstOf(s: string, r: seq<Money>)
    requires r == MoneyFrom(s, 0)
    ensures r != [] ==> forall b :: FirstAmount(s, b) <==> b == r[0]
    ensures r == [] ==> forall b :: !FirstAmount(s, b)
  {
    hide IsAmount, MoneyFrom;
    CleanAtStart(s);
    AmountsAreFound(s, 0);
    if r != [] {
      assert r[0] in r;
      forall m | m in r ensures r[0].start <= m.start && (m.start == r[0].start ==> m == r[0]) {
        var i :| 0 <= i < |r| && r[i] == m;
      }
    }
  }

  /** The pair compared is the two figures the words relate, and there is none
      exactly when they relate none. */
  lemma ComparedIff(sentence: string, at: nat, length: nat)
    requires at + length <= |sentence|
    ensures Compared(sentence, at, length).Some? <==> exists a, b :: Relates(sentence, at, length, a, b)
    ensures forall a, b :: Relates(sentence, at, length, a, b) ==> Compared(sentence, at, length) == Some((a.value, b.value))
  {
    hide MoneyFrom, Near, Adjoins, LastAmount, FirstAmount;
    var left, right := sentence[..at], sentence[at + length..];
    var before, after := MoneyFrom(left, 0), MoneyFrom(right, 0);
    LastOf(left, before);
    FirstOf(right, after);
    if before != [] && after != [] {
      var a, b := before[|before| - 1], after[0];
      NearIff(left[a.end..]);
      NearIff(right[..b.start]);
      if Near(left[a.end..]) && Near(right[..b.start]) { assert Relates(sentence, at, length, a, b); }
    }
  }

  /** What one comparison word says of a sentence: nothing, or whether the two
      amounts it relates bear it out. */
  function Verdict(sentence: string, term: string, greater: bool): Option<bool> {
    match Find(Lower(sentence), " " + term + " ", 0)
    case None => None
    case Some(at) =>
      match Compared(sentence, at + 1, |term|)
      case None => None
      case Some(pair) => Some(if greater then pair.0 > pair.1 else pair.0 < pair.1)
  }

  /** The first verdict that the terms give, in their order. */
  function FirstVerdict(sentence: string, terms: seq<string>, greater: bool): Option<bool> {
    if terms == [] then None
    else match Verdict(sentence, terms[0], greater)
      case Some(v) => Some(v)
      case None => FirstVerdict(sentence, terms[1..], greater)
  }

  predicate Contradicts(sentence: string) {
    match FirstVerdict(sentence, GREATER, true)
    case Some(v) => !v
    case None => FirstVerdict(sentence, LESSER, false) == Some(false)
  }

  // ---------------------------------------------------- what a verdict amounts to

  /** The first place where the term stands between blanks, in any case. */
  ghost predicate FirstAt(sentence: string, term: string, at: nat) {
    && OccursAt(Lower(sentence), " " + term + " ", at)
    && forall k: nat :: k < at ==> !OccursAt(Lower(sentence), " " + term + " ", k)
  }

  /** There the term relates the figures a and b. */
  ghost predicate Says(sentence: string, term: string, a: Money, b: Money) {
    exists at: nat :: at + 1 + |term| <= |sentence| && FirstAt(sentence, term, at) && Relates(sentence, at + 1, |term|, a, b)
  }

  ghost predicate SaysNothing(sentence: string, term: string) { forall a, b :: !Says(sentence, term, a, b) }

  lemma SaysWhere(sentence: string, term: string)
    ensures var found := Find(Lower(sentence), " " + term + " ", 0);
      && (found == None ==> SaysNothing(sentence, term))
      && (found.Some? ==> found.value + 1 + |term| <= |sentence| && forall a, b ::
            Says(sentence, term, a, b) <==> Relates(sentence, found.value + 1, |term|, a, b))
  {
    hide Relates, OccursAt;
    var found := Find(Lower(sentence), " " + term + " ", 0);
    if found.Some? {
      TermFits(sentence, term, found.value);
      assert FirstAt(sentence, term, found.value);
      assert forall other: nat :: FirstAt(sentence, term, other) ==> other == found.value;
    }
  }

  lemma VerdictIs(sentence: string, term: string, greater: bool)
    ensures Verdict(sentence, term, greater) == None <==> SaysNothing(sentence, term)
    ensures forall a, b :: Says(sentence, term, a, b) ==>
      Verdict(sentence, term, greater) == Some(if greater then a.value > b.value else a.value < b.value)
  {
    hide Compared, Relates, Says;
    SaysWhere(sentence, term);
    var found := Find(Lower(sentence), " " + term + " ", 0);
    if found.Some? {
      var at := found.value + 1;
      ComparedIff(sentence, at, |term|);
      if Compared(sentence, at, |term|).Some? {
        var a, b :| Relates(sentence, at, |term|, a, b);
        assert Says(sentence, term, a, b);
      } else {
        forall a, b ensures !Says(sentence, term, a, b) { assert !Relates(sentence, at, |term|, a, b); }
      }
    }
  }

  lemma {:induction false} FirstVerdictIs(sentence: string, terms: seq<string>, greater: bool, i: nat)
    requires forall j :: 0 <= j < i && j < |terms| ==> SaysNothing(sentence, terms[j])
    ensures i < |terms| ==> forall a, b :: Says(sentence, terms[i], a, b) ==>
      FirstVerdict(sentence, terms, greater) == Some(if greater then a.value > b.value else a.value < b.value)
    ensures i >= |terms| ==> FirstVerdict(sentence, terms, greater) == None
  {
    hide Verdict, Says, SaysNothing;
    if terms != [] {
      VerdictIs(sentence, terms[0], greater);
      if i == 0 {
        forall a, b | Says(sentence, terms[0], a, b) ensures !SaysNothing(sentence, terms[0]) { SaysSomething(sentence, terms[0], a, b); }
      } else {
        FirstVerdictIs(sentence, terms[1..], greater, i - 1);
      }
    }
  }

  lemma SaysSomething(sentence: string, term: string, a: Money, b: Money)
    requires Says(sentence, term, a, b)
    ensures !SaysNothing(sentence, term)
  {
    hide Says;
  }

  ghost predicate AllSilent(sentence: string, terms: seq<string>, n: nat) {
    forall j :: 0 <= j < n && j < |terms| ==> SaysNothing(sentence, terms[j])
  }

  /** The first greater term to relate two figures decides: the sentence contradicts
      itself if and only if the figure before it is not the greater. Where none does,
      the first lesser term decides the other way, and where none does either, nothing
      is contradicted. */
  lemma ContradictsIff(sentence: string)
    ensures forall i: nat, a, b :: i < |GREATER| && AllSilent(sentence, GREATER, i) && Says(sentence, GREATER[i], a, b) ==>
      (Contradicts(sentence) <==> a.value <= b.value)
    ensures AllSilent(sentence, GREATER, |GREATER|) ==>
      forall i: nat, a, b :: i < |LESSER| && AllSilent(sentence, LESSER, i) && Says(sentence, LESSER[i], a, b) ==>
        (Contradicts(sentence) <==> a.value >= b.value)
    ensures AllSilent(sentence, GREATER, |GREATER|) && AllSilent(sentence, LESSER, |LESSER|) ==> !Contradicts(sentence)
  {
    hide FirstVerdict, Says, SaysNothing, GREATER, LESSER;
    forall i: nat | i <= |GREATER| && AllSilent(sentence, GREATER, i)
      ensures i < |GREATER| ==> forall a, b :: Says(sentence, GREATER[i], a, b) ==>
        FirstVerdict(sentence, GREATER, true) == Some(a.value > b.value)
      ensures i == |GREATER| ==> FirstVerdict(sentence, GREATER, true) == None
    {
      FirstVerdictIs(sentence, GREATER, true, i);
    }
    forall i: nat | i <= |LESSER| && AllSilent(sentence, LESSER, i)
      ensures i < |LESSER| ==> forall a, b :: Says(sentence, LESSER[i], a, b) ==>
        FirstVerdict(sentence, LESSER, false) == Some(a.value < b.value)
      ensures i == |LESSER| ==> FirstVerdict(sentence, LESSER, false) == None
    {
      FirstVerdictIs(sentence, LESSER, false, i);
    }
  }

  method TryTerms(sentence: string, terms: seq<string>, greater: bool) returns (verdict: Option<bool>)
    ensures verdict == FirstVerdict(sentence, terms, greater)
  {
    hide Verdict;
    for i := 0 to |terms|
      invariant FirstVerdict(sentence, terms, greater) == FirstVerdict(sentence, terms[i..], greater)
    {
      var v := TryTerm(sentence, terms[i], greater);
      assert terms[i..][1..] == terms[i + 1..];
      if v.Some? { return v; }
    }
    return None;
  }

  method Compare(sentence: string, at: nat, length: nat) returns (pair: Option<(nat, nat)>)
    requires at + length <= |sentence|
    ensures pair == Compared(sentence, at, length)
    ensures pair.Some? <==> exists a, b :: Relates(sentence, at, length, a, b)
    ensures forall a, b :: Relates(sentence, at, length, a, b) ==> pair == Some((a.value, b.value))
  {
    hide MoneyFrom, Near, Relates, IsAmount, InOrder;
    ComparedIff(sentence, at, length);
    var left, right := sentence[..at], sentence[at + length..];
    var before := MoneySpans(left);
    var after := MoneySpans(right);
    if before == [] || after == [] { return None; }
    var a, b := before[|before| - 1], after[0];
    if !Near(left[a.end..]) || !Near(right[..b.start]) { return None; }
    return Some((a.value, b.value));
  }

  method TryTerm(sentence: string, term: string, greater: bool) returns (verdict: Option<bool>)
    ensures verdict == Verdict(sentence, term, greater)
  {
    hide Compared, OccursAt;
    var at := Find(Lower(sentence), " " + term + " ", 0);
    if at == None { return None; }
    TermFits(sentence, term, at.value);
    var pair := Compare(sentence, at.value + 1, |term|);
    if pair == None { return None; }
    return Some(if greater then pair.value.0 > pair.value.1 else pair.value.0 < pair.value.1);
  }

  lemma TermFits(sentence: string, term: string, at: nat)
    requires OccursAt(Lower(sentence), " " + term + " ", at)
    ensures at + 1 + |term| < |sentence|
  {
  }

  method ContradictsItself(sentence: string) returns (contradicts: bool)
    ensures contradicts == Contradicts(sentence)
  {
    hide FirstVerdict;
    var v := TryTerms(sentence, GREATER, true);
    if v.Some? { return !v.value; }
    v := TryTerms(sentence, LESSER, false);
    return v == Some(false);
  }

  // ---------------------------------------------------------------- silence

  /** What may follow a sentence without adding to what it says. */
  predicate IsSilent(c: char) { c == '.' || c == '!' || c == '?' || IsSpace(c) }

  predicate Silent(t: string) { forall i :: 0 <= i < |t| ==> IsSilent(t[i]) }

  lemma {:induction false} RunStops(d: string, t: string)
    requires Silent(t)
    ensures RunLength(d + t) == RunLength(d)
  {
    if d == "" {
      assert d + t == t && RunLength("") == 0;
      assert t != "" ==> IsSilent(t[0]) && !InFigure(t[0]);
    } else {
      assert (d + t)[1..] == d[1..] + t;
      RunStops(d[1..], t);
    }
  }

  lemma {:induction false} NoMoneyInSilence(t: string, at: nat)
    requires Silent(t) && at <= |t|
    ensures MoneyFrom(t, at) == []
    decreases |t| - at
  {
    if at < |t| { NoMoneyInSilence(t, at + 1); }
  }

  lemma {:induction false} MoneyIgnoresSilence(s: string, t: string, at: nat)
    requires Silent(t) && at <= |s|
    ensures MoneyFrom(s + t, at) == MoneyFrom(s, at)
    decreases |s| - at
  {
    hide Value;
    var st := s + t;
    if at == |s| {
      SilentFrom(s, t, at);
    } else if IsDigit(s[at]) {
      assert st[at..] == s[at..] + t;
      RunStops(s[at..], t);
      var n := RunLength(s[at..]);
      assert st[at..at + n] == s[at..at + n];
      MoneyIgnoresSilence(s, t, at + n);
    } else {
      MoneyIgnoresSilence(s, t, at + 1);
    }
  }

  lemma {:induction false} SilentFrom(s: string, t: string, at: nat)
    requires Silent(t) && |s| <= at <= |s + t|
    ensures MoneyFrom(s + t, at) == []
    decreases |s + t| - at
  {
    if at < |s + t| {
      assert (s + t)[at] == t[at - |s|];
      SilentFrom(s, t, at + 1);
    }
  }

  /** A term ends in a letter, which no silence holds. */
  predicate IsTerm(term: string) { term != "" && IsLowerLetter(term[|term| - 1]) }

  lemma LowerJoins(s: string, t: string)
    requires Silent(t)
    ensures Lower(s + t) == Lower(s) + t
  {
  }

  /** What is found stays found; what is newly found ends in the silence. */
  lemma FindIgnoresSilence(s: string, t: string, term: string)
    requires Silent(t) && IsTerm(term)
    ensures var pat := " " + term + " "; var a, b := Find(s, pat, 0), Find(s + t, pat, 0);
      if a.Some? then b == a else b.Some? ==> b.value + 1 + |term| == |s|
  {
    hide IsSilent;
    var pat := " " + term + " ";
    var a, b := Find(s, pat, 0), Find(s + t, pat, 0);
    forall k: nat | k + |pat| <= |s| ensures OccursAt(s + t, pat, k) <==> OccursAt(s, pat, k) {
      assert (s + t)[k..k + |pat|] == s[k..k + |pat|];
    }
    if a == None && b.Some? { EndsInSilence(s, t, term, b.value); }
  }

  lemma EndsInSilence(s: string, t: string, term: string, k: nat)
    requires Silent(t) && IsTerm(term)
    requires OccursAt(s + t, " " + term + " ", k) && k + |term| + 2 > |s|
    ensures k + 1 + |term| == |s|
  {
    var pat := " " + term + " ";
    var last := k + |term|;
    assert (s + t)[last] == (s + t)[k..k + |pat|][|term|] == term[|term| - 1];
    assert last < |s| || IsSilent((s + t)[last]);
  }

  lemma ComparedIgnoresSilence(s: string, t: string, at: nat, length: nat)
    requires Silent(t) && at + length <= |s|
    ensures Compared(s + t, at, length) == Compared(s, at, length)
  {
    hide MoneyFrom, Near;
    var right := s[at + length..];
    assert (s + t)[..at] == s[..at] && (s + t)[at + length..] == right + t;
    MoneyIgnoresSilence(right, t, 0);
    var after := MoneyFrom(right, 0);
    if after != [] { assert after[0] in after; assert (right + t)[..after[0].start] == right[..after[0].start]; }
  }

  lemma ComparedNothing(s: string, t: string, at: nat, length: nat)
    requires Silent(t) && at + length == |s|
    ensures Compared(s + t, at, length) == None
  {
    hide Near;
    assert (s + t)[at + length..] == t;
    NoMoneyInSilence(t, 0);
  }

  /** Stops and blanks after a sentence leave each verdict as it was. */
  lemma VerdictIgnoresSilence(s: string, t: string, term: string, greater: bool)
    requires Silent(t) && IsTerm(term)
    ensures Verdict(s + t, term, greater) == Verdict(s, term, greater)
  {
    hide Compared, OccursAt, IsTerm, Silent;
    LowerJoins(s, t);
    FindIgnoresSilence(Lower(s), t, term);
    var a, b := Find(Lower(s), " " + term + " ", 0), Find(Lower(s + t), " " + term + " ", 0);
    if a.Some? {
      TermFits(s, term, a.value);
      TermFits(s + t, term, a.value);
      ComparedIgnoresSilence(s, t, a.value + 1, |term|);
    } else if b.Some? {
      TermFits(s + t, term, b.value);
      ComparedNothing(s, t, b.value + 1, |term|);
    }
  }

  lemma {:induction false} FirstVerdictIgnoresSilence(s: string, t: string, terms: seq<string>, greater: bool)
    requires Silent(t) && forall term :: term in terms ==> IsTerm(term)
    ensures FirstVerdict(s + t, terms, greater) == FirstVerdict(s, terms, greater)
  {
    hide Verdict, IsTerm;
    if terms != [] {
      assert terms[0] in terms;
      VerdictIgnoresSilence(s, t, terms[0], greater);
      FirstVerdictIgnoresSilence(s, t, terms[1..], greater);
    }
  }

  lemma GreaterAreTerms()
    ensures forall term :: term in GREATER ==> IsTerm(term)
  {
  }

  lemma LesserAreTerms()
    ensures forall term :: term in LESSER ==> IsTerm(term)
  {
  }

  /** A sentence says the same with more stops or blanks after it. */
  lemma ContradictsIgnoresSilence(s: string, t: string)
    requires Silent(t)
    ensures Contradicts(s + t) == Contradicts(s)
  {
    hide FirstVerdict, IsTerm;
    GreaterAreTerms();
    LesserAreTerms();
    FirstVerdictIgnoresSilence(s, t, GREATER, true);
    FirstVerdictIgnoresSilence(s, t, LESSER, false);
  }
}
