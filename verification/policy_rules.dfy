/** The figures a policy states, read sentence by sentence, and the two paths
    that use them (backend/libs/policy/rules.py:45-122, 142-197, 411-450). */
module PolicyRules {
  import opened Options
  import opened Ascii
  import opened Figures
  import opened Settlements

  datatype Kind = Limit | Deductible | PerItemThreshold

  /** What the amount pattern captures: digits and commas with a digit among
      them, and perhaps two decimals. */
  predicate AmountShaped(s: string) {
    || (Digital(s))
    || (|s| > 3 && Digital(s[..|s| - 3]) && s[|s| - 3] == '.' && IsDigit(s[|s| - 2]) && IsDigit(s[|s| - 1]))
  }

  predicate Digital(s: string) { (forall i :: 0 <= i < |s| ==> InFigure(s[i])) && exists i :: 0 <= i < |s| && IsDigit(s[i]) }

  function OneDollar(): (s: string)
    ensures AmountShaped(s)
  {
    assert IsDigit("1"[0]);
    "1"
  }

  type Raw = s: string | AmountShaped(s) witness OneDollar()

  /** Decimal(raw.replace(",", "")). */
  function AmountOf(raw: Raw): real {
    if |raw| > 3 && raw[|raw| - 3] == '.' then (Value(raw[..|raw| - 3]) * 100 + Value(raw[|raw| - 2..])) as real / 100.0
    else Value(raw) as real
  }

  datatype Rule = Rule(kind: Kind, amount: real, source: string, section: string)

  /** A pattern: what it means, and what it captures in a sentence, in order. */
  datatype Pattern = Pattern(kind: Kind, find: string -> seq<Raw>)

  /** The reader's regular expressions: its patterns in order, its sentence
      splitter and its case-folding normaliser. */
  datatype Reader = Reader(patterns: seq<Pattern>, sentences: string -> seq<string>, normalised: string -> string)

  // ------------------------------------------------------------- extraction

  datatype Hit = Hit(kind: Kind, raw: Raw)

  function HitsOf(kind: Kind, raws: seq<Raw>): (r: seq<Hit>)
    ensures |r| == |raws| && forall i :: 0 <= i < |r| ==> r[i] == Hit(kind, raws[i])
  {
    seq(|raws|, i requires 0 <= i < |raws| => Hit(kind, raws[i]))
  }

  /** Everything the first p patterns find in a sentence, pattern by pattern. */
  function Hits(patterns: seq<Pattern>, sentence: string, p: nat): seq<Hit>
    requires p <= |patterns|
  {
    if p == 0 then [] else Hits(patterns, sentence, p - 1) + HitsOf(patterns[p - 1].kind, patterns[p - 1].find(sentence))
  }

  /** The figures that count: the first hit of each figure in its sentence. */
  function Fresh(hits: seq<Hit>): seq<Hit> {
    if hits == [] then []
    else
      var front, last := hits[..|hits| - 1], hits[|hits| - 1];
      Fresh(front) + (if Claims(front, last.raw) then [] else [last])
  }

  predicate Claims(hits: seq<Hit>, raw: Raw) { exists h :: h in hits && h.raw == raw }

  function RuleOf(h: Hit, sentence: string, section: string): Rule { Rule(h.kind, AmountOf(h.raw), sentence, section) }

  function Lookup(rules: seq<Rule>, kind: Kind): Option<Rule> {
    if rules == [] then None else if rules[0].kind == kind then Some(rules[0]) else Lookup(rules[1..], kind)
  }

  /** A dictionary that keeps the first entry of each kind. */
  function Keep(rules: seq<Rule>, r: Rule): seq<Rule> { if Lookup(rules, r.kind).Some? then rules else rules + [r] }

  function KeepHits(rules: seq<Rule>, hits: seq<Hit>, sentence: string, section: string): seq<Rule> {
    if hits == [] then rules
    else Keep(KeepHits(rules, hits[..|hits| - 1], sentence, section), RuleOf(hits[|hits| - 1], sentence, section))
  }

  /** The rules stated by the first n sentences. */
  function Stated(reader: Reader, sentences: seq<string>, section: string, n: nat): seq<Rule>
    requires n <= |sentences|
  {
    if n == 0 then []
    else KeepHits(Stated(reader, sentences, section, n - 1),
                  Fresh(Hits(reader.patterns, sentences[n - 1], |reader.patterns|)), sentences[n - 1], section)
  }

  function Rules(reader: Reader, text: string, section: string): seq<Rule> {
    Stated(reader, reader.sentences(text), section, |reader.sentences(text)|)
  }

  lemma FreshGrows(hits: seq<Hit>, h: Hit)
    ensures Fresh(hits + [h]) == Fresh(hits) + (if Claims(hits, h.raw) then [] else [h])
  {
    assert (hits + [h])[..|hits|] == hits;
  }

  lemma KeepGrows(rules: seq<Rule>, hits: seq<Hit>, h: Hit, sentence: string, section: string)
    ensures KeepHits(rules, hits + [h], sentence, section) == Keep(KeepHits(rules, hits, sentence, section), RuleOf(h, sentence, section))
  {
    assert (hits + [h])[..|hits|] == hits;
  }

  lemma HitsOfGrow(kind: Kind, raws: seq<Raw>, m: nat)
    requires m < |raws|
    ensures HitsOf(kind, raws[..m + 1]) == HitsOf(kind, raws[..m]) + [Hit(kind, raws[m])]
  {
  }

  /** extract_rules as it runs: sentences, patterns, matches, with the figures
      already accounted for in the sentence set aside. */
  method ExtractRules(reader: Reader, text: string, section: string) returns (found: seq<Rule>)
    ensures found == Rules(reader, text, section)
  {
    hide AmountOf, Lookup, Hits, Fresh, KeepHits, Keep;
    found := [];
    var sentences := reader.sentences(text);
    for n := 0 to |sentences|
      invariant found == Stated(reader, sentences, section, n)
    {
      var sentence := sentences[n];
      found := ReadSentence(reader.patterns, found, sentence, section);
    }
  }

  method ReadSentence(patterns: seq<Pattern>, rules: seq<Rule>, sentence: string, section: string) returns (found: seq<Rule>)
    ensures found == KeepHits(rules, Fresh(Hits(patterns, sentence, |patterns|)), sentence, section)
  {
    hide AmountOf, Lookup, Keep, KeepHits, Fresh, AmountShaped, Claims;
    found := rules;
    var claimed: set<string> := {};
    NothingYet(rules, sentence, section);
    for p := 0 to |patterns|
      invariant found == KeepHits(rules, Fresh(Hits(patterns, sentence, p)), sentence, section)
      invariant forall raw: Raw :: raw in claimed <==> Claims(Hits(patterns, sentence, p), raw)
    {
      var raws := patterns[p].find(sentence);
      ghost var kind, before := patterns[p].kind, Hits(patterns, sentence, p);
      assert before + HitsOf(kind, raws[..0]) == before;
      for m := 0 to |raws|
        invariant found == KeepHits(rules, Fresh(before + HitsOf(kind, raws[..m])), sentence, section)
        invariant forall raw: Raw :: raw in claimed <==> Claims(before + HitsOf(kind, raws[..m]), raw)
      {
        ghost var sofar, h := before + HitsOf(kind, raws[..m]), Hit(kind, raws[m]);
        HitsOfGrow(kind, raws, m);
        assert before + HitsOf(kind, raws[..m + 1]) == sofar + [h];
        FreshGrows(sofar, h);
        ClaimsGrow(sofar, h);
        if raws[m] in claimed {
          assert Fresh(sofar) + [] == Fresh(sofar);
          continue;
        }
        claimed := claimed + {raws[m]};
        KeepGrows(rules, Fresh(sofar), h, sentence, section);
        found := Keep(found, Rule(patterns[p].kind, AmountOf(raws[m]), sentence, section));
      }
      assert raws[..|raws|] == raws;
    }
  }

  lemma NothingYet(rules: seq<Rule>, sentence: string, section: string)
    ensures KeepHits(rules, Fresh([]), sentence, section) == rules
    ensures forall raw: Raw :: !Claims([], raw)
  {
  }

  lemma ClaimsGrow(hits: seq<Hit>, h: Hit)
    ensures forall raw: Raw :: Claims(hits + [h], raw) <==> Claims(hits, raw) || raw == h.raw
    ensures Claims(hits, h.raw) ==> forall raw: Raw :: Claims(hits + [h], raw) <==> Claims(hits, raw)
  {
    forall raw: Raw ensures Claims(hits + [h], raw) <==> Claims(hits, raw) || raw == h.raw {
      assert forall g :: g in hits + [h] <==> g in hits || g == h;
    }
  }

  // ------------------------------------------------------- one rule per kind

  predicate OnePerKind(rules: seq<Rule>) { forall i, j :: 0 <= i < j < |rules| ==> rules[i].kind != rules[j].kind }

  lemma {:induction false} LookupFinds(rules: seq<Rule>, kind: Kind)
    ensures Lookup(rules, kind).Some? <==> exists r :: r in rules && r.kind == kind
    ensures Lookup(rules, kind).Some? ==> Lookup(rules, kind).value in rules && Lookup(rules, kind).value.kind == kind
  {
    if rules != [] {
      LookupFinds(rules[1..], kind);
      assert forall r :: r in rules <==> r == rules[0] || r in rules[1..];
    }
  }

  lemma {:induction false} LookupAppends(rules: seq<Rule>, r: Rule, kind: Kind)
    ensures Lookup(rules + [r], kind) ==
      if Lookup(rules, kind).Some? then Lookup(rules, kind) else if r.kind == kind then Some(r) else None
  {
    if rules == [] {
      assert rules + [r] == [r] && [r][1..] == [];
    } else {
      assert (rules + [r])[1..] == rules[1..] + [r];
      LookupAppends(rules[1..], r, kind);
    }
  }

  function FirstHit(hits: seq<Hit>, kind: Kind): Option<Hit> {
    if hits == [] then None
    else
      var earlier := FirstHit(hits[..|hits| - 1], kind);
      if earlier.Some? then earlier else if hits[|hits| - 1].kind == kind then Some(hits[|hits| - 1]) else None
  }

  /** The rule of a kind that the first of n sentences to state one states. */
  function FirstStated(reader: Reader, sentences: seq<string>, section: string, n: nat, kind: Kind): Option<Rule>
    requires n <= |sentences|
  {
    if n == 0 then None
    else
      var earlier := FirstStated(reader, sentences, section, n - 1, kind);
      if earlier.Some? then earlier
      else match FirstHit(Fresh(Hits(reader.patterns, sentences[n - 1], |reader.patterns|)), kind)
        case Some(h) => Some(RuleOf(h, sentences[n - 1], section))
        case None => None
  }

  lemma KeepOne(rules: seq<Rule>, r: Rule, kind: Kind)
    requires OnePerKind(rules)
    ensures OnePerKind(Keep(rules, r))
    ensures Lookup(Keep(rules, r), kind) ==
      if Lookup(rules, kind).Some? then Lookup(rules, kind) else if r.kind == kind then Some(r) else None
  {
    LookupAppends(rules, r, kind);
    LookupFinds(rules, r.kind);
  }

  lemma {:induction false} KeptHits(rules: seq<Rule>, hits: seq<Hit>, sentence: string, section: string, kind: Kind)
    requires OnePerKind(rules)
    ensures OnePerKind(KeepHits(rules, hits, sentence, section))
    ensures Lookup(KeepHits(rules, hits, sentence, section), kind) ==
      if Lookup(rules, kind).Some? then Lookup(rules, kind)
      else if FirstHit(hits, kind).Some? then Some(RuleOf(FirstHit(hits, kind).value, sentence, section)) else None
  {
    hide Keep, Lookup, OnePerKind, AmountOf;
    if hits != [] {
      var front := hits[..|hits| - 1];
      KeptHits(rules, front, sentence, section, kind);
      KeepOne(KeepHits(rules, front, sentence, section), RuleOf(hits[|hits| - 1], sentence, section), kind);
    }
  }

  lemma {:induction false} StatedFirst(reader: Reader, sentences: seq<string>, section: string, n: nat, kind: Kind)
    requires n <= |sentences|
    ensures OnePerKind(Stated(reader, sentences, section, n))
    ensures Lookup(Stated(reader, sentences, section, n), kind) == FirstStated(reader, sentences, section, n, kind)
  {
    hide KeepHits, Lookup, OnePerKind, FirstHit, Fresh, Hits, RuleOf;
    if n == 0 {
      EmptyIsOne();
    } else {
      StatedFirst(reader, sentences, section, n - 1, kind);
      KeptHits(Stated(reader, sentences, section, n - 1), Fresh(Hits(reader.patterns, sentences[n - 1], |reader.patterns|)),
               sentences[n - 1], section, kind);
    }
  }

  lemma EmptyIsOne()
    ensures OnePerKind([]) && forall kind :: Lookup([], kind) == None
  {
  }

  /** One rule a kind, and for each kind the first figure that counts, in the
      first sentence that has one. */
  lemma OneRulePerKind(reader: Reader, text: string, section: string, kind: Kind)
    ensures OnePerKind(Rules(reader, text, section))
    ensures Lookup(Rules(reader, text, section), kind)
      == FirstStated(reader, reader.sentences(text), section, |reader.sentences(text)|, kind)
  {
    hide Lookup, OnePerKind, FirstStated, Stated;
    StatedFirst(reader, reader.sentences(text), section, |reader.sentences(text)|, kind);
  }

  /** A figure set aside by a more specific pattern counts for it alone. */
  lemma {:induction false} FreshFiguresAreDistinct(hits: seq<Hit>)
    ensures forall i, j :: 0 <= i < j < |Fresh(hits)| ==> Fresh(hits)[i].raw != Fresh(hits)[j].raw
    ensures forall raw: Raw :: Claims(Fresh(hits), raw) <==> Claims(hits, raw)
  {
    if hits != [] {
      var front, last := hits[..|hits| - 1], hits[|hits| - 1];
      FreshFiguresAreDistinct(front);
      assert hits == front + [last];
      ClaimsGrow(front, last);
      ClaimsGrow(Fresh(front), last);
      if Claims(front, last.raw) {
        assert Fresh(hits) == Fresh(front);
      } else {
        forall i | 0 <= i < |Fresh(front)| ensures Fresh(front)[i].raw != last.raw {
          assert Fresh(front)[i] in Fresh(front);
          assert Claims(Fresh(front), Fresh(front)[i].raw);
        }
      }
    }
  }

  // ------------------------------------------------------------ whole cents

  lemma {:induction false} AmountsAreWholeCents(raw: Raw)
    ensures WholeCents(AmountOf(raw)) && AmountOf(raw) >= 0.0
  {
    hide Value, WholeCents;
    if |raw| > 3 && raw[|raw| - 3] == '.' {
      InCents(Value(raw[..|raw| - 3]) * 100 + Value(raw[|raw| - 2..]));
    } else {
      InCents(Value(raw) * 100);
      assert Value(raw) as real == (Value(raw) * 100) as real / 100.0;
    }
  }

  /** A figure in words of digits, grouped or not, is worth its number; with two
      decimals, its number and that many cents. */
  lemma FiguresAreWorth(n: nat, cents: nat)
    requires cents < 100
    ensures AmountShaped(Grouped(n)) && AmountOf(Grouped(n)) == n as real
    ensures AmountShaped(Digits(n)) && AmountOf(Digits(n)) == n as real
    ensures var tail := [Digit(cents / 10), Digit(cents % 10)];
      && AmountShaped(Grouped(n) + "." + tail) && AmountOf(Grouped(n) + "." + tail) == n as real + cents as real / 100.0
      && AmountShaped(Digits(n) + "." + tail) && AmountOf(Digits(n) + "." + tail) == n as real + cents as real / 100.0
  {
    GroupedReadsBack(n);
    hide Grouped, Digits;
    NoPoint(Grouped(n));
    NoPoint(Digits(n));
    WithCents(Grouped(n), cents);
    WithCents(Digits(n), cents);
  }

  /** What can be captured: digits and commas with a digit among them, and perhaps a
      point and two digits after them. */
  lemma ShapedIff(s: string)
    ensures AmountShaped(s) <==>
      exists n: nat :: n <= |s| && Digital(s[..n]) && (s[n..] == "" || IsCents(s[n..]))
  {
    assert !Digital("");
    hide Digital;
    assert s[..|s|] == s && s[|s|..] == "";
    if |s| > 3 {
      assert s[|s| - 3..] == [s[|s| - 3], s[|s| - 2], s[|s| - 1]];
      assert IsCents(s[|s| - 3..]) <==> s[|s| - 3] == '.' && IsDigit(s[|s| - 2]) && IsDigit(s[|s| - 1]);
    }
    assert forall n: nat :: n <= |s| && s[n..] == "" ==> s[..n] == s;
  }

  predicate IsCents(s: string) { |s| == 3 && s[0] == '.' && '0' <= s[1] <= '9' && '0' <= s[2] <= '9' }

  lemma NoPoint(d: string)
    requires d != "" && IsDigit(d[0]) && forall i :: 0 <= i < |d| ==> InFigure(d[i])
    ensures AmountShaped(d) && AmountOf(d) == Value(d) as real
  {
    hide Value;
  }

  lemma WithCents(d: string, cents: nat)
    requires d != "" && IsDigit(d[0]) && (forall i :: 0 <= i < |d| ==> InFigure(d[i])) && cents < 100
    ensures var raw := d + "." + [Digit(cents / 10), Digit(cents % 10)];
      AmountShaped(raw) && AmountOf(raw) == Value(d) as real + cents as real / 100.0
  {
    var tail := [Digit(cents / 10), Digit(cents % 10)];
    TwoDigits(cents);
    assert Digital(d);
    hide Value, Digital;
    TailShows(d, tail);
    Hundredths(Value(d), cents);
  }

  lemma TailShows(d: string, tail: string)
    requires Digital(d) && d != "" && |tail| == 2 && IsDigit(tail[0]) && IsDigit(tail[1])
    ensures var raw := d + "." + tail;
      AmountShaped(raw) && AmountOf(raw) == (Value(d) * 100 + Value(tail)) as real / 100.0
  {
    hide Value, Digital, IsDigit;
    var raw := d + "." + tail;
    assert raw[..|raw| - 3] == d && raw[|raw| - 3] == '.' && raw[|raw| - 2..] == tail;
    assert raw[|raw| - 2] == tail[0] && raw[|raw| - 1] == tail[1];
  }

  lemma Hundredths(n: nat, cents: nat)
    ensures (n * 100 + cents) as real / 100.0 == n as real + cents as real / 100.0
  {
  }

  lemma TwoDigits(cents: nat)
    requires cents < 100
    ensures Value([Digit(cents / 10), Digit(cents % 10)]) == cents
  {
    ValueAfter([], Digit(cents / 10));
    ValueAfter([Digit(cents / 10)], Digit(cents % 10));
    assert [] + [Digit(cents / 10)] == [Digit(cents / 10)];
    assert [Digit(cents / 10)] + [Digit(cents % 10)] == [Digit(cents / 10), Digit(cents % 10)];
  }

  lemma {:induction false} StatedAreWholeCents(rules: seq<Rule>, hits: seq<Hit>, sentence: string, section: string)
    requires forall r :: r in rules ==> WholeCents(r.amount) && r.amount >= 0.0 && r.section == section
    ensures forall r :: r in KeepHits(rules, hits, sentence, section) ==> WholeCents(r.amount) && r.amount >= 0.0 && r.section == section
  {
    hide AmountOf, WholeCents, Lookup;
    if hits != [] {
      StatedAreWholeCents(rules, hits[..|hits| - 1], sentence, section);
      AmountsAreWholeCents(hits[|hits| - 1].raw);
    }
  }

  lemma {:induction false} RulesAreWholeCents(reader: Reader, sentences: seq<string>, section: string, n: nat)
    requires n <= |sentences|
    ensures forall r :: r in Stated(reader, sentences, section, n) ==> WholeCents(r.amount) && r.amount >= 0.0 && r.section == section
  {
    hide KeepHits, WholeCents, Fresh, Hits;
    if n > 0 {
      RulesAreWholeCents(reader, sentences, section, n - 1);
      StatedAreWholeCents(Stated(reader, sentences, section, n - 1),
                          Fresh(Hits(reader.patterns, sentences[n - 1], |reader.patterns|)), sentences[n - 1], section);
    }
  }

  // ------------------------------------------------------- the two code paths

  datatype Section = Section(title: string, text: string, file: string)

  predicate StandsAt(part: string, whole: string, i: nat) { i + |part| <= |whole| && whole[i..i + |part|] == part }

  predicate Within(part: string, whole: string) { exists i: nat :: i <= |whole| && StandsAt(part, whole, i) }

  predicate Mentions(reader: Reader, s: Section, claimType: string) {
    Within(reader.normalised(claimType), reader.normalised(s.title)) || Within(reader.normalised(claimType), reader.normalised(s.text))
  }

  predicate StatesALimit(reader: Reader, s: Section) { Lookup(Rules(reader, s.text, s.title), Limit).Some? }

  function Governing(reader: Reader, claimType: string, sections: seq<Section>, fallback: Option<Section>): Option<Section> {
    if reader.normalised(claimType) == "" then None
    else if sections == [] then fallback
    else if !Mentions(reader, sections[0], claimType) then Governing(reader, claimType, sections[1..], fallback)
    else if StatesALimit(reader, sections[0]) then Some(sections[0])
    else Governing(reader, claimType, sections[1..], if fallback == None then Some(sections[0]) else fallback)
  }

  method GoverningSection(reader: Reader, claimType: string, sections: seq<Section>) returns (governing: Option<Section>)
    ensures governing == Governing(reader, claimType, sections, None)
  {
    hide Mentions, Lookup, Rules;
    if reader.normalised(claimType) == "" { return None; }
    var fallback: Option<Section> := None;
    for i := 0 to |sections|
      invariant Governing(reader, claimType, sections, None) == Governing(reader, claimType, sections[i..], fallback)
    {
      assert sections[i..][1..] == sections[i + 1..];
      var s := sections[i];
      if !Mentions(reader, s, claimType) { continue; }
      if fallback == None { fallback := Some(s); }
      var rules := ExtractRules(reader, s.text, s.title);
      if Lookup(rules, Limit).Some? { return Some(s); }
    }
    return fallback;
  }

  function CoverageLimitFor(reader: Reader, claimType: string, sections: seq<Section>): Option<Rule> {
    match Governing(reader, claimType, sections, None)
    case None => None
    case Some(s) => Lookup(Rules(reader, s.text, s.title), Limit)
  }

  /** {r.kind: r for r in rules}: the last rule of a kind stays. */
  function ByKind(rules: seq<Rule>): map<Kind, Rule> {
    if rules == [] then map[] else ByKind(rules[..|rules| - 1])[rules[|rules| - 1].kind := rules[|rules| - 1]]
  }

  function Get(rules: map<Kind, Rule>, kind: Kind): Option<Rule> { if kind in rules then Some(rules[kind]) else None }

  /** With one rule a kind, the last of a kind is the first. */
  lemma {:induction false} LastIsFirst(rules: seq<Rule>, kind: Kind)
    requires OnePerKind(rules)
    ensures Get(ByKind(rules), kind) == Lookup(rules, kind)
  {
    if rules != [] {
      var front, last := rules[..|rules| - 1], rules[|rules| - 1];
      LastIsFirst(front, kind);
      LookupAppends(front, last, kind);
      LookupFinds(front, kind);
      assert rules == front + [last];
    }
  }

  lemma RulesByKind(reader: Reader, text: string, section: string, kind: Kind)
    ensures Get(ByKind(Rules(reader, text, section)), kind) == Lookup(Rules(reader, text, section), kind)
  {
    hide OnePerKind, Rules, Lookup, ByKind, FirstStated;
    OneRulePerKind(reader, text, section, kind);
    LastIsFirst(Rules(reader, text, section), kind);
  }

  function AmountIf(r: Option<Rule>): Option<real> { if r.Some? then Some(r.value.amount) else None }

  /** The split, and the section it was read from. */
  function SettlementFor(reader: Reader, claimType: string, amount: real, sections: seq<Section>): Option<(Settlement, Section)> {
    match Governing(reader, claimType, sections, None)
    case None => None
    case Some(s) =>
      var rules := ByKind(Rules(reader, s.text, s.title));
      if Get(rules, Limit) == None && Get(rules, Deductible) == None then None
      else Some((Settle(amount, AmountIf(Get(rules, Limit)), AmountIf(Get(rules, Deductible))), s))
  }

  lemma LookedUpIsWhole(reader: Reader, s: Section, kind: Kind)
    ensures var r := Lookup(Rules(reader, s.text, s.title), kind);
      r.Some? ==> WholeCents(r.value.amount) && r.value.amount >= 0.0 && r.value.section == s.title && r.value.kind == kind
  {
    hide WholeCents, Stated, Lookup;
    LookupFinds(Rules(reader, s.text, s.title), kind);
    RulesAreWholeCents(reader, reader.sentences(s.text), s.title, |reader.sentences(s.text)|);
  }

  /** The two paths agree: the settlement carries a limit exactly when there is a
      cap, it is the same figure to the cent, and from the same section. */
  lemma LimitAndSettlementAgree(reader: Reader, claimType: string, amount: real, sections: seq<Section>)
    ensures var cap := CoverageLimitFor(reader, claimType, sections); var split := SettlementFor(reader, claimType, amount, sections);
      && (cap.Some? <==> split.Some? && split.value.0.limit.Some?)
      && (cap.Some? ==> split.value.0.limit == Some(cap.value.amount) && cap.value.section == split.value.1.title)
  {
    hide WholeCents, Rules, Lookup, Share, Quantize, ByKind;
    var governing := Governing(reader, claimType, sections, None);
    if governing.Some? {
      var s := governing.value;
      RulesByKind(reader, s.text, s.title, Limit);
      LookedUpIsWhole(reader, s, Limit);
      if Lookup(Rules(reader, s.text, s.title), Limit).Some? {
        WholeStays(Lookup(Rules(reader, s.text, s.title), Limit).value.amount);
      }
    }
  }

  /** A split read from the policy never rounds, sums to the claim, and stays
      under the policy's limit. */
  lemma PolicySplitsAreSound(reader: Reader, claimType: string, amount: real, sections: seq<Section>)
    requires amount >= 0.0
    ensures var split := SettlementFor(reader, claimType, amount, sections); split.Some? ==>
      var s := split.value.0;
      s.insurerPays + s.policyholderPays == s.claimed && s.insurerPays >= 0.0 && s.policyholderPays >= 0.0
      && (s.limit.Some? ==> s.insurerPays <= s.limit.value)
      && (Excess(s) > 0.0 <==> AboveLimit(s))
  {
    hide WholeCents, Rules, Lookup, Settle, Excess, AboveLimit, ByKind;
    var governing := Governing(reader, claimType, sections, None);
    if governing.Some? {
      var s := governing.value;
      RulesByKind(reader, s.text, s.title, Limit);
      RulesByKind(reader, s.text, s.title, Deductible);
      LookedUpIsWhole(reader, s, Limit);
      LookedUpIsWhole(reader, s, Deductible);
      var rules := Rules(reader, s.text, s.title);
      var limit, deductible := AmountIf(Lookup(rules, Limit)), AmountIf(Lookup(rules, Deductible));
      SharesAreSound(amount, limit, deductible);
      ExcessIffAboveLimit(amount, limit, deductible);
      NothingIsRounded(amount, limit, deductible);
    }
  }

  /** The split read from the policy, to the cent: with the limit and the deductible
      that the governing section states first, if it states them. */
  lemma PolicyPaysWhat(reader: Reader, claimType: string, amount: real, sections: seq<Section>)
    requires amount >= 0.0 && WholeCents(amount)
    ensures var split := SettlementFor(reader, claimType, amount, sections); split.Some? ==>
      var s, rules := split.value.0, Rules(reader, split.value.1.text, split.value.1.title);
      var limit, deductible := AmountIf(Lookup(rules, Limit)), AmountIf(Lookup(rules, Deductible));
      var off := if deductible.Some? then deductible.value else 0.0;
      && (limit.Some? || deductible.Some?)
      && (if limit.Some? && amount - off > limit.value
          then s.insurerPays == limit.value && s.policyholderPays == amount - limit.value
          else s.policyholderPays == (if off <= amount then off else amount) && s.insurerPays == amount - s.policyholderPays)
  {
    hide WholeCents, Rules, Lookup, Settle, ByKind;
    var governing := Governing(reader, claimType, sections, None);
    if governing.Some? {
      var s := governing.value;
      RulesByKind(reader, s.text, s.title, Limit);
      RulesByKind(reader, s.text, s.title, Deductible);
      LookedUpIsWhole(reader, s, Limit);
      LookedUpIsWhole(reader, s, Deductible);
      var rules := Rules(reader, s.text, s.title);
      WhoPaysWhat(amount, AmountIf(Lookup(rules, Limit)), AmountIf(Lookup(rules, Deductible)));
    }
  }

  /** There is no split exactly when no section governs, or the one that does states
      neither a limit nor a deductible. */
  lemma SplitIff(reader: Reader, claimType: string, amount: real, sections: seq<Section>)
    ensures SettlementFor(reader, claimType, amount, sections).Some? <==>
      var g := Governing(reader, claimType, sections, None);
      g.Some? && exists r :: r in Rules(reader, g.value.text, g.value.title) && r.kind != PerItemThreshold
  {
    hide Rules, Lookup, Settle, ByKind;
    var governing := Governing(reader, claimType, sections, None);
    if governing.Some? {
      var s := governing.value;
      RulesByKind(reader, s.text, s.title, Limit);
      RulesByKind(reader, s.text, s.title, Deductible);
      LookupFinds(Rules(reader, s.text, s.title), Limit);
      LookupFinds(Rules(reader, s.text, s.title), Deductible);
    }
  }

  /** Part of a text: something before it and something after. */
  ghost predicate PartOf(part: string, whole: string) { exists front, back :: whole == Around(front, part, back) }

  function Around(front: string, part: string, back: string): string { front + part + back }

  lemma WithinIff(part: string, whole: string)
    ensures Within(part, whole) <==> PartOf(part, whole)
  {
    if i: nat :| i <= |whole| && StandsAt(part, whole, i) {
      assert whole == Around(whole[..i], part, whole[i + |part|..]);
    }
    if front, back :| whole == Around(front, part, back) {
      assert whole[|front|..|front| + |part|] == part;
      assert StandsAt(part, whole, |front|);
    }
  }

  /** A section names a claim type when its title or its text has it as a part. */
  ghost predicate Names(reader: Reader, s: Section, claimType: string) {
    || PartOf(reader.normalised(claimType), reader.normalised(s.title))
    || PartOf(reader.normalised(claimType), reader.normalised(s.text))
  }

  lemma MentionsIff(reader: Reader, s: Section, claimType: string)
    ensures Mentions(reader, s, claimType) <==> Names(reader, s, claimType)
  {
    hide Within, PartOf;
    WithinIff(reader.normalised(claimType), reader.normalised(s.title));
    WithinIff(reader.normalised(claimType), reader.normalised(s.text));
  }

  /** The first section, if any, that names the claim type and, where asked for, states
      a limit. */
  ghost predicate IsFirst(reader: Reader, sections: seq<Section>, claimType: string, capped: bool, i: nat) {
    && i < |sections| && Fits(reader, sections[i], claimType, capped)
    && forall j :: 0 <= j < i ==> !Fits(reader, sections[j], claimType, capped)
  }

  ghost predicate Fits(reader: Reader, s: Section, claimType: string, capped: bool) {
    Names(reader, s, claimType) && (capped ==> StatesALimit(reader, s))
  }

  ghost predicate NoneFits(reader: Reader, sections: seq<Section>, claimType: string, capped: bool) {
    forall j :: 0 <= j < |sections| ==> !Fits(reader, sections[j], claimType, capped)
  }

  lemma {:induction false} GoverningFrom(reader: Reader, claimType: string, sections: seq<Section>, fallback: Option<Section>)
    requires reader.normalised(claimType) != ""
    ensures var g := Governing(reader, claimType, sections, fallback);
      && (forall i: nat :: IsFirst(reader, sections, claimType, true, i) ==> g == Some(sections[i]))
      && (NoneFits(reader, sections, claimType, true) && fallback.Some? ==> g == fallback)
      && (NoneFits(reader, sections, claimType, true) && fallback == None ==>
            forall i: nat :: IsFirst(reader, sections, claimType, false, i) ==> g == Some(sections[i]))
      && (NoneFits(reader, sections, claimType, false) ==> g == fallback)
  {
    hide Mentions, StatesALimit, Names;
    if sections != [] {
      var s, rest := sections[0], sections[1..];
      MentionsIff(reader, s, claimType);
      GoverningFrom(reader, claimType, rest, fallback);
      GoverningFrom(reader, claimType, rest, Some(s));
      assert forall j :: 0 <= j < |rest| ==> rest[j] == sections[j + 1];
      forall i: nat, capped: bool | IsFirst(reader, sections, claimType, capped, i) && i > 0
        ensures IsFirst(reader, rest, claimType, capped, i - 1)
      {
      }
      assert forall capped :: NoneFits(reader, sections, claimType, capped) ==> NoneFits(reader, rest, claimType, capped);
    }
  }

  /** The governing section is the first that names the claim type and states a limit;
      where none does, the first that names it; where none names it, there is none. */
  lemma GoverningIff(reader: Reader, claimType: string, sections: seq<Section>)
    ensures var g := Governing(reader, claimType, sections, None);
      && (reader.normalised(claimType) == "" ==> g == None)
      && (reader.normalised(claimType) != "" ==>
            && (forall i: nat :: IsFirst(reader, sections, claimType, true, i) ==> g == Some(sections[i]))
            && (NoneFits(reader, sections, claimType, true) ==>
                  forall i: nat :: IsFirst(reader, sections, claimType, false, i) ==> g == Some(sections[i]))
            && (NoneFits(reader, sections, claimType, false) ==> g == None))
  {
    hide Mentions, StatesALimit, Names, Fits, IsFirst, NoneFits;
    if reader.normalised(claimType) != "" { GoverningFrom(reader, claimType, sections, None); }
  }

  /** There is a cap exactly when some section that names the claim type states
      a limit: one that only mentions it never hides it. */
  lemma {:induction false} CapIffStated(reader: Reader, claimType: string, sections: seq<Section>, fallback: Option<Section>)
    requires reader.normalised(claimType) != ""
    requires fallback.Some? ==> !StatesALimit(reader, fallback.value)
    ensures (var g := Governing(reader, claimType, sections, fallback); g.Some? && StatesALimit(reader, g.value))
      <==> exists s :: s in sections && Mentions(reader, s, claimType) && StatesALimit(reader, s)
  {
    hide Mentions, StatesALimit;
    if sections != [] {
      assert forall s :: s in sections <==> s == sections[0] || s in sections[1..];
      var s := sections[0];
      if !Mentions(reader, s, claimType) {
        CapIffStated(reader, claimType, sections[1..], fallback);
      } else if !StatesALimit(reader, s) {
        CapIffStated(reader, claimType, sections[1..], if fallback == None then Some(s) else fallback);
      }
    }
  }
}
