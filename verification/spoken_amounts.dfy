/** Reading money out of what a caller says or types, and the ways of saying it
    that the reader undoes (backend/libs/guardrails/normalize.py:143-193). */
module SpokenAmounts {
  import opened Ascii
  import opened Figures
  import opened NumberWords

  const SPOKEN_FLOOR := 100

  /** The scanner between two words: millions and thousands so far, the group in
      hand, whether a number is under way, and the amounts found. */
  datatype Scan = Scan(total: nat, current: nat, seen: bool, found: set<nat>)

  const IDLE := Scan(0, 0, false, {})

  function OrOne(n: nat): nat { if n == 0 then 1 else n }

  /** A word that is no part of a number ends the one under way. */
  function Flushed(s: Scan): Scan {
    Scan(0, 0, false, if s.seen && s.total + s.current >= SPOKEN_FLOOR then s.found + {s.total + s.current} else s.found)
  }

  function Hear(s: Scan, w: Word): Scan {
    match w
    case Unit(n) => s.(current := s.current + n, seen := true)
    case Ten(n) => s.(current := s.current + n, seen := true)
    case Hundred => s.(current := OrOne(s.current) * 100, seen := true)
    case Thousand => s.(total := s.total + OrOne(s.current) * 1000, current := 0, seen := true)
    case Million => s.(total := s.total + OrOne(s.current) * 1000000, current := 0, seen := true)
    case And => if s.seen then s else Flushed(s)
    case _ => Flushed(s)
  }

  function HearAll(s: Scan, ws: seq<Word>): Scan {
    if ws == [] then s else Hear(HearAll(s, ws[..|ws| - 1]), ws[|ws| - 1])
  }

  function Spoken(ws: seq<Word>): set<nat> { Flushed(HearAll(IDLE, ws)).found }

  // ------------------------------------------------------- written figures

  /** Every written figure of at least one dollar. */
  function Written(s: string): set<nat>
    decreases |s|
  {
    if s == "" then {}
    else if IsDigit(s[0]) then
      var n := RunLength(s);
      (if Value(s[..n]) >= 1 then {Value(s[..n])} else {}) + Written(s[n..])
    else Written(s[1..])
  }

  // ------------------------------------------------------------ tokenising

  function LetterRun(s: string): (n: nat)
    ensures n <= |s|
    ensures forall i :: 0 <= i < n ==> IsLowerLetter(s[i])
    ensures n < |s| ==> !IsLowerLetter(s[n])
  {
    if s != "" && IsLowerLetter(s[0]) then 1 + LetterRun(s[1..]) else 0
  }

  function GapRun(s: string): (n: nat)
    ensures n <= |s|
    ensures forall i :: 0 <= i < n ==> !IsLowerLetter(s[i])
    ensures n < |s| ==> IsLowerLetter(s[n])
  {
    if s != "" && !IsLowerLetter(s[0]) then 1 + GapRun(s[1..]) else 0
  }

  /** re.split on runs of anything but lower-case letters: a gap at either end
      leaves an empty token there. */
  function Split(s: string): (tokens: seq<string>)
    ensures tokens != []
    decreases |s|
  {
    var n := LetterRun(s);
    if n == |s| then [s]
    else [s[..n]] + Split(s[n + GapRun(s[n..])..])
  }

  function Amounts(text: string): set<nat> {
    Written(text) + Spoken(Kinds(Split(Lower(text))))
  }

  /** spoken_amounts as it runs: one pass over the figures, one over the words. */
  method SpokenAmounts(text: string) returns (found: set<nat>)
    ensures found == Amounts(text)
  {
    hide Kind, Value;
    found := {};
    var i := 0;
    while i < |text|
      invariant i <= |text|
      invariant found + Written(text[i..]) == Written(text)
    {
      var rest := text[i..];
      if IsDigit(text[i]) {
        var n := RunLength(rest);
        if Value(rest[..n]) >= 1 { found := found + {Value(rest[..n])}; }
        assert rest[n..] == text[i + n..];
        i := i + n;
      } else {
        assert rest[1..] == text[i + 1..];
        i := i + 1;
      }
    }
    ghost var written := found;
    var tokens := Split(Lower(text));
    var total: nat, current: nat, seen := 0, 0, false;
    ghost var spoken: set<nat> := {};
    for k := 0 to |tokens|
      invariant found == written + spoken
      invariant Scan(total, current, seen, spoken) == HearAll(IDLE, Kinds(tokens)[..k])
    {
      assert Kinds(tokens)[..k + 1][..k] == Kinds(tokens)[..k];
      match Kind(tokens[k])
      case Unit(n) => current, seen := current + n, true;
      case Ten(n) => current, seen := current + n, true;
      case Hundred => current, seen := OrOne(current) * 100, true;
      case Thousand => total, current, seen := total + OrOne(current) * 1000, 0, true;
      case Million => total, current, seen := total + OrOne(current) * 1000000, 0, true;
      case And =>
        if !seen { total, current := 0, 0; }
      case _ =>
        if seen && total + current >= SPOKEN_FLOOR {
          found, spoken := found + {total + current}, spoken + {total + current};
        }
        total, current, seen := 0, 0, false;
    }
    assert Kinds(tokens)[..|tokens|] == Kinds(tokens);
    if seen && total + current >= SPOKEN_FLOOR { found := found + {total + current}; }
  }

  // ------------------------------------------------------ how amounts are said

  /** One group: so many hundreds (up to ninety-nine of them, or a bare
      "hundred"), perhaps "and", and what is left under a hundred. */
  datatype Group = Group(hundreds: nat, bare: bool, joined: bool, rest: nat)

  /** A numeral: perhaps millions, perhaps thousands, and the last group. */
  datatype Numeral = Numeral(
    millions: Group, hasMillions: bool, joinThousands: bool,
    thousands: Group, hasThousands: bool, joinLast: bool, last: Group)

  predicate Sayable(g: Group) { g.hundreds < 100 && g.rest < 100 && (g.bare ==> g.hundreds == 1) }

  function Worth(g: Group): nat { g.hundreds * 100 + g.rest }

  function UnderHundred(n: nat): seq<Word>
    requires n < 100
  {
    if n == 0 then [] else if n < 20 then [Unit(n)]
    else if n % 10 == 0 then [Ten(n)] else [Ten(n - n % 10), Unit(n % 10)]
  }

  function GroupWords(g: Group): seq<Word>
    requires Sayable(g)
  {
    (if g.hundreds == 0 then [] else if g.bare then [Hundred] else UnderHundred(g.hundreds) + [Hundred])
    + (if g.joined && g.hundreds > 0 then [And] else [])
    + UnderHundred(g.rest)
  }

  predicate WellSaid(n: Numeral) { Sayable(n.millions) && Sayable(n.thousands) && Sayable(n.last) }

  function NumeralWords(n: Numeral): seq<Word>
    requires WellSaid(n)
  {
    (if n.hasMillions then GroupWords(n.millions) + [Million] else [])
    + (if n.hasMillions && n.joinThousands then [And] else [])
    + (if n.hasThousands then GroupWords(n.thousands) + [Thousand] else [])
    + (if (n.hasMillions || n.hasThousands) && n.joinLast then [And] else [])
    + GroupWords(n.last)
  }

  function NumeralValue(n: Numeral): nat {
    (if n.hasMillions then OrOne(Worth(n.millions)) * 1000000 else 0)
    + (if n.hasThousands then OrOne(Worth(n.thousands)) * 1000 else 0)
    + Worth(n.last)
  }

  // ------------------------------------------------------------ reading back

  lemma {:induction false} HearJoin(s: Scan, a: seq<Word>, b: seq<Word>)
    ensures HearAll(s, a + b) == HearAll(HearAll(s, a), b)
  {
    if b == [] {
      assert a + b == a;
    } else {
      HearJoin(s, a, b[..|b| - 1]);
      assert (a + b)[..|a + b| - 1] == a + b[..|b| - 1];
    }
  }

  lemma HearOne(s: Scan, w: Word)
    ensures HearAll(s, [w]) == Hear(s, w)
  {
    assert [w][..0] == [];
    assert HearAll(s, []) == s;
  }

  lemma HearUnderHundred(s: Scan, n: nat)
    requires n < 100
    ensures HearAll(s, UnderHundred(n)) == s.(current := s.current + n, seen := s.seen || n > 0)
  {
    if 0 < n < 20 { HearOne(s, Unit(n)); }
    else if n >= 20 && n % 10 == 0 { HearOne(s, Ten(n)); }
    else if n >= 20 {
      HearOne(s, Ten(n - n % 10));
      HearOne(Hear(s, Ten(n - n % 10)), Unit(n % 10));
      HearJoin(s, [Ten(n - n % 10)], [Unit(n % 10)]);
      assert UnderHundred(n) == [Ten(n - n % 10)] + [Unit(n % 10)];
    }
  }

  /** A group said from a fresh start is heard as its worth. */
  lemma HearGroup(s: Scan, g: Group)
    requires Sayable(g) && s.current == 0
    ensures HearAll(s, GroupWords(g)) == s.(current := Worth(g), seen := s.seen || Worth(g) > 0)
  {
    var head := if g.hundreds == 0 then [] else if g.bare then [Hundred] else UnderHundred(g.hundreds) + [Hundred];
    var link := if g.joined && g.hundreds > 0 then [And] else [];
    var s1 := s.(current := g.hundreds * 100, seen := s.seen || g.hundreds > 0);
    assert HearAll(s, head) == s1 by {
      if g.hundreds > 0 {
        if g.bare {
          HearOne(s, Hundred);
        } else {
          HearUnderHundred(s, g.hundreds);
          HearOne(HearAll(s, UnderHundred(g.hundreds)), Hundred);
          HearJoin(s, UnderHundred(g.hundreds), [Hundred]);
        }
      }
    }
    HearJoin(s, head, link);
    HearOne(s1, And);
    assert HearAll(s, head + link) == s1;
    HearJoin(s, head + link, UnderHundred(g.rest));
    HearUnderHundred(s1, g.rest);
  }

  function ScaledWords(g: Group, has: bool, scale: Word): seq<Word>
    requires Sayable(g)
  {
    if has then GroupWords(g) + [scale] else []
  }

  lemma HearScaled(s: Scan, g: Group, has: bool, scale: Word)
    requires Sayable(g) && s.current == 0 && (scale == Thousand || scale == Million)
    ensures HearAll(s, ScaledWords(g, has, scale)) ==
      if has then s.(total := s.total + OrOne(Worth(g)) * (if scale == Million then 1000000 else 1000), seen := true) else s
  {
    if has {
      HearGroup(s, g);
      HearJoin(s, GroupWords(g), [scale]);
      HearOne(HearAll(s, GroupWords(g)), scale);
    }
  }

  lemma HearLink(s: Scan, linked: bool)
    requires linked ==> s.seen
    ensures HearAll(s, if linked then [And] else []) == s
  {
    if linked { HearOne(s, And); }
  }

  /** Any way of saying a numeral leaves the scanner holding its value. */
  lemma HearNumeral(s: Scan, n: Numeral)
    requires WellSaid(n) && s.total == s.current == 0 && !s.seen && NumeralValue(n) > 0
    ensures var s1 := HearAll(s, NumeralWords(n)); s1.total + s1.current == NumeralValue(n) && s1.seen && s1.found == s.found
  {
    var millions, thousands := ScaledWords(n.millions, n.hasMillions, Million), ScaledWords(n.thousands, n.hasThousands, Thousand);
    var link1 := if n.hasMillions && n.joinThousands then [And] else [];
    var link2 := if (n.hasMillions || n.hasThousands) && n.joinLast then [And] else [];
    hide GroupWords, HearAll;
    HearScaled(s, n.millions, n.hasMillions, Million);
    var s1 := HearAll(s, millions);
    HearLink(s1, n.hasMillions && n.joinThousands);
    HearScaled(s1, n.thousands, n.hasThousands, Thousand);
    var s2 := HearAll(s1, thousands);
    HearLink(s2, (n.hasMillions || n.hasThousands) && n.joinLast);
    HearGroup(s2, n.last);
    HearJoin(s, millions, link1);
    HearJoin(s, millions + link1, thousands);
    HearJoin(s, millions + link1 + thousands, link2);
    HearJoin(s, millions + link1 + thousands + link2, GroupWords(n.last));
    assert NumeralWords(n) == millions + link1 + thousands + link2 + GroupWords(n.last);
  }

  // --------------------------------------------------------------- in context

  /** A word that ends any number before it. */
  predicate Breaks(w: Word) { w.Figure? || w.Filler? || w.Other? }

  /** Nothing in front is still being counted. */
  predicate FreshStart(before: seq<Word>) { before == [] || Breaks(before[|before| - 1]) }

  /** What follows says no more of the number; a stray "and" is no matter. */
  predicate EndsThere(after: seq<Word>) {
    after == [] || Breaks(after[0]) || (after[0] == And && EndsThere(after[1..]))
  }

  lemma {:induction false} FoundStays(s: Scan, ws: seq<Word>)
    ensures s.found <= HearAll(s, ws).found
  {
    if ws != [] { FoundStays(s, ws[..|ws| - 1]); }
  }

  lemma {:induction false} EndFinds(s: Scan, after: seq<Word>)
    requires EndsThere(after) && s.seen && s.total + s.current >= SPOKEN_FLOOR
    ensures s.total + s.current in Flushed(HearAll(s, after)).found
  {
    if after != [] {
      assert after == [after[0]] + after[1..];
      HearJoin(s, [after[0]], after[1..]);
      HearOne(s, after[0]);
      if after[0] == And {
        EndFinds(s, after[1..]);
      } else {
        FoundStays(Hear(s, after[0]), after[1..]);
      }
    }
  }

  /** Said in any style, between any words that do not run into it, an amount
      of a hundred dollars or more is found. */
  lemma SpokenIsHeard(before: seq<Word>, n: Numeral, after: seq<Word>)
    requires WellSaid(n) && NumeralValue(n) >= SPOKEN_FLOOR
    requires FreshStart(before) && EndsThere(after)
    ensures NumeralValue(n) in Spoken(before + NumeralWords(n) + after)
  {
    var s := HearAll(IDLE, before);
    HearNumeral(s, n);
    HearJoin(IDLE, before, NumeralWords(n));
    HearJoin(IDLE, before + NumeralWords(n), after);
    EndFinds(HearAll(s, NumeralWords(n)), after);
  }

  // ------------------------------------------------------- every number fits

  function Plain(n: nat, joined: bool): (g: Group)
    requires n < 10000
    ensures Sayable(g) && Worth(g) == n
  {
    Group(n / 100, false, joined, n % 100)
  }

  const NOTHING := Group(0, false, false, 0)

  /** "one million two hundred thousand and thirty four". */
  function InScales(n: nat, joined: bool): (said: Numeral)
    requires n < 1000000000
    ensures WellSaid(said)
  {
    Numeral(Plain(n / 1000000, joined), n >= 1000000, joined,
            Plain(n / 1000 % 1000, joined), n / 1000 % 1000 > 0, joined, Plain(n % 1000, joined))
  }

  /** "twelve hundred and fifty". */
  function InHundreds(n: nat, joined: bool): (said: Numeral)
    requires n < 10000
    ensures WellSaid(said) && NumeralValue(said) == n
  {
    Numeral(NOTHING, false, false, NOTHING, false, false, Plain(n, joined))
  }

  lemma Thousands(n: nat)
    ensures n == n / 1000000 * 1000000 + n / 1000 % 1000 * 1000 + n % 1000
  {
    var k := n / 1000;
    assert k / 1000 == n / 1000000;
    assert n == 1000 * k + n % 1000 && k == 1000 * (k / 1000) + k % 1000;
  }

  /** The plain style says every number below a thousand million exactly. */
  lemma InScalesIsExact(n: nat, joined: bool)
    requires n < 1000000000
    ensures NumeralValue(InScales(n, joined)) == n
  {
    hide Plain;
    Thousands(n);
    var m, t := n / 1000000, n / 1000 % 1000;
    assert m > 0 <==> n >= 1000000;
    assert NumeralValue(InScales(n, joined)) == m * 1000000 + t * 1000 + n % 1000;
  }
}
