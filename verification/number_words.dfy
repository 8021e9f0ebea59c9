/** The vocabulary of spoken numbers (backend/libs/guardrails/normalize.py:17-30, 69, 136). */
module NumberWords {
  import opened Ascii

  datatype Word =
    | Unit(n: nat)          // zero .. nineteen
    | Ten(n: nat)           // twenty .. ninety
    | Hundred | Thousand | Million
    | And
    | Figure(digits: string)
    | Filler
    | Other

  predicate AllDigits(s: string) { s != "" && forall i :: 0 <= i < |s| ==> IsDigit(s[i]) }

  /** What a lower-case token is. */
  function Kind(s: string): Word {
    if s in ["zero", "oh", "o"] then Unit(0) else if s == "one" then Unit(1) else if s == "two" then Unit(2)
    else if s == "three" then Unit(3) else if s == "four" then Unit(4) else if s == "five" then Unit(5)
    else if s == "six" then Unit(6) else if s == "seven" then Unit(7) else if s == "eight" then Unit(8)
    else if s == "nine" then Unit(9) else if s == "ten" then Unit(10) else if s == "eleven" then Unit(11)
    else if s == "twelve" then Unit(12) else if s == "thirteen" then Unit(13) else if s == "fourteen" then Unit(14)
    else if s == "fifteen" then Unit(15) else if s == "sixteen" then Unit(16) else if s == "seventeen" then Unit(17)
    else if s == "eighteen" then Unit(18) else if s == "nineteen" then Unit(19)
    else if s == "twenty" then Ten(20) else if s == "thirty" then Ten(30) else if s in ["forty", "fourty"] then Ten(40)
    else if s == "fifty" then Ten(50) else if s == "sixty" then Ten(60) else if s == "seventy" then Ten(70)
    else if s == "eighty" then Ten(80) else if s == "ninety" then Ten(90)
    else if s == "hundred" then Hundred else if s == "thousand" then Thousand else if s == "million" then Million
    else if s == "and" then And
    else if AllDigits(s) then Figure(s)
    else if s in ["is", "number", "no", "the", "my", "it", "was", "of", "for", "hash"] then Filler
    else Other
  }

  function Kinds(tokens: seq<string>): (ws: seq<Word>)
    ensures |ws| == |tokens| && forall i :: 0 <= i < |ws| ==> ws[i] == Kind(tokens[i])
  {
    seq(|tokens|, i requires 0 <= i < |tokens| => Kind(tokens[i]))
  }

  /** The usual name of a number word. */
  function Name(w: Word): string
    requires Nameable(w)
  {
    match w
    case Unit(n) => if n < 10 then UNDER_TEN[n] else TEENS[n - 10]
    case Ten(n) => TENS[n / 10 - 2]
    case Hundred => "hundred"
    case Thousand => "thousand"
    case Million => "million"
    case _ => "and"
  }

  const UNDER_TEN := ["zero", "one", "two", "three", "four", "five", "six", "seven", "eight", "nine"]
  const TEENS := ["ten", "eleven", "twelve", "thirteen", "fourteen", "fifteen", "sixteen", "seventeen", "eighteen", "nineteen"]
  const TENS := ["twenty", "thirty", "forty", "fifty", "sixty", "seventy", "eighty", "ninety"]

  predicate Nameable(w: Word) {
    match w
    case Unit(n) => n < 20
    case Ten(n) => n % 10 == 0 && 20 <= n < 100
    case _ => w in {Hundred, Thousand, Million, And}
  }

  predicate Letters(s: string) { s != "" && forall i :: 0 <= i < |s| ==> IsLowerLetter(s[i]) }

  /** The vocabulary knows every number word by its usual name. */
  lemma NamesAreKnown(w: Word)
    requires Nameable(w)
    ensures Kind(Name(w)) == w && Letters(Name(w))
  {
    hide Kind, Name, Letters;
    match w
    case Unit(n) => if n < 10 { SmallNames(n); } else if n < 15 { TeenNames(n); } else { LateTeenNames(n); }
    case Ten(n) => TensNames(n);
    case _ => ScaleNames(w);
  }

  lemma SmallNames(n: nat)
    requires n < 10
    ensures Kind(Name(Unit(n))) == Unit(n) && Letters(Name(Unit(n)))
  {
  }

  lemma TeenNames(n: nat)
    requires 10 <= n < 15
    ensures Kind(Name(Unit(n))) == Unit(n) && Letters(Name(Unit(n)))
  {
  }

  lemma LateTeenNames(n: nat)
    requires 15 <= n < 20
    ensures Kind(Name(Unit(n))) == Unit(n) && Letters(Name(Unit(n)))
  {
  }

  lemma TensNames(n: nat)
    requires Nameable(Ten(n))
    ensures Kind(Name(Ten(n))) == Ten(n) && Letters(Name(Ten(n)))
  {
    var k := n / 10 - 2;
    assert n == 10 * k + 20 && 0 <= k < 8;
  }

  lemma ScaleNames(w: Word)
    requires w in {Hundred, Thousand, Million, And}
    ensures Kind(Name(w)) == w && Letters(Name(w))
  {
  }

  /** Besides the usual names: two more ways to say nought, and one misspelling. */
  predicate AlsoMeans(s: string, w: Word) {
    (s in ["oh", "o"] && w == Unit(0)) || (s == "fourty" && w == Ten(40))
  }

  predicate Known(s: string, w: Word) { Nameable(w) && (s == Name(w) || AlsoMeans(s, w)) }

  /** And nothing else is a number word. */
  lemma OnlyNamesAreKnown(s: string)
    requires var w := Kind(s); w.Unit? || w.Ten? || w.Hundred? || w.Thousand? || w.Million? || w.And?
    ensures Known(s, Kind(s))
  {
    hide Kind, Known;
    if Kind(s).Unit? { OnlySmallNames(s); } else if Kind(s).Ten? { OnlyTensNames(s); } else { OnlyScaleNames(s); }
  }

  lemma OnlySmallNames(s: string)
    requires Kind(s).Unit?
    ensures Known(s, Kind(s))
  {
  }

  lemma OnlyTensNames(s: string)
    requires Kind(s).Ten?
    ensures Known(s, Kind(s))
  {
  }

  lemma OnlyScaleNames(s: string)
    requires var w := Kind(s); w.Hundred? || w.Thousand? || w.Million? || w.And?
    ensures Known(s, Kind(s))
  {
  }

  /** And a figure is digits, one at least, and nothing else. */
  lemma FiguresAreKnown(s: string)
    ensures Kind(s) == Figure(s) <==> s != "" && forall i :: 0 <= i < |s| ==> '0' <= s[i] <= '9'
    ensures Kind(s).Figure? ==> Kind(s) == Figure(s)
  {
    if s != "" && '0' <= s[0] <= '9' { NamesHaveNoDigits(s); }
  }

  lemma NamesHaveNoDigits(s: string)
    requires s != "" && IsDigit(s[0])
    ensures Kind(s) == if AllDigits(s) then Figure(s) else Other
  {
  }
}
