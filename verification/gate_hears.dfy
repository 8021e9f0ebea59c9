/** What the reader of amounts guarantees the write gate: an amount that was said
    or written is never refused as unheard, and one that was not is never filed
    (backend/agent/app/graph/nodes.py:362-381). */
module GateHears {
  import opened Ascii
  import opened Figures
  import opened NumberWords
  import opened GraphState
  import opened GraphNodes
  import opened GraphRun
  import opened Options
  import opened WriteGate
  import FiledClaims
  import SpokenAmounts
  import SpokenRuns
  import SpokenText

  /** The graph reads amounts with spoken_amounts. */
  ghost predicate ReadsAmounts(cfg: Config) {
    forall s, n: nat :: n in SpokenAmounts.Amounts(s) ==> n in cfg.amountsIn(s)
  }

  /** Some way of saying n: in the plain style or in hundreds, with "and" or not. */
  ghost predicate Says(text: string, p: string, n: nat, q: string) {
    && SpokenAmounts.SPOKEN_FLOOR <= n < 1000000000
    && !SpokenText.EndsWithLetter(p) && !SpokenText.StartsWithLetter(q)
    && SpokenAmounts.FreshStart(Kinds(SpokenText.WordsBefore(p)))
    && SpokenAmounts.EndsThere(Kinds(SpokenText.WordsAfter(q)))
    && exists joined :: SaidAs(text, p, n, joined, q)
  }

  ghost predicate SaidAs(text: string, p: string, n: nat, joined: bool, q: string)
    requires SpokenAmounts.SPOKEN_FLOOR <= n < 1000000000
  {
    SpokenAmounts.InScalesIsExact(n, joined);
    || Lower(text) == p + SpokenText.Say(SpokenAmounts.InScales(n, joined)) + q
    || (n < 10000 && Lower(text) == p + SpokenText.Say(SpokenAmounts.InHundreds(n, joined)) + q)
  }

  predicate Writes(text: string, p: string, n: nat, q: string) {
    && n >= 1
    && (p == "" || !InFigure(p[|p| - 1])) && (q == "" || !InFigure(q[0]))
    && text in [p + Grouped(n) + q, p + Digits(n) + q, p + (Grouped(n) + ",") + q]
  }

  /** A pending write whose amount some human message says or writes, and whose
      policy number some human message gives, passes the gate to the prompt. */
  lemma StatedClaimsAreShown(cfg: Config, t: Thread, i: nat, p: string, n: nat, q: string)
    requires cfg.requireConfirmation && ReadsAmounts(cfg)
    requires i < |t.messages| && t.messages[i].role == Human
    requires Says(t.messages[i].content, p, n, q) || Writes(t.messages[i].content, p, n, q)
    requires ClaimedAmount(Pending(t)).Some?
    requires var d := cfg.decimal(Str(ClaimedAmount(Pending(t)).value)); d.Some? && Truncate(d.value) == n
    requires SaidPolicy(cfg, t.messages, ClaimedPolicy(Pending(t)))
    ensures ConfirmNode(cfg, t, None) == Outcome(t, [Displayed(Pending(t))], None, true)
  {
    hide ClaimedAmount, ClaimedPolicy, Str, Truncate, SpokenAmounts.Amounts, SpokenText.Say, Kinds, Grouped,
      Digits, SpokenText.WordsBefore, SpokenText.WordsAfter;
    var text := t.messages[i].content;
    if Says(text, p, n, q) {
      var joined :| SaidAs(text, p, n, joined, q);
      SpokenText.EveryAmountIsFound(n, joined, p, q, text);
    } else {
      SpokenText.WrittenAmountIsFound(n, p, q);
    }
    assert n in cfg.amountsIn(text);
    assert SaidAmount(cfg, t.messages, n);
  }

  /** It finds no amount that spoken_amounts does not. */
  ghost predicate ReadsNothingElse(cfg: Config) {
    forall s, n :: n in cfg.amountsIn(s) ==> n >= 0 && n in SpokenAmounts.Amounts(s)
  }

  /** An amount counts as stated exactly when some human message gives it, as one
      figure or as one run of number words. */
  lemma AmountIsStatedIff(cfg: Config, ms: seq<Message>, dollars: int)
    requires ReadsAmounts(cfg) && ReadsNothingElse(cfg)
    ensures SaidAmount(cfg, ms, dollars) <==>
      dollars >= 1 && exists i :: 0 <= i < |ms| && ms[i].role == Human && SpokenRuns.GivenIn(ms[i].content, dollars)
  {
    hide SpokenAmounts.Amounts, SpokenRuns.GivenIn;
    forall i | 0 <= i < |ms| ensures dollars in cfg.amountsIn(ms[i].content) <==> dollars >= 1 && SpokenRuns.GivenIn(ms[i].content, dollars) {
      GivenAmounts(ms[i].content, dollars);
    }
  }

  lemma GivenAmounts(text: string, v: int)
    ensures v >= 0 && v in SpokenAmounts.Amounts(text) <==> v >= 1 && SpokenRuns.GivenIn(text, v)
  {
    hide SpokenAmounts.Amounts, SpokenRuns.SpokenIn;
    SpokenRuns.AmountsIff(text);
  }

  /** In every run with confirmation on, each claim appended is for an amount that the
      policyholder gave before it, as one figure or as one run of number words. */
  lemma FiledAmountsWereGiven(cfg: Config, run: seq<Action>, i: nat) returns (h: nat, dollars: nat)
    requires cfg.requireConfirmation && ReadsNothingElse(cfg) && AllowedRun(cfg, run)
    requires i < |Exec(cfg, run).log| && Exec(cfg, run).log[i].Appended?
    ensures var log := Exec(cfg, run).log;
      && h < i && log[h].Heard? && SpokenRuns.GivenIn(log[h].said, dollars)
      && dollars >= 1 && FiledClaims.WholeDollars(dollars, log[i].claim.amount)
  {
    hide SpokenAmounts.Amounts, SpokenRuns.GivenIn, Exec, AllowedRun, Truncate, Consent, Schema, FiledClaims.WholeDollars;
    var args, j, k := WritesAreShownApprovedAndStated(cfg, run, i);
    var log, amount := Exec(cfg, run).log, Exec(cfg, run).log[i].claim.amount;
    assert HeardAmount(cfg, log[..i], Truncate(amount));
    h :| 0 <= h < |log[..i]| && log[..i][h].Heard? && Truncate(amount) in cfg.amountsIn(log[..i][h].said);
    dollars := Truncate(amount);
    GivenAmounts(log[h].said, dollars);
    FiledClaims.TruncateIff(dollars, amount);
  }
}
