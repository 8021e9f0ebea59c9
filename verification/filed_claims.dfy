/** What is filed is what was shown, field by field, and what it takes to be shown
    (backend/agent/app/graph/nodes.py:317-381, 405-478, backend/libs/contracts/claims.py:97-150). */
module FiledClaims {
  import opened ApprovalWords
  import opened Ascii
  import opened GraphState
  import opened GraphNodes
  import opened GraphRun
  import opened Options
  import opened WriteGate

  /** `middle` is `s` without the blanks at its ends. */
  ghost predicate IsStripped(middle: string, s: string) {
    && (middle != "" ==> !IsSpace(middle[0]) && !IsSpace(middle[|middle| - 1]))
    && exists i, j :: 0 <= i <= j <= |s| && Blank(s[..i]) && Blank(s[j..]) && middle == s[i..j]
  }

  lemma StrippedIff(s: string, middle: string)
    ensures Strip(s) == middle <==> IsStripped(middle, s)
  {
    hide Strip;
    var i, j := StripTakesBlanks(s);
    BlankEnds(s, i, j);
    if IsStripped(middle, s) {
      var k, l :| 0 <= k <= l <= |s| && Blank(s[..k]) && Blank(s[l..]) && middle == s[k..l];
      BlankEnds(s, k, l);
      assert k < l ==> !IsSpace(s[k]) && !IsSpace(s[l - 1]);
    }
  }

  ghost predicate TextShown(shown: Json, text: string) { shown.JText? && IsStripped(text, shown.text) }

  ghost predicate AmountShown(cfg: Config, shown: Json, amount: real) {
    match shown
    case JNull => false
    case JText(figure) => cfg.decimal(figure) == Some(amount)
    case JNumber(figure) => cfg.decimal(figure) == Some(amount)
  }

  /** The four fields of a claim, and no other, are what the arguments say. */
  ghost predicate ShownAs(cfg: Config, args: Args, claim: ClaimArgs) {
    && args.Keys == {PolicyNumber, ClaimType, Amount, Description}
    && TextShown(args[PolicyNumber], claim.policy)
    && TextShown(args[ClaimType], claim.claimType)
    && TextShown(args[Description], claim.description)
    && AmountShown(cfg, args[Amount], claim.amount)
  }

  predicate Cents(cents: int, amount: real) { amount * 100.0 == cents as real }

  ghost predicate InBounds(claim: ClaimArgs) {
    && |claim.policy| == 8 && "POL-" <= claim.policy && (forall i :: 4 <= i < 8 ==> '0' <= claim.policy[i] <= '9')
    && claim.claimType in {"Water Damage", "Personal Property"}
    && 10 <= |claim.description| <= 1000
    && 0.0 < claim.amount <= 1000000.0 && exists cents :: Cents(cents, claim.amount)
  }

  lemma ShapedIff(policy: string)
    ensures PolicyShaped(policy) <==>
      |policy| == 8 && "POL-" <= policy && forall i :: 4 <= i < 8 ==> '0' <= policy[i] <= '9'
  {
  }

  lemma CentsIff(amount: real)
    ensures InCents(amount) <==> exists cents :: Cents(cents, amount)
  {
    if InCents(amount) { assert Cents((amount * 100.0).Floor, amount); }
    if cents :| Cents(cents, amount) { assert (amount * 100.0).Floor == cents; }
  }

  /** The schema accepts exactly the arguments that say a claim within its bounds, and
      it is that claim. */
  lemma AcceptsIff(cfg: Config, args: Args, claim: ClaimArgs)
    ensures Schema(cfg, args) == Some(claim) <==> ShownAs(cfg, args, claim) && InBounds(claim)
  {
    hide Strip, IsStripped, PolicyShaped, InCents, Cents;
    ShapedIff(claim.policy);
    CentsIff(claim.amount);
    if args.Keys == {PolicyNumber, ClaimType, Amount, Description} {
      if args[PolicyNumber].JText? { StrippedIff(args[PolicyNumber].text, claim.policy); }
      if args[ClaimType].JText? { StrippedIff(args[ClaimType].text, claim.claimType); }
      if args[Description].JText? { StrippedIff(args[Description].text, claim.description); }
    }
  }

  /** In every run with confirmation on, each claim appended was shown as it is: its
      four fields are those of the prompt at j, which the reply at k said yes to. */
  lemma FiledAsShown(cfg: Config, run: seq<Action>, i: nat) returns (args: Args, j: nat, k: nat)
    requires cfg.requireConfirmation && AllowedRun(cfg, run)
    requires i < |Exec(cfg, run).log| && Exec(cfg, run).log[i].Appended?
    ensures var log := Exec(cfg, run).log;
      && j < k < i && log[j] == Displayed(args)
      && log[k].Answered? && SaysYes(log[k].reply)
      && ShownAs(cfg, args, log[i].claim) && InBounds(log[i].claim)
  {
    hide Schema, Exec, AllowedRun, Stated, ShownAs, InBounds;
    args, j, k := WritesAreShownApprovedAndStated(cfg, run, i);
    AcceptsIff(cfg, args, Exec(cfg, run).log[i].claim);
  }

  // ------------------------------------------------- what the checks look for

  /** A text without small letters that `s` is in some capitals, with blanks around. */
  ghost predicate SpelledAs(s: string, big: string) {
    exists i, j :: 0 <= i <= j <= |s| && Blank(s[..i]) && Blank(s[j..]) && SameWord(big, s[i..j])
  }

  predicate NoSmallLetters(big: string) { forall i :: 0 <= i < |big| ==> !IsLowerLetter(big[i]) }

  lemma UpperIff(s: string, big: string)
    requires NoSmallLetters(big)
    ensures Upper(s) == big <==> SameWord(big, s)
  {
    if SameWord(big, s) { assert forall i :: 0 <= i < |s| ==> Upper(s)[i] == big[i]; }
  }

  lemma UpperStripIff(s: string, big: string)
    requires NoSmallLetters(big) && big != "" && !IsSpace(big[0]) && !IsSpace(big[|big| - 1])
    ensures Upper(Strip(s)) == big <==> SpelledAs(s, big)
  {
    hide Strip, Upper;
    var i, j := StripTakesBlanks(s);
    UpperIff(Strip(s), big);
    BlankEnds(s, i, j);
    if SpelledAs(s, big) {
      var k, l :| 0 <= k <= l <= |s| && Blank(s[..k]) && Blank(s[l..]) && SameWord(big, s[k..l]);
      BlankEnds(s, k, l);
      assert s[k..l][0] == s[k] && s[k..l][l - k - 1] == s[l - 1];
      assert i == k && j == l;
    }
  }

  lemma UpperStripIsBlank(s: string)
    ensures Upper(Strip(s)) == "" <==> Blank(s)
  {
    var i, j := StripTakesBlanks(s);
    hide Strip;
    BlankEnds(s, i, j);
  }

  /** The readers of policy numbers give them in capitals, without blanks around. */
  ghost predicate ReadsPolicies(cfg: Config) {
    forall s, n :: n in cfg.policiesIn(s) ==> NoSmallLetters(n) && n != "" && !IsSpace(n[0]) && !IsSpace(n[|n| - 1])
  }

  ghost predicate PolicyGiven(cfg: Config, ms: seq<Message>, text: string) {
    exists i, number :: 0 <= i < |ms| && ms[i].role == Human && number in cfg.policiesIn(ms[i].content) && SpelledAs(text, number)
  }

  /** The whole dollars of an amount, its cents left off on the side of zero. */
  predicate WholeDollars(dollars: int, amount: real) {
    if amount >= 0.0 then dollars as real <= amount < dollars as real + 1.0
    else dollars as real - 1.0 < amount <= dollars as real
  }

  lemma TruncateIff(dollars: int, amount: real)
    ensures dollars == Truncate(amount) <==> WholeDollars(dollars, amount)
  {
  }

  ghost predicate AmountGiven(cfg: Config, ms: seq<Message>, figure: string) {
    exists i, dollars :: 0 <= i < |ms| && ms[i].role == Human && dollars in cfg.amountsIn(ms[i].content)
      && cfg.decimal(figure).Some? && WholeDollars(dollars, cfg.decimal(figure).value)
  }

  /** The policy number and the amount, where the write has them, are the caller's. */
  ghost predicate GivenByCaller(cfg: Config, ms: seq<Message>, pending: Args) {
    && (PolicyNumber in pending && !Blank(Str(pending[PolicyNumber])) ==> PolicyGiven(cfg, ms, Str(pending[PolicyNumber])))
    && (Amount in pending && pending[Amount] != JNull ==> AmountGiven(cfg, ms, Str(pending[Amount])))
  }

  lemma PolicyCheckIff(cfg: Config, ms: seq<Message>, text: string)
    requires ReadsPolicies(cfg)
    ensures SaidPolicy(cfg, ms, Upper(Strip(text))) <==> PolicyGiven(cfg, ms, text)
  {
    hide SpelledAs, Upper, Strip, NoSmallLetters, Blank;
    if SaidPolicy(cfg, ms, Upper(Strip(text))) { UpperStripIff(text, Upper(Strip(text))); }
    if PolicyGiven(cfg, ms, text) {
      var i, number :| 0 <= i < |ms| && ms[i].role == Human && number in cfg.policiesIn(ms[i].content) && SpelledAs(text, number);
      UpperStripIff(text, number);
    }
  }

  lemma AmountCheckIff(cfg: Config, ms: seq<Message>, figure: string)
    ensures AmountGiven(cfg, ms, figure) <==>
      cfg.decimal(figure).Some? && SaidAmount(cfg, ms, Truncate(cfg.decimal(figure).value))
  {
    if cfg.decimal(figure).Some? {
      hide Truncate, WholeDollars;
      var amount := cfg.decimal(figure).value;
      TruncateIff(Truncate(amount), amount);
      if i, dollars :| 0 <= i < |ms| && ms[i].role == Human && dollars in cfg.amountsIn(ms[i].content) && WholeDollars(dollars, amount) {
        TruncateIff(dollars, amount);
      }
    }
  }

  lemma VouchedIff(cfg: Config, ms: seq<Message>, pending: Args)
    requires ReadsPolicies(cfg)
    ensures Vouched(cfg, ms, pending) <==> GivenByCaller(cfg, ms, pending)
  {
    hide Strip, Upper, SaidPolicy, SaidAmount, PolicyGiven, AmountGiven, Truncate, Blank, ReadsPolicies;
    if PolicyNumber in pending {
      UpperStripIsBlank(Str(pending[PolicyNumber]));
      PolicyCheckIff(cfg, ms, Str(pending[PolicyNumber]));
    }
    if Amount in pending { AmountCheckIff(cfg, ms, Str(pending[Amount])); }
  }

  /** A pending write is shown exactly when the caller gave what it says, and what is
      shown is the write as it stands. */
  lemma ShownIff(cfg: Config, t: Thread)
    requires cfg.requireConfirmation && ReadsPolicies(cfg)
    ensures var out := ConfirmNode(cfg, t, None); var pending := if t.pendingWrite == None then map[] else t.pendingWrite.value;
      && (out.paused <==> GivenByCaller(cfg, t.messages, pending))
      && (out.paused ==> out.events == [Displayed(pending)] && out.thread == t)
      && (!out.paused ==> out.events == [] && out.goto == Some(Parse) && out.thread.pendingWrite == None)
  {
    hide Vouched, GivenByCaller;
    VouchedIff(cfg, t.messages, Pending(t));
  }
}
