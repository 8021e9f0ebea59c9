/** What the write gate assumes is what it needs: writes that agree, and no cut
    between a write that could be filed and its prompt
    (backend/agent/app/graph/build.py:86-96, 207-266; worker.py:80-91). */
module GateConditions {
  import opened GraphState
  import opened Options
  import opened GraphNodes
  import opened GraphRun
  import opened GraphScript
  import opened WriteGate
  import Ascii

  // -------------------------------------------------------- writes that agree

  lemma {:induction false} CallFiles(cfg: Config, calls: seq<Call>, results: seq<ToolResult>, acc: ToolRun, k: nat, i: nat)
    requires i < k <= |calls|
    requires SubmitClaim in cfg.tools && calls[i].name == SubmitClaim && Schema(cfg, calls[i].args).Some?
    requires ResultAt(results, i).reached
    ensures Appended(Schema(cfg, calls[i].args).value) in RunCalls(cfg, calls, results, acc, k).events
  {
    hide Schema;
    if i < k - 1 { CallFiles(cfg, calls, results, acc, k - 1, i); }
  }

  lemma {:induction false} FiledByACall(cfg: Config, calls: seq<Call>, results: seq<ToolResult>, acc: ToolRun, k: nat, claim: ClaimArgs)
    requires k <= |calls| && acc.events == []
    requires Appended(claim) in RunCalls(cfg, calls, results, acc, k).events
    ensures exists c :: c in calls && c.name == SubmitClaim && Schema(cfg, c.args) == Some(claim)
  {
    hide Schema;
    if k > 0 {
      var before := RunCalls(cfg, calls, results, acc, k - 1);
      if Appended(claim) in before.events { FiledByACall(cfg, calls, results, acc, k - 1, claim); }
      else { assert calls[k - 1] in calls; }
    }
  }

  /** Whatever the tools answer, this message files only the claim `shown`. */
  ghost predicate FilesOnly(cfg: Config, calls: seq<Call>, shown: Option<ClaimArgs>) {
    forall results, claim ::
      Appended(claim) in RunCalls(cfg, calls, results, NOTHING_RUN, |calls|).events ==> Some(claim) == shown
  }

  /** Exactly when running a message's calls files nothing but the claim its
      first write was shown for: capture reads one write, tools runs them all. */
  lemma OnlyTheShownClaimIsFiled(cfg: Config, calls: seq<Call>)
    requires SubmitClaim in cfg.tools && FirstWrite(calls).Some?
    ensures FilesOnly(cfg, calls, Schema(cfg, FirstWrite(calls).value)) <==> WritesAgree(cfg, calls)
  {
    hide Schema;
    var shown := Schema(cfg, FirstWrite(calls).value);
    if FilesOnly(cfg, calls, shown) {
      forall c | c in calls && c.name == SubmitClaim && Schema(cfg, c.args).Some?
        ensures Schema(cfg, c.args) == shown
      {
        var i :| 0 <= i < |calls| && calls[i] == c;
        var results := seq(|calls|, n => NO_RESULT.(reached := true));
        CallFiles(cfg, calls, results, NOTHING_RUN, |calls|, i);
      }
    }
    if WritesAgree(cfg, calls) {
      forall results, claim | Appended(claim) in RunCalls(cfg, calls, results, NOTHING_RUN, |calls|).events
        ensures Some(claim) == shown
      {
        FiledByACall(cfg, calls, results, NOTHING_RUN, |calls|, claim);
      }
    }
  }

  // ------------------------------------------------- cuts before the prompt

  /** Every allowed way on from here files only what was authorised. */
  ghost predicate SafeFrom(cfg: Config, w: World) {
    forall run :: AllowedFrom(cfg, w, run) ==> EveryWriteAuthorised(cfg, After(cfg, w, run).log)
  }

  /** A message "yes" after the cut, and two nodes: confirm and the tools. */
  function YesRun(n: nat): seq<Action> { [Say("yes", Text, false), Step(SILENT), Step(Filing(n))] }

  lemma YesRunIsAllowed(cfg: Config, w: World, n: nat)
    ensures AllowedFrom(cfg, w, YesRun(n))
  {
    hide After;
  }

  lemma AfterThree(cfg: Config, w: World, run: seq<Action>)
    requires |run| == 3
    ensures After(cfg, w, run) == Next(cfg, Next(cfg, Next(cfg, w, run[0]), run[1]), run[2])
  {
    hide Next;
    assert run[..2][..1] == run[..1] && run[..1][..0] == [];
    assert After(cfg, w, []) == w;
    assert After(cfg, w, run[..1]) == Next(cfg, w, run[0]);
    assert After(cfg, w, run[..2]) == Next(cfg, Next(cfg, w, run[0]), run[1]);
  }

  /** Told "yes" after such a cut, the run goes through confirm to the tools. */
  lemma YesFiles(cfg: Config, w: World, o: Oracle, k: nat, n: nat)
    requires cfg.requireConfirmation && w.at.At? && w.at.node == Confirm && w.thread.next == None
    requires Vouched(cfg, w.thread.messages, Pending(w.thread)) && Pending(w.thread) != map[]
    ensures After(cfg, CutAt(cfg, w, o, k), YesRun(n)).log
      == w.log + CutEffects(cfg, Confirm, w.at.resume, w.thread, o, k)
         + [Answered("yes", true)] + ToolsNode(cfg, w.thread, Filing(n)).events
  {
    hide Vouched, Approves, Next, ToolsNode, LastCalls, After, CutEffects;
    var w0 := CutAt(cfg, w, o, k);
    AfterThree(cfg, w0, YesRun(n));
    CutThenSay(cfg, w, o, k, "yes");
    var w1 := Next(cfg, w0, Say("yes", Text, false));
    YesApproves();
    ApprovalGoesToTools(cfg, w1, "yes", SILENT);
    var w2 := Next(cfg, w1, Step(SILENT));
    ToolsAdvance(cfg, w2, Filing(n));
    SameTools(cfg, w.thread, w2.thread, Filing(n));
  }

  /** Cut in confirm with a write that could be filed, and told "yes", the run
      files it. */
  lemma CutThenYesFiles(cfg: Config, w: World, o: Oracle, k: nat)
    requires Inv(cfg, w) && w.at.At? && w.at.node == Confirm && !Harmless(cfg, w.thread)
    ensures var n := |LastCalls(w.thread)|; var claim := Schema(cfg, Pending(w.thread)).value;
      var events := ToolsNode(cfg, w.thread, Filing(n)).events;
      && Appended(claim) in events
      && (forall e :: e in events ==> !e.Displayed? && !e.Answered?)
      && After(cfg, CutAt(cfg, w, o, k), YesRun(n)).log
           == w.log + CutEffects(cfg, Confirm, w.at.resume, w.thread, o, k) + [Answered("yes", true)] + events
  {
    hide Schema, Vouched, Approves, Next, ToolsNode, LastCalls, After, EveryWriteAuthorised;
    var n := |LastCalls(w.thread)|;
    AcceptedMeans(cfg, Pending(w.thread));
    YesFiles(cfg, w, o, k, n);
    FirstIsFiled(cfg, w, n);
  }

  lemma SameTools(cfg: Config, t: Thread, t1: Thread, o: Oracle)
    requires t1.messages == t.messages
    ensures ToolsNode(cfg, t1, o).events == ToolsNode(cfg, t, o).events
  {
    var calls := LastCalls(t);
    SameEvents(cfg, calls, o.results, ToolRun([], t.invocations, t.retrieved, []), ToolRun([], t1.invocations, t1.retrieved, []), |calls|);
  }

  lemma {:induction false} SameEvents(cfg: Config, calls: seq<Call>, results: seq<ToolResult>, a: ToolRun, b: ToolRun, k: nat)
    requires k <= |calls| && a.events == b.events
    ensures RunCalls(cfg, calls, results, a, k).events == RunCalls(cfg, calls, results, b, k).events
  {
    hide Schema, Evidence;
    if k > 0 { SameEvents(cfg, calls, results, a, b, k - 1); }
  }

  lemma FirstIsFiled(cfg: Config, w: World, n: nat)
    requires Inv(cfg, w) && w.at.At? && w.at.node == Confirm && !Harmless(cfg, w.thread) && n == |LastCalls(w.thread)|
    ensures var events := ToolsNode(cfg, w.thread, Filing(n)).events;
      && Appended(Schema(cfg, Pending(w.thread)).value) in events
      && (forall e :: e in events ==> !e.Displayed? && !e.Answered?)
  {
    hide Schema, Vouched, RunCalls, EveryWriteAuthorised;
    var calls := LastCalls(w.thread);
    var acc := ToolRun([], w.thread.invocations, w.thread.retrieved, []);
    var i := FirstWriteIsACall(calls);
    CallFiles(cfg, calls, Filing(n).results, acc, n, i);
    ToolEvents(cfg, calls, Filing(n).results, acc, n);
  }

  lemma {:induction false} FirstWriteIsACall(calls: seq<Call>) returns (i: nat)
    requires FirstWrite(calls).Some?
    ensures i < |calls| && calls[i] == Call(SubmitClaim, FirstWrite(calls).value)
  {
    if calls[0].name == SubmitClaim {
      i := 0;
    } else {
      i := FirstWriteIsACall(calls[1..]);
      i := i + 1;
    }
  }

  /** Exactly when a run may be cut before its prompt: whatever follows is
      authorised if and only if the write is not vouched for, is refused by the
      schema, or has no tool to file it. */
  lemma CutIsSafeIff(cfg: Config, w: World, o: Oracle, k: nat)
    requires Inv(cfg, w) && w.at == At(Confirm, None)
    ensures SafeFrom(cfg, CutAt(cfg, w, o, k)) <==> Harmless(cfg, w.thread)
  {
    hide Inv, Harmless, CutAt, AllowedFrom, After, EveryWriteAuthorised, ToolsNode, LastCalls, Schema, Vouched;
    var w0 := CutAt(cfg, w, o, k);
    if Harmless(cfg, w.thread) {
      CutKeeps(cfg, w, o, k);
      forall run | AllowedFrom(cfg, w0, run) ensures EveryWriteAuthorised(cfg, After(cfg, w0, run).log) {
        RunKeeps(cfg, w0, run);
        InvMeansAuthorised(cfg, After(cfg, w0, run));
      }
    } else {
      var n := |LastCalls(w.thread)|;
      HarmfulIsAccepted(cfg, w.thread);
      CutThenYesFiles(cfg, w, o, k);
      assert w.log + [] == w.log;
      YesRunIsAllowed(cfg, w0, n);
      UnshownIsUnauthorised(cfg, w, ToolsNode(cfg, w.thread, Filing(n)).events, Schema(cfg, Pending(w.thread)).value);
    }
  }

  lemma HarmfulIsAccepted(cfg: Config, t: Thread)
    requires !Harmless(cfg, t)
    ensures Schema(cfg, Pending(t)).Some?
  {
  }

  lemma InvMeansAuthorised(cfg: Config, w: World)
    requires Inv(cfg, w)
    ensures EveryWriteAuthorised(cfg, w.log)
  {
  }

  lemma UnshownIsUnauthorised(cfg: Config, w: World, events: seq<Event>, claim: ClaimArgs)
    requires Inv(cfg, w) && w.at == At(Confirm, None)
    requires Appended(claim) in events && forall e :: e in events ==> !Settles(e)
    ensures !EveryWriteAuthorised(cfg, w.log + [Answered("yes", true)] + events)
  {
    hide Schema, Vouched, Approves;
    var log := w.log + [Answered("yes", true)];
    assert log[..|w.log|] == w.log;
    assert LastPrompt(log) == NoPrompt;
    var i :| 0 <= i < |events| && events[i] == Appended(claim);
    QuietTail(log, events[..i]);
    assert (log + events)[..|log| + i] == log + events[..i];
    assert (log + events)[|log| + i] == Appended(claim);
  }

  // ----------------------------------------------------------- a run of it

  /** A first message and a write for which nothing stands in the way. */
  ghost predicate Fileable(cfg: Config, said: string, args: Args, claim: ClaimArgs) {
    && cfg.requireConfirmation && SubmitClaim in cfg.tools && cfg.maxIterations > 0 && !cfg.screened(said)
    && Schema(cfg, args) == Some(claim)
    && claim.policy in cfg.policiesIn(said) && Truncate(claim.amount) in cfg.amountsIn(said)
  }

  lemma FirstMessageVouches(cfg: Config, said: string, args: Args, claim: ClaimArgs, ms: seq<Message>)
    requires Fileable(cfg, said, args, claim) && ms != [] && ms[0].role == Human && ms[0].content == said
    ensures Vouched(cfg, ms, args)
  {
    hide Schema, ClaimedPolicy, ClaimedAmount, Str, Truncate;
    AcceptedMeans(cfg, args);
  }

  /** The write proposed in a first turn, before its prompt. */
  lemma FirstProposal(cfg: Config, said: string, args: Args, claim: ClaimArgs) returns (w: World)
    requires Fileable(cfg, said, args, claim)
    ensures w == After(cfg, START, Open(said) + Propose(args))
    ensures w.at == At(Confirm, None) && w.thread.next == None && w.log == [Heard(said), Guarded, ModelCalled(true)]
    ensures Pending(w.thread) == args && LastCalls(w.thread) == [Call(SubmitClaim, args)]
    ensures Vouched(cfg, w.thread.messages, args)
  {
    hide Schema, Vouched, After, Fileable, LastCalls;
    FileableMeans(cfg, said, args, claim);
    OpenLeads(cfg, START, said);
    var w0 := After(cfg, START, Open(said));
    assert [] + [Heard(said), Guarded] == [Heard(said), Guarded];
    ProposeLeads(cfg, w0, args);
    AfterJoins(cfg, START, Open(said), Propose(args));
    w := After(cfg, w0, Propose(args));
    assert [Heard(said), Guarded] + [ModelCalled(true)] == [Heard(said), Guarded, ModelCalled(true)];
    FirstMessageVouches(cfg, said, args, claim, w.thread.messages);
  }

  lemma FileableMeans(cfg: Config, said: string, args: Args, claim: ClaimArgs)
    requires Fileable(cfg, said, args, claim)
    ensures cfg.requireConfirmation && SubmitClaim in cfg.tools && cfg.maxIterations > 0 && !cfg.screened(said)
    ensures Schema(cfg, args) == Some(claim) && args != map[]
  {
    hide Schema;
    AcceptedMeans(cfg, args);
  }

  /** The only call files: the claim, and the record of the run. */
  lemma OneWriteRuns(cfg: Config, t: Thread, args: Args)
    requires SubmitClaim in cfg.tools && LastCalls(t) == [Call(SubmitClaim, args)] && Schema(cfg, args).Some?
    ensures ToolsNode(cfg, t, Filing(1)).events
      == [Appended(Schema(cfg, args).value), Ran(Invocation(SubmitClaim, args, true), true)]
  {
    hide Schema;
    var result := Filing(1).results[0];
    var acc := ToolRun([], t.invocations, t.retrieved, []);
    var call := Call(SubmitClaim, args);
    assert RunCalls(cfg, [call], Filing(1).results, acc, 0) == acc;
    assert RunCalls(cfg, [call], Filing(1).results, acc, 1) == RunCall(cfg, call, result, acc);
  }

  function UnshownRun(said: string, args: Args): seq<Action> {
    Open(said) + Propose(args) + ([Cut(SILENT, 0)] + YesRun(1))
  }

  /** From the very start: said, proposed, cut, and "yes" to a question never put.
      The claim is filed and the log holds no prompt. */
  lemma UnshownWrite(cfg: Config, said: string, args: Args, claim: ClaimArgs)
    requires Fileable(cfg, said, args, claim)
    ensures Exec(cfg, UnshownRun(said, args)).log == [
      Heard(said), Guarded, ModelCalled(true), Answered("yes", true), Appended(claim),
      Ran(Invocation(SubmitClaim, args, true), true)]
  {
    hide Schema, Vouched, Approves, After, Next, Fileable, ToolsNode, LastCalls;
    FileableMeans(cfg, said, args, claim);
    var w := FirstProposal(cfg, said, args, claim);
    var w0 := CutAt(cfg, w, SILENT, 0);
    AfterOne(cfg, w, Cut(SILENT, 0));
    CutIsAStep(cfg, w, SILENT, 0);
    AfterJoins(cfg, w, [Cut(SILENT, 0)], YesRun(1));
    AfterJoins(cfg, START, Open(said) + Propose(args), [Cut(SILENT, 0)] + YesRun(1));
    ExecIsAfter(cfg, UnshownRun(said, args));
    YesFiles(cfg, w, SILENT, 0, 1);
    assert w.log + [] == w.log;
    SameCalls(cfg, w, args);
    OneWriteRuns(cfg, w.thread, args);
  }

  lemma SameCalls(cfg: Config, w: World, args: Args)
    requires LastCalls(w.thread) == [Call(SubmitClaim, args)]
    ensures |LastCalls(w.thread)| == 1
  {
  }

  const POLICY := "POL-1092"
  const KIND := "Water Damage"
  const WHY := "A pipe burst."

  function WriteOf(policy: string, kind: string, amount: string, why: string): Args {
    map[PolicyNumber := JText(policy), ClaimType := JText(kind), Amount := JNumber(amount), Description := JText(why)]
  }

  /** Text without blanks at its ends. */
  predicate Bare(s: string) { s != "" && !Ascii.IsSpace(s[0]) && !Ascii.IsSpace(s[|s| - 1]) }

  lemma TextsFit()
    ensures PolicyShaped(POLICY) && Bare(POLICY)
    ensures IsClaimType(KIND) && Bare(KIND)
    ensures 10 <= |WHY| <= 1000 && Bare(WHY)
  {
    assert POLICY[..4] == "POL-";
  }

  lemma SchemaTakes(cfg: Config, policy: string, kind: string, amount: string, why: string, dollars: real)
    requires PolicyShaped(policy) && IsClaimType(kind) && 10 <= |why| <= 1000
    requires Bare(policy) && Bare(kind) && Bare(why)
    requires cfg.decimal(amount) == Some(dollars) && 0.0 < dollars <= 1000000.0 && InCents(dollars)
    ensures Schema(cfg, WriteOf(policy, kind, amount, why)) == Some(ClaimArgs(policy, kind, dollars, why))
  {
    hide Ascii.Strip, PolicyShaped, IsClaimType, InCents;
    Ascii.NothingToStrip(policy);
    Ascii.NothingToStrip(kind);
    Ascii.NothingToStrip(why);
    assert WriteOf(policy, kind, amount, why).Keys == {PolicyNumber, ClaimType, Amount, Description};
  }

  /** There is such a graph, message and write. */
  lemma SomethingIsFileable() returns (cfg: Config, said: string, args: Args, claim: ClaimArgs)
    ensures Fileable(cfg, said, args, claim)
  {
    hide Schema, POLICY, KIND, WHY, WriteOf, Bare, PolicyShaped, IsClaimType;
    cfg := Config(true, 1, {SubmitClaim}, s => false, s => None, (a, b) => b, s => {POLICY}, s => {1200},
                  s => Some(1200.0), s => s, (s, t) => s, (s, c) => s, (s, c) => false, s => {});
    said, args, claim := "", WriteOf(POLICY, KIND, "1200", WHY), ClaimArgs(POLICY, KIND, 1200.0, WHY);
    TextsFit();
    SchemaTakes(cfg, POLICY, KIND, "1200", WHY, 1200.0);
  }
}
