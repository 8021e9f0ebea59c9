/** One approval, one claim: what the write gate and the idempotency store keep
    together, and neither alone (backend/agent/app/graph/nodes.py:384-489;
    build.py:86-183, 207-267; backend/agent/app/tools/claims.py:215-271). */
module Approvals {
  import opened GraphState
  import opened Options
  import opened GraphNodes
  import opened GraphRun
  import opened GraphScript
  import opened WriteGate
  import opened GateConditions
  import ClaimsFile
  import Store = InterleavedClaims

  predicate Approval(e: Event) { e.Answered? && e.taken && Approves(e.reply) }

  function ApprovalsIn(log: seq<Event>): nat {
    if log == [] then 0
    else ApprovalsIn(log[..|log| - 1]) + (if Approval(log[|log| - 1]) then 1 else 0)
  }

  function AppendsIn(log: seq<Event>): nat {
    if log == [] then 0
    else AppendsIn(log[..|log| - 1]) + (if log[|log| - 1].Appended? then 1 else 0)
  }

  /** The appends of this conversation are among those the store went through:
      the one at i filed the claim at `place(i)`. Others may have filed too. */
  ghost predicate Recorded(log: seq<Event>, seed: seq<ClaimsFile.Claim>, s: Store.State, place: nat -> nat) {
    && (forall i: nat :: i < |log| && log[i].Appended? ==>
          |seed| <= place(i) < |s.claims| && s.claims[place(i)].args == log[i].claim)
    && (forall i: nat, j: nat :: i < j < |log| && log[i].Appended? && log[j].Appended? ==> place(i) != place(j))
  }

  /** No claim is appended twice, and the later of two was approved after the
      earlier was filed. */
  ghost predicate ApprovedApart(log: seq<Event>) {
    forall i, j :: 0 <= i < j < |log| && log[i].Appended? && log[j].Appended? ==>
      log[i].claim != log[j].claim && exists m :: i < m < j && Approval(log[m])
  }

  /** A consent that an append in between did not use up is the same consent. */
  lemma SameConsent(log: seq<Event>, i: nat, j: nat, args: Args, shown: nat, given: nat, args1: Args, shown1: nat, given1: nat)
    requires i < j < |log| && log[i].Appended?
    requires Consent(log[..i], args, shown, given) && Consent(log[..j], args1, shown1, given1)
    ensures given1 < j && Approval(log[given1])
    ensures given1 <= i ==> args == args1
  {
    hide Approves;
    assert log[..i][given] == log[given] && log[..i][shown] == log[shown];
    assert log[..j][given] == log[given] && log[..j][shown] == log[shown];
    assert log[..j][given1] == log[given1] && log[..j][shown1] == log[shown1];
  }

  /** The gate, over a store that files nothing twice. */
  lemma OneApprovalOneAppend(cfg: Config, run: seq<Action>, seed: seq<ClaimsFile.Claim>, calls: seq<Store.Action>, place: nat -> nat)
    requires cfg.requireConfirmation && AllowedRun(cfg, run)
    requires Store.GuardedFrom(Store.Exec(seed, []), calls)
    requires Recorded(Exec(cfg, run).log, seed, Store.Exec(seed, calls), place)
    ensures ApprovedApart(Exec(cfg, run).log)
    ensures AppendsIn(Exec(cfg, run).log) <= ApprovalsIn(Exec(cfg, run).log)
  {
    hide Exec, AllowedRun, Approves, Schema, Consent, Stated, Store.Exec, Store.GuardedFrom;
    var log, s := Exec(cfg, run).log, Store.Exec(seed, calls);
    Store.GuardedRunsFileOnce(seed, calls);
    forall i, j | 0 <= i < j < |log| && log[i].Appended? && log[j].Appended?
      ensures log[i].claim != log[j].claim && exists m :: i < m < j && Approval(log[m])
    {
      assert s.claims[place(i)].args != s.claims[place(j)].args;
      var args, shown, given := WritesAreShownApprovedAndStated(cfg, run, i);
      var args1, shown1, given1 := WritesAreShownApprovedAndStated(cfg, run, j);
      SameConsent(log, i, j, args, shown, given, args1, shown1, given1);
      assert i < given1 < j;
    }
    forall i | 0 <= i < |log| && log[i].Appended? ensures ApprovedBefore(log, i) {
      var args, shown, given := WritesAreShownApprovedAndStated(cfg, run, i);
      ConsentIsApproval(log[..i], args, shown, given);
      assert Approval(log[given]);
    }
    ApartMeansBacked(log);
    BackedMeansFewer(log);
  }

  predicate ApprovedBefore(log: seq<Event>, i: int) { exists k :: 0 <= k < i < |log| && Approval(log[k]) }

  lemma ConsentIsApproval(log: seq<Event>, args: Args, shown: nat, given: nat)
    requires Consent(log, args, shown, given)
    ensures given < |log| && Approval(log[given])
  {
    hide Approves;
  }

  lemma {:induction false} NoAppendsSince(log: seq<Event>, n: nat)
    requires n <= |log| && forall i :: n <= i < |log| ==> !log[i].Appended?
    ensures AppendsIn(log) == AppendsIn(log[..n])
  {
    if n == |log| {
      assert log[..n] == log;
    } else {
      NoAppendsSince(log[..|log| - 1], n);
      assert log[..|log| - 1][..n] == log[..n];
    }
  }

  lemma {:induction false} ApprovalsGrow(log: seq<Event>, n: nat)
    requires n <= |log|
    ensures ApprovalsIn(log[..n]) <= ApprovalsIn(log)
  {
    hide Approves;
    if n == |log| {
      assert log[..n] == log;
    } else {
      ApprovalsGrow(log[..|log| - 1], n);
      assert log[..|log| - 1][..n] == log[..n];
    }
  }

  /** An approval before i, with no append since. */
  predicate Fresh(log: seq<Event>, i: nat, k: nat)
    requires i <= |log|
  {
    k < i && Approval(log[k]) && forall m :: k < m < i ==> !log[m].Appended?
  }

  ghost predicate Backed(log: seq<Event>) {
    forall i: nat :: i < |log| && log[i].Appended? ==> exists k: nat :: Fresh(log, i, k)
  }

  lemma {:induction false} FreshApproval(log: seq<Event>, i: nat, n: nat) returns (k: nat)
    requires n <= i <= |log| && exists k :: 0 <= k < n && Approval(log[k])
    requires forall m :: n <= m < i ==> !log[m].Appended?
    requires forall m :: 0 <= m < i && log[m].Appended? ==> exists l :: m < l < i && Approval(log[l])
    requires forall l :: n <= l < i ==> !Approval(log[l])
    ensures Fresh(log, i, k)
  {
    hide Approval;
    if Approval(log[n - 1]) {
      k := n - 1;
      assert forall m :: k < m < i ==> !log[m].Appended?;
    } else {
      k := FreshApproval(log, i, n - 1);
    }
  }

  lemma ApartMeansBacked(log: seq<Event>)
    requires ApprovedApart(log)
    requires forall i :: 0 <= i < |log| && log[i].Appended? ==> ApprovedBefore(log, i)
    ensures Backed(log)
  {
    hide Approval;
    forall i: nat | i < |log| && log[i].Appended? ensures exists k: nat :: Fresh(log, i, k) {
      assert ApprovedBefore(log, i);
      var k := FreshApproval(log, i, i);
    }
  }

  lemma {:induction false} BackedMeansFewer(log: seq<Event>)
    requires Backed(log)
    ensures AppendsIn(log) <= ApprovalsIn(log)
  {
    hide Approves;
    if log != [] {
      var front, n := log[..|log| - 1], |log| - 1;
      BackedPrefix(log, n);
      BackedMeansFewer(front);
      if log[n].Appended? {
        var k: nat :| Fresh(log, n, k);
        NoAppendsSince(front, k + 1);
        ApprovalsGrow(front, k + 1);
        BackedPrefix(log, k);
        BackedMeansFewer(log[..k]);
        assert front[..k + 1][..k] == log[..k];
      }
    }
  }

  lemma BackedPrefix(log: seq<Event>, n: nat)
    requires n <= |log| && Backed(log)
    ensures Backed(log[..n])
  {
    hide Approval;
    forall i: nat | i < n && log[i].Appended? ensures exists k: nat :: Fresh(log[..n], i, k) {
      var k: nat :| Fresh(log, i, k);
      assert Fresh(log[..n], i, k);
    }
  }

  // ------------------------------------------------- two appends, one approval

  /** Proposed, shown, approved. */
  function ApprovedRun(said: string, args: Args): seq<Action> {
    (Open(said) + Propose(args)) + ([Step(SILENT), Say("yes", Text, false)] + [Step(SILENT)])
  }

  /** The tools are cut once the claim is appended; any message resumes them. */
  function TwiceRun(said: string, args: Args): seq<Action> {
    ApprovedRun(said, args) + ([Cut(Filing(1), 0)] + [Say("hello?", Text, false), Step(Filing(1))])
  }

  lemma ApprovedLeads(cfg: Config, said: string, args: Args, claim: ClaimArgs)
    requires Fileable(cfg, said, args, claim)
    ensures var w := After(cfg, START, ApprovedRun(said, args));
      && w.at == At(Tools, None) && w.thread.next == None && LastCalls(w.thread) == [Call(SubmitClaim, args)]
      && w.log == [Heard(said), Guarded, ModelCalled(true), Displayed(args), Answered("yes", true)]
  {
    hide After, Next, Fileable, Schema, Vouched, Approves, LastCalls;
    FileableMeans(cfg, said, args, claim);
    var w := FirstProposal(cfg, said, args, claim);
    PromptGoesUp(cfg, w);
    var w1 := Next(cfg, w, Step(SILENT));
    MessageResumes(cfg, w1, Confirm, "yes");
    var w2 := Next(cfg, w1, Say("yes", Text, false));
    YesApproves();
    ApprovalGoesToTools(cfg, w2, "yes", SILENT);
    SameLastCalls(w.thread, Next(cfg, w2, Step(SILENT)).thread);
    AfterTwo(cfg, w, Step(SILENT), Say("yes", Text, false));
    AfterOne(cfg, w2, Step(SILENT));
    AfterJoins(cfg, w, [Step(SILENT), Say("yes", Text, false)], [Step(SILENT)]);
    AfterJoins(cfg, START, Open(said) + Propose(args), [Step(SILENT), Say("yes", Text, false)] + [Step(SILENT)]);
    assert [Heard(said), Guarded, ModelCalled(true)] + [Displayed(args)] + [Answered("yes", true)]
        == [Heard(said), Guarded, ModelCalled(true), Displayed(args), Answered("yes", true)];
  }

  lemma SameLastCalls(t: Thread, t1: Thread)
    requires t1.messages == t.messages
    ensures LastCalls(t1) == LastCalls(t)
  {
  }

  /** A tools node cut while its only call is out, past the append. */
  lemma CutFiles(cfg: Config, t: Thread, args: Args)
    requires SubmitClaim in cfg.tools && LastCalls(t) == [Call(SubmitClaim, args)] && Schema(cfg, args).Some?
    ensures CutEffects(cfg, Tools, None, t, Filing(1), 0) == [Appended(Schema(cfg, args).value)]
  {
    hide Schema;
    assert CutCalls(cfg, LastCalls(t), Filing(1).results, 0) == [] + [Appended(Schema(cfg, args).value)];
  }

  /** Without the store, one approval leads to two appends of its claim, in a run
      the gate allows. */
  lemma TwoAppendsOnOneApproval(cfg: Config, said: string, args: Args, claim: ClaimArgs)
    requires Fileable(cfg, said, args, claim)
    ensures AllowedRun(cfg, TwiceRun(said, args))
    ensures Exec(cfg, TwiceRun(said, args)).log == [
      Heard(said), Guarded, ModelCalled(true), Displayed(args), Answered("yes", true), Appended(claim), Appended(claim),
      Ran(Invocation(SubmitClaim, args, true), true)]
  {
    hide After, Next, Fileable, Schema, Vouched, Approves, LastCalls, CutEffects, ToolsNode, AllowedRun, ApprovedRun;
    FileableMeans(cfg, said, args, claim);
    ApprovedLeads(cfg, said, args, claim);
    var w := After(cfg, START, ApprovedRun(said, args));
    TwiceIsAllowed(cfg, said, args);
    CutIsAStep(cfg, w, Filing(1), 0);
    CutFiles(cfg, w.thread, args);
    var w1 := Next(cfg, w, Cut(Filing(1), 0));
    MessageResumes(cfg, w1, Tools, "hello?");
    var w2 := Next(cfg, w1, Say("hello?", Text, false));
    ToolsAdvance(cfg, w2, Filing(1));
    SameLastCalls(w.thread, w2.thread);
    OneWriteRuns(cfg, w2.thread, args);
    AfterOne(cfg, w, Cut(Filing(1), 0));
    AfterTwo(cfg, w1, Say("hello?", Text, false), Step(Filing(1)));
    AfterJoins(cfg, w, [Cut(Filing(1), 0)], [Say("hello?", Text, false), Step(Filing(1))]);
    AfterJoins(cfg, START, ApprovedRun(said, args), [Cut(Filing(1), 0)] + [Say("hello?", Text, false), Step(Filing(1))]);
    ExecIsAfter(cfg, TwiceRun(said, args));
  }

  lemma TwiceIsAllowed(cfg: Config, said: string, args: Args)
    requires After(cfg, START, ApprovedRun(said, args)).at == At(Tools, None)
    ensures AllowedRun(cfg, TwiceRun(said, args))
  {
    hide After, Harmless, Schema;
    var run := TwiceRun(said, args);
    OneWriteAgrees(cfg, args);
    forall i | 0 <= i < |run| ensures Allowed(cfg, After(cfg, START, run[..i]), run[i]) {
      if i == |ApprovedRun(said, args)| { assert run[..i] == ApprovedRun(said, args); }
    }
  }

  lemma OneWriteAgrees(cfg: Config, args: Args)
    ensures WritesAgree(cfg, [Call(SubmitClaim, args)])
  {
    hide Schema;
  }
}
