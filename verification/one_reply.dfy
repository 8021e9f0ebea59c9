/** One prompt, one reply: a reply that a cut takes from confirm was given, and
    the next message is taken as another to the same prompt
    (backend/agent/app/graph/nodes.py:455-487; backend/agent/app/worker.py:80-107). */
module OneReply {
  import opened GraphState
  import opened Options
  import opened GraphNodes
  import opened GraphRun
  import opened GraphScript
  import opened WriteGate
  import opened GateConditions
  import Approvals

  /** The replies lost to cuts since a prompt last went up. */
  function LostReplies(log: seq<Event>): seq<string> {
    if log == [] then []
    else match log[|log| - 1]
      case Displayed(_) => []
      case Answered(reply, taken) => LostReplies(log[..|log| - 1]) + (if taken then [] else [reply])
      case _ => LostReplies(log[..|log| - 1])
  }

  /** No claim was appended on a prompt to which a reply was lost. */
  ghost predicate EveryWriteOneReply(log: seq<Event>) {
    forall i :: 0 <= i < |log| && log[i].Appended? ==> LostReplies(log[..i]) == []
  }

  /** Nothing that running these calls would append. */
  ghost predicate Fileless(cfg: Config, calls: seq<Call>) {
    SubmitClaim in cfg.tools ==> forall c :: c in calls && c.name == SubmitClaim ==> Schema(cfg, c.args) == None
  }

  /** Where a reply was lost, nothing can be filed before the next prompt. */
  ghost predicate Spotless(cfg: Config, w: World) {
    && EveryWriteOneReply(w.log)
    && (LostReplies(w.log) == []
        || match Standing(w)
           case Some(Confirm) => w.at == At(Confirm, None) || Harmless(cfg, w.thread)
           case Some(Tools) => Fileless(cfg, LastCalls(w.thread))
           case _ => true)
  }

  // ------------------------------------------------------------- log facts

  predicate Silent(e: Event) { !e.Displayed? && !e.Answered? }

  lemma LastLost(log: seq<Event>, e: Event)
    ensures LostReplies(log + [e]) == (match e
      case Displayed(_) => []
      case Answered(reply, taken) => LostReplies(log) + (if taken then [] else [reply])
      case _ => LostReplies(log))
  {
    assert (log + [e])[..|log|] == log;
  }

  lemma {:induction false} SilenceLosesNothing(log: seq<Event>, more: seq<Event>)
    requires forall e :: e in more ==> Silent(e)
    ensures LostReplies(log + more) == LostReplies(log)
  {
    if more == [] {
      assert log + more == log;
    } else {
      var front, last := more[..|more| - 1], more[|more| - 1];
      assert last in more;
      assert forall e :: e in front ==> e in more;
      SilenceLosesNothing(log, front);
      LastLost(log + front, last);
      assert log + more == (log + front) + [last];
    }
  }

  lemma NothingAppended(log: seq<Event>, more: seq<Event>)
    requires EveryWriteOneReply(log) && forall e :: e in more ==> !e.Appended?
    ensures EveryWriteOneReply(log + more)
  {
    hide LostReplies;
    forall i | 0 <= i < |log + more| && (log + more)[i].Appended? ensures LostReplies((log + more)[..i]) == [] {
      assert (log + more)[..i] == log[..i];
    }
  }

  lemma AppendedCleanly(log: seq<Event>, more: seq<Event>)
    requires EveryWriteOneReply(log) && LostReplies(log) == [] && forall e :: e in more ==> Silent(e)
    ensures EveryWriteOneReply(log + more)
  {
    hide LostReplies;
    var all := log + more;
    forall i | 0 <= i < |all| && all[i].Appended? ensures LostReplies(all[..i]) == [] {
      if i < |log| {
        assert all[..i] == log[..i];
      } else {
        assert all[..i] == log + more[..i - |log|];
        SilenceLosesNothing(log, more[..i - |log|]);
      }
    }
  }

  // ------------------------------------------------------------ node by node

  /** Nodes that neither prompt, take a reply nor append. */
  lemma SilentStep(cfg: Config, w: World, more: seq<Event>)
    requires EveryWriteOneReply(w.log) && forall e :: e in more ==> Silent(e) && !e.Appended?
    ensures EveryWriteOneReply(w.log + more) && LostReplies(w.log + more) == LostReplies(w.log)
  {
    SilenceLosesNothing(w.log, more);
    NothingAppended(w.log, more);
  }

  lemma GuardStaysSpotless(cfg: Config, w: World, o: Oracle)
    requires Spotless(cfg, w) && w.at.At? && w.at.node == Guard
    ensures Spotless(cfg, Advance(cfg, w, o))
  {
    hide LostReplies, EveryWriteOneReply, AgentNode, CaptureNode, ConfirmNode, ToolsNode, ReadbackNode, ParseNode,
      GroundNode, FormatNode, Harmless, Fileless;
    SilentStep(cfg, w, GuardNode(cfg, w.thread).events);
  }

  lemma AgentStaysSpotless(cfg: Config, w: World, o: Oracle)
    requires Inv(cfg, w) && Spotless(cfg, w) && w.at.At? && w.at.node == Agent
    ensures Spotless(cfg, Advance(cfg, w, o))
  {
    hide LostReplies, EveryWriteOneReply, Inv, Harmless, Schema, AgentNode, GuardNode, CaptureNode, ConfirmNode,
      ToolsNode, ReadbackNode, ParseNode, GroundNode, FormatNode, LastCalls;
    InvMeansOrder(cfg, w);
    AgentShape(cfg, w.thread, o);
    SilentStep(cfg, w, AgentNode(cfg, w.thread, o).events);
  }

  lemma InvMeansOrder(cfg: Config, w: World)
    requires Inv(cfg, w)
    ensures IdsInOrder(w.thread) && (w.at.At? ==> w.thread.next == None) && cfg.requireConfirmation
  {
  }

  lemma CaptureStaysSpotless(cfg: Config, w: World, o: Oracle)
    requires Spotless(cfg, w) && w.at.At? && w.at.node == Capture
    ensures Spotless(cfg, Advance(cfg, w, o))
  {
    hide LostReplies, EveryWriteOneReply, AgentNode, GuardNode, ConfirmNode, ToolsNode, ReadbackNode, ParseNode,
      GroundNode, FormatNode, Harmless, Fileless, FirstWrite;
    SilentStep(cfg, w, CaptureNode(w.thread, o).events);
  }

  lemma TailStaysSpotless(cfg: Config, w: World, o: Oracle)
    requires Inv(cfg, w) && Spotless(cfg, w) && w.at.At? && InTail(w.at.node)
    ensures Spotless(cfg, Advance(cfg, w, o))
  {
    hide LostReplies, EveryWriteOneReply, Inv, Harmless, Fileless, RunNode;
    InvMeansOrder(cfg, w);
    TailRewritesOne(cfg, w.at.node, w.at.resume, w.thread, o);
    TailGoesOn(cfg, w.at.node, w.at.resume, w.thread, o);
    SilentStep(cfg, w, []);
  }

  /** Confirm puts a prompt up, hands a write it was given a reply for to the
      tools, or ends the turn. */
  lemma ConfirmShapes(cfg: Config, t: Thread, resume: Option<string>)
    requires cfg.requireConfirmation
    ensures var out := ConfirmNode(cfg, t, resume);
      && (out.paused ==> out.events == [Displayed(Pending(t))])
      && (!out.paused ==> out.events == [] || (resume.Some? && out.events == [Answered(resume.value, true)]))
      && (out.goto == Some(Tools) ==> resume.Some? && Vouched(cfg, t.messages, Pending(t)) && LastCalls(out.thread) == LastCalls(t))
      && (!out.paused && out.goto != Some(Tools) ==> out.goto == Some(Parse))
  {
    hide Approves, Vouched;
  }

  lemma ConfirmStaysSpotless(cfg: Config, w: World, o: Oracle)
    requires Inv(cfg, w) && Spotless(cfg, w) && w.at.At? && w.at.node == Confirm
    ensures Spotless(cfg, Advance(cfg, w, o))
  {
    hide LostReplies, EveryWriteOneReply, Inv, Harmless, Fileless, Vouched, ConfirmNode, GuardNode, AgentNode, CaptureNode,
      ToolsNode, ReadbackNode, ParseNode, GroundNode, FormatNode, LastCalls;
    InvMeansOrder(cfg, w);
    ConfirmShapes(cfg, w.thread, w.at.resume);
    var out := ConfirmNode(cfg, w.thread, w.at.resume);
    NothingAppended(w.log, out.events);
    if out.events == [] { assert w.log + [] == w.log; } else { LastLost(w.log, out.events[0]); }
    if out.goto == Some(Tools) && Harmless(cfg, w.thread) { HarmlessIsFileless(cfg, w); }
  }

  lemma HarmlessIsFileless(cfg: Config, w: World)
    requires Inv(cfg, w) && w.at.At? && w.at.node == Confirm
    requires Harmless(cfg, w.thread) && Vouched(cfg, w.thread.messages, Pending(w.thread))
    ensures Fileless(cfg, LastCalls(w.thread))
  {
    hide Schema, Vouched, EveryWriteAuthorised, LastPrompt;
  }

  lemma {:induction false} FilelessFilesNothing(cfg: Config, calls: seq<Call>, events: seq<Event>)
    requires Fileless(cfg, calls) && forall e :: e in events ==> ByTheCalls(cfg, calls, e)
    ensures forall e :: e in events ==> Silent(e) && !e.Appended?
  {
    hide Schema;
  }

  /** What the calls leave in the log keeps every write to one reply. */
  lemma CallsStaySpotless(cfg: Config, log: seq<Event>, calls: seq<Call>, events: seq<Event>)
    requires EveryWriteOneReply(log) && (LostReplies(log) == [] || Fileless(cfg, calls))
    requires forall e :: e in events ==> ByTheCalls(cfg, calls, e)
    ensures EveryWriteOneReply(log + events) && LostReplies(log + events) == LostReplies(log)
  {
    hide LostReplies, EveryWriteOneReply, Fileless, Schema;
    SilenceLosesNothing(log, events);
    if LostReplies(log) == [] {
      AppendedCleanly(log, events);
    } else {
      FilelessFilesNothing(cfg, calls, events);
      NothingAppended(log, events);
    }
  }

  lemma ToolsStaySpotless(cfg: Config, w: World, o: Oracle)
    requires Spotless(cfg, w) && w.at.At? && w.at.node == Tools
    ensures Spotless(cfg, Advance(cfg, w, o))
  {
    hide LostReplies, EveryWriteOneReply, Fileless, Harmless, ByTheCalls, RunCalls, AgentNode, CaptureNode, GuardNode,
      ConfirmNode, ReadbackNode, ParseNode, GroundNode, FormatNode, LastCalls;
    var calls := LastCalls(w.thread);
    var acc := ToolRun([], w.thread.invocations, w.thread.retrieved, []);
    ToolEvents(cfg, calls, o.results, acc, |calls|);
    CallsStaySpotless(cfg, w.log, calls, RunCalls(cfg, calls, o.results, acc, |calls|).events);
  }

  /** A cut of confirm is allowed when nothing could be filed on its prompt. */
  ghost predicate OnceAllowed(cfg: Config, w: World, a: Action) {
    && Allowed(cfg, w, a)
    && (a.Cut? && w.at.At? && w.at.node == Confirm ==> Harmless(cfg, w.thread))
  }

  lemma CutStaysSpotless(cfg: Config, w: World, o: Oracle, k: nat)
    requires Spotless(cfg, w) && w.at.At?
    requires w.at.node == Confirm ==> Harmless(cfg, w.thread)
    ensures Spotless(cfg, CutAt(cfg, w, o, k))
  {
    hide LostReplies, EveryWriteOneReply, Fileless, Harmless, ByTheCalls, CutEffects, LastCalls;
    var events := CutEffects(cfg, w.at.node, w.at.resume, w.thread, o, k);
    var t1 := CutAt(cfg, w, o, k).thread;
    CutEvents(cfg, w.at.node, w.at.resume, w.thread, o, k);
    HarmlessStays(cfg, w.thread, t1);
    SameCallsLater(w.thread, t1);
    if w.at.node == Tools {
      CallsStaySpotless(cfg, w.log, LastCalls(w.thread), events);
    } else {
      NothingAppended(w.log, events);
      if w.at.node != Confirm { OnlyConfirmTakesReplies(cfg, w, o, k); SilenceLosesNothing(w.log, events); }
    }
  }

  lemma SameCallsLater(t: Thread, t1: Thread)
    requires t1.messages == t.messages
    ensures LastCalls(t1) == LastCalls(t)
  {
  }

  lemma OnlyConfirmTakesReplies(cfg: Config, w: World, o: Oracle, k: nat)
    requires w.at.At? && w.at.node != Confirm && w.at.node != Tools
    ensures forall e :: e in CutEffects(cfg, w.at.node, w.at.resume, w.thread, o, k) ==> Silent(e)
  {
  }

  lemma ReceiveStaysSpotless(cfg: Config, w: World, a: Action)
    requires Spotless(cfg, w) && a.Say? && w.at.Idle?
    ensures Spotless(cfg, Receive(w, a))
  {
    hide LostReplies, EveryWriteOneReply, Fileless, Harmless, LastCalls;
    var w1 := Receive(w, a);
    if w.thread.next == None {
      SilentStep(cfg, w, [Heard(a.said)]);
    } else {
      HarmlessStays(cfg, w.thread, w1.thread);
      SameCallsLater(w.thread, w1.thread);
    }
  }

  lemma NextStaysSpotless(cfg: Config, w: World, a: Action)
    requires Inv(cfg, w) && Spotless(cfg, w) && OnceAllowed(cfg, w, a)
    ensures Inv(cfg, Next(cfg, w, a)) && Spotless(cfg, Next(cfg, w, a))
  {
    hide Inv, Spotless, Allowed, Harmless, Receive, Advance, CutAt;
    NextKeeps(cfg, w, a);
    match a
    case Say(_, _, _) => if w.at.Idle? { ReceiveStaysSpotless(cfg, w, a); }
    case Cut(o, k) => if w.at.At? { CutStaysSpotless(cfg, w, o, k); }
    case Step(o) =>
      if w.at.At? {
        match w.at.node
        case Guard => GuardStaysSpotless(cfg, w, o);
        case Agent => AgentStaysSpotless(cfg, w, o);
        case Capture => CaptureStaysSpotless(cfg, w, o);
        case Confirm => ConfirmStaysSpotless(cfg, w, o);
        case Tools => ToolsStaySpotless(cfg, w, o);
        case _ => TailStaysSpotless(cfg, w, o);
      }
  }

  ghost predicate OnceAllowedFrom(cfg: Config, w: World, run: seq<Action>) {
    forall i :: 0 <= i < |run| ==> OnceAllowed(cfg, After(cfg, w, run[..i]), run[i])
  }

  lemma {:induction false} RunStaysSpotless(cfg: Config, w: World, run: seq<Action>)
    requires Inv(cfg, w) && Spotless(cfg, w) && OnceAllowedFrom(cfg, w, run)
    ensures Inv(cfg, After(cfg, w, run)) && Spotless(cfg, After(cfg, w, run))
  {
    hide Inv, Spotless, Next, OnceAllowed;
    if run != [] {
      var front := run[..|run| - 1];
      forall i | 0 <= i < |front| ensures OnceAllowed(cfg, After(cfg, w, front[..i]), front[i]) {
        assert front[..i] == run[..i];
      }
      RunStaysSpotless(cfg, w, front);
      assert run[..|run| - 1] == front;
      NextStaysSpotless(cfg, After(cfg, w, front), run[|run| - 1]);
    }
  }

  // ------------------------------------------------------------ main results

  lemma {:induction false} NothingWasLost(log: seq<Event>, j: nat)
    requires j < |log| && LostReplies(log) == []
    requires forall i :: j < i < |log| ==> !log[i].Displayed?
    ensures forall i :: j < i < |log| && log[i].Answered? ==> log[i].taken
  {
    if j < |log| - 1 { NothingWasLost(log[..|log| - 1], j); }
  }

  lemma SpotlessFromTheStart(cfg: Config)
    ensures Spotless(cfg, START)
  {
  }

  lemma OnceIsAllowed(cfg: Config, run: seq<Action>)
    requires OnceAllowedFrom(cfg, START, run)
    ensures AllowedRun(cfg, run)
  {
    hide Allowed, After;
    forall i | 0 <= i < |run| ensures Allowed(cfg, After(cfg, START, run[..i]), run[i]) {
      assert OnceAllowed(cfg, After(cfg, START, run[..i]), run[i]);
    }
  }

  /** In runs that never cut confirm with a write that could be filed, the prompt of
      every claim appended had exactly one reply, lost ones included: an approval. */
  lemma WritesHadOneReply(cfg: Config, run: seq<Action>, i: nat) returns (args: Args, j: nat, k: nat)
    requires cfg.requireConfirmation && OnceAllowedFrom(cfg, START, run)
    requires i < |Exec(cfg, run).log| && Exec(cfg, run).log[i].Appended?
    ensures var log := Exec(cfg, run).log;
      && Consent(log[..i], args, j, k) && Schema(cfg, args) == Some(log[i].claim)
      && forall m :: j < m < i && m != k ==> !log[m].Displayed? && !log[m].Answered?
  {
    hide After, Exec, OnceAllowedFrom, AllowedRun, Approves, Schema, Stated, Inv, LostReplies;
    OnceIsAllowed(cfg, run);
    args, j, k := WritesAreShownApprovedAndStated(cfg, run, i);
    NothingAskedYet(cfg);
    SpotlessFromTheStart(cfg);
    RunStaysSpotless(cfg, START, run);
    ExecIsAfter(cfg, run);
    var log := Exec(cfg, run).log;
    assert LostReplies(log[..i]) == [];
    forall m | j < m < i ensures !log[m].Displayed? { assert log[..i][m] == log[m] && log[k] == log[..i][k]; }
    NothingWasLost(log[..i], j);
    forall m | j < m < i && m != k ensures !log[m].Answered? { assert log[..i][m] == log[m]; }
  }

  /** Every way on from here, itself without such a cut, appends only on prompts
      that had one reply. */
  ghost predicate OnceSafeFrom(cfg: Config, w: World) {
    forall run :: OnceAllowedFrom(cfg, w, run) ==> EveryWriteOneReply(After(cfg, w, run).log)
  }

  lemma YesIsOnceAllowed(cfg: Config, w: World, n: nat)
    ensures OnceAllowedFrom(cfg, w, YesRun(n))
  {
    hide After;
  }

  lemma AppendedAfterALoss(log: seq<Event>, lost: seq<Event>, events: seq<Event>, claim: ClaimArgs)
    requires |lost| == 1 && lost[0].Answered? && !lost[0].taken
    requires Appended(claim) in events && forall e :: e in events ==> Silent(e)
    ensures !EveryWriteOneReply(log + lost + [Answered("yes", true)] + events)
  {
    hide LostReplies;
    var before := log + lost + [Answered("yes", true)];
    LastLost(log, lost[0]);
    assert lost == [lost[0]];
    LastLost(log + lost, Answered("yes", true));
    var i :| 0 <= i < |events| && events[i] == Appended(claim);
    SilenceLosesNothing(before, events[..i]);
    assert (before + events)[..|before| + i] == before + events[..i];
    assert (before + events)[|before| + i] == Appended(claim);
    assert LostReplies(before + events[..i]) != [];
  }

  /** Exactly when confirm may be cut with a reply in its hands: whatever follows
      appends only on one reply if and only if the write is not vouched for, is
      refused by the schema, or has no tool to file it. */
  lemma CutOfAReplyIsSafeIff(cfg: Config, w: World, o: Oracle, k: nat)
    requires Inv(cfg, w) && Spotless(cfg, w) && w.at.At? && w.at.node == Confirm && w.at.resume.Some?
    ensures OnceSafeFrom(cfg, CutAt(cfg, w, o, k)) <==> Harmless(cfg, w.thread)
  {
    hide Inv, Harmless, CutAt, OnceAllowedFrom, After, EveryWriteOneReply, Spotless, CutEffects;
    var w0 := CutAt(cfg, w, o, k);
    if Harmless(cfg, w.thread) {
      CutKeeps(cfg, w, o, k);
      CutStaysSpotless(cfg, w, o, k);
      forall run | OnceAllowedFrom(cfg, w0, run) ensures EveryWriteOneReply(After(cfg, w0, run).log) {
        RunStaysSpotless(cfg, w0, run);
        SpotlessMeans(cfg, After(cfg, w0, run));
      }
    } else {
      var n := |LastCalls(w.thread)|;
      HarmfulIsAccepted(cfg, w.thread);
      CutThenYesFiles(cfg, w, o, k);
      YesIsOnceAllowed(cfg, w0, n);
      ReplyIsLost(cfg, w, o, k);
      AppendedAfterALoss(w.log, CutEffects(cfg, Confirm, w.at.resume, w.thread, o, k),
                         ToolsNode(cfg, w.thread, Filing(n)).events, Schema(cfg, Pending(w.thread)).value);
    }
  }

  lemma SpotlessMeans(cfg: Config, w: World)
    requires Spotless(cfg, w)
    ensures EveryWriteOneReply(w.log)
  {
  }

  lemma ReplyIsLost(cfg: Config, w: World, o: Oracle, k: nat)
    requires Inv(cfg, w) && w.at.At? && w.at.resume.Some? && !Harmless(cfg, w.thread)
    ensures CutEffects(cfg, Confirm, w.at.resume, w.thread, o, k) == [Answered(w.at.resume.value, false)]
  {
    hide Vouched, Schema;
  }

  // -------------------------------------------------------------- a run of it

  /** Shown, refused, cut before the refusal is acted on, and "yes". */
  function RefusedRun(said: string, args: Args): seq<Action> {
    (Open(said) + Propose(args)) + ([Step(SILENT), Say("no", Text, false)] + ([Cut(SILENT, 0)] + YesRun(1)))
  }

  lemma RefusedIsAllowed(cfg: Config, said: string, args: Args)
    requires After(cfg, START, (Open(said) + Propose(args)) + [Step(SILENT), Say("no", Text, false)]).at == At(Confirm, Some("no"))
    ensures AllowedRun(cfg, RefusedRun(said, args))
  {
    hide After, Harmless, Schema;
    var run, before := RefusedRun(said, args), (Open(said) + Propose(args)) + [Step(SILENT), Say("no", Text, false)];
    Approvals.OneWriteAgrees(cfg, args);
    forall i | 0 <= i < |run| ensures Allowed(cfg, After(cfg, START, run[..i]), run[i]) {
      if i == |before| { assert run[..i] == before; }
    }
  }


  /** From the very start, in a run the gate allows: the policyholder answered "no"
      to the prompt of the claim that is filed. */
  lemma RefusedThenFiled(cfg: Config, said: string, args: Args, claim: ClaimArgs)
    requires Fileable(cfg, said, args, claim)
    ensures AllowedRun(cfg, RefusedRun(said, args))
    ensures Exec(cfg, RefusedRun(said, args)).log == [
      Heard(said), Guarded, ModelCalled(true), Displayed(args), Answered("no", false), Answered("yes", true),
      Appended(claim), Ran(Invocation(SubmitClaim, args, true), true)]
  {
    hide Schema, Vouched, Approves, After, Next, Fileable, ToolsNode, LastCalls, AllowedRun;
    FileableMeans(cfg, said, args, claim);
    var w := FirstProposal(cfg, said, args, claim);
    PromptGoesUp(cfg, w);
    var w1 := Next(cfg, w, Step(SILENT));
    MessageResumes(cfg, w1, Confirm, "no");
    var w2 := Next(cfg, w1, Say("no", Text, false));
    AfterTwo(cfg, w, Step(SILENT), Say("no", Text, false));
    AfterJoins(cfg, START, Open(said) + Propose(args), [Step(SILENT), Say("no", Text, false)]);
    RefusedIsAllowed(cfg, said, args);
    CutIsAStep(cfg, w2, SILENT, 0);
    AfterOne(cfg, w2, Cut(SILENT, 0));
    YesFiles(cfg, w2, SILENT, 0, 1);
    Approvals.SameLastCalls(w.thread, w2.thread);
    OneWriteRuns(cfg, w2.thread, args);
    AfterJoins(cfg, w2, [Cut(SILENT, 0)], YesRun(1));
    AfterJoins(cfg, w, [Step(SILENT), Say("no", Text, false)], [Cut(SILENT, 0)] + YesRun(1));
    AfterJoins(cfg, START, Open(said) + Propose(args), [Step(SILENT), Say("no", Text, false)] + ([Cut(SILENT, 0)] + YesRun(1)));
    ExecIsAfter(cfg, RefusedRun(said, args));
  }
}
