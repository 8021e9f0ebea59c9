/** Nothing is written that was not shown, approved and stated: over every run
    of the graph, whatever the model says
    (backend/agent/app/graph/nodes.py:384-489, build.py:55-96, 207-267). */
module WriteGate {
  import opened GraphState
  import opened Options
  import opened GraphNodes
  import opened GraphRun
  import opened ApprovalWords
  import Ascii

  /** The last prompt put up, and the one reply acted on, if any; replies lost to
      a cut leave it waiting. */
  datatype Prompt = NoPrompt | Shown(args: Args) | Replied(asked: Args, reply: string)

  function LastPrompt(log: seq<Event>): Prompt {
    if log == [] then NoPrompt
    else match log[|log| - 1]
      case Displayed(args) => Shown(args)
      case Answered(reply, taken) =>
        (match LastPrompt(log[..|log| - 1])
         case Shown(args) => if taken then Replied(args, reply) else Shown(args)
         case other => if taken then NoPrompt else other)
      case _ => LastPrompt(log[..|log| - 1])
  }

  /** A prompt went up, or a reply to one was acted on. */
  predicate Settles(e: Event) { e.Displayed? || (e.Answered? && e.taken) }

  /** A prompt showing `args` went up at j, the reply acted on at k approves, and no
      prompt and no reply acted on comes between them or after. */
  ghost predicate Consent(log: seq<Event>, args: Args, j: nat, k: nat) {
    && j < k < |log|
    && log[j] == Displayed(args)
    && log[k].Answered? && log[k].taken && Approves(log[k].reply)
    && forall i :: j < i < |log| && i != k ==> !Settles(log[i])
  }

  ghost predicate HeardPolicy(cfg: Config, log: seq<Event>, policy: string) {
    exists h :: 0 <= h < |log| && log[h].Heard? && policy in cfg.policiesIn(log[h].said)
  }

  ghost predicate HeardAmount(cfg: Config, log: seq<Event>, dollars: int) {
    exists h :: 0 <= h < |log| && log[h].Heard? && dollars in cfg.amountsIn(log[h].said)
  }

  /** The policyholder gave the claim's policy number and whole-dollar amount. */
  ghost predicate Stated(cfg: Config, log: seq<Event>, claim: ClaimArgs) {
    HeardPolicy(cfg, log, claim.policy) && HeardAmount(cfg, log, Truncate(claim.amount))
  }

  ghost predicate Authorised(cfg: Config, log: seq<Event>, claim: ClaimArgs) {
    && Stated(cfg, log, claim)
    && LastPrompt(log).Replied?
    && Approves(LastPrompt(log).reply)
    && Schema(cfg, LastPrompt(log).asked) == Some(claim)
  }

  ghost predicate EveryWriteAuthorised(cfg: Config, log: seq<Event>) {
    forall i :: 0 <= i < |log| && log[i].Appended? ==> Authorised(cfg, log[..i], log[i].claim)
  }

  /** Every write in one model message that the schema accepts files the same
      claim as the first one, which is the one the policyholder is shown. */
  predicate WritesAgree(cfg: Config, calls: seq<Call>) {
    forall c :: c in calls && c.name == SubmitClaim && Schema(cfg, c.args).Some? ==>
      FirstWrite(calls).Some? && Schema(cfg, c.args) == Schema(cfg, FirstWrite(calls).value)
  }

  // ------------------------------------------------------------- log facts

  lemma {:induction false} QuietTail(log: seq<Event>, more: seq<Event>)
    requires forall e :: e in more ==> !Settles(e)
    ensures LastPrompt(log + more) == LastPrompt(log)
  {
    if more == [] {
      assert log + more == log;
    } else {
      var front := more[..|more| - 1];
      QuietTail(log, front);
      assert log + more == (log + front) + [more[|more| - 1]];
      assert more[|more| - 1] in more;
      assert (log + more)[..|log + more| - 1] == log + front;
    }
  }

  lemma {:induction false} ShownMeans(log: seq<Event>, args: Args) returns (j: nat)
    requires LastPrompt(log) == Shown(args)
    ensures j < |log| && log[j] == Displayed(args)
    ensures forall i :: j < i < |log| ==> !Settles(log[i])
  {
    j := |log| - 1;
    if !log[j].Displayed? {
      j := ShownMeans(log[..|log| - 1], args);
    }
  }

  lemma {:induction false} RepliedMeans(log: seq<Event>) returns (j: nat, k: nat)
    requires LastPrompt(log).Replied? && Approves(LastPrompt(log).reply)
    ensures Consent(log, LastPrompt(log).asked, j, k)
  {
    hide Approves, Schema;
    var n := |log| - 1;
    if log[n].Answered? && log[n].taken {
      j := ShownMeans(log[..n], LastPrompt(log).asked);
      k := n;
    } else {
      j, k := RepliedMeans(log[..n]);
    }
  }

  lemma HeardLater(cfg: Config, log: seq<Event>, more: seq<Event>)
    ensures forall p :: HeardPolicy(cfg, log, p) ==> HeardPolicy(cfg, log + more, p)
    ensures forall d :: HeardAmount(cfg, log, d) ==> HeardAmount(cfg, log + more, d)
  {
    assert forall h :: 0 <= h < |log| ==> (log + more)[h] == log[h];
  }

  lemma AuthorityLasts(cfg: Config, log: seq<Event>, more: seq<Event>, claim: ClaimArgs)
    requires Authorised(cfg, log, claim)
    requires forall e :: e in more ==> !Settles(e)
    ensures Authorised(cfg, log + more, claim)
  {
    hide Approves, Schema;
    QuietTail(log, more);
    HeardLater(cfg, log, more);
  }

  lemma NoNewWrites(cfg: Config, log: seq<Event>, more: seq<Event>)
    requires EveryWriteAuthorised(cfg, log)
    requires forall e :: e in more ==> !e.Appended?
    ensures EveryWriteAuthorised(cfg, log + more)
  {
    hide Approves, Schema;
    forall i | 0 <= i < |log + more| && (log + more)[i].Appended?
      ensures Authorised(cfg, (log + more)[..i], (log + more)[i].claim)
    {
      assert (log + more)[..i] == log[..i];
    }
  }

  // ----------------------------------------------------------- the invariant

  ghost predicate HumansWereHeard(t: Thread, log: seq<Event>) {
    forall m :: m in t.messages && m.role == Human ==> Heard(m.content) in log
  }

  /** The pending write is the first write of the last message, and that
      message's writes agree. */
  ghost predicate WriteCaptured(cfg: Config, t: Thread) {
    && FirstWrite(LastCalls(t)).Some?
    && WritesAgree(cfg, LastCalls(t))
  }

  /** Every claim that running these calls could file is authorised. */
  ghost predicate Cleared(cfg: Config, calls: seq<Call>, log: seq<Event>) {
    SubmitClaim in cfg.tools ==>
      forall c :: c in calls && c.name == SubmitClaim && Schema(cfg, c.args).Some? ==>
        Authorised(cfg, log, Schema(cfg, c.args).value)
  }

  /** A write that filing would not follow from, whatever the reply: it is not
      vouched for, the schema refuses it, or there is no tool to file it. */
  ghost predicate Harmless(cfg: Config, t: Thread) {
    !Vouched(cfg, t.messages, Pending(t)) || Schema(cfg, Pending(t)) == None || SubmitClaim !in cfg.tools
  }

  ghost predicate Poised(cfg: Config, w: World) {
    var t := w.thread;
    match Standing(w)
    case Some(Capture) => WriteCaptured(cfg, t)
    case Some(Confirm) =>
      && WriteCaptured(cfg, t)
      && t.pendingWrite == FirstWrite(LastCalls(t))
      && (w.at == At(Confirm, None) || LastPrompt(w.log) == Shown(t.pendingWrite.value) || Harmless(cfg, t))
    case Some(Tools) => Cleared(cfg, LastCalls(t), w.log)
    case _ => true
  }

  /** A prompt without its reply is up only while confirm waits for the reply. */
  ghost predicate PromptIsWaiting(cfg: Config, w: World) {
    LastPrompt(w.log).Shown? ==>
      Standing(w) == Some(Confirm) && w.at != At(Confirm, None) && Vouched(cfg, w.thread.messages, Pending(w.thread))
  }

  ghost predicate Inv(cfg: Config, w: World) {
    && cfg.requireConfirmation
    && IdsInOrder(w.thread)
    && HumansWereHeard(w.thread, w.log)
    && EveryWriteAuthorised(cfg, w.log)
    && (w.at.At? ==> w.thread.next == None)
    && Poised(cfg, w)
    && PromptIsWaiting(cfg, w)
  }

  // -------------------------------------------------------- node by node

  lemma {:induction false} FirstWriteExists(calls: seq<Call>, c: Call)
    requires c in calls && c.name == SubmitClaim
    ensures FirstWrite(calls).Some?
  {
    if calls[0] != c { FirstWriteExists(calls[1..], c); }
  }

  /** What the schema accepts is what the confirmation looked for. */
  lemma AcceptedMeans(cfg: Config, args: Args)
    requires Schema(cfg, args).Some?
    ensures args != map[]
    ensures var claim := Schema(cfg, args).value;
      && ClaimedPolicy(args) == claim.policy != ""
      && ClaimedAmount(args).Some?
      && cfg.decimal(Str(ClaimedAmount(args).value)) == Some(claim.amount)
  {
    assert PolicyNumber in args;
    UpperKeepsPolicy(Schema(cfg, args).value.policy);
  }

  /** What Vouched finds in the thread was heard. */
  lemma VouchedWasHeard(cfg: Config, w: World, args: Args)
    requires HumansWereHeard(w.thread, w.log)
    requires Vouched(cfg, w.thread.messages, args)
    requires Schema(cfg, args).Some?
    ensures Stated(cfg, w.log, Schema(cfg, args).value)
  {
    hide Schema, ClaimedPolicy, ClaimedAmount, Str;
    AcceptedMeans(cfg, args);
    var ms, claim := w.thread.messages, Schema(cfg, args).value;
    var i :| 0 <= i < |ms| && ms[i].role == Human && claim.policy in cfg.policiesIn(ms[i].content);
    var j :| 0 <= j < |ms| && ms[j].role == Human && Truncate(claim.amount) in cfg.amountsIn(ms[j].content);
    assert Heard(ms[i].content) in w.log && Heard(ms[j].content) in w.log;
  }

  /** Upper-casing leaves a policy number the schema accepts as it is. */
  lemma UpperKeepsPolicy(p: string)
    requires PolicyShaped(p)
    ensures Ascii.Upper(p) == p
  {
    assert p[0] == p[..4][0] && p[1] == p[..4][1] && p[2] == p[..4][2] && p[3] == p[..4][3];
  }

  /** What tool calls leave in the log: no prompt, no word of the policyholder, and
      only claims that one of the calls asks for. */
  predicate ByTheCalls(cfg: Config, calls: seq<Call>, e: Event) {
    && !e.Displayed? && !e.Answered? && !e.Heard?
    && (e.Appended? ==> SubmitClaim in cfg.tools)
    && (e.Appended? ==> exists c :: c in calls && c.name == SubmitClaim && Schema(cfg, c.args) == Some(e.claim))
  }

  lemma FilesByTheCalls(cfg: Config, calls: seq<Call>, call: Call, result: ToolResult)
    requires call in calls && call.name in cfg.tools
    ensures forall e :: e in Files(cfg, call, result) ==> ByTheCalls(cfg, calls, e)
  {
    hide Schema;
  }

  lemma {:induction false} ToolEvents(cfg: Config, calls: seq<Call>, results: seq<ToolResult>, acc: ToolRun, k: nat)
    requires k <= |calls| && acc.events == []
    ensures forall e :: e in RunCalls(cfg, calls, results, acc, k).events ==> ByTheCalls(cfg, calls, e)
  {
    hide ByTheCalls, Files, Evidence;
    if k > 0 {
      ToolEvents(cfg, calls, results, acc, k - 1);
      var call, result := calls[k - 1], ResultAt(results, k - 1);
      assert call in calls;
      if call.name in cfg.tools {
        FilesByTheCalls(cfg, calls, call, result);
        QuietByTheCalls(cfg, calls, Evidence(call, result), Invocation(call.name, call.args, result.failed));
      }
    }
  }

  lemma QuietByTheCalls(cfg: Config, calls: seq<Call>, found: seq<Chunk>, inv: Invocation)
    ensures forall e :: e in Harvests(found) + [Ran(inv, true)] ==> ByTheCalls(cfg, calls, e)
  {
    hide Schema;
  }

  lemma CutEvents(cfg: Config, node: Node, resume: Option<string>, t: Thread, o: Oracle, k: nat)
    ensures node == Tools ==> forall e :: e in CutEffects(cfg, node, resume, t, o, k) ==> ByTheCalls(cfg, LastCalls(t), e)
    ensures node != Tools ==> forall e :: e in CutEffects(cfg, node, resume, t, o, k) ==> !e.Appended? && !Settles(e)
  {
    hide Schema, RunCalls, Vouched;
    var calls := LastCalls(t);
    ToolEvents(cfg, calls, o.results, NOTHING_RUN, if k < |calls| then k else |calls|);
    if k < |calls| && calls[k].name in cfg.tools { FilesByTheCalls(cfg, calls, calls[k], ResultAt(o.results, k)); }
    assert forall e :: e in CutCalls(cfg, calls, o.results, k) ==> ByTheCalls(cfg, calls, e);
    UnsavedByTheCalls(cfg, calls, CutCalls(cfg, calls, o.results, k));
  }

  lemma UnsavedByTheCalls(cfg: Config, calls: seq<Call>, events: seq<Event>)
    requires forall e :: e in events ==> ByTheCalls(cfg, calls, e)
    ensures forall e :: e in AllUnsaved(events) ==> ByTheCalls(cfg, calls, e)
  {
    hide Schema;
    forall e | e in AllUnsaved(events) ensures ByTheCalls(cfg, calls, e) {
      var i :| 0 <= i < |events| && e == Unsaved(events[i]);
      assert events[i] in events;
    }
  }

  /** Filing what the calls of a cleared message ask for keeps the gate, whether
      all of them run, some, or some and part of the next. */
  lemma {:induction false} ToolsKeepGate(cfg: Config, log: seq<Event>, calls: seq<Call>, events: seq<Event>)
    requires EveryWriteAuthorised(cfg, log) && Cleared(cfg, calls, log)
    requires forall e :: e in events ==> ByTheCalls(cfg, calls, e)
    ensures EveryWriteAuthorised(cfg, log + events) && Cleared(cfg, calls, log + events)
    ensures LastPrompt(log + events) == LastPrompt(log)
  {
    hide EveryWriteAuthorised, Authorised, Schema;
    if events == [] {
      assert log + events == log;
    } else {
      var front, last := events[..|events| - 1], events[|events| - 1];
      assert last in events;
      assert forall e :: e in front ==> e in events;
      ToolsKeepGate(cfg, log, calls, front);
      var sofar := log + front;
      assert log + events == sofar + [last];
      if last.Appended? { FileOne(cfg, sofar, last.claim); } else { NoNewWrites(cfg, sofar, [last]); }
      forall claim | Authorised(cfg, sofar, claim) ensures Authorised(cfg, sofar + [last], claim) {
        AuthorityLasts(cfg, sofar, [last], claim);
      }
      QuietTail(sofar, [last]);
    }
  }

  lemma FileOne(cfg: Config, log: seq<Event>, claim: ClaimArgs)
    requires EveryWriteAuthorised(cfg, log) && Authorised(cfg, log, claim)
    ensures EveryWriteAuthorised(cfg, log + [Appended(claim)])
  {
    hide Approves, Schema;
    var l := log + [Appended(claim)];
    forall i | 0 <= i < |l| && l[i].Appended?
      ensures Authorised(cfg, l[..i], l[i].claim)
    {
      assert l[..i] == log[..i];
      if i == |log| { assert log[..i] == log; }
    }
  }

  /** Nodes that put up no prompt, file nothing and leave the humans' words. */
  lemma QuietStep(cfg: Config, w: World, t: Thread, events: seq<Event>)
    requires Inv(cfg, w)
    requires forall m :: m in t.messages && m.role == Human ==> m in w.thread.messages
    requires forall e :: e in events ==> !e.Appended?
    ensures HumansWereHeard(t, w.log + events)
    ensures EveryWriteAuthorised(cfg, w.log + events)
    ensures (forall e :: e in events ==> !Settles(e)) ==> LastPrompt(w.log + events) == LastPrompt(w.log)
  {
    hide Approves, Schema;
    NoNewWrites(cfg, w.log, events);
    if forall e :: e in events ==> !Settles(e) { QuietTail(w.log, events); }
  }

  lemma GuardKeeps(cfg: Config, w: World, o: Oracle)
    requires Inv(cfg, w) && w.at.At? && w.at.node == Guard
    ensures Inv(cfg, Advance(cfg, w, o))
  {
    hide Approves, Schema, Vouched, AgentNode, CaptureNode, ConfirmNode, ToolsNode, ReadbackNode, ParseNode,
      GroundNode, FormatNode;
    var out := GuardNode(cfg, w.thread);
    QuietStep(cfg, w, out.thread, out.events);
  }

  /** The agent adds one message of its own, and tells writes from reads. */
  lemma AgentShape(cfg: Config, t: Thread, o: Oracle)
    requires IdsInOrder(t)
    ensures var out := AgentNode(cfg, t, o);
      && !out.paused && IdsInOrder(out.thread) && out.thread.next == t.next
      && (forall m :: m in out.thread.messages && m.role == Human ==> m in t.messages)
      && (forall e :: e in out.events ==> e.ModelCalled?)
      && out.goto in {Some(Readback), Some(Capture), Some(Tools)}
      && (out.goto == Some(Capture) ==> LastCalls(out.thread) == o.calls && FirstWrite(o.calls).Some?)
      && (out.goto == Some(Tools) ==> forall c :: c in LastCalls(out.thread) ==> c.name != SubmitClaim)
  {
    hide FirstWrite, RouteAfterAgent;
    RouteTellsWrites(o.calls);
  }

  lemma RouteTellsWrites(calls: seq<Call>)
    ensures RouteAfterAgent(calls) in {Readback, Capture, Tools}
    ensures RouteAfterAgent(calls) == Capture ==> FirstWrite(calls).Some?
    ensures RouteAfterAgent(calls) == Tools ==> forall c :: c in calls ==> c.name != SubmitClaim
  {
    hide FirstWrite;
    if RouteAfterAgent(calls) == Capture {
      var c :| c in calls && c.name == SubmitClaim;
      FirstWriteExists(calls, c);
    }
  }

  lemma AgentKeeps(cfg: Config, w: World, o: Oracle)
    requires Inv(cfg, w) && w.at.At? && w.at.node == Agent
    requires WritesAgree(cfg, o.calls)
    ensures Inv(cfg, Advance(cfg, w, o))
  {
    hide Authorised, Schema, Vouched, Harmless, WritesAgree, IdsInOrder, AgentNode, GuardNode, CaptureNode, ConfirmNode,
      ToolsNode, ReadbackNode, ParseNode, GroundNode, FormatNode;
    var out := AgentNode(cfg, w.thread, o);
    AgentShape(cfg, w.thread, o);
    QuietStep(cfg, w, out.thread, out.events);
  }

  lemma CaptureKeeps(cfg: Config, w: World, o: Oracle)
    requires Inv(cfg, w) && w.at.At? && w.at.node == Capture
    ensures Inv(cfg, Advance(cfg, w, o))
  {
    hide Approves, Schema, Vouched, GuardNode, AgentNode, ConfirmNode, ToolsNode, ReadbackNode, ParseNode,
      GroundNode, FormatNode, EveryWriteAuthorised, WritesAgree, Harmless;
    var out := CaptureNode(w.thread, o);
    QuietStep(cfg, w, out.thread, out.events);
  }

  lemma ConfirmKeeps(cfg: Config, w: World, o: Oracle)
    requires Inv(cfg, w) && w.at.At? && w.at.node == Confirm
    ensures Inv(cfg, Advance(cfg, w, o))
  {
    hide Approves, Schema, Vouched, Authorised, Inv, Advance;
    var out := ConfirmNode(cfg, w.thread, w.at.resume);
    if out.paused { ConfirmShows(cfg, w, o); }
    else if out.goto == Some(Tools) { ConfirmApproves(cfg, w, o); }
    else { ConfirmDeclines(cfg, w, o); }
  }

  lemma ConfirmShows(cfg: Config, w: World, o: Oracle)
    requires Inv(cfg, w) && w.at.At? && w.at.node == Confirm
    requires ConfirmNode(cfg, w.thread, w.at.resume).paused
    ensures Inv(cfg, Advance(cfg, w, o))
  {
    hide Approves, Schema, Vouched, Authorised, GuardNode, AgentNode, CaptureNode, ToolsNode, ReadbackNode,
      ParseNode, GroundNode, FormatNode, Harmless, WritesAgree, EveryWriteAuthorised, HumansWereHeard;
    var out, w1 := ConfirmNode(cfg, w.thread, w.at.resume), Advance(cfg, w, o);
    QuietStep(cfg, w, w1.thread, out.events);
    assert w1.log[..|w1.log| - 1] == w.log;
  }

  lemma ConfirmApproves(cfg: Config, w: World, o: Oracle)
    requires Inv(cfg, w) && w.at.At? && w.at.node == Confirm
    requires ConfirmNode(cfg, w.thread, w.at.resume).goto == Some(Tools)
    ensures Inv(cfg, Advance(cfg, w, o))
  {
    hide Approves, Schema, Vouched, Authorised, GuardNode, AgentNode, CaptureNode, ToolsNode, ReadbackNode,
      ParseNode, GroundNode, FormatNode;
    var out := ConfirmNode(cfg, w.thread, w.at.resume);
    QuietStep(cfg, w, out.thread, out.events);
    ApprovalAuthorises(cfg, w);
    assert LastCalls(out.thread) == LastCalls(w.thread);
  }

  /** Confirm that neither pauses nor goes on to the tools: without a prompt when
      the write is not vouched for, or with the reply to one. */
  lemma DeclineShape(cfg: Config, t: Thread, resume: Option<string>)
    requires cfg.requireConfirmation && IdsInOrder(t)
    requires var out := ConfirmNode(cfg, t, resume); !out.paused && out.goto != Some(Tools)
    ensures var out := ConfirmNode(cfg, t, resume);
      && out.goto == Some(Parse) && IdsInOrder(out.thread) && out.thread.next == t.next
      && (forall m :: m in out.thread.messages && m.role == Human ==> m in t.messages)
      && (out.events == [] ==> !Vouched(cfg, t.messages, Pending(t)))
      && (out.events != [] ==> resume.Some? && out.events == [Answered(resume.value, true)])
  {
    hide Approves, Vouched;
  }

  lemma TakenIsNotShown(log: seq<Event>, reply: string)
    ensures !LastPrompt(log + [Answered(reply, true)]).Shown?
  {
    var log1 := log + [Answered(reply, true)];
    assert log1[..|log1| - 1] == log;
  }

  lemma ConfirmDeclines(cfg: Config, w: World, o: Oracle)
    requires Inv(cfg, w) && w.at.At? && w.at.node == Confirm
    requires var out := ConfirmNode(cfg, w.thread, w.at.resume); !out.paused && out.goto != Some(Tools)
    ensures Inv(cfg, Advance(cfg, w, o))
  {
    hide Approves, Schema, Vouched, Authorised, Harmless, EveryWriteAuthorised, IdsInOrder, HumansWereHeard,
      WriteCaptured, Cleared, LastPrompt, ConfirmNode, GuardNode, AgentNode, CaptureNode, ToolsNode, ReadbackNode, ParseNode, GroundNode, FormatNode;
    var out := ConfirmNode(cfg, w.thread, w.at.resume);
    DeclineShape(cfg, w.thread, w.at.resume);
    QuietStep(cfg, w, out.thread, out.events);
    if out.events != [] { TakenIsNotShown(w.log, w.at.resume.value); } else { assert w.log + [] == w.log; }
  }

  /** An approval given to the prompt that is up authorises what it showed. */
  lemma ApprovalAuthorises(cfg: Config, w: World)
    requires Inv(cfg, w) && w.at.At? && w.at.node == Confirm
    requires ConfirmNode(cfg, w.thread, w.at.resume).goto == Some(Tools)
    ensures w.at.resume.Some?
    ensures Cleared(cfg, LastCalls(w.thread), w.log + [Answered(w.at.resume.value, true)])
  {
    hide Approves, Schema, Vouched;
    var args, reply := w.thread.pendingWrite.value, w.at.resume.value;
    var log1 := w.log + [Answered(reply, true)];
    assert log1[..|log1| - 1] == w.log;
    if Schema(cfg, args).Some? && SubmitClaim in cfg.tools {
      assert LastPrompt(log1) == Replied(args, reply);
      VouchedWasHeard(cfg, w, args);
      HeardLater(cfg, w.log, [Answered(reply, true)]);
    }
  }

  lemma ToolsKeeps(cfg: Config, w: World, o: Oracle)
    requires Inv(cfg, w) && w.at.At? && w.at.node == Tools
    ensures Inv(cfg, Advance(cfg, w, o))
  {
    hide Approves, Schema, Vouched, GuardNode, AgentNode, CaptureNode, ConfirmNode, ReadbackNode, ParseNode,
      GroundNode, FormatNode;
    var calls := LastCalls(w.thread);
    var acc := ToolRun([], w.thread.invocations, w.thread.retrieved, []);
    var run := RunCalls(cfg, calls, o.results, acc, |calls|);
    ToolEvents(cfg, calls, o.results, acc, |calls|);
    ToolsKeepGate(cfg, w.log, calls, run.events);
    PostAllExtends(w.thread, run.outputs);
  }

  /** A cut keeps the gate anywhere, inside the tools too, but where a write that
      could be filed has not been shown yet. */
  lemma CutKeeps(cfg: Config, w: World, o: Oracle, k: nat)
    requires Inv(cfg, w) && w.at.At?
    requires w.at == At(Confirm, None) ==> Harmless(cfg, w.thread)
    ensures Inv(cfg, CutAt(cfg, w, o, k))
  {
    hide Harmless, Authorised, Schema, CutEffects, EveryWriteAuthorised, Vouched;
    var events := CutEffects(cfg, w.at.node, w.at.resume, w.thread, o, k);
    var calls := LastCalls(w.thread);
    CutEvents(cfg, w.at.node, w.at.resume, w.thread, o, k);
    if w.at.node == Tools {
      ToolsKeepGate(cfg, w.log, calls, events);
    } else {
      NoNewWrites(cfg, w.log, events);
      QuietTail(w.log, events);
    }
    HarmlessStays(cfg, w.thread, CutAt(cfg, w, o, k).thread);
  }

  lemma HarmlessStays(cfg: Config, t: Thread, t1: Thread)
    requires t1.messages == t.messages && t1.pendingWrite == t.pendingWrite
    ensures Harmless(cfg, t1) == Harmless(cfg, t) && Vouched(cfg, t1.messages, Pending(t1)) == Vouched(cfg, t.messages, Pending(t))
  {
  }

  lemma TailKeeps(cfg: Config, w: World, o: Oracle)
    requires Inv(cfg, w) && w.at.At? && InTail(w.at.node)
    ensures Inv(cfg, Advance(cfg, w, o))
  {
    hide Authorised, Schema;
    TailRewritesOne(cfg, w.at.node, w.at.resume, w.thread, o);
    var out := RunNode(cfg, w.at.node, w.at.resume, w.thread, o);
    QuietStep(cfg, w, out.thread, out.events);
    TailGoesOn(cfg, w.at.node, w.at.resume, w.thread, o);
  }

  lemma ReceiveKeeps(cfg: Config, w: World, a: Action)
    requires Inv(cfg, w) && a.Say? && w.at.Idle?
    ensures Inv(cfg, Receive(w, a))
  {
    hide Approves, Schema, Harmless, Vouched, Authorised;
    var w1 := Receive(w, a);
    if w.thread.next == None {
      NoNewWrites(cfg, w.log, [Heard(a.said)]);
      QuietTail(w.log, [Heard(a.said)]);
      assert w1.log[|w.log|] == Heard(a.said);
    } else {
      HarmlessStays(cfg, w.thread, w1.thread);
    }
  }

  /** An action that the guarantee allows: the model's writes agree, and no run
      is cut between capturing a write that could be filed and showing it. */
  ghost predicate Allowed(cfg: Config, w: World, a: Action) {
    && (a.Step? ==> WritesAgree(cfg, a.oracle.calls))
    && (a.Cut? && w.at == At(Confirm, None) ==> Harmless(cfg, w.thread))
  }

  lemma NextKeeps(cfg: Config, w: World, a: Action)
    requires Inv(cfg, w) && Allowed(cfg, w, a)
    ensures Inv(cfg, Next(cfg, w, a))
  {
    hide Inv, WritesAgree, Harmless, Receive, Advance, CutAt;
    match a
    case Say(_, _, _) => if w.at.Idle? { ReceiveKeeps(cfg, w, a); }
    case Cut(o, k) => if w.at.At? { CutKeeps(cfg, w, o, k); }
    case Step(o) =>
      if w.at.At? {
        match w.at.node
        case Guard => GuardKeeps(cfg, w, o);
        case Agent => AgentKeeps(cfg, w, o);
        case Capture => CaptureKeeps(cfg, w, o);
        case Confirm => ConfirmKeeps(cfg, w, o);
        case Tools => ToolsKeeps(cfg, w, o);
        case _ => TailKeeps(cfg, w, o);
      }
  }

  ghost predicate AllowedFrom(cfg: Config, w: World, run: seq<Action>) {
    forall i :: 0 <= i < |run| ==> Allowed(cfg, After(cfg, w, run[..i]), run[i])
  }

  ghost predicate AllowedRun(cfg: Config, run: seq<Action>) { AllowedFrom(cfg, START, run) }

  lemma {:induction false} RunKeeps(cfg: Config, w: World, run: seq<Action>)
    requires Inv(cfg, w) && AllowedFrom(cfg, w, run)
    ensures Inv(cfg, After(cfg, w, run))
  {
    hide Inv, Next, Allowed;
    if run != [] {
      var front := run[..|run| - 1];
      forall i | 0 <= i < |front| ensures Allowed(cfg, After(cfg, w, front[..i]), front[i]) {
        assert front[..i] == run[..i];
      }
      RunKeeps(cfg, w, front);
      assert run[..|run| - 1] == front;
      NextKeeps(cfg, After(cfg, w, front), run[|run| - 1]);
    }
  }

  lemma NothingAskedYet(cfg: Config)
    requires cfg.requireConfirmation
    ensures Inv(cfg, START)
  {
  }

  // ------------------------------------------------------------ main result

  /** The write gate. In every run with confirmation on, each claim appended was
      shown (the prompt at j displayed arguments that validate to exactly this
      claim), its one reply at k was an approval, nothing was asked or answered
      since, and the policyholder had stated its policy number and amount. */
  lemma WritesAreShownApprovedAndStated(cfg: Config, run: seq<Action>, i: nat) returns (args: Args, j: nat, k: nat)
    requires cfg.requireConfirmation && AllowedRun(cfg, run)
    requires i < |Exec(cfg, run).log| && Exec(cfg, run).log[i].Appended?
    ensures var log := Exec(cfg, run).log;
      && Consent(log[..i], args, j, k) && SaysYes(log[k].reply)
      && Schema(cfg, args) == Some(log[i].claim)
      && Stated(cfg, log[..i], log[i].claim)
  {
    hide Approves, Schema, After, Exec, AllowedFrom, SaysYes;
    NothingAskedYet(cfg);
    RunKeeps(cfg, START, run);
    ExecIsAfter(cfg, run);
    var log := Exec(cfg, run).log;
    assert Authorised(cfg, log[..i], log[i].claim);
    args := LastPrompt(log[..i]).asked;
    j, k := RepliedMeans(log[..i]);
    ApprovesIff(log[k].reply);
  }
}
