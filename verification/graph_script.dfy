/** Pieces of run from which whole runs are put together: what a turn does when
    the model and the policyholder follow a script
    (backend/agent/app/graph/nodes.py:163-487, build.py:79-268). */
module GraphScript {
  import opened GraphState
  import opened Options
  import opened GraphNodes
  import opened GraphRun
  import Ascii

  const SILENT := Oracle("", [], [], None)

  /** A tool that gets as far as the append at every call. */
  function Filing(n: nat): Oracle {
    Oracle("", [], seq(n, i => NO_RESULT.(reached := true)), None)
  }

  /** A reply taken as an approval. */
  lemma YesApproves()
    ensures Approves("yes")
  {
    hide Ascii.Lower, Ascii.Strip;
    YesIsPlain();
    YesIsListed();
  }

  lemma YesIsPlain()
    ensures Ascii.Lower(Ascii.Strip("yes")) == "yes"
  {
    hide Ascii.Lower, Ascii.Strip;
    Ascii.NothingToStrip("yes");
    Ascii.LowerStays("yes");
  }

  lemma YesIsListed()
    ensures IsApproval("yes")
  {
  }

  // --------------------------------------------------------- opening a turn

  function Open(said: string): seq<Action> { [Say(said, Text, false), Step(SILENT)] }

  function Opened(t: Thread, said: string): Thread {
    Post(t, Human, said, []).(
      channel := Text, lowConfidence := false, invocations := [], sources := [], retrieved := [],
      pendingWrite := None, stopped := false, blocked := false, tier := 0, iterations := 0)
  }

  lemma AfterTwo(cfg: Config, w: World, a: Action, b: Action)
    ensures After(cfg, w, [a, b]) == Next(cfg, Next(cfg, w, a), b)
  {
    hide Next;
    AfterOne(cfg, w, a);
    assert [a, b][..1] == [a];
  }

  lemma CutIsAStep(cfg: Config, w: World, o: Oracle, k: nat)
    requires w.at.At?
    ensures Next(cfg, w, Cut(o, k)) == CutAt(cfg, w, o, k)
  {
  }

  lemma StepIsAdvance(cfg: Config, w: World, o: Oracle)
    requires w.at.At?
    ensures Next(cfg, w, Step(o)) == Advance(cfg, w, o)
  {
    hide Advance;
  }

  lemma OpenLeads(cfg: Config, w: World, said: string)
    requires w.at == Idle && w.thread.next == None && !cfg.screened(said)
    ensures After(cfg, w, Open(said))
      == World(Opened(w.thread, said), At(Agent, None), w.log + [Heard(said), Guarded], w.thread.messages, 1)
  {
    AfterTwo(cfg, w, Say(said, Text, false), Step(SILENT));
    hide After, AgentNode, CaptureNode, ConfirmNode, ToolsNode, ReadbackNode, ParseNode, GroundNode, FormatNode;
    var w1 := Next(cfg, w, Say(said, Text, false));
    assert LastHuman(w1.thread.messages) == said;
    assert w.log + [Heard(said)] + [Guarded] == w.log + [Heard(said), Guarded];
  }

  // -------------------------------------------------------- proposing a write

  function Asks(calls: seq<Call>): Oracle { Oracle("", calls, [], None) }

  function Propose(args: Args): seq<Action> { [Step(Asks([Call(SubmitClaim, args)])), Step(SILENT)] }

  function Proposed(t: Thread, args: Args): Thread {
    Post(t, Assistant, "", [Call(SubmitClaim, args)]).(
      iterations := t.iterations + 1, pendingWrite := Some(args), pendingSplit := None)
  }

  lemma AgentAsks(cfg: Config, w: World, calls: seq<Call>)
    requires w.at == At(Agent, None) && w.thread.iterations < cfg.maxIterations
    ensures Next(cfg, w, Step(Asks(calls))) == w.(
      thread := Post(w.thread, Assistant, "", calls).(iterations := w.thread.iterations + 1),
      at := At(RouteAfterAgent(calls), None), log := w.log + [ModelCalled(true)], ran := w.ran + 1)
  {
    hide RouteAfterAgent, GuardNode, CaptureNode, ConfirmNode, ToolsNode, ReadbackNode, ParseNode, GroundNode, FormatNode;
  }

  lemma CaptureTakes(cfg: Config, w: World, args: Args)
    requires w.at == At(Capture, None) && FirstWrite(LastCalls(w.thread)) == Some(args)
    ensures Next(cfg, w, Step(SILENT)) == w.(
      thread := w.thread.(pendingWrite := Some(args), pendingSplit := None), at := At(Confirm, None), ran := w.ran + 1)
  {
    hide LastCalls, FirstWrite, GuardNode, AgentNode, ConfirmNode, ToolsNode, ReadbackNode, ParseNode, GroundNode, FormatNode;
    assert w.log + [] == w.log;
  }

  lemma ProposeLeads(cfg: Config, w: World, args: Args)
    requires w.at == At(Agent, None) && w.thread.iterations < cfg.maxIterations
    ensures After(cfg, w, Propose(args)) == w.(
      thread := Proposed(w.thread, args), at := At(Confirm, None), log := w.log + [ModelCalled(true)], ran := w.ran + 2)
    ensures LastCalls(Proposed(w.thread, args)) == [Call(SubmitClaim, args)]
  {
    var calls := [Call(SubmitClaim, args)];
    AfterTwo(cfg, w, Step(Asks(calls)), Step(SILENT));
    AgentAsks(cfg, w, calls);
    assert calls[0] in calls && RouteAfterAgent(calls) == Capture && FirstWrite(calls) == Some(args);
    hide Next, After;
    var w1 := Next(cfg, w, Step(Asks(calls)));
    assert LastCalls(w1.thread) == calls;
    CaptureTakes(cfg, w1, args);
  }

  // ------------------------------------------------------- asking and replying

  lemma PromptGoesUp(cfg: Config, w: World)
    requires cfg.requireConfirmation && w.at == At(Confirm, None)
    requires Vouched(cfg, w.thread.messages, Pending(w.thread))
    ensures Next(cfg, w, Step(SILENT)) == w.(
      thread := w.thread.(next := Some(Confirm)), at := Idle,
      log := w.log + [Displayed(Pending(w.thread))], ran := w.ran + 1)
  {
    hide Vouched, Approves;
  }

  lemma MessageResumes(cfg: Config, w: World, node: Node, said: string)
    requires w.at == Idle && w.thread.next == Some(node)
    ensures Next(cfg, w, Say(said, Text, false)) == w.(
      at := At(node, Some(said)), thread := w.thread.(next := None), ran := 0)
  {
  }

  lemma ApprovalGoesToTools(cfg: Config, w: World, reply: string, o: Oracle)
    requires cfg.requireConfirmation && w.at == At(Confirm, Some(reply))
    requires Vouched(cfg, w.thread.messages, Pending(w.thread)) && Approves(reply) && Pending(w.thread) != map[]
    ensures Next(cfg, w, Step(o)) == w.(
      log := w.log + [Answered(reply, true)], ran := w.ran + 1, at := At(Tools, None),
      thread := w.thread.(pendingWrite := Some(Pending(w.thread))))
  {
    hide Vouched, Approves;
  }

  lemma ToolsAdvance(cfg: Config, w: World, o: Oracle)
    requires w.at.At? && w.at.node == Tools
    ensures Next(cfg, w, Step(o)).log == w.log + ToolsNode(cfg, w.thread, o).events
  {
    hide ToolsNode, ConfirmNode, GuardNode, AgentNode, CaptureNode, ReadbackNode, ParseNode, GroundNode, FormatNode;
    assert RunNode(cfg, Tools, w.at.resume, w.thread, o) == ToolsNode(cfg, w.thread, o);
    assert !ToolsNode(cfg, w.thread, o).paused by { ToolsGoOn(cfg, w.thread, o); }
  }

  lemma ToolsGoOn(cfg: Config, t: Thread, o: Oracle)
    ensures !ToolsNode(cfg, t, o).paused
  {
  }

  /** A message after a cut of confirm: it resumes confirm, as a reply. */
  lemma CutThenSay(cfg: Config, w: World, o: Oracle, k: nat, reply: string)
    requires w.at.At? && w.at.node == Confirm
    ensures Next(cfg, CutAt(cfg, w, o, k), Say(reply, Text, false)) == w.(
      at := At(Confirm, Some(reply)), thread := w.thread.(next := None), ran := 0,
      log := w.log + CutEffects(cfg, Confirm, w.at.resume, w.thread, o, k))
  {
    hide CutEffects;
  }

  // --------------------------------------------------------------- searching

  const SEARCHES: seq<Call> := [Call(SearchPolicy, map[])]

  function Found(raw: RawChunk): Oracle { Oracle("", [], [ToolResult(false, "", [raw], "", "", "", false)], None) }

  function Search(raw: RawChunk): seq<Action> { [Step(Asks(SEARCHES)), Step(Found(raw))] }

  lemma SearchRuns(cfg: Config, raw: RawChunk, acc: ToolRun)
    requires SearchPolicy in cfg.tools
    ensures var run := RunCalls(cfg, SEARCHES, Found(raw).results, acc, 1);
      && run.outputs == acc.outputs + [""]
      && run.invocations == acc.invocations + [Invocation(SearchPolicy, map[], false)]
      && run.retrieved == acc.retrieved + [Filled(raw)]
  {
    hide Schema, Filled;
    var result := Found(raw).results[0];
    assert RunCalls(cfg, SEARCHES, [result], acc, 0) == acc;
    assert RunCalls(cfg, SEARCHES, [result], acc, 1) == RunCall(cfg, SEARCHES[0], result, acc);
    assert Evidence(SEARCHES[0], result) == [Filled(raw)];
  }

  lemma ToolsSearch(cfg: Config, t: Thread, raw: RawChunk)
    requires SearchPolicy in cfg.tools && LastCalls(t) == SEARCHES
    ensures var out := ToolsNode(cfg, t, Found(raw));
      && !out.paused && out.goto == Some(Agent)
      && out.thread == Post(t, ToolOutput, "", []).(
           invocations := t.invocations + [Invocation(SearchPolicy, map[], false)],
           retrieved := t.retrieved + [Filled(raw)], pendingWrite := None)
  {
    hide RunCalls, Filled, LastCalls;
    SearchRuns(cfg, raw, ToolRun([], t.invocations, t.retrieved, []));
    assert [] + [""] == [""] && [""][..0] == [];
    assert PostAll(t, []) == t && PostAll(t, [""]) == Post(t, ToolOutput, "", []);
  }

  lemma SearchLeads(cfg: Config, w: World, raw: RawChunk)
    requires SearchPolicy in cfg.tools && w.at == At(Agent, None) && w.thread.iterations < cfg.maxIterations
    ensures var w1 := After(cfg, w, Search(raw)); var t := w.thread;
      && w1.at == At(Agent, None) && w1.history == w.history
      && w1.thread == Post(Post(t, Assistant, "", SEARCHES), ToolOutput, "", []).(
           iterations := t.iterations + 1, invocations := t.invocations + [Invocation(SearchPolicy, map[], false)],
           retrieved := t.retrieved + [Filled(raw)], pendingWrite := None)
  {
    AfterTwo(cfg, w, Step(Asks(SEARCHES)), Step(Found(raw)));
    AgentAsks(cfg, w, SEARCHES);
    var w1 := Next(cfg, w, Step(Asks(SEARCHES)));
    assert forall c :: c in SEARCHES ==> c.name == SearchPolicy;
    assert RouteAfterAgent(SEARCHES) == Tools;
    assert LastCalls(w1.thread) == SEARCHES;
    ToolsSearch(cfg, w1.thread, raw);
    hide ToolsNode, GuardNode, AgentNode, CaptureNode, ConfirmNode, ReadbackNode, ParseNode, GroundNode, FormatNode;
  }
}
