/** Whole runs, from the first message on, in which a turn ends other than its
    design means it to (backend/agent/app/graph/build.py:66-67, 79-183, 250-266;
    nodes.py:863-971; worker.py:80-107). */
module TurnStories {
  import opened GraphState
  import opened Options
  import opened GraphNodes
  import opened GraphRun
  import opened GraphScript
  import opened TurnScope
  import opened TurnAnswers

  // --------------------------------------------------- an empty write, approved

  /** The model proposes a write without arguments, the prompt goes up, "yes". */
  function EmptyWrite(): seq<Action> { Propose(map[]) + [Step(SILENT), Say("yes", Text, false)] }

  lemma EmptyWriteLeads(cfg: Config, w: World)
    requires cfg.requireConfirmation && w.at == At(Agent, None) && w.thread.next == None
    requires w.thread.iterations < cfg.maxIterations
    ensures var w1 := After(cfg, w, EmptyWrite());
      EmptyApproval(cfg, w1) && w1.thread == Proposed(w.thread, map[]) && w1.history == w.history
  {
    hide After, Next, Approves, Vouched, Proposed;
    ProposeLeads(cfg, w, map[]);
    var w0 := After(cfg, w, Propose(map[]));
    ProposedWaits(w.thread);
    NothingToVouch(cfg, w0.thread.messages);
    PromptGoesUp(cfg, w0);
    var shown := Next(cfg, w0, Step(SILENT));
    MessageResumes(cfg, shown, Confirm, "yes");
    AfterTwo(cfg, w0, Step(SILENT), Say("yes", Text, false));
    AfterJoins(cfg, w, Propose(map[]), [Step(SILENT), Say("yes", Text, false)]);
    YesApproves();
  }

  lemma ProposedWaits(t: Thread)
    requires t.next == None
    ensures Pending(Proposed(t, map[])) == map[] && Proposed(t, map[]).next == None
  {
  }

  lemma NothingToVouch(cfg: Config, ms: seq<Message>)
    ensures Vouched(cfg, ms, map[])
  {
  }

  lemma StepsEnd(cfg: Config, w: World)
    ensures After(cfg, w, [Step(SILENT), Step(SILENT), Step(SILENT)]) == Ended(cfg, w, SILENT)
  {
    hide Next;
    AfterTwo(cfg, w, Step(SILENT), Step(SILENT));
    assert [Step(SILENT), Step(SILENT), Step(SILENT)][..2] == [Step(SILENT), Step(SILENT)];
  }

  // ------------------------------------------ a finished turn without a source

  function MuteRun(said: string, raw: RawChunk): seq<Action> {
    (Open(said) + Search(raw) + EmptyWrite()) + ([Step(SILENT)] + [Step(SILENT), Step(SILENT), Step(SILENT)])
  }

  lemma MuteThread(t: Thread, said: string, raw: RawChunk)
    requires t == Proposed(
      Post(Post(Opened(EMPTY_THREAD, said), Assistant, "", SEARCHES), ToolOutput, "", []).(
        iterations := 1, invocations := [Invocation(SearchPolicy, map[], false)], retrieved := [Filled(raw)], pendingWrite := None),
      map[])
    ensures LastAnswer(t.messages) == None && t.retrieved == [Filled(raw)] && t.next == None
  {
    var last := LastAnswer(t.messages);
    hide LastAnswer;
    assert |t.messages| == 4 && forall i :: 0 <= i < 4 ==> !IsAnswer(t.messages[i]);
  }

  /** The policy was searched, a write without arguments was approved, and the
      turn ended: with evidence, and without a single source. */
  lemma MuteTurn(cfg: Config, said: string, raw: RawChunk)
    requires cfg.requireConfirmation && cfg.maxIterations >= 2 && SearchPolicy in cfg.tools && !cfg.screened(said)
    ensures var w := Exec(cfg, MuteRun(said, raw));
      Standing(w) == None && HarvestThisTurn(w.log, Saved) == [Filled(raw)] && w.thread.sources == []
  {
    hide After, Next, Advance, Approves, LastAnswer, HarvestThisTurn, Filled, Proposed;
    OpenLeads(cfg, START, said);
    var w0 := After(cfg, START, Open(said));
    SearchLeads(cfg, w0, raw);
    var w1 := After(cfg, w0, Search(raw));
    EmptyWriteLeads(cfg, w1);
    var w2 := After(cfg, w1, EmptyWrite());
    assert [] + [Filled(raw)] == [Filled(raw)];
    assert [] + [Invocation(SearchPolicy, map[], false)] == [Invocation(SearchPolicy, map[], false)];
    MuteThread(w2.thread, said, raw);
    EmptyApprovalStep(cfg, w2, SILENT);
    var w3 := Advance(cfg, w2, SILENT);
    MuteTail(cfg, w3, SILENT);
    EmptyApprovalIsConfirm(cfg, w2);
    StepIsAdvance(cfg, w2, SILENT);
    AfterOne(cfg, w2, Step(SILENT));
    StepsEnd(cfg, w3);
    AfterJoins(cfg, START, Open(said), Search(raw));
    AfterJoins(cfg, START, Open(said) + Search(raw), EmptyWrite());
    AfterJoins(cfg, w2, [Step(SILENT)], [Step(SILENT), Step(SILENT), Step(SILENT)]);
    AfterJoins(cfg, START, Open(said) + Search(raw) + EmptyWrite(), [Step(SILENT)] + [Step(SILENT), Step(SILENT), Step(SILENT)]);
    ExecIsAfter(cfg, MuteRun(said, raw));
    EvidenceIsThisTurns(cfg, MuteRun(said, raw));
  }

  // --------------------------------------------- an earlier answer rewritten

  function Answer(text: string): Oracle { Oracle(text, [], [], None) }

  function FirstTurn(said: string, text: string): seq<Action> {
    Open(said) + ([Step(Answer(text)), Step(SILENT)] + [Step(SILENT), Step(SILENT), Step(SILENT)])
  }

  /** A human message and an answer to it, in a turn's tail or after it. */
  ghost predicate OneExchange(t: Thread) {
    && IdsInOrder(t) && |t.messages| == 2 && t.next == None && t.channel == Text
    && t.messages[0].role == Human && IsAnswer(t.messages[1])
  }

  lemma OneExchangeAnswers(t: Thread)
    requires OneExchange(t)
    ensures LastAnswer(t.messages) == Some(1)
  {
    LastAnswerAt(t.messages);
  }

  lemma AgentAnswers(cfg: Config, w: World, text: string)
    requires w.at == At(Agent, None) && w.thread.iterations < cfg.maxIterations
    requires IdsInOrder(w.thread) && |w.thread.messages| == 1 && w.thread.messages[0].role == Human
    requires w.thread.next == None && w.thread.channel == Text
    ensures var w1 := Next(cfg, w, Step(Answer(text)));
      && w1.at == At(Readback, None) && OneExchange(w1.thread) && w1.history == w.history
      && w1.thread.messages[1].content == text
  {
    hide GuardNode, CaptureNode, ConfirmNode, ToolsNode, ReadbackNode, ParseNode, GroundNode, FormatNode;
  }

  /** What a node of the tail makes of the answer. */
  function Rewritten(cfg: Config, node: Node, t: Thread, text: string): string {
    match node
    case Parse => cfg.unwrap(text)
    case Ground => cfg.grounded(text, t)
    case Format => cfg.presented(text, Text)
    case _ => text
  }

  function HandsOn(node: Node): Where {
    match node
    case Readback => At(Parse, None)
    case Parse => At(Ground, None)
    case Ground => At(Format, None)
    case _ => Idle
  }

  lemma TailRewrites(cfg: Config, t: Thread, node: Node)
    requires InTail(node) && OneExchange(t)
    ensures var t1 := RunNode(cfg, node, None, t, SILENT).thread;
      |t1.messages| == 2 && t1.messages[1].content == Rewritten(cfg, node, t, t.messages[1].content)
  {
    hide LastAnswer, Merge, SourcesFor;
    OneExchangeAnswers(t);
    RepublishReplaces(t, 1, Rewritten(cfg, node, t, t.messages[1].content));
  }

  /** Each node of the tail keeps the exchange, rewrites its answer and hands on. */
  lemma TailKeepsExchange(cfg: Config, w: World, node: Node)
    requires w.at == At(node, None) && InTail(node) && OneExchange(w.thread)
    ensures var w1 := Next(cfg, w, Step(SILENT));
      && OneExchange(w1.thread) && w1.history == w.history && w1.at == HandsOn(node)
      && w1.thread.messages[1].content == Rewritten(cfg, node, w.thread, w.thread.messages[1].content)
  {
    hide RunNode, LastAnswer, Rewritten;
    OneExchangeAnswers(w.thread);
    TailRewritesOne(cfg, node, None, w.thread, SILENT);
    TailGoesOn(cfg, node, None, w.thread, SILENT);
    TailRewrites(cfg, w.thread, node);
  }

  /** Grounding and the channel leave answers as they are. */
  ghost predicate PassesThrough(cfg: Config) {
    (forall text, t :: cfg.grounded(text, t) == text) && (forall text, channel :: cfg.presented(text, channel) == text)
  }

  lemma FirstTurnLeads(cfg: Config, said: string, text: string)
    requires cfg.maxIterations >= 1 && !cfg.screened(said)
    ensures var w := After(cfg, START, FirstTurn(said, text)); w.at == Idle && OneExchange(w.thread)
    ensures PassesThrough(cfg) ==> After(cfg, START, FirstTurn(said, text)).thread.messages[1].content == cfg.unwrap(text)
  {
    hide After, Next;
    OpenLeads(cfg, START, said);
    var w0 := After(cfg, START, Open(said));
    assert IdsInOrder(w0.thread);
    hide IdsInOrder;
    AgentAnswers(cfg, w0, text);
    var w1 := Next(cfg, w0, Step(Answer(text)));
    TailKeepsExchange(cfg, w1, Readback);
    var w2 := Next(cfg, w1, Step(SILENT));
    TailKeepsExchange(cfg, w2, Parse);
    var w3 := Next(cfg, w2, Step(SILENT));
    TailKeepsExchange(cfg, w3, Ground);
    TailKeepsExchange(cfg, Next(cfg, w3, Step(SILENT)), Format);
    AfterTwo(cfg, w0, Step(Answer(text)), Step(SILENT));
    StepsEnd(cfg, w2);
    AfterJoins(cfg, w0, [Step(Answer(text)), Step(SILENT)], [Step(SILENT), Step(SILENT), Step(SILENT)]);
    AfterJoins(cfg, START, Open(said), [Step(Answer(text)), Step(SILENT)] + [Step(SILENT), Step(SILENT), Step(SILENT)]);
  }

  /** The second turn, up to where the first node of its tail has run. */
  function EditRun(said: string, text: string): seq<Action> {
    FirstTurn(said, text) + ((Open(said) + EmptyWrite()) + [Step(SILENT), Step(SILENT)])
  }

  lemma SecondTurnStands(w: World, before: Thread, said: string)
    requires OneExchange(before) && w.history == before.messages
    requires w.at.At? && w.at.node == Confirm && w.thread == Proposed(Opened(before, said), map[])
    ensures TurnInv(w) && LastAnswer(w.thread.messages) == Some(1)
  {
    var ms := w.thread.messages;
    assert |ms| == 4 && ms[..2] == before.messages;
    assert !IsAnswer(ms[2]) && !IsAnswer(ms[3]) && IsAnswer(ms[1]);
    var last := LastAnswer(ms);
    hide LastAnswer;
    assert w.history <= ms;
  }

  /** A turn with one answer, then one with an empty write approved: the first
      answer is rewritten once more, and the history it belongs to stands exactly
      when rewriting a finished answer changes nothing. */
  lemma FinishedAnswerIsEdited(cfg: Config, said: string, text: string)
    requires cfg.requireConfirmation && cfg.maxIterations >= 1 && !cfg.screened(said)
    ensures var given := Exec(cfg, FirstTurn(said, text)).thread.messages; var w := Exec(cfg, EditRun(said, text));
      && |given| == 2 && w.history == given && |w.thread.messages| >= 2
      && w.thread.messages[1].content == cfg.unwrap(given[1].content)
      && (w.history <= w.thread.messages <==> cfg.unwrap(given[1].content) == given[1].content)
      && (PassesThrough(cfg) ==> given[1].content == cfg.unwrap(text))
  {
    hide After, Next, Advance, Approves, LastAnswer, Proposed, TurnInv, EmptyApproval;
    FirstTurnLeads(cfg, said, text);
    var w0 := After(cfg, START, FirstTurn(said, text));
    OpenLeads(cfg, w0, said);
    var w1 := After(cfg, w0, Open(said));
    EmptyWriteLeads(cfg, w1);
    var w2 := After(cfg, w1, EmptyWrite());
    EmptyApprovalIsConfirm(cfg, w2);
    SecondTurnStands(w2, w0.thread, said);
    EmptyApprovalStep(cfg, w2, SILENT);
    EmptyApprovalEditsHistory(cfg, w2, SILENT, 1);
    StepIsAdvance(cfg, w2, SILENT);
    StepIsAdvance(cfg, Advance(cfg, w2, SILENT), SILENT);
    AfterTwo(cfg, w2, Step(SILENT), Step(SILENT));
    AfterJoins(cfg, w0, Open(said), EmptyWrite());
    AfterJoins(cfg, w0, Open(said) + EmptyWrite(), [Step(SILENT), Step(SILENT)]);
    AfterJoins(cfg, START, FirstTurn(said, text), (Open(said) + EmptyWrite()) + [Step(SILENT), Step(SILENT)]);
    ExecIsAfter(cfg, EditRun(said, text));
    ExecIsAfter(cfg, FirstTurn(said, text));
  }

  /** An envelope inside an envelope: the second turn opens the inner one. */
  lemma SomeHistoryIsEdited() returns (cfg: Config, said: string, text: string)
    ensures var w := Exec(cfg, EditRun(said, text)); !(w.history <= w.thread.messages)
  {
    cfg := Config(true, 1, {}, s => false, s => None, (a, b) => b, s => {}, s => {}, s => None,
                  s => if s != "" && s[0] == '(' then s[1..] else s,
                  (s, t) => s, (s, c) => s, (s, c) => false, s => {});
    said, text := "", "((a";
    hide Exec, EditRun, FirstTurn;
    FinishedAnswerIsEdited(cfg, said, text);
    assert cfg.unwrap(text) == "(a" && cfg.unwrap("(a") == "a";
    assert |cfg.unwrap("(a")| == 1 && |"(a"| == 2;
  }

  // ------------------------------------------------ a record that a cut lost

  function LostRun(said: string, raw: RawChunk): seq<Action> {
    Open(said) + [Step(Asks(SEARCHES)), Cut(Found(raw), 1)]
  }

  lemma CutSearch(cfg: Config, t: Thread, raw: RawChunk)
    requires SearchPolicy in cfg.tools && LastCalls(t) == SEARCHES
    ensures CutEffects(cfg, Tools, None, t, Found(raw), 1)
      == [Harvested(Filled(raw), false), Ran(Invocation(SearchPolicy, map[], false), false)]
  {
    hide Schema, Filled;
    var result := Found(raw).results[0];
    assert RunCalls(cfg, SEARCHES, [result], NOTHING_RUN, 0) == NOTHING_RUN;
    assert RunCalls(cfg, SEARCHES, [result], NOTHING_RUN, 1) == RunCall(cfg, SEARCHES[0], result, NOTHING_RUN);
    assert Evidence(SEARCHES[0], result) == [Filled(raw)];
  }

  /** The search ran and found its text; the turn that resumes knows nothing of it. */
  lemma CutLosesTheSearch(cfg: Config, said: string, raw: RawChunk)
    requires cfg.maxIterations >= 1 && SearchPolicy in cfg.tools && !cfg.screened(said)
    ensures var w := Exec(cfg, LostRun(said, raw));
      && w.thread.invocations == [] && w.thread.retrieved == [] && Standing(w) == Some(Tools)
      && w.log == [Heard(said), Guarded, ModelCalled(true),
                   Harvested(Filled(raw), false), Ran(Invocation(SearchPolicy, map[], false), false)]
  {
    hide After, Next, Filled, CutEffects;
    OpenLeads(cfg, START, said);
    var w0 := After(cfg, START, Open(said));
    AgentAsks(cfg, w0, SEARCHES);
    var w1 := Next(cfg, w0, Step(Asks(SEARCHES)));
    assert forall c :: c in SEARCHES ==> c.name == SearchPolicy;
    assert LastCalls(w1.thread) == SEARCHES;
    CutSearch(cfg, w1.thread, raw);
    CutIsAStep(cfg, w1, Found(raw), 1);
    AfterTwo(cfg, w0, Step(Asks(SEARCHES)), Cut(Found(raw), 1));
    AfterJoins(cfg, START, Open(said), [Step(Asks(SEARCHES)), Cut(Found(raw), 1)]);
    ExecIsAfter(cfg, LostRun(said, raw));
  }
}
