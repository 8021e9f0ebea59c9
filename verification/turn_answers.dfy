/** What the end of a turn says and touches: a finished turn cites what it found,
    and its last nodes edit its own answer only
    (backend/agent/app/graph/nodes.py:863-971, 1139-1257; build.py:66-67). */
module TurnAnswers {
  import opened GraphState
  import opened Options
  import opened GraphNodes
  import opened GraphRun
  import opened TurnScope

  // ------------------------------------------------------- whose answer it is

  /** The approved write was an empty dictionary: nothing runs, and nothing is
      said either. This is the one way into the tail without an answer. */
  ghost predicate EmptyApproval(cfg: Config, w: World) {
    && w.at.At? && w.at.node == Confirm && Pending(w.thread) == map[]
    && (cfg.requireConfirmation ==> w.at.resume.Some? && Approves(w.at.resume.value))
  }

  ghost predicate Allowed(cfg: Config, w: World, a: Action) {
    a.Step? ==> !EmptyApproval(cfg, w)
  }

  /** The last answer in the thread was given in this turn. */
  ghost predicate AnsweredThisTurn(w: World) {
    var last := LastAnswer(w.thread.messages);
    last.Some? && last.value >= |w.history|
  }

  ghost predicate TurnInv(w: World) {
    && IdsInOrder(w.thread)
    && (w.at.At? ==> w.thread.next == None)
    && w.history <= w.thread.messages
    && (match Standing(w)
        case None => true
        case Some(node) =>
          if InTail(node) then AnsweredThisTurn(w)
          else forall i :: |w.history| <= i < |w.thread.messages| ==> !IsAnswer(w.thread.messages[i]))
  }

  lemma LastAnswerAt(ms: seq<Message>)
    requires ms != [] && IsAnswer(ms[|ms| - 1])
    ensures LastAnswer(ms) == Some(|ms| - 1)
  {
  }

  lemma TurnGuard(cfg: Config, w: World, o: Oracle)
    requires TurnInv(w) && w.at.At? && w.at.node == Guard
    ensures TurnInv(Advance(cfg, w, o))
  {
    var t := GuardNode(cfg, w.thread).thread;
    if t.blocked { LastAnswerAt(t.messages); }
  }

  lemma TurnAgent(cfg: Config, w: World, o: Oracle)
    requires TurnInv(w) && w.at.At? && w.at.node == Agent
    ensures TurnInv(Advance(cfg, w, o))
  {
    hide LastAnswer, GuardNode, CaptureNode, ConfirmNode, ToolsNode, ReadbackNode, ParseNode, GroundNode, FormatNode;
    var out := AgentNode(cfg, w.thread, o);
    if out.goto == Some(Readback) { LastAnswerAt(out.thread.messages); }
  }

  lemma TurnTools(cfg: Config, w: World, o: Oracle)
    requires TurnInv(w) && w.at.At? && w.at.node == Tools
    ensures TurnInv(Advance(cfg, w, o))
  {
    hide RunCalls;
    var acc := ToolRun([], w.thread.invocations, w.thread.retrieved, []);
    var calls := LastCalls(w.thread);
    PostAllExtends(w.thread, RunCalls(cfg, calls, o.results, acc, |calls|).outputs);
  }

  /** Entering the tail from confirm: the tail will edit an answer of this turn
      exactly when the write approved was not empty. */
  lemma TailOwnsItsAnswer(cfg: Config, w: World, o: Oracle)
    requires TurnInv(w) && w.at.At? && w.at.node == Confirm
    requires Advance(cfg, w, o).at == At(Parse, None)
    ensures AnsweredThisTurn(Advance(cfg, w, o)) <==> !EmptyApproval(cfg, w)
  {
    hide Approves;
    var w1 := Advance(cfg, w, o);
    var out := ConfirmNode(cfg, w.thread, w.at.resume);
    if |out.thread.messages| > |w.thread.messages| {
      LastAnswerAt(w1.thread.messages);
    } else {
      assert w1.thread.messages == w.thread.messages;
    }
  }

  lemma TurnConfirm(cfg: Config, w: World, o: Oracle)
    requires TurnInv(w) && w.at.At? && w.at.node == Confirm && !EmptyApproval(cfg, w)
    ensures TurnInv(Advance(cfg, w, o))
  {
    hide LastAnswer, EmptyApproval, ConfirmNode;
    ConfirmShape(cfg, w.thread, w.at.resume);
    if Advance(cfg, w, o).at == At(Parse, None) { TailOwnsItsAnswer(cfg, w, o); }
  }

  lemma CaptureShape(t: Thread, o: Oracle)
    ensures var out := CaptureNode(t, o);
      !out.paused && out.goto == Some(Confirm) && out.thread.messages == t.messages
      && out.thread.nextId == t.nextId && out.thread.next == t.next
  {
    hide FirstWrite;
  }

  lemma TurnCapture(cfg: Config, w: World, o: Oracle)
    requires TurnInv(w) && w.at.At? && w.at.node == Capture
    ensures TurnInv(Advance(cfg, w, o))
  {
    hide LastAnswer, CaptureNode, GuardNode, AgentNode, ConfirmNode, ToolsNode, ReadbackNode, ParseNode, GroundNode, FormatNode;
    CaptureShape(w.thread, o);
  }

  lemma TurnTail(cfg: Config, w: World, o: Oracle)
    requires TurnInv(w) && w.at.At? && InTail(w.at.node)
    ensures TurnInv(Advance(cfg, w, o))
  {
    hide SourcesFor, Merge, ReadbackNode, ParseNode, FormatNode;
    TailRewritesOne(cfg, w.at.node, w.at.resume, w.thread, o);
    TailGoesOn(cfg, w.at.node, w.at.resume, w.thread, o);
    var w1 := Advance(cfg, w, o);
    RewriteKeepsLast(w.thread.messages, w1.thread.messages);
  }

  lemma RewriteKeepsLast(before: seq<Message>, after: seq<Message>)
    requires LastAnswer(before).Some?
    requires after == before || OneAnswerRewritten(before, after, LastAnswer(before).value)
    ensures LastAnswer(after) == LastAnswer(before)
  {
    hide LastAnswer;
    var i := LastAnswer(before).value;
    var j := LastAnswer(after);
    assert IsAnswer(after[i]);
    if after != before { assert forall k :: 0 <= k < |after| && k != i ==> after[k] == before[k]; }
  }

  lemma TurnStep(cfg: Config, w: World, a: Action)
    requires TurnInv(w) && Allowed(cfg, w, a)
    ensures TurnInv(Next(cfg, w, a))
  {
    hide LastAnswer, Advance, EmptyApproval;
    if a.Step? && w.at.At? {
      match w.at.node
      case Guard => TurnGuard(cfg, w, a.oracle);
      case Agent => TurnAgent(cfg, w, a.oracle);
      case Tools => TurnTools(cfg, w, a.oracle);
      case Confirm => TurnConfirm(cfg, w, a.oracle);
      case Capture => TurnCapture(cfg, w, a.oracle);
      case _ => TurnTail(cfg, w, a.oracle);
    }
  }

  ghost predicate AllowedRun(cfg: Config, run: seq<Action>) {
    forall i :: 0 <= i < |run| ==> Allowed(cfg, Exec(cfg, run[..i]), run[i])
  }

  // ------------------------------------------------------------ main results

  lemma AllowedPrefix(cfg: Config, run: seq<Action>)
    requires run != [] && AllowedRun(cfg, run)
    ensures AllowedRun(cfg, run[..|run| - 1])
  {
    var front := run[..|run| - 1];
    forall i | 0 <= i < |front| ensures Allowed(cfg, Exec(cfg, front[..i]), front[i]) {
      assert front[..i] == run[..i];
    }
  }

  lemma {:induction false} RunKeepsTurns(cfg: Config, run: seq<Action>)
    requires AllowedRun(cfg, run)
    ensures TurnInv(Exec(cfg, run))
  {
    if run != [] {
      var front := run[..|run| - 1];
      AllowedPrefix(cfg, run);
      RunKeepsTurns(cfg, front);
      TurnStep(cfg, Exec(cfg, front), run[|run| - 1]);
    }
  }

  lemma HistoryStep(cfg: Config, w: World, a: Action)
    ensures Next(cfg, w, a).history == w.history || Next(cfg, w, a).history == w.thread.messages
  {
    hide RunNode;
  }

  /** What the conversation held when any turn began, it holds for ever. */
  lemma {:induction false} EarlierTurnsStand(cfg: Config, run: seq<Action>, i: nat)
    requires i <= |run| && AllowedRun(cfg, run)
    ensures Exec(cfg, run[..i]).history <= Exec(cfg, run).history <= Exec(cfg, run).thread.messages
  {
    RunKeepsTurns(cfg, run);
    if i == |run| {
      assert run[..i] == run;
    } else {
      var front := run[..|run| - 1];
      AllowedPrefix(cfg, run);
      EarlierTurnsStand(cfg, front, i);
      assert front[..i] == run[..i];
      HistoryStep(cfg, Exec(cfg, front), run[|run| - 1]);
    }
  }

  // -------------------------------------------------------------- the sources

  lemma {:induction false} NonEmptyWhenCited(chunks: seq<Chunk>)
    requires chunks != [] && forall c :: c in chunks ==> c.citation != ""
    ensures CitationsWhere(chunks, c => true) != []
  {
  }

  lemma SourcesNonEmpty(cfg: Config, text: string, chunks: seq<Chunk>)
    requires chunks != [] && forall c :: c in chunks ==> c.citation != ""
    ensures SourcesFor(cfg, text, chunks) != []
  {
    NonEmptyWhenCited(chunks);
    var attributed := Attributed(cfg, text, chunks);
    var all := if attributed != [] then attributed else CitationsWhere(chunks, c => true);
    assert all[0] in all;
    assert all[0] in Dedup(all);
  }

  lemma FormatKeepsSources(cfg: Config, t: Thread)
    ensures FormatNode(cfg, t).thread.sources == t.sources
  {
  }

  /** An empty write approved where the thread holds no answer at all. */
  ghost predicate Mute(cfg: Config, w: World) { EmptyApproval(cfg, w) && LastAnswer(w.thread.messages) == None }

  ghost predicate SourcesInv(w: World) {
    && IdsInOrder(w.thread)
    && (w.at.At? ==> w.thread.next == None)
    && (match Standing(w)
        case None => w.thread.retrieved != [] ==> w.thread.sources != []
        case Some(node) =>
          && (InTail(node) ==> LastAnswer(w.thread.messages).Some?)
          && (node == Format && w.thread.retrieved != [] ==> w.thread.sources != []))
  }

  lemma SourcesGuard(cfg: Config, w: World, o: Oracle)
    requires SourcesInv(w) && w.at.At? && w.at.node == Guard
    ensures SourcesInv(Advance(cfg, w, o))
  {
    hide LastAnswer, AgentNode, CaptureNode, ConfirmNode, ToolsNode, ReadbackNode, ParseNode, GroundNode, FormatNode;
    var t := GuardNode(cfg, w.thread).thread;
    if t.blocked { LastAnswerAt(t.messages); }
  }

  lemma SourcesAgent(cfg: Config, w: World, o: Oracle)
    requires SourcesInv(w) && w.at.At? && w.at.node == Agent
    ensures SourcesInv(Advance(cfg, w, o))
  {
    hide LastAnswer, GuardNode, CaptureNode, ConfirmNode, ToolsNode, ReadbackNode, ParseNode, GroundNode, FormatNode;
    var out := AgentNode(cfg, w.thread, o);
    if out.goto == Some(Readback) { LastAnswerAt(out.thread.messages); }
  }

  lemma SourcesTools(cfg: Config, w: World, o: Oracle)
    requires SourcesInv(w) && w.at.At? && w.at.node == Tools
    ensures SourcesInv(Advance(cfg, w, o))
  {
    hide LastAnswer, RunCalls, GuardNode, AgentNode, CaptureNode, ConfirmNode, ReadbackNode, ParseNode, GroundNode,
      FormatNode;
    var acc := ToolRun([], w.thread.invocations, w.thread.retrieved, []);
    var calls := LastCalls(w.thread);
    PostAllExtends(w.thread, RunCalls(cfg, calls, o.results, acc, |calls|).outputs);
  }

  lemma SourcesCapture(cfg: Config, w: World, o: Oracle)
    requires SourcesInv(w) && w.at.At? && w.at.node == Capture
    ensures SourcesInv(Advance(cfg, w, o))
  {
    hide LastAnswer, CaptureNode, GuardNode, AgentNode, ConfirmNode, ToolsNode, ReadbackNode, ParseNode, GroundNode, FormatNode;
    CaptureShape(w.thread, o);
  }

  /** Entering the tail from confirm there is an answer to ground, exactly when
      no empty write was approved on a thread without one. */
  lemma TailHasAnAnswer(cfg: Config, w: World, o: Oracle)
    requires w.at.At? && w.at.node == Confirm
    requires Advance(cfg, w, o).at == At(Parse, None)
    ensures LastAnswer(Advance(cfg, w, o).thread.messages).Some? <==> !Mute(cfg, w)
  {
    hide Approves, LastAnswer, Vouched;
    var out := ConfirmNode(cfg, w.thread, w.at.resume);
    if |out.thread.messages| > |w.thread.messages| {
      LastAnswerAt(out.thread.messages);
      DeclinesAreNotEmptyApprovals(cfg, w);
    } else {
      assert out.thread.messages == w.thread.messages;
    }
  }

  lemma DeclinesAreNotEmptyApprovals(cfg: Config, w: World)
    requires w.at.At? && w.at.node == Confirm
    requires |ConfirmNode(cfg, w.thread, w.at.resume).thread.messages| > |w.thread.messages|
    ensures !EmptyApproval(cfg, w)
  {
    hide Approves;
  }

  lemma SourcesConfirm(cfg: Config, w: World, o: Oracle)
    requires SourcesInv(w) && w.at.At? && w.at.node == Confirm && !Mute(cfg, w)
    ensures SourcesInv(Advance(cfg, w, o))
  {
    hide LastAnswer, Mute, ConfirmNode;
    ConfirmShape(cfg, w.thread, w.at.resume);
    if Advance(cfg, w, o).at == At(Parse, None) { TailHasAnAnswer(cfg, w, o); }
  }

  lemma SourcesTail(cfg: Config, w: World, o: Oracle)
    requires SourcesInv(w) && Scoped(w) && w.at.At? && InTail(w.at.node)
    ensures SourcesInv(Advance(cfg, w, o))
  {
    hide SourcesFor, Merge, ReadbackNode, ParseNode, FormatNode, LastAnswer;
    TailRewritesOne(cfg, w.at.node, w.at.resume, w.thread, o);
    TailGoesOn(cfg, w.at.node, w.at.resume, w.thread, o);
    RewriteKeepsLast(w.thread.messages, Advance(cfg, w, o).thread.messages);
    if w.at.node == Ground && w.thread.retrieved != [] {
      forall text { SourcesNonEmpty(cfg, text, w.thread.retrieved); }
    }
    if w.at.node == Format { FormatKeepsSources(cfg, w.thread); }
  }

  lemma SourcesStep(cfg: Config, w: World, a: Action)
    requires SourcesInv(w) && Scoped(w) && (a.Step? ==> !Mute(cfg, w))
    ensures SourcesInv(Next(cfg, w, a))
  {
    hide Scoped, LastAnswer, Advance, Mute, CutEffects;
    if a.Step? && w.at.At? {
      match w.at.node
      case Guard => SourcesGuard(cfg, w, a.oracle);
      case Agent => SourcesAgent(cfg, w, a.oracle);
      case Tools => SourcesTools(cfg, w, a.oracle);
      case Confirm => SourcesConfirm(cfg, w, a.oracle);
      case Capture => SourcesCapture(cfg, w, a.oracle);
      case _ => SourcesTail(cfg, w, a.oracle);
    }
  }

  ghost predicate NeverMute(cfg: Config, run: seq<Action>) {
    forall i :: 0 <= i < |run| && run[i].Step? ==> !Mute(cfg, Exec(cfg, run[..i]))
  }

  lemma {:induction false} RunKeepsSources(cfg: Config, run: seq<Action>)
    requires NeverMute(cfg, run)
    ensures SourcesInv(Exec(cfg, run))
  {
    hide SourcesInv, Next, Mute;
    if run == [] {
      NoSourcesYet();
    } else {
      var front := run[..|run| - 1];
      forall i | 0 <= i < |front| && front[i].Step? ensures !Mute(cfg, Exec(cfg, front[..i])) {
        assert front[..i] == run[..i];
      }
      RunKeepsSources(cfg, front);
      EvidenceIsThisTurns(cfg, front);
      SourcesStep(cfg, Exec(cfg, front), run[|run| - 1]);
    }
  }

  lemma NoSourcesYet()
    ensures SourcesInv(START)
  {
  }

  /** A turn that finished with evidence saved reports a source, in every run in
      which no empty write was approved on a thread without an answer. */
  lemma FinishedTurnsCite(cfg: Config, run: seq<Action>)
    requires NeverMute(cfg, run)
    requires Standing(Exec(cfg, run)) == None
    requires HarvestThisTurn(Exec(cfg, run).log, Saved) != []
    ensures Exec(cfg, run).thread.sources != []
  {
    RunKeepsSources(cfg, run);
    EvidenceIsThisTurns(cfg, run);
  }

  // --------------------------------------------------- what an empty write does

  lemma EmptyApprovalStep(cfg: Config, w: World, o: Oracle)
    requires EmptyApproval(cfg, w)
    ensures Advance(cfg, w, o).at == At(Parse, None) && Advance(cfg, w, o).history == w.history
    ensures Advance(cfg, w, o).thread == w.thread.(pendingWrite := Some(map[]))
  {
    hide Approves;
    assert Vouched(cfg, w.thread.messages, map[]);
  }

  /** The three nodes that end a turn. */
  ghost function Ended(cfg: Config, w: World, o: Oracle): World {
    Next(cfg, Next(cfg, Next(cfg, w, Step(o)), Step(o)), Step(o))
  }

  lemma TailStep(cfg: Config, w: World, node: Node, o: Oracle)
    requires SourcesInv(w) && Scoped(w) && w.at == At(node, None) && node in {Parse, Ground, Format}
    ensures var w1 := Next(cfg, w, Step(o));
      && SourcesInv(w1) && Scoped(w1) && w1.thread.retrieved == w.thread.retrieved
      && w1.at == (match node case Parse => At(Ground, None) case Ground => At(Format, None) case _ => Idle)
      && Standing(w1) == (match node case Parse => Some(Ground) case Ground => Some(Format) case _ => None)
  {
    hide Scoped, SourcesFor, Merge, ReadbackNode, ParseNode, GroundNode, FormatNode;
    SourcesTail(cfg, w, o);
    ScopedNode(cfg, w, o);
    TailRewritesOne(cfg, node, None, w.thread, o);
    TailGoesOn(cfg, node, None, w.thread, o);
  }

  lemma MuteTail(cfg: Config, w: World, o: Oracle)
    requires w.at == At(Parse, None) && w.thread.next == None && LastAnswer(w.thread.messages) == None
    ensures var e := Ended(cfg, w, o); Standing(e) == None && e.thread.sources == [] && e.thread.retrieved == w.thread.retrieved
  {
    hide LastAnswer, GuardNode, AgentNode, CaptureNode, ConfirmNode, ToolsNode, ReadbackNode, SourcesFor;
  }

  /** After an approved empty write, in a turn with evidence, the turn ends with
      sources exactly when the thread holds an answer, of whatever turn. */
  lemma EmptyApprovalCitesIff(cfg: Config, w: World, o: Oracle)
    requires EmptyApproval(cfg, w) && Scoped(w) && SourcesInv(w) && w.thread.retrieved != []
    ensures var e := Ended(cfg, Advance(cfg, w, o), o);
      Standing(e) == None && e.thread.retrieved != [] && (e.thread.sources != [] <==> !Mute(cfg, w))
  {
    hide Scoped, LastAnswer, EmptyApproval, Advance, Next, SourcesInv;
    EmptyApprovalIsConfirm(cfg, w);
    var w1 := Advance(cfg, w, o);
    EmptyApprovalStep(cfg, w, o);
    if Mute(cfg, w) {
      StillRunning(w);
      MuteTail(cfg, w1, o);
    } else {
      SourcesConfirm(cfg, w, o);
      ScopedNode(cfg, w, o);
      TailStep(cfg, w1, Parse, o);
      var w2 := Next(cfg, w1, Step(o));
      TailStep(cfg, w2, Ground, o);
      var w3 := Next(cfg, w2, Step(o));
      TailStep(cfg, w3, Format, o);
      DoneMeansCited(Next(cfg, w3, Step(o)));
    }
  }

  lemma StillRunning(w: World)
    requires SourcesInv(w) && w.at.At?
    ensures w.thread.next == None
  {
  }

  lemma EmptyApprovalIsConfirm(cfg: Config, w: World)
    requires EmptyApproval(cfg, w)
    ensures w.at.At? && w.at.node == Confirm
  {
  }

  lemma DoneMeansCited(w: World)
    requires SourcesInv(w) && Standing(w) == None && w.thread.retrieved != []
    ensures w.thread.sources != []
  {
  }

  /** After it, parse rewrites an answer of an earlier turn, if there is one; the
      history is untouched exactly when the rewriting changes nothing. */
  lemma EmptyApprovalEditsHistory(cfg: Config, w: World, o: Oracle, i: nat)
    requires EmptyApproval(cfg, w) && TurnInv(w)
    requires LastAnswer(w.thread.messages) == Some(i)
    ensures i < |w.history|
    ensures var w2 := Advance(cfg, Advance(cfg, w, o), o); var rewritten := cfg.unwrap(w.history[i].content);
      && w2.history == w.history
      && w2.thread.messages == w.thread.messages[i := Message(w.history[i].id, Assistant, rewritten, [])]
      && (w.history <= w2.thread.messages <==> rewritten == w.history[i].content)
  {
    EmptyApprovalStep(cfg, w, o);
    hide ConfirmNode, EmptyApproval, GuardNode, AgentNode, CaptureNode, ToolsNode, ReadbackNode,
      FormatNode, GroundNode, Merge;
    assert w.thread.messages[i] == w.history[i] && IsAnswer(w.history[i]);
    hide LastAnswer;
    var w1 := Advance(cfg, w, o);
    RepublishReplaces(w1.thread, i, cfg.unwrap(w1.thread.messages[i].content));
    var w2 := Advance(cfg, w1, o);
    assert w2.thread == ParseNode(cfg, w1.thread).thread;
    assert w2.thread.messages[i] == Message(w.history[i].id, Assistant, cfg.unwrap(w.history[i].content), []);
  }
}
