/** The spoken read-back: when an identifier that the caller gave comes back to them
    (backend/agent/app/graph/nodes.py:155-212, 863-916). */
module VoiceReadback {
  import opened GraphState
  import opened GraphNodes
  import opened GraphRun
  import opened Options

  /** The tier that the turn's guard gave: 2 asks again, 1 reads back. */
  ghost predicate TierIsSet(cfg: Config, t: Thread) {
    t.tier == (
      if t.blocked || t.channel == Text then 0
      else if t.lowConfidence then 2
      else if cfg.identifier(LastHuman(t.messages)).Some? then 1 else 0)
  }

  ghost predicate TurnInv(cfg: Config, w: World) {
    && IdsInOrder(w.thread)
    && (w.at.At? ==> w.thread.next == None)
    && (match Standing(w)
        case None => true
        case Some(Guard) => true
        case Some(node) => TierIsSet(cfg, w.thread) && (node in {Parse, Ground, Format} || !w.thread.blocked))
  }

  lemma {:induction false} NobodySpoke(ms: seq<Message>, more: seq<Message>)
    requires forall i :: 0 <= i < |more| ==> more[i].role != Human
    ensures LastHuman(ms + more) == LastHuman(ms)
  {
    if more == [] {
      assert ms + more == ms;
    } else {
      assert (ms + more)[..|ms + more| - 1] == ms + more[..|more| - 1];
      NobodySpoke(ms, more[..|more| - 1]);
    }
  }

  lemma {:induction false} SameSpoke(ms: seq<Message>, i: nat, m: Message)
    requires i < |ms| && ms[i].role != Human && m.role != Human
    ensures LastHuman(ms[i := m]) == LastHuman(ms)
  {
    if i < |ms| - 1 {
      assert ms[i := m][..|ms| - 1] == ms[..|ms| - 1][i := m];
      if ms[|ms| - 1].role != Human { SameSpoke(ms[..|ms| - 1], i, m); }
    } else {
      assert ms[i := m][..|ms| - 1] == ms[..|ms| - 1];
    }
  }

  /** What a turn's nodes after the guard leave alone. */
  ghost predicate SameTurn(t: Thread, t1: Thread) {
    && t1.next == t.next && t1.tier == t.tier && t1.channel == t.channel && t1.lowConfidence == t.lowConfidence && t1.blocked == t.blocked
    && LastHuman(t1.messages) == LastHuman(t.messages)
  }

  lemma SameTier(cfg: Config, t: Thread, t1: Thread)
    requires SameTurn(t, t1) && TierIsSet(cfg, t)
    ensures TierIsSet(cfg, t1) && t1.blocked == t.blocked && t1.next == t.next
  {
  }

  lemma PostIsQuiet(t: Thread, role: Role, content: string, calls: seq<Call>)
    requires IdsInOrder(t) && role != Human
    ensures SameTurn(t, Post(t, role, content, calls)) && IdsInOrder(Post(t, role, content, calls))
  {
    NobodySpoke(t.messages, [Message(t.nextId, role, content, calls)]);
  }

  lemma AgentIsQuiet(cfg: Config, t: Thread, o: Oracle)
    requires IdsInOrder(t)
    ensures var out := AgentNode(cfg, t, o);
      SameTurn(t, out.thread) && IdsInOrder(out.thread) && !out.paused && out.goto.Some? && out.goto.value in {Readback, Capture, Tools}
  {
    hide LastHuman;
    PostIsQuiet(t, Assistant, STOPPED, []);
    PostIsQuiet(t, Assistant, o.content, o.calls);
  }

  lemma ConfirmIsQuiet(cfg: Config, t: Thread, resume: Option<string>)
    requires IdsInOrder(t)
    ensures var out := ConfirmNode(cfg, t, resume);
      SameTurn(t, out.thread) && IdsInOrder(out.thread) && (out.paused || (out.goto.Some? && out.goto.value in {Tools, Parse}))
  {
    hide LastHuman, Vouched, Approves;
    PostIsQuiet(t.(pendingWrite := None, pendingSplit := None), Assistant, DECLINED, []);
  }

  lemma ToolsAreQuiet(cfg: Config, t: Thread, o: Oracle)
    requires IdsInOrder(t)
    ensures var out := ToolsNode(cfg, t, o);
      SameTurn(t, out.thread) && IdsInOrder(out.thread) && !out.paused && out.goto == Some(Agent)
  {
    hide LastHuman, RunCalls, PostAll, LastCalls;
    var run := RunCalls(cfg, LastCalls(t), o.results, ToolRun([], t.invocations, t.retrieved, []), |LastCalls(t)|);
    var t1 := PostAll(t, run.outputs);
    PostAllExtends(t, run.outputs);
    var more := t1.messages[|t.messages|..];
    assert t1.messages == t.messages + more;
    NobodySpoke(t.messages, more);
  }

  lemma TailIsQuiet(cfg: Config, node: Node, resume: Option<string>, t: Thread, o: Oracle)
    requires InTail(node) && IdsInOrder(t)
    ensures var out := RunNode(cfg, node, resume, t, o);
      SameTurn(t, out.thread) && IdsInOrder(out.thread) && !out.paused && (out.goto == None || out.goto.value in {Parse, Ground, Format})
  {
    hide LastHuman, RunNode, LastAnswer;
    TailRewritesOne(cfg, node, resume, t, o);
    TailGoesOn(cfg, node, resume, t, o);
    var out := RunNode(cfg, node, resume, t, o);
    if out.thread.messages != t.messages {
      var i := LastAnswer(t.messages).value;
      SameSpoke(t.messages, i, out.thread.messages[i]);
    }
  }

  /** The node's outcome keeps the turn, and does not lead where a blocked one may not go. */
  ghost predicate Onward(cfg: Config, out: Outcome) {
    && IdsInOrder(out.thread) && out.thread.next == None && TierIsSet(cfg, out.thread)
    && (!out.thread.blocked || (!out.paused && (out.goto == None || out.goto.value in {Parse, Ground, Format})))
    && (out.paused || out.goto != Some(Guard))
  }

  lemma OnwardKeeps(cfg: Config, w: World, o: Oracle)
    requires w.at.At? && Onward(cfg, RunNode(cfg, w.at.node, w.at.resume, w.thread, o))
    requires RunNode(cfg, w.at.node, w.at.resume, w.thread, o).paused ==> w.at.node == Confirm
    ensures TurnInv(cfg, Advance(cfg, w, o))
  {
    hide LastHuman, RunNode;
  }

  lemma StepKeeps(cfg: Config, w: World, o: Oracle)
    requires TurnInv(cfg, w) && w.at.At?
    ensures TurnInv(cfg, Advance(cfg, w, o))
  {
    hide LastHuman, AgentNode, ConfirmNode, ToolsNode, ReadbackNode, ParseNode, GroundNode, FormatNode, GuardNode, Advance;
    var t, node, t1 := w.thread, w.at.node, RunNode(cfg, w.at.node, w.at.resume, w.thread, o).thread;
    if node != Guard && SameTurn(t, t1) { SameTier(cfg, t, t1); }
    hide TierIsSet, IdsInOrder;
    match node {
      case Guard => GuardSetsTier(cfg, t);
      case Agent => AgentIsQuiet(cfg, t, o);
      case Confirm => ConfirmIsQuiet(cfg, t, w.at.resume);
      case Tools => ToolsAreQuiet(cfg, t, o);
      case Capture =>
      case _ => TailIsQuiet(cfg, node, w.at.resume, t, o);
    }
    OnwardKeeps(cfg, w, o);
  }

  lemma GuardSetsTier(cfg: Config, t: Thread)
    requires IdsInOrder(t)
    ensures var out := GuardNode(cfg, t);
      && IdsInOrder(out.thread) && out.thread.next == t.next && !out.paused && TierIsSet(cfg, out.thread)
      && (out.goto == Some(Parse) || (out.goto == Some(Agent) && !out.thread.blocked))
  {
    hide LastHuman;
    PostIsQuiet(t.(invocations := [], sources := [], retrieved := [], pendingWrite := None, stopped := false, blocked := true, tier := 0),
                Assistant, REFUSAL, []);
  }

  lemma {:induction false} RunKeepsTier(cfg: Config, run: seq<Action>)
    ensures TurnInv(cfg, Exec(cfg, run))
  {
    hide Advance, LastHuman;
    if run != [] {
      RunKeepsTier(cfg, run[..|run| - 1]);
      var w, a := Exec(cfg, run[..|run| - 1]), run[|run| - 1];
      if a.Step? && w.at.At? { StepKeeps(cfg, w, a.oracle); }
    }
  }

  /** In every run, an answer is read back with the identifier exactly when the turn is
      spoken, was heard well enough, and the last thing the caller said holds one; and
      readback changes nothing else. */
  lemma VoiceIsReadBack(cfg: Config, run: seq<Action>)
    requires Exec(cfg, run).at.At? && Exec(cfg, run).at.node == Readback
    ensures var t := Exec(cfg, run).thread; var t1 := ReadbackNode(cfg, t).thread;
      var heard, last := cfg.identifier(LastHuman(t.messages)), LastAnswer(t.messages);
      t1 == (
        if t.channel == Voice && !t.lowConfidence && heard.Some? && last.Some?
        then t.(messages := t.messages[last.value :=
               Message(t.messages[last.value].id, Assistant, cfg.spelled(heard.value, t.messages[last.value].content), [])])
        else t)
  {
    hide Exec, LastHuman, Republish;
    RunKeepsTier(cfg, run);
    var t := Exec(cfg, run).thread;
    var heard, last := cfg.identifier(LastHuman(t.messages)), LastAnswer(t.messages);
    if heard.Some? && last.Some? { RepublishReplaces(t, last.value, cfg.spelled(heard.value, t.messages[last.value].content)); }
  }
}
