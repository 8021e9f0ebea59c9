/** Runs of the agent graph: users speak, nodes execute one at a time, and a
    timeout or an exception may end an invocation between two nodes or inside one
    (backend/agent/app/graph/build.py:272-309, backend/agent/app/worker.py:68-107). */
module GraphRun {
  import opened GraphState
  import opened Options
  import opened GraphNodes

  datatype Action =
    | Say(said: string, channel: Channel, lowConfidence: bool)
    | Step(oracle: Oracle)
    | Cut(oracle: Oracle, k: nat)   // the node at hand is cut after k of its calls

  datatype Where = Idle | At(node: Node, resume: Option<string>)

  /** `history` is what the thread held before the current turn's message, and
      `ran` counts the nodes the current invocation has begun. */
  datatype World = World(thread: Thread, at: Where, log: seq<Event>, history: seq<Message>, ran: nat)

  const START := World(EMPTY_THREAD, Idle, [], [], 0)

  /** The resume rule: a message to a thread with an unfinished run is handed to
      the waiting node and never joins the conversation. */
  function Receive(w: World, a: Action): World
    requires a.Say? && w.at == Idle
  {
    match w.thread.next
    case Some(node) => w.(at := At(node, Some(a.said)), thread := w.thread.(next := None), ran := 0)
    case None =>
      var t := Post(w.thread, Human, a.said, []).(channel := a.channel, lowConfidence := a.lowConfidence);
      World(t, At(Guard, None), w.log + [Heard(a.said)], w.thread.messages, 0)
  }

  ghost function Advance(cfg: Config, w: World, o: Oracle): World
    requires w.at.At?
  {
    var out := RunNode(cfg, w.at.node, w.at.resume, w.thread, o);
    var w1 := w.(log := w.log + out.events, ran := w.ran + 1);
    if out.paused then w1.(thread := out.thread.(next := Some(w.at.node)), at := Idle)
    else match out.goto
      case None => w1.(thread := out.thread, at := Idle)
      case Some(node) => w1.(thread := out.thread, at := At(node, None))
  }

  ghost function Next(cfg: Config, w: World, a: Action): World {
    match a
    case Say(_, _, _) => if w.at.Idle? then Receive(w, a) else w
    case Step(o) => if w.at.At? then Advance(cfg, w, o) else w
    case Cut(o, k) => if w.at.At? then CutAt(cfg, w, o, k) else w
  }

  /** What the node did stands; of the thread only `next` changes, so the next
      message executes the node again from its start. */
  ghost function CutAt(cfg: Config, w: World, o: Oracle, k: nat): World
    requires w.at.At?
  {
    w.(thread := w.thread.(next := Some(w.at.node)), at := Idle,
       log := w.log + CutEffects(cfg, w.at.node, w.at.resume, w.thread, o, k), ran := w.ran + 1)
  }

  ghost function Exec(cfg: Config, run: seq<Action>): World {
    if run == [] then START
    else Next(cfg, Exec(cfg, run[..|run| - 1]), run[|run| - 1])
  }

  /** A run from any world on. */
  ghost function After(cfg: Config, w: World, run: seq<Action>): World {
    if run == [] then w
    else Next(cfg, After(cfg, w, run[..|run| - 1]), run[|run| - 1])
  }

  lemma {:induction false} ExecIsAfter(cfg: Config, run: seq<Action>)
    ensures Exec(cfg, run) == After(cfg, START, run)
  {
    hide Next;
    if run != [] { ExecIsAfter(cfg, run[..|run| - 1]); }
  }

  lemma {:induction false} AfterJoins(cfg: Config, w: World, a: seq<Action>, b: seq<Action>)
    ensures After(cfg, w, a + b) == After(cfg, After(cfg, w, a), b)
  {
    hide Next;
    if b == [] {
      assert a + b == a;
    } else {
      AfterJoins(cfg, w, a, b[..|b| - 1]);
      assert (a + b)[..|a + b| - 1] == a + b[..|b| - 1];
    }
  }

  lemma AfterOne(cfg: Config, w: World, a: Action)
    ensures After(cfg, w, [a]) == Next(cfg, w, a)
  {
    assert [a][..0] == [];
    assert After(cfg, w, []) == w;
  }

  /** Where the thread stands: executing a node, or waiting to. */
  function Standing(w: World): Option<Node> {
    if w.at.At? then Some(w.at.node) else w.thread.next
  }

  // --------------------------------------------------- facts about messages

  ghost predicate IdsInOrder(t: Thread) {
    && (forall i :: 0 <= i < |t.messages| ==> t.messages[i].id < t.nextId)
    && (forall i, j :: 0 <= i < j < |t.messages| ==> t.messages[i].id < t.messages[j].id)
  }

  lemma {:induction false} MergeReplaces(ms: seq<Message>, i: nat, m: Message)
    requires i < |ms| && ms[i].id == m.id
    requires forall j, k :: 0 <= j < k < |ms| ==> ms[j].id < ms[k].id
    ensures Merge(ms, m) == ms[i := m]
  {
    if i > 0 {
      assert ms[0].id < ms[i].id;
      MergeReplaces(ms[1..], i - 1, m);
      assert ms[i := m] == [ms[0]] + ms[1..][i - 1 := m];
    } else {
      assert ms[0 := m] == [m] + ms[1..];
    }
  }

  /** Republishing an answer rewrites that one message and nothing else. */
  lemma RepublishReplaces(t: Thread, i: nat, content: string)
    requires IdsInOrder(t) && i < |t.messages|
    ensures var t1 := Republish(t, i, content);
      && t1 == t.(messages := t.messages[i := Message(t.messages[i].id, Assistant, content, [])])
      && IdsInOrder(t1)
  {
    MergeReplaces(t.messages, i, Message(t.messages[i].id, Assistant, content, []));
  }

  /** Tool outputs only extend the conversation. */
  lemma {:induction false} PostAllExtends(t: Thread, contents: seq<string>)
    requires IdsInOrder(t)
    ensures var t1 := PostAll(t, contents);
      && IdsInOrder(t1)
      && t1 == t.(messages := t1.messages, nextId := t1.nextId)
      && t.messages <= t1.messages
      && forall i :: |t.messages| <= i < |t1.messages| ==> t1.messages[i].role == ToolOutput
  {
    if contents != [] { PostAllExtends(t, contents[..|contents| - 1]); }
  }

  predicate InTail(node: Node) { node in {Readback, Parse, Ground, Format} }

  /** Two conversations that agree except on the text of the answer at i. */
  ghost predicate OneAnswerRewritten(before: seq<Message>, after: seq<Message>, i: nat) {
    && i < |before| == |after|
    && IsAnswer(after[i]) && after[i].id == before[i].id
    && after == before[i := after[i]]
  }

  /** The tail of the graph changes nothing but `sources` and the text of the
      last answer. */
  lemma TailRewritesOne(cfg: Config, node: Node, resume: Option<string>, t: Thread, o: Oracle)
    requires InTail(node) && IdsInOrder(t)
    ensures var out := RunNode(cfg, node, resume, t, o);
      && out.events == [] && !out.paused
      && IdsInOrder(out.thread)
      && out.thread == t.(messages := out.thread.messages, sources := out.thread.sources)
      && (out.thread.messages == t.messages
          || (LastAnswer(t.messages).Some? && OneAnswerRewritten(t.messages, out.thread.messages, LastAnswer(t.messages).value)))
  {
    hide GuardNode, AgentNode, CaptureNode, ConfirmNode, ToolsNode, SourcesFor, LastAnswer, Republish;
    var last := LastAnswer(t.messages);
    if last.Some? {
      forall text { RewrittenInPlace(t, last.value, text); }
    }
  }

  lemma RewrittenInPlace(t: Thread, i: nat, text: string)
    requires IdsInOrder(t) && i < |t.messages|
    ensures var t1 := Republish(t, i, text);
      && IdsInOrder(t1) && t1 == t.(messages := t1.messages)
      && OneAnswerRewritten(t.messages, t1.messages, i)
  {
    RepublishReplaces(t, i, text);
  }

  lemma TailGoesOn(cfg: Config, node: Node, resume: Option<string>, t: Thread, o: Oracle)
    requires InTail(node)
    ensures RunNode(cfg, node, resume, t, o).goto ==
      (match node case Readback => Some(Parse) case Parse => Some(Ground) case Ground => Some(Format) case _ => None)
  {
  }
}
