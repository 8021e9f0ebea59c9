/** How much one invocation may execute, and how often a turn may call the model
    (backend/agent/app/graph/nodes.py:284-313, build.py:293-307, worker.py:70). */
module NodeBudget {
  import opened GraphState
  import opened Options
  import opened GraphNodes
  import opened GraphRun

  /** Model calls since guard last opened a turn, over every pause and cut in it. */
  function CallsThisTurn(log: seq<Event>): nat {
    if log == [] || log[|log| - 1] == Guarded then 0
    else CallsThisTurn(log[..|log| - 1]) + (if log[|log| - 1].ModelCalled? then 1 else 0)
  }

  /** Those of them that were lost: agent was cut before its state was saved. */
  function LostThisTurn(log: seq<Event>): nat {
    if log == [] || log[|log| - 1] == Guarded then 0
    else LostThisTurn(log[..|log| - 1]) + (if log[|log| - 1] == ModelCalled(false) then 1 else 0)
  }

  function FromAgent(n: nat, iterations: nat): nat {
    if iterations >= n then 5 else 2 * (n - iterations) + 5
  }

  /** The most nodes an invocation standing here can still execute. */
  function Remaining(n: nat, node: Node, resume: Option<string>, iterations: nat): nat {
    match node
    case Guard => 2 * n + 6
    case Agent => FromAgent(n, iterations)
    case Tools => 1 + FromAgent(n, iterations)
    case Capture => 5
    case Confirm => if resume == None then 4 else 2 + FromAgent(n, iterations)
    case Readback => 4
    case Parse => 3
    case Ground => 2
    case Format => 1
  }

  /** A thread waiting to execute, or executing, one of these has called the
      model in this turn. */
  predicate PastTheModel(node: Node) { node in {Capture, Confirm, Tools} }

  ghost predicate Inv(cfg: Config, w: World) {
    && cfg.requireConfirmation
    && (w.at.At? ==> w.thread.next == None)
    && w.thread.iterations <= cfg.maxIterations
    && CallsThisTurn(w.log) <= cfg.maxIterations + LostThisTurn(w.log)
    && (Standing(w).Some? && !InTail(Standing(w).value) && Standing(w).value != Guard ==>
          CallsThisTurn(w.log) == w.thread.iterations + LostThisTurn(w.log))
    && (Standing(w).Some? && PastTheModel(Standing(w).value) ==> w.thread.iterations >= 1)
    && (w.at.At? ==> w.ran + Remaining(cfg.maxIterations, w.at.node, w.at.resume, w.thread.iterations) <= 2 * cfg.maxIterations + 6)
    && w.ran <= 2 * cfg.maxIterations + 6
  }

  lemma CallsAfter(log: seq<Event>, e: Event)
    ensures CallsThisTurn(log + [e]) == (if e == Guarded then 0 else CallsThisTurn(log) + (if e.ModelCalled? then 1 else 0))
    ensures LostThisTurn(log + [e]) == (if e == Guarded then 0 else LostThisTurn(log) + (if e == ModelCalled(false) then 1 else 0))
  {
    assert (log + [e])[..|log + [e]| - 1] == log;
  }

  lemma {:induction false} NoCallsIn(log: seq<Event>, more: seq<Event>)
    requires forall e :: e in more ==> !e.Guarded? && !e.ModelCalled?
    ensures CallsThisTurn(log + more) == CallsThisTurn(log) && LostThisTurn(log + more) == LostThisTurn(log)
  {
    if more == [] {
      assert log + more == log;
    } else {
      assert forall e :: e in more[..|more| - 1] ==> e in more;
      NoCallsIn(log, more[..|more| - 1]);
      CallsAfter(log + more[..|more| - 1], more[|more| - 1]);
      assert log + more == log + more[..|more| - 1] + [more[|more| - 1]];
    }
  }

  lemma {:induction false} ToolsCallNoModel(cfg: Config, calls: seq<Call>, results: seq<ToolResult>, acc: ToolRun, k: nat)
    requires k <= |calls| && acc.events == []
    ensures forall e :: e in RunCalls(cfg, calls, results, acc, k).events ==> !e.Guarded? && !e.ModelCalled?
  {
    hide Schema, Evidence;
    if k > 0 { ToolsCallNoModel(cfg, calls, results, acc, k - 1); }
  }

  lemma GuardKeeps(cfg: Config, w: World, o: Oracle)
    requires Inv(cfg, w) && w.at.At? && w.at.node == Guard
    ensures Inv(cfg, Advance(cfg, w, o))
  {
    CallsAfter(w.log, Guarded);
    hide AgentNode, CaptureNode, ConfirmNode, ToolsNode, ReadbackNode, ParseNode, GroundNode, FormatNode;
  }

  lemma AgentKeeps(cfg: Config, w: World, o: Oracle)
    requires Inv(cfg, w) && w.at.At? && w.at.node == Agent
    ensures Inv(cfg, Advance(cfg, w, o))
  {
    hide CallsThisTurn, LostThisTurn, GuardNode, CaptureNode, ConfirmNode, ToolsNode, ReadbackNode, ParseNode, GroundNode, FormatNode;
    CallsAfter(w.log, ModelCalled(true));
    assert w.log + [] == w.log;
  }

  lemma CaptureKeeps(cfg: Config, w: World, o: Oracle)
    requires Inv(cfg, w) && w.at.At? && w.at.node == Capture
    ensures Inv(cfg, Advance(cfg, w, o))
  {
    hide CallsThisTurn, LostThisTurn, GuardNode, AgentNode, ConfirmNode, ToolsNode, ReadbackNode, ParseNode, GroundNode, FormatNode;
    var out := CaptureNode(w.thread, o);
    assert forall e :: e in out.events ==> !e.Guarded? && !e.ModelCalled?;
    NoCallsIn(w.log, out.events);
  }

  lemma ConfirmKeeps(cfg: Config, w: World, o: Oracle)
    requires Inv(cfg, w) && w.at.At? && w.at.node == Confirm
    ensures Inv(cfg, Advance(cfg, w, o))
  {
    hide CallsThisTurn, LostThisTurn, ConfirmNode;
    ConfirmCounts(cfg, w.thread, w.at.resume);
    NoCallsIn(w.log, ConfirmNode(cfg, w.thread, w.at.resume).events);
  }

  /** With confirmation on, confirm reaches the tools only when resumed. */
  lemma ConfirmCounts(cfg: Config, t: Thread, resume: Option<string>)
    requires cfg.requireConfirmation
    ensures var out := ConfirmNode(cfg, t, resume);
      && out.thread.iterations == t.iterations && out.thread.next == t.next
      && (forall e :: e in out.events ==> !e.Guarded? && !e.ModelCalled?)
      && (!out.paused ==> out.goto == Some(Parse) || (out.goto == Some(Tools) && resume.Some?))
  {
    hide Approves, Vouched;
  }

  lemma ToolsKeeps(cfg: Config, w: World, o: Oracle)
    requires Inv(cfg, w) && w.at.At? && w.at.node == Tools
    ensures Inv(cfg, Advance(cfg, w, o))
  {
    hide CallsThisTurn, LostThisTurn, RunCalls, GuardNode, AgentNode, CaptureNode, ConfirmNode, ReadbackNode, ParseNode,
      GroundNode, FormatNode;
    var acc := ToolRun([], w.thread.invocations, w.thread.retrieved, []);
    var calls := LastCalls(w.thread);
    ToolsCallNoModel(cfg, calls, o.results, acc, |calls|);
    NoCallsIn(w.log, RunCalls(cfg, calls, o.results, acc, |calls|).events);
    PostAllCounts(w.thread, RunCalls(cfg, calls, o.results, acc, |calls|).outputs);
  }

  lemma {:induction false} PostAllCounts(t: Thread, contents: seq<string>)
    ensures PostAll(t, contents).iterations == t.iterations && PostAll(t, contents).next == t.next
  {
    if contents != [] { PostAllCounts(t, contents[..|contents| - 1]); }
  }

  lemma TailKeeps(cfg: Config, w: World, o: Oracle)
    requires Inv(cfg, w) && w.at.At? && InTail(w.at.node)
    ensures Inv(cfg, Advance(cfg, w, o))
  {
    hide CallsThisTurn, LostThisTurn, SourcesFor, Merge, GuardNode, AgentNode, CaptureNode, ConfirmNode, ToolsNode;
    assert w.log + [] == w.log;
  }

  lemma CutCallsNoModel(cfg: Config, calls: seq<Call>, results: seq<ToolResult>, k: nat)
    ensures forall e :: e in AllUnsaved(CutCalls(cfg, calls, results, k)) ==> !e.Guarded? && !e.ModelCalled?
  {
    hide Schema, RunCalls;
    ToolsCallNoModel(cfg, calls, results, NOTHING_RUN, if k < |calls| then k else |calls|);
  }

  /** A cut costs at most one lost call of the model, and the turn nothing else. */
  lemma CutKeeps(cfg: Config, w: World, o: Oracle, k: nat)
    requires Inv(cfg, w) && w.at.At?
    ensures Inv(cfg, CutAt(cfg, w, o, k))
  {
    hide CallsThisTurn, LostThisTurn, CutCalls, Vouched;
    CallsAfter(w.log, ModelCalled(false));
    if w.at.resume.Some? { CallsAfter(w.log, Answered(w.at.resume.value, false)); }
    assert w.log + [] == w.log;
    CutCallsNoModel(cfg, LastCalls(w.thread), o.results, k);
    NoCallsIn(w.log, AllUnsaved(CutCalls(cfg, LastCalls(w.thread), o.results, k)));
  }

  lemma ReceiveKeeps(cfg: Config, w: World, a: Action)
    requires Inv(cfg, w) && a.Say? && w.at.Idle?
    ensures Inv(cfg, Receive(w, a))
  {
    hide CallsThisTurn, LostThisTurn;
    if w.thread.next == None { CallsAfter(w.log, Heard(a.said)); }
  }

  lemma NextKeeps(cfg: Config, w: World, a: Action)
    requires Inv(cfg, w)
    ensures Inv(cfg, Next(cfg, w, a))
  {
    match a
    case Say(_, _, _) =>
      hide Inv, Receive;
      if w.at.Idle? { ReceiveKeeps(cfg, w, a); }
    case Cut(o, k) =>
      hide Inv, CutAt;
      if w.at.At? { CutKeeps(cfg, w, o, k); }
    case Step(o) =>
      hide Advance, Inv;
      if w.at.At? {
        match w.at.node
        case Guard => GuardKeeps(cfg, w, o);
        case Agent => AgentKeeps(cfg, w, o);
        case Capture => CaptureKeeps(cfg, w, o);
        case Confirm => ConfirmKeeps(cfg, w, o);
        case Tools => ToolsKeeps(cfg, w, o);
        case _ => TailKeeps(cfg, w, o);
      }
  }

  /** In every run with confirmation on, cut anywhere and any number of times: one
      invocation begins at most 2n + 6 nodes, and one turn calls the model at most
      n times and once more for each call that was lost to a cut. */
  lemma {:induction false} InvocationsAreBounded(cfg: Config, run: seq<Action>)
    requires cfg.requireConfirmation
    ensures Inv(cfg, Exec(cfg, run))
    ensures Exec(cfg, run).ran <= 2 * cfg.maxIterations + 6
    ensures CallsThisTurn(Exec(cfg, run).log) <= cfg.maxIterations + LostThisTurn(Exec(cfg, run).log)
  {
    if run != [] {
      InvocationsAreBounded(cfg, run[..|run| - 1]);
      NextKeeps(cfg, Exec(cfg, run[..|run| - 1]), run[|run| - 1]);
    }
  }

  // --------------------------------------------------------- the bound is met

  /** A model that searches the policy every time it is asked. */
  const SEARCHING := Oracle("", [Call(SearchPolicy, map[])], [], None)

  function Searching(said: string, steps: nat): seq<Action> {
    if steps == 0 then [Say(said, Text, false)]
    else Searching(said, steps - 1) + [Step(SEARCHING)]
  }

  lemma SearchingStep(cfg: Config, said: string, steps: nat)
    requires steps > 0
    ensures Exec(cfg, Searching(said, steps)) == Next(cfg, Exec(cfg, Searching(said, steps - 1)), Step(SEARCHING))
  {
    assert Searching(said, steps)[..|Searching(said, steps)| - 1] == Searching(said, steps - 1);
  }

  ghost predicate AskedAgain(cfg: Config, w: World, i: nat) {
    w.at == At(Agent, None) && w.thread.iterations == i && w.ran == 2 * i + 1
  }

  lemma OneSearch(cfg: Config, w: World, i: nat)
    requires AskedAgain(cfg, w, i) && i < cfg.maxIterations
    ensures AskedAgain(cfg, Next(cfg, Next(cfg, w, Step(SEARCHING)), Step(SEARCHING)), i + 1)
  {
    hide RunCalls, GuardNode, CaptureNode, ConfirmNode, ReadbackNode, ParseNode, GroundNode, FormatNode;
    var w1 := Next(cfg, w, Step(SEARCHING));
    assert w1.at == At(Tools, None);
    var acc := ToolRun([], w1.thread.invocations, w1.thread.retrieved, []);
    PostAllCounts(w1.thread, RunCalls(cfg, LastCalls(w1.thread), SEARCHING.results, acc, |LastCalls(w1.thread)|).outputs);
  }

  lemma StartAsks(cfg: Config, said: string)
    requires !cfg.screened(said)
    ensures AskedAgain(cfg, Next(cfg, Exec(cfg, Searching(said, 0)), Step(SEARCHING)), 0)
  {
    assert Searching(said, 0)[..0] == [];
    assert Exec(cfg, Searching(said, 0)) == Next(cfg, START, Say(said, Text, false));
    hide AgentNode, CaptureNode, ConfirmNode, ToolsNode, ReadbackNode, ParseNode, GroundNode, FormatNode, Exec;
    var w := Next(cfg, START, Say(said, Text, false));
    assert w.at == At(Guard, None) && w.thread.messages == [Message(0, Human, said, [])];
    assert LastHuman(w.thread.messages) == said;
  }

  lemma {:induction false} SearchesOn(cfg: Config, said: string, i: nat)
    requires !cfg.screened(said) && i <= cfg.maxIterations
    ensures AskedAgain(cfg, Exec(cfg, Searching(said, 2 * i + 1)), i)
  {
    hide Next, AskedAgain;
    SearchingStep(cfg, said, 2 * i + 1);
    if i == 0 {
      StartAsks(cfg, said);
    } else {
      SearchesOn(cfg, said, i - 1);
      SearchingStep(cfg, said, 2 * i);
      OneSearch(cfg, Exec(cfg, Searching(said, 2 * i - 1)), i - 1);
    }
  }

  lemma TailRuns(cfg: Config, w: World, o: Oracle)
    requires w.at == At(Agent, None) && w.thread.iterations >= cfg.maxIterations
    ensures Next(cfg, Next(cfg, Next(cfg, Next(cfg, Next(cfg, w, Step(o)), Step(o)), Step(o)), Step(o)), Step(o)).ran == w.ran + 5
  {
    hide Merge, SourcesFor, GuardNode, CaptureNode, ConfirmNode, ToolsNode;
  }

  /** The bound is exact for every n: a model that always searches meets it. */
  lemma BoundIsMet(cfg: Config, said: string)
    requires !cfg.screened(said)
    ensures Exec(cfg, Searching(said, 2 * cfg.maxIterations + 6)).ran == 2 * cfg.maxIterations + 6
  {
    var n := 2 * cfg.maxIterations + 1;
    SearchesOn(cfg, said, cfg.maxIterations);
    hide Next;
    TailRuns(cfg, Exec(cfg, Searching(said, n)), SEARCHING);
    SearchingStep(cfg, said, n + 1);
    SearchingStep(cfg, said, n + 2);
    SearchingStep(cfg, said, n + 3);
    SearchingStep(cfg, said, n + 4);
    SearchingStep(cfg, said, n + 5);
  }

  /** No run of any graph with this many iterations passes the worker's limit. */
  ghost predicate WithinTheLimit(n: nat) {
    forall cfg: Config, run :: cfg.requireConfirmation && cfg.maxIterations == n ==> Exec(cfg, run).ran <= 4 * n
  }

  const PLAIN := Config(true, 0, {}, s => false, s => None, (a, b) => b, s => {}, s => {}, s => None,
                        s => s, (s, t) => s, (s, c) => s, (s, c) => false, s => {})

  /** The worker's recursion limit of 4n is never reached exactly when n >= 3. */
  lemma LimitIsSafeFromThree(n: nat)
    ensures WithinTheLimit(n) <==> n >= 3
  {
    if n >= 3 {
      forall cfg: Config, run | cfg.requireConfirmation && cfg.maxIterations == n
        ensures Exec(cfg, run).ran <= 4 * n
      {
        InvocationsAreBounded(cfg, run);
      }
    } else {
      var cfg := PLAIN.(maxIterations := n);
      BoundIsMet(cfg, "");
      assert Exec(cfg, Searching("", 2 * n + 6)).ran > 4 * n;
    }
  }

  // ------------------------------------------------- calls that a cut repeats

  /** The agent is up with i iterations saved; c calls made this turn, d lost. */
  ghost predicate Asked(w: World, i: nat, c: nat, d: nat) {
    && w.at.At? && w.at.node == Agent && w.thread.next == None && w.thread.iterations == i
    && CallsThisTurn(w.log) == c && LostThisTurn(w.log) == d
  }

  lemma AskAgain(cfg: Config, w: World, i: nat, c: nat, d: nat)
    requires Asked(w, i, c, d) && i < cfg.maxIterations
    ensures Asked(Next(cfg, Next(cfg, w, Step(SEARCHING)), Step(SEARCHING)), i + 1, c + 1, d)
  {
    hide CallsThisTurn, LostThisTurn, RunCalls, GuardNode, CaptureNode, ConfirmNode, ReadbackNode, ParseNode,
      GroundNode, FormatNode;
    var w1 := Next(cfg, w, Step(SEARCHING));
    CallsAfter(w.log, ModelCalled(true));
    assert w1.at == At(Tools, None) && w1.log == w.log + [ModelCalled(true)];
    var acc := ToolRun([], w1.thread.invocations, w1.thread.retrieved, []);
    var calls := LastCalls(w1.thread);
    ToolsCallNoModel(cfg, calls, SEARCHING.results, acc, |calls|);
    NoCallsIn(w1.log, RunCalls(cfg, calls, SEARCHING.results, acc, |calls|).events);
    PostAllCounts(w1.thread, RunCalls(cfg, calls, SEARCHING.results, acc, |calls|).outputs);
  }

  /** A timeout inside the agent, and a message that resumes it. */
  lemma CutAndResume(cfg: Config, w: World, said: string, c: nat, d: nat)
    requires Asked(w, 0, c, d) && cfg.maxIterations > 0
    ensures Asked(Next(cfg, Next(cfg, w, Cut(SEARCHING, 1)), Say(said, Text, false)), 0, c + 1, d + 1)
  {
    hide CallsThisTurn, LostThisTurn;
    CallsAfter(w.log, ModelCalled(false));
  }

  lemma TwoMore(cfg: Config, run: seq<Action>, a: Action, b: Action)
    ensures Exec(cfg, run + [a, b]) == Next(cfg, Next(cfg, Exec(cfg, run), a), b)
  {
    hide Next;
    assert (run + [a, b])[..|run| + 1] == run + [a];
    assert (run + [a])[..|run|] == run;
    assert run + [a, b] == (run + [a]) + [b];
  }

  lemma {:induction false} LostFirst(cfg: Config, said: string, m: nat) returns (run: seq<Action>)
    requires !cfg.screened(said) && cfg.maxIterations > 0
    ensures Asked(Exec(cfg, run), 0, m, m)
  {
    hide Next, CallsThisTurn, LostThisTurn;
    if m == 0 {
      run := Searching(said, 1);
      SearchingStep(cfg, said, 1);
      StartAsks(cfg, said);
      AskedFirst(cfg, said);
    } else {
      var front := LostFirst(cfg, said, m - 1);
      CutAndResume(cfg, Exec(cfg, front), said, m - 1, m - 1);
      TwoMore(cfg, front, Cut(SEARCHING, 1), Say(said, Text, false));
      run := front + [Cut(SEARCHING, 1), Say(said, Text, false)];
    }
  }

  lemma AskedFirst(cfg: Config, said: string)
    requires AskedAgain(cfg, Next(cfg, Exec(cfg, Searching(said, 0)), Step(SEARCHING)), 0)
    ensures Asked(Next(cfg, Exec(cfg, Searching(said, 0)), Step(SEARCHING)), 0, 0, 0)
  {
    hide AgentNode, CaptureNode, ConfirmNode, ToolsNode, ReadbackNode, ParseNode, GroundNode, FormatNode;
    assert Searching(said, 0)[..0] == [];
    assert Exec(cfg, Searching(said, 0)) == Next(cfg, START, Say(said, Text, false));
  }

  lemma {:induction false} AskedTo(cfg: Config, run: seq<Action>, i: nat, m: nat) returns (more: seq<Action>)
    requires Asked(Exec(cfg, run), 0, m, m) && i <= cfg.maxIterations
    ensures Asked(Exec(cfg, more), i, m + i, m)
  {
    hide Next, Asked;
    if i == 0 {
      more := run;
    } else {
      var front := AskedTo(cfg, run, i - 1, m);
      AskAgain(cfg, Exec(cfg, front), i - 1, m + i - 1, m);
      TwoMore(cfg, front, Step(SEARCHING), Step(SEARCHING));
      more := front + [Step(SEARCHING), Step(SEARCHING)];
    }
  }

  /** Every run of this graph whose turn lost at most m calls keeps to n calls. */
  ghost predicate KeepsToN(cfg: Config, m: nat) {
    forall run :: LostThisTurn(Exec(cfg, run).log) <= m ==> CallsThisTurn(Exec(cfg, run).log) <= cfg.maxIterations
  }

  /** The bound with its lost calls is met, for every number of them. */
  lemma LostCallsAreRepeated(cfg: Config, said: string, m: nat) returns (run: seq<Action>)
    requires !cfg.screened(said) && cfg.maxIterations > 0
    ensures LostThisTurn(Exec(cfg, run).log) == m && CallsThisTurn(Exec(cfg, run).log) == cfg.maxIterations + m
  {
    hide Exec;
    run := LostFirst(cfg, said, m);
    run := AskedTo(cfg, run, cfg.maxIterations, m);
  }

  /** n calls a turn is a promise exactly as long as no call is lost to a cut
      inside the agent: m lost calls allow n + m of them. */
  lemma CallsKeepToNIff(cfg: Config, said: string, m: nat)
    requires cfg.requireConfirmation && !cfg.screened(said) && cfg.maxIterations > 0
    ensures KeepsToN(cfg, m) <==> m == 0
  {
    hide CallsThisTurn, LostThisTurn, Inv;
    if m == 0 {
      forall run | LostThisTurn(Exec(cfg, run).log) <= 0
        ensures CallsThisTurn(Exec(cfg, run).log) <= cfg.maxIterations
      {
        InvocationsAreBounded(cfg, run);
      }
    } else {
      var run := LostCallsAreRepeated(cfg, said, m);
    }
  }
}
