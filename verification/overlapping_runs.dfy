/** Several invocations on one thread: each works on its own copy, every node saves
    its copy over the thread, and whoever comes next starts from what was saved last
    (backend/agent/app/worker.py:68-107, 190-202; backend/agent/app/graph/build.py:272-309). */
module OverlappingRuns {
  import opened GraphState
  import opened Options
  import opened GraphNodes
  import opened GraphRun
  import opened GraphScript
  import opened WriteGate
  import opened GateConditions
  import opened OneReply
  import Approvals

  /** The saved thread, the invocations in flight with their copies, and the log
      they share. A copy's own log is the one it started its last node with. */
  datatype Shared = Shared(store: Thread, flights: map<nat, World>, log: seq<Event>, history: seq<Message>)

  datatype Move =
    | Start(i: nat, said: string, channel: Channel, lowConfidence: bool)
    | Go(i: nat, oracle: Oracle)
    | Stop(i: nat, oracle: Oracle, k: nat)   // cut after k calls of its node

  const NOBODY := Shared(EMPTY_THREAD, map[], [], [])

  /** What a node leaves saved: its thread, waiting for the node after it. */
  function Saved(w: World): Thread { if w.at.At? then w.thread.(next := Some(w.at.node)) else w.thread }

  function Rest(s: Shared): World { World(s.store, Idle, s.log, s.history, 0) }

  predicate Flying(s: Shared, i: nat) { i in s.flights && s.flights[i].at.At? }

  function Seen(s: Shared, i: nat): World
    requires Flying(s, i)
  {
    s.flights[i].(log := s.log)
  }

  ghost function Next(cfg: Config, s: Shared, m: Move): Shared {
    match m
    case Start(i, said, channel, low) =>
      if i in s.flights then s
      else
        var w := Receive(Rest(s), Say(said, channel, low));
        Shared(Saved(w), s.flights[i := w], w.log, w.history)
    case Go(i, o) =>
      if !Flying(s, i) then s
      else
        var w := Advance(cfg, Seen(s, i), o);
        Shared(Saved(w), if w.at.At? then s.flights[i := w] else s.flights - {i}, w.log, s.history)
    case Stop(i, o, k) =>
      if !Flying(s, i) then s
      else s.(flights := s.flights - {i}, log := CutAt(cfg, Seen(s, i), o, k).log)
  }

  ghost function ExecFrom(cfg: Config, s: Shared, moves: seq<Move>): Shared {
    if moves == [] then s else Next(cfg, ExecFrom(cfg, s, moves[..|moves| - 1]), moves[|moves| - 1])
  }

  lemma OneMove(cfg: Config, s: Shared, m: Move)
    ensures ExecFrom(cfg, s, [m]) == Next(cfg, s, m)
  {
    hide Next;
    assert [m][..0] == [];
    assert ExecFrom(cfg, s, []) == s;
  }

  lemma {:induction false} MovesJoin(cfg: Config, s: Shared, a: seq<Move>, b: seq<Move>)
    ensures ExecFrom(cfg, s, a + b) == ExecFrom(cfg, ExecFrom(cfg, s, a), b)
  {
    hide Next;
    if b == [] {
      assert a + b == a;
    } else {
      MovesJoin(cfg, s, a, b[..|b| - 1]);
      assert (a + b)[..|a + b| - 1] == a + b[..|b| - 1];
    }
  }

  // ------------------------------------------- one at a time is one thread's run

  /** The shared state is what a world without overlap looks like from outside. */
  predicate Matches(s: Shared, w: World, i: nat) {
    && s.log == w.log && s.history == w.history && s.store == Saved(w)
    && s.flights == if w.at.At? then map[i := w] else map[]
  }

  /** A message starts an invocation only when none is in flight. */
  predicate Alone(s: Shared, m: Move) { m.Start? ==> s.flights == map[] }

  ghost predicate AloneRun(cfg: Config, moves: seq<Move>) {
    forall n :: 0 <= n < |moves| ==> Alone(ExecFrom(cfg, NOBODY, moves[..n]), moves[n])
  }

  lemma {:induction false} AdvanceKeepsHistory(cfg: Config, w: World, o: Oracle)
    requires w.at.At?
    ensures Advance(cfg, w, o).history == w.history
  {
    hide RunNode;
  }

  lemma StartIsAStep(cfg: Config, s: Shared, w: World, i: nat, j: nat, said: string, channel: Channel, low: bool)
    requires Matches(s, w, i) && w.at.Idle?
    ensures Matches(Next(cfg, s, Start(j, said, channel, low)), GraphRun.Next(cfg, w, Say(said, channel, low)), j)
  {
  }

  lemma GoIsAStep(cfg: Config, s: Shared, w: World, i: nat, o: Oracle)
    requires Matches(s, w, i) && w.at.At?
    ensures Matches(Next(cfg, s, Go(i, o)), GraphRun.Next(cfg, w, Step(o)), i)
  {
    AdvanceKeepsHistory(cfg, w, o);
    hide Advance;
    assert Seen(s, i) == w;
    assert s.flights - {i} == map[];
  }

  lemma StopIsAStep(cfg: Config, s: Shared, w: World, i: nat, o: Oracle, k: nat)
    requires Matches(s, w, i) && w.at.At?
    ensures Matches(Next(cfg, s, Stop(i, o, k)), GraphRun.Next(cfg, w, Cut(o, k)), i)
  {
    hide CutEffects;
    assert Seen(s, i) == w;
    assert s.flights - {i} == map[];
  }

  lemma MoveIsAStep(cfg: Config, s: Shared, w: World, i: nat, m: Move) returns (run: seq<Action>, i1: nat)
    requires Matches(s, w, i) && Alone(s, m)
    ensures Matches(Next(cfg, s, m), After(cfg, w, run), i1)
  {
    run, i1 := [], i;
    NoSteps(cfg, w);
    if w.at.At? { assert i in s.flights; }
    match m {
      case Start(j, said, channel, low) => {
        if w.at.Idle? {
          StartIsAStep(cfg, s, w, i, j, said, channel, low);
          run, i1 := [Say(said, channel, low)], j;
        }
      }
      case Go(j, o) => {
        if Flying(s, j) {
          GoIsAStep(cfg, s, w, i, o);
          run := [Step(o)];
        }
      }
      case Stop(j, o, k) => {
        if Flying(s, j) {
          StopIsAStep(cfg, s, w, i, o, k);
          run := [Cut(o, k)];
        }
      }
    }
    if run != [] { AfterOne(cfg, w, run[0]); }
  }

  lemma NoSteps(cfg: Config, w: World)
    ensures After(cfg, w, []) == w
  {
  }

  /** Without overlap the saved thread and the log are those of a run of one
      thread, so that whatever holds of every such run holds here. */
  lemma {:induction false} AloneIsOneThread(cfg: Config, moves: seq<Move>) returns (run: seq<Action>, i: nat)
    requires AloneRun(cfg, moves)
    ensures Matches(ExecFrom(cfg, NOBODY, moves), Exec(cfg, run), i)
  {
    hide Next, Alone;
    if moves == [] {
      run, i := [], 0;
    } else {
      var front := moves[..|moves| - 1];
      forall n | 0 <= n < |front| ensures Alone(ExecFrom(cfg, NOBODY, front[..n]), front[n]) {
        assert front[..n] == moves[..n];
      }
      var before, j := AloneIsOneThread(cfg, front);
      assert moves[..|moves| - 1] == front;
      var more, j1 := MoveIsAStep(cfg, ExecFrom(cfg, NOBODY, front), Exec(cfg, before), j, moves[|moves| - 1]);
      ExecIsAfter(cfg, before);
      ExecIsAfter(cfg, before + more);
      AfterJoins(cfg, START, before, more);
      run, i := before + more, j1;
    }
  }

  function AsMove(a: Action): Move {
    match a
    case Say(said, channel, low) => Start(0, said, channel, low)
    case Step(o) => Go(0, o)
    case Cut(o, k) => Stop(0, o, k)
  }

  function AsMoves(run: seq<Action>): (moves: seq<Move>)
    ensures |moves| == |run| && forall n :: 0 <= n < |run| ==> moves[n] == AsMove(run[n])
  {
    seq(|run|, n requires 0 <= n < |run| => AsMove(run[n]))
  }

  lemma StepIsAMove(cfg: Config, s: Shared, w: World, a: Action)
    requires Matches(s, w, 0)
    ensures Matches(Next(cfg, s, AsMove(a)), GraphRun.Next(cfg, w, a), 0)
  {
    match a {
      case Say(said, channel, low) => if w.at.Idle? { StartIsAStep(cfg, s, w, 0, 0, said, channel, low); }
      case Step(o) => if w.at.At? { GoIsAStep(cfg, s, w, 0, o); }
      case Cut(o, k) => if w.at.At? { StopIsAStep(cfg, s, w, 0, o, k); }
    }
  }

  /** And every run of one thread is one of these. */
  lemma {:induction false} OneThreadIsAlone(cfg: Config, run: seq<Action>)
    ensures Matches(ExecFrom(cfg, NOBODY, AsMoves(run)), Exec(cfg, run), 0)
  {
    hide Next, GraphRun.Next;
    if run != [] {
      var front := run[..|run| - 1];
      OneThreadIsAlone(cfg, front);
      assert AsMoves(run)[..|run| - 1] == AsMoves(front);
      StepIsAMove(cfg, ExecFrom(cfg, NOBODY, AsMoves(front)), Exec(cfg, front), run[|run| - 1]);
    }
  }

  // ---------------------------------------------------- when a second one starts

  /** Between any two appends lies an approval that was acted on. */
  ghost predicate Apart(log: seq<Event>) {
    forall i, j :: 0 <= i < j < |log| && log[i].Appended? && log[j].Appended? ==>
      exists m :: i < m < j && Approvals.Approval(log[m])
  }

  ghost predicate Good(cfg: Config, log: seq<Event>) { EveryWriteAuthorised(cfg, log) && Apart(log) }

  predicate NoStarts(moves: seq<Move>) { forall n :: 0 <= n < |moves| ==> !moves[n].Start? }

  /** A message that starts j beside what is in flight does no harm: whatever it
      says and however the invocations then interleave, until the next message. */
  ghost predicate SafeToStart(cfg: Config, s: Shared, j: nat) {
    forall said, channel, low, moves :: NoStarts(moves) ==>
      Good(cfg, ExecFrom(cfg, Next(cfg, s, Start(j, said, channel, low)), moves).log)
  }

  /** The node in flight leads to no append: it is not confirm or tools, or what is
      pending there cannot be filed. */
  ghost predicate FilesNothing(cfg: Config, w: World)
    requires w.at.At?
  {
    match w.at.node
    case Confirm => Harmless(cfg, w.thread)
    case Tools => Fileless(cfg, LastCalls(w.thread))
    case _ => true
  }

  // an invocation that can append nothing before it is resumed

  ghost predicate Quiet(cfg: Config, w: World) {
    && cfg.requireConfirmation && w.at.At? && w.thread.next == None && IdsInOrder(w.thread)
    && (match w.at.node
        case Confirm =>
          w.at.resume == None
          || (Harmless(cfg, w.thread) && WriteCaptured(cfg, w.thread) && w.thread.pendingWrite == FirstWrite(LastCalls(w.thread)))
        case Tools => Fileless(cfg, LastCalls(w.thread))
        case _ => true)
  }

  ghost predicate AllQuiet(cfg: Config, s: Shared) { forall i: nat :: i in s.flights ==> Quiet(cfg, s.flights[i]) }

  lemma HarmlessFilesNothing(cfg: Config, t: Thread)
    requires Harmless(cfg, t) && Vouched(cfg, t.messages, Pending(t))
    requires WriteCaptured(cfg, t) && t.pendingWrite == FirstWrite(LastCalls(t))
    ensures Fileless(cfg, LastCalls(t))
  {
    hide Schema, Vouched;
  }

  ghost predicate StaysQuiet(cfg: Config, before: World, after: World) {
    && before.log <= after.log && (forall e :: e in after.log[|before.log|..] ==> !e.Appended?)
    && (after.at.At? ==> Quiet(cfg, after))
  }

  lemma QuietGuard(cfg: Config, w: World, o: Oracle)
    requires Quiet(cfg, w) && w.at.node == Guard
    ensures StaysQuiet(cfg, w, Advance(cfg, w, o))
  {
    hide AgentNode, CaptureNode, ConfirmNode, ToolsNode, ReadbackNode, ParseNode, GroundNode, FormatNode, Harmless, Fileless;
  }

  lemma QuietAgent(cfg: Config, w: World, o: Oracle)
    requires Quiet(cfg, w) && w.at.node == Agent
    ensures StaysQuiet(cfg, w, Advance(cfg, w, o))
  {
    hide AgentNode, GuardNode, CaptureNode, ConfirmNode, ToolsNode, ReadbackNode, ParseNode, GroundNode, FormatNode,
      Harmless, Schema, LastCalls, IdsInOrder;
    AgentShape(cfg, w.thread, o);
  }

  lemma QuietCapture(cfg: Config, w: World, o: Oracle)
    requires Quiet(cfg, w) && w.at.node == Capture
    ensures StaysQuiet(cfg, w, Advance(cfg, w, o))
  {
    hide AgentNode, GuardNode, ConfirmNode, ToolsNode, ReadbackNode, ParseNode, GroundNode, FormatNode, Harmless,
      Fileless, FirstWrite;
  }

  lemma QuietConfirm(cfg: Config, w: World, o: Oracle)
    requires Quiet(cfg, w) && w.at.node == Confirm
    ensures StaysQuiet(cfg, w, Advance(cfg, w, o))
  {
    hide ConfirmNode, AgentNode, GuardNode, CaptureNode, ToolsNode, ReadbackNode, ParseNode, GroundNode, FormatNode,
      Harmless, Fileless, FirstWrite, LastCalls, Vouched, WriteCaptured;
    ConfirmShapes(cfg, w.thread, w.at.resume);
    ConfirmKeepsOrder(cfg, w.thread, w.at.resume);
    if ConfirmNode(cfg, w.thread, w.at.resume).goto == Some(Tools) { HarmlessFilesNothing(cfg, w.thread); }
  }

  lemma ConfirmKeepsOrder(cfg: Config, t: Thread, resume: Option<string>)
    requires IdsInOrder(t)
    ensures var out := ConfirmNode(cfg, t, resume); IdsInOrder(out.thread) && out.thread.next == t.next
  {
    hide Vouched, Approves;
  }

  lemma QuietTools(cfg: Config, w: World, o: Oracle)
    requires Quiet(cfg, w) && w.at.node == Tools
    ensures StaysQuiet(cfg, w, Advance(cfg, w, o))
  {
    hide RunCalls, AgentNode, GuardNode, CaptureNode, ConfirmNode, ReadbackNode, ParseNode, GroundNode, FormatNode,
      Fileless, ByTheCalls, LastCalls;
    var calls := LastCalls(w.thread);
    var acc := ToolRun([], w.thread.invocations, w.thread.retrieved, []);
    var run := RunCalls(cfg, calls, o.results, acc, |calls|);
    ToolEvents(cfg, calls, o.results, acc, |calls|);
    FilelessFilesNothing(cfg, calls, run.events);
    PostAllExtends(w.thread, run.outputs);
    assert (w.log + run.events)[|w.log|..] == run.events;
  }

  lemma QuietTail(cfg: Config, w: World, o: Oracle)
    requires Quiet(cfg, w) && InTail(w.at.node)
    ensures StaysQuiet(cfg, w, Advance(cfg, w, o))
  {
    hide RunNode, IdsInOrder;
    TailRewritesOne(cfg, w.at.node, w.at.resume, w.thread, o);
    TailGoesOn(cfg, w.at.node, w.at.resume, w.thread, o);
  }

  lemma QuietGoes(cfg: Config, w: World, o: Oracle)
    requires Quiet(cfg, w)
    ensures StaysQuiet(cfg, w, Advance(cfg, w, o))
  {
    hide Quiet, StaysQuiet, Advance;
    QuietFlies(cfg, w);
    match w.at.node
    case Guard => QuietGuard(cfg, w, o);
    case Agent => QuietAgent(cfg, w, o);
    case Capture => QuietCapture(cfg, w, o);
    case Confirm => QuietConfirm(cfg, w, o);
    case Tools => QuietTools(cfg, w, o);
    case _ => QuietTail(cfg, w, o);
  }

  lemma QuietFlies(cfg: Config, w: World)
    requires Quiet(cfg, w)
    ensures w.at.At?
  {
  }

  lemma QuietStops(cfg: Config, w: World, o: Oracle, k: nat)
    requires Quiet(cfg, w)
    ensures var log := CutAt(cfg, w, o, k).log; w.log <= log && forall e :: e in log[|w.log|..] ==> !e.Appended?
  {
    hide CutEffects, Fileless, ByTheCalls, Harmless, LastCalls;
    var events := CutEffects(cfg, w.at.node, w.at.resume, w.thread, o, k);
    CutEvents(cfg, w.at.node, w.at.resume, w.thread, o, k);
    if w.at.node == Tools { FilelessFilesNothing(cfg, LastCalls(w.thread), events); }
    assert (w.log + events)[|w.log|..] == events;
  }

  lemma QuietWhatever(cfg: Config, w: World, log: seq<Event>)
    ensures Quiet(cfg, w.(log := log)) == Quiet(cfg, w)
  {
  }

  lemma GoodGrows(cfg: Config, log: seq<Event>, log1: seq<Event>)
    requires Good(cfg, log) && log <= log1 && forall e :: e in log1[|log|..] ==> !e.Appended?
    ensures Good(cfg, log1)
  {
    hide EveryWriteAuthorised, Approvals.Approval;
    NoNewWrites(cfg, log, log1[|log|..]);
    assert log + log1[|log|..] == log1;
    assert forall i :: |log| <= i < |log1| ==> log1[i] in log1[|log|..];
    forall i, j | 0 <= i < j < |log1| && log1[i].Appended? && log1[j].Appended?
      ensures exists m :: i < m < j && Approvals.Approval(log1[m])
    {
      var m :| i < m < j && Approvals.Approval(log[m]);
      assert log1[m] == log[m];
    }
  }

  lemma MoveStaysQuiet(cfg: Config, s: Shared, m: Move)
    requires AllQuiet(cfg, s) && Good(cfg, s.log) && !m.Start?
    ensures AllQuiet(cfg, Next(cfg, s, m)) && Good(cfg, Next(cfg, s, m).log)
  {
    hide Good, Quiet, Advance, CutAt;
    if Flying(s, m.i) {
      var w := Seen(s, m.i);
      QuietWhatever(cfg, s.flights[m.i], s.log);
      if m.Go? {
        QuietGoes(cfg, w, m.oracle);
        GoodGrows(cfg, s.log, Advance(cfg, w, m.oracle).log);
      } else {
        QuietStops(cfg, w, m.oracle, m.k);
        GoodGrows(cfg, s.log, CutAt(cfg, w, m.oracle, m.k).log);
      }
    }
  }

  lemma {:induction false} MovesStayQuiet(cfg: Config, s: Shared, moves: seq<Move>)
    requires AllQuiet(cfg, s) && Good(cfg, s.log) && NoStarts(moves)
    ensures AllQuiet(cfg, ExecFrom(cfg, s, moves)) && Good(cfg, ExecFrom(cfg, s, moves).log)
  {
    hide AllQuiet, Good, Next;
    if moves != [] {
      MovesStayQuiet(cfg, s, moves[..|moves| - 1]);
      MoveStaysQuiet(cfg, ExecFrom(cfg, s, moves[..|moves| - 1]), moves[|moves| - 1]);
    }
  }

  /** The second invocation resumes the node the first is at. */
  lemma SecondIsATwin(cfg: Config, s: Shared, w: World, i: nat, j: nat, said: string, channel: Channel, low: bool)
    requires Matches(s, w, i) && w.at.At? && w.thread.next == None && i != j
    ensures var twin := World(w.thread, At(w.at.node, Some(said)), w.log, w.history, 0);
      Next(cfg, s, Start(j, said, channel, low)) == s.(flights := map[i := w, j := twin])
  {
  }

  lemma QuietFromInv(cfg: Config, w: World)
    requires Inv(cfg, w) && w.at.At? && FilesNothing(cfg, w)
    ensures Quiet(cfg, w) && forall said :: Quiet(cfg, World(w.thread, At(w.at.node, Some(said)), w.log, w.history, 0))
  {
    hide Harmless, Fileless, Schema, EveryWriteAuthorised, IdsInOrder, LastPrompt, Vouched;
  }

  lemma QuietStart(cfg: Config, s: Shared, w: World, i: nat, j: nat, said: string, channel: Channel, low: bool)
    requires Matches(s, w, i) && w.at.At? && i != j && Inv(cfg, w) && FilesNothing(cfg, w)
    ensures var s1 := Next(cfg, s, Start(j, said, channel, low)); AllQuiet(cfg, s1) && s1.log == s.log
  {
    hide Next, Quiet, FilesNothing, Inv;
    InvMeansOrder(cfg, w);
    QuietFromInv(cfg, w);
    SecondIsATwin(cfg, s, w, i, j, said, channel, low);
  }

  // and one that can

  lemma TwoMoves(cfg: Config, s: Shared, a: Move, b: Move)
    ensures ExecFrom(cfg, s, [a, b]) == Next(cfg, Next(cfg, s, a), b)
  {
    hide Next;
    OneMove(cfg, s, a);
    assert [a, b][..1] == [a];
  }

  lemma ThreeMoves(cfg: Config, s: Shared, a: Move, b: Move, c: Move)
    ensures ExecFrom(cfg, s, [a, b, c]) == Next(cfg, Next(cfg, Next(cfg, s, a), b), c)
  {
    hide Next;
    TwoMoves(cfg, s, a, b);
    assert [a, b, c][..2] == [a, b];
  }

  lemma GoesOn(cfg: Config, s: Shared, i: nat, o: Oracle)
    requires Flying(s, i)
    ensures var w := Advance(cfg, Seen(s, i), o); var s1 := Next(cfg, s, Go(i, o));
      && s1.log == w.log
      && (forall j: nat :: j != i ==> (j in s1.flights <==> j in s.flights) && (j in s.flights ==> s1.flights[j] == s.flights[j]))
      && (w.at.At? ==> i in s1.flights && s1.flights[i] == w)
  {
    hide Advance;
  }

  lemma ToolsLog(cfg: Config, w: World, o: Oracle)
    requires w.at.At? && w.at.node == Tools
    ensures Advance(cfg, w, o).log == w.log + ToolsNode(cfg, w.thread, o).events
  {
    hide Advance, ToolsNode;
    ToolsAdvance(cfg, w, o);
    StepIsAdvance(cfg, w, o);
  }

  lemma NotApart(log: seq<Event>, a: seq<Event>, b: seq<Event>, claim: ClaimArgs)
    requires Appended(claim) in a && Appended(claim) in b
    requires (forall e :: e in a ==> Silent(e)) && (forall e :: e in b ==> Silent(e))
    ensures !Apart(log + a + b)
  {
    hide Approvals.Approval;
    var i :| 0 <= i < |a| && a[i] == Appended(claim);
    var j :| 0 <= j < |b| && b[j] == Appended(claim);
    var all := log + a + b;
    assert all[|log| + i].Appended? && all[|log| + |a| + j].Appended?;
    forall m | |log| + i < m < |log| + |a| + j ensures !Approvals.Approval(all[m]) {
      assert Silent(all[m]) by { if m < |log| + |a| { assert all[m] == a[m - |log|]; } else { assert all[m] == b[m - |log| - |a|]; } }
      SilentIsNoApproval(all[m]);
    }
  }

  lemma SilentIsNoApproval(e: Event)
    requires Silent(e)
    ensures !Approvals.Approval(e)
  {
    hide Approves;
  }

  /** Some call of the tools in flight files: both invocations file it. */
  lemma ToolsTwice(cfg: Config, s: Shared, w: World, i: nat, j: nat)
    requires Matches(s, w, i) && w.at.At? && i != j && Inv(cfg, w)
    requires w.at.node == Tools && !FilesNothing(cfg, w)
    ensures !SafeToStart(cfg, s, j)
  {
    hide Next, Inv, ToolsNode, Advance, Apart, EveryWriteAuthorised, Schema;
    InvMeansOrder(cfg, w);
    SecondIsATwin(cfg, s, w, i, j, "", Text, false);
    var n := |LastCalls(w.thread)|;
    var s1 := Next(cfg, s, Start(j, "", Text, false));
    TwoMoves(cfg, s1, Go(i, Filing(n)), Go(j, Filing(n)));
    var claim := ToolsFile(cfg, w.thread, n);
    GoesOn(cfg, s1, i, Filing(n));
    ToolsLog(cfg, Seen(s1, i), Filing(n));
    var s2 := Next(cfg, s1, Go(i, Filing(n)));
    GoesOn(cfg, s2, j, Filing(n));
    ToolsLog(cfg, Seen(s2, j), Filing(n));
    var events := ToolsNode(cfg, w.thread, Filing(n)).events;
    NotApart(w.log, events, events, claim);
    assert NoStarts([Go(i, Filing(n)), Go(j, Filing(n))]);
    assert !Good(cfg, ExecFrom(cfg, s1, [Go(i, Filing(n)), Go(j, Filing(n))]).log);
  }

  lemma ToolsFile(cfg: Config, t: Thread, n: nat) returns (claim: ClaimArgs)
    requires !Fileless(cfg, LastCalls(t)) && n == |LastCalls(t)|
    ensures var events := ToolsNode(cfg, t, Filing(n)).events;
      Appended(claim) in events && forall e :: e in events ==> Silent(e)
  {
    hide Schema, RunCalls;
    var calls := LastCalls(t);
    var acc := ToolRun([], t.invocations, t.retrieved, []);
    var c :| c in calls && c.name == SubmitClaim && Schema(cfg, c.args) != None;
    var i :| 0 <= i < |calls| && calls[i] == c;
    claim := Schema(cfg, c.args).value;
    CallFiles(cfg, calls, Filing(n).results, acc, n, i);
    ToolEvents(cfg, calls, Filing(n).results, acc, n);
  }

  /** Confirm, told "yes", goes on to the tools. */
  lemma YesGoesToTools(cfg: Config, w: World, o: Oracle)
    requires cfg.requireConfirmation && w.at == At(Confirm, Some("yes")) && !Harmless(cfg, w.thread)
    ensures var w1 := Advance(cfg, w, o);
      && w1.at == At(Tools, None) && w1.log == w.log + [Answered("yes", true)]
      && w1.thread.messages == w.thread.messages
  {
    hide Advance, Vouched, Approves, Schema;
    AcceptedMeans(cfg, Pending(w.thread));
    YesApproves();
    ApprovalGoesToTools(cfg, w, "yes", o);
    StepIsAdvance(cfg, w, o);
  }

  lemma UnauthorisedAfter(cfg: Config, log: seq<Event>, events: seq<Event>, claim: ClaimArgs)
    requires !LastPrompt(log).Replied? && Appended(claim) in events && forall e :: e in events ==> Silent(e)
    ensures !EveryWriteAuthorised(cfg, log + events)
  {
    hide Schema, Approves;
    var i :| 0 <= i < |events| && events[i] == Appended(claim);
    assert forall e :: e in events[..i] ==> e in events;
    WriteGate.QuietTail(log, events[..i]);
    assert (log + events)[..|log| + i] == log + events[..i];
    assert (log + events)[|log| + i] == Appended(claim);
  }

  /** The second is told "yes" where the prompt has been answered, or was never up. */
  lemma AnsweredTwice(cfg: Config, s: Shared, w: World, i: nat, j: nat, before: seq<Move>)
    requires Matches(s, w, i) && w.at.At? && i != j && Inv(cfg, w) && w.at.node == Confirm && !Harmless(cfg, w.thread)
    requires before == if w.at.resume == None then [] else [Go(i, SILENT)]
    ensures var s2 := ExecFrom(cfg, Next(cfg, s, Start(j, "yes", Text, false)), before);
      && Flying(s2, j) && s2.flights[j].at == At(Confirm, Some("yes")) && s2.flights[j].thread == w.thread
      && !LastPrompt(s2.log + [Answered("yes", true)]).Replied?
  {
    hide Next, Inv, Advance, Harmless, Vouched;
    InvMeansOrder(cfg, w);
    SecondIsATwin(cfg, s, w, i, j, "yes", Text, false);
    var s1 := Next(cfg, s, Start(j, "yes", Text, false));
    if w.at.resume == None {
      NoMoves(cfg, s1);
      UnshownHere(cfg, w);
    } else {
      OneMove(cfg, s1, before[0]);
      GoesOn(cfg, s1, i, SILENT);
      FirstReplyIsTaken(cfg, w, SILENT);
      assert Seen(s1, i) == w;
    }
  }

  lemma NoMoves(cfg: Config, s: Shared)
    ensures ExecFrom(cfg, s, []) == s
  {
  }

  lemma UnshownHere(cfg: Config, w: World)
    requires Inv(cfg, w) && w.at == At(Confirm, None)
    ensures !LastPrompt(w.log + [Answered("yes", true)]).Replied?
  {
    hide EveryWriteAuthorised, Vouched, Harmless, Schema;
    assert (w.log + [Answered("yes", true)])[..|w.log|] == w.log;
  }

  lemma FirstReplyIsTaken(cfg: Config, w: World, o: Oracle)
    requires Inv(cfg, w) && w.at.At? && w.at.node == Confirm && w.at.resume.Some? && !Harmless(cfg, w.thread)
    ensures Advance(cfg, w, o).log == w.log + [Answered(w.at.resume.value, true)]
    ensures !LastPrompt(w.log + [Answered(w.at.resume.value, true)] + [Answered("yes", true)]).Replied?
  {
    hide EveryWriteAuthorised, Vouched, Schema, Approves, GuardNode, AgentNode, CaptureNode, ToolsNode, ReadbackNode,
      ParseNode, GroundNode, FormatNode, HumansWereHeard, IdsInOrder;
    var log1 := w.log + [Answered(w.at.resume.value, true)];
    assert (log1 + [Answered("yes", true)])[..|log1|] == log1;
    TakenIsNotShown(w.log, w.at.resume.value);
  }

  /** Told "yes", j files what is pending. */
  lemma TwinFiles(cfg: Config, s: Shared, w: World, j: nat)
    requires Inv(cfg, w) && w.at.At? && w.at.node == Confirm && !Harmless(cfg, w.thread)
    requires Flying(s, j) && s.flights[j].at == At(Confirm, Some("yes")) && s.flights[j].thread == w.thread
    ensures var n := |LastCalls(w.thread)|;
      ExecFrom(cfg, s, [Go(j, SILENT), Go(j, Filing(n))]).log
        == s.log + [Answered("yes", true)] + ToolsNode(cfg, w.thread, Filing(n)).events
  {
    hide Next, Inv, ToolsNode, Advance, Harmless, ExecFrom, LastCalls;
    InvMeansOrder(cfg, w);
    var n := |LastCalls(w.thread)|;
    GoesOn(cfg, s, j, SILENT);
    YesGoesToTools(cfg, Seen(s, j), SILENT);
    var s1 := Next(cfg, s, Go(j, SILENT));
    GoesOn(cfg, s1, j, Filing(n));
    ToolsLog(cfg, Seen(s1, j), Filing(n));
    TwoMoves(cfg, s, Go(j, SILENT), Go(j, Filing(n)));
    SameTools(cfg, w.thread, s1.flights[j].thread, Filing(n));
  }

  lemma ConfirmTwice(cfg: Config, s: Shared, w: World, i: nat, j: nat)
    requires Matches(s, w, i) && w.at.At? && i != j && Inv(cfg, w)
    requires w.at.node == Confirm && !Harmless(cfg, w.thread)
    ensures !SafeToStart(cfg, s, j)
  {
    hide Next, Inv, ToolsNode, EveryWriteAuthorised, Harmless, ExecFrom, LastCalls, SafeToStart, Schema, LastPrompt;
    var before := if w.at.resume == None then [] else [Go(i, SILENT)];
    var s1, n := Next(cfg, s, Start(j, "yes", Text, false)), |LastCalls(w.thread)|;
    AnsweredTwice(cfg, s, w, i, j, before);
    var s2, rest := ExecFrom(cfg, s1, before), [Go(j, SILENT), Go(j, Filing(n))];
    TwinFiles(cfg, s2, w, j);
    MovesJoin(cfg, s1, before, rest);
    FirstIsFiled(cfg, w, n);
    HarmfulIsAccepted(cfg, w.thread);
    UnauthorisedAfter(cfg, s2.log + [Answered("yes", true)], ToolsNode(cfg, w.thread, Filing(n)).events,
                      Schema(cfg, Pending(w.thread)).value);
    NotSafe(cfg, s, j, "yes", before + rest);
  }

  lemma NotSafe(cfg: Config, s: Shared, j: nat, said: string, moves: seq<Move>)
    requires NoStarts(moves) && !EveryWriteAuthorised(cfg, ExecFrom(cfg, Next(cfg, s, Start(j, said, Text, false)), moves).log)
    ensures !SafeToStart(cfg, s, j)
  {
    hide Next, ExecFrom, EveryWriteAuthorised, Apart;
  }

  /** Exactly when a second invocation may start beside the first: when the first is
      not at confirm or tools, or what is pending there cannot be filed. Elsewhere
      some message and interleaving files without authority or twice. */
  lemma OverlapIsSafeIff(cfg: Config, s: Shared, w: World, i: nat, j: nat)
    requires Matches(s, w, i) && w.at.At? && i != j && Inv(cfg, w) && Apart(w.log)
    ensures SafeToStart(cfg, s, j) <==> FilesNothing(cfg, w)
  {
    hide Inv, Next, FilesNothing, Apart, EveryWriteAuthorised;
    if FilesNothing(cfg, w) {
      InvMeansAuthorised(cfg, w);
      forall said, channel, low, moves | NoStarts(moves)
        ensures Good(cfg, ExecFrom(cfg, Next(cfg, s, Start(j, said, channel, low)), moves).log)
      {
        QuietStart(cfg, s, w, i, j, said, channel, low);
        MovesStayQuiet(cfg, Next(cfg, s, Start(j, said, channel, low)), moves);
      }
    } else {
      WhereItFiles(cfg, w);
      if w.at.node == Tools { ToolsTwice(cfg, s, w, i, j); } else { ConfirmTwice(cfg, s, w, i, j); }
    }
  }

  lemma WhereItFiles(cfg: Config, w: World)
    requires w.at.At? && !FilesNothing(cfg, w)
    ensures w.at.node == Tools || (w.at.node == Confirm && !Harmless(cfg, w.thread))
  {
  }

  // ------------------------------------------------------------- runs of it

  /** A write proposed and shown: nobody is in flight, and the thread waits. */
  lemma ShownToAll(cfg: Config, said: string, args: Args, claim: ClaimArgs) returns (w: World, s: Shared, moves: seq<Move>)
    requires Fileable(cfg, said, args, claim)
    ensures s == ExecFrom(cfg, NOBODY, moves) && AloneRun(cfg, moves)
    ensures s.flights == map[] && s.store == w.thread.(next := Some(Confirm))
    ensures w.thread.next == None && Pending(w.thread) == args && LastCalls(w.thread) == [Call(SubmitClaim, args)]
    ensures Vouched(cfg, w.thread.messages, args)
    ensures s.log == [Heard(said), Guarded, ModelCalled(true), Displayed(args)]
  {
    hide Schema, Vouched, After, Next, GraphRun.Next, Fileable, LastCalls, Exec, AloneRun;
    FileableMeans(cfg, said, args, claim);
    w := FirstProposal(cfg, said, args, claim);
    PromptGoesUp(cfg, w);
    var run := Open(said) + Propose(args) + [Step(SILENT)];
    AfterOne(cfg, w, Step(SILENT));
    AfterJoins(cfg, START, Open(said) + Propose(args), [Step(SILENT)]);
    ExecIsAfter(cfg, run);
    moves := AsMoves(run);
    OneThreadIsAlone(cfg, run);
    s := ExecFrom(cfg, NOBODY, moves);
    FirstTurnIsAlone(cfg, run);
  }

  /** Only its first action is a message. */
  lemma FirstTurnIsAlone(cfg: Config, run: seq<Action>)
    requires run != [] && forall n :: 0 < n < |run| ==> !run[n].Say?
    ensures AloneRun(cfg, AsMoves(run))
  {
    hide Next;
    var moves := AsMoves(run);
    assert moves[..0] == [];
    assert ExecFrom(cfg, NOBODY, []) == NOBODY;
  }

  lemma ResumesConfirm(cfg: Config, s: Shared, t: Thread, i: nat, said: string)
    requires s.store == t.(next := Some(Confirm)) && t.next == None && i !in s.flights
    ensures var w := World(t, At(Confirm, Some(said)), s.log, s.history, 0);
      Next(cfg, s, Start(i, said, Text, false)) == s.(flights := s.flights[i := w])
  {
  }

  /** "yes" and "no" on two replicas: one prompt takes both, and the claim is filed. */
  lemma PromptTakesTwoReplies(cfg: Config, said: string, args: Args, claim: ClaimArgs) returns (before: seq<Move>)
    requires Fileable(cfg, said, args, claim)
    ensures AloneRun(cfg, before) && ExecFrom(cfg, NOBODY, before).flights == map[]
    ensures ExecFrom(cfg, NOBODY, before + TwoReplies()).log == [
      Heard(said), Guarded, ModelCalled(true), Displayed(args), Answered("yes", true), Answered("no", true),
      Appended(claim), Ran(Invocation(SubmitClaim, args, true), true)]
  {
    hide Next, Advance, Schema, Vouched, Approves, Fileable, LastCalls, ToolsNode, ExecFrom, AloneRun, Pending;
    var w, s;
    FileableMeans(cfg, said, args, claim);
    w, s, before := ShownToAll(cfg, said, args, claim);
    ResumesConfirm(cfg, s, w.thread, 1, "yes");
    var s1 := Next(cfg, s, Start(1, "yes", Text, false));
    ResumesConfirm(cfg, s1, w.thread, 2, "no");
    var s2 := Next(cfg, s1, Start(2, "no", Text, false));
    GoesOn(cfg, s2, 1, SILENT);
    var yes := Seen(s2, 1);
    ConfirmAnswers(cfg, yes, args, SILENT);
    YesApproves();
    var s3 := Next(cfg, s2, Go(1, SILENT));
    GoesOn(cfg, s3, 2, SILENT);
    ConfirmAnswers(cfg, Seen(s3, 2), args, SILENT);
    var s4 := Next(cfg, s3, Go(2, SILENT));
    GoesOn(cfg, s4, 1, Filing(1));
    ToolsLog(cfg, Seen(s4, 1), Filing(1));
    Approvals.SameLastCalls(w.thread, s4.flights[1].thread);
    OneWriteRuns(cfg, s4.flights[1].thread, args);
    FiveMoves(cfg, s, TwoReplies());
    MovesJoin(cfg, NOBODY, before, TwoReplies());
  }

  function TwoReplies(): seq<Move> {
    [Start(1, "yes", Text, false), Start(2, "no", Text, false), Go(1, SILENT), Go(2, SILENT), Go(1, Filing(1))]
  }

  lemma FiveMoves(cfg: Config, s: Shared, m: seq<Move>)
    requires |m| == 5
    ensures ExecFrom(cfg, s, m) == Next(cfg, Next(cfg, Next(cfg, Next(cfg, Next(cfg, s, m[0]), m[1]), m[2]), m[3]), m[4])
  {
    hide Next, ExecFrom;
    var s3 := ExecFrom(cfg, s, m[..3]);
    assert m == m[..3] + m[3..];
    MovesJoin(cfg, s, m[..3], m[3..]);
    assert m[..3] == [m[0], m[1], m[2]] && m[3..] == [m[3], m[4]];
    ThreeMoves(cfg, s, m[0], m[1], m[2]);
    TwoMoves(cfg, s3, m[3], m[4]);
  }

  /** Confirm takes the reply it was handed, and with an approval goes on to the tools. */
  lemma ConfirmAnswers(cfg: Config, w: World, args: Args, o: Oracle)
    requires cfg.requireConfirmation && w.at.At? && w.at.node == Confirm && w.at.resume.Some?
    requires Pending(w.thread) == args && args != map[] && Vouched(cfg, w.thread.messages, args)
    ensures var w1 := Advance(cfg, w, o);
      && w1.log == w.log + [Answered(w.at.resume.value, true)]
      && (Approves(w.at.resume.value) ==> w1.at == At(Tools, None) && w1.thread.messages == w.thread.messages)
  {
    hide Vouched, Approves, GuardNode, AgentNode, CaptureNode, ToolsNode, ReadbackNode, ParseNode, GroundNode, FormatNode;
  }

  function TwoAppends(): seq<Move> {
    [Start(1, "yes", Text, false), Go(1, SILENT), Start(2, "hello?", Text, false), Go(1, Filing(1)), Go(2, Filing(1))]
  }

  /** A message while the tools run: one approval files twice, and nothing was cut. */
  lemma ApprovalIsUsedTwice(cfg: Config, said: string, args: Args, claim: ClaimArgs) returns (before: seq<Move>)
    requires Fileable(cfg, said, args, claim)
    ensures AloneRun(cfg, before) && ExecFrom(cfg, NOBODY, before).flights == map[]
    ensures ExecFrom(cfg, NOBODY, before + TwoAppends()).log == [
      Heard(said), Guarded, ModelCalled(true), Displayed(args), Answered("yes", true),
      Appended(claim), Ran(Invocation(SubmitClaim, args, true), true),
      Appended(claim), Ran(Invocation(SubmitClaim, args, true), true)]
  {
    hide Next, Advance, Schema, Vouched, Approves, Fileable, LastCalls, ToolsNode, ExecFrom, AloneRun, Pending;
    var w, s;
    FileableMeans(cfg, said, args, claim);
    w, s, before := ShownToAll(cfg, said, args, claim);
    ResumesConfirm(cfg, s, w.thread, 1, "yes");
    var s1 := Next(cfg, s, Start(1, "yes", Text, false));
    ConfirmAnswers(cfg, Seen(s1, 1), args, SILENT);
    YesApproves();
    var s2 := Next(cfg, s1, Go(1, SILENT));
    OnlyOneFlies(cfg, s1, 1, SILENT);
    var acting := s2.flights[1];
    ConfirmGoesOn(cfg, Seen(s1, 1), SILENT);
    SecondIsATwin(cfg, s2, acting, 1, 2, "hello?", Text, false);
    var s3 := Next(cfg, s2, Start(2, "hello?", Text, false));
    GoesOn(cfg, s3, 1, Filing(1));
    ToolsLog(cfg, Seen(s3, 1), Filing(1));
    var s4 := Next(cfg, s3, Go(1, Filing(1)));
    GoesOn(cfg, s4, 2, Filing(1));
    ToolsLog(cfg, Seen(s4, 2), Filing(1));
    Approvals.SameLastCalls(w.thread, acting.thread);
    OneWriteRuns(cfg, acting.thread, args);
    FiveMoves(cfg, s, TwoAppends());
    MovesJoin(cfg, NOBODY, before, TwoAppends());
  }

  lemma OnlyOneFlies(cfg: Config, s: Shared, i: nat, o: Oracle)
    requires Flying(s, i) && s.flights.Keys == {i} && Advance(cfg, Seen(s, i), o).at.At?
    requires Seen(s, i).history == s.history
    ensures var s1 := Next(cfg, s, Go(i, o)); var w := Advance(cfg, Seen(s, i), o);
      s1.flights == map[i := w] && s1.store == Saved(w) && s1.log == w.log && Matches(s1, w, i)
  {
    AdvanceKeepsHistory(cfg, Seen(s, i), o);
    hide Advance;
  }

  lemma ConfirmGoesOn(cfg: Config, w: World, o: Oracle)
    requires w.at.At? && w.at.node == Confirm && w.thread.next == None
    ensures Advance(cfg, w, o).at.At? ==> Advance(cfg, w, o).thread.next == None
  {
    hide Vouched, Approves;
  }
}
