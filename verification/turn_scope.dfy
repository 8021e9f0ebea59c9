/** What one turn may leave in the next: the evidence and tool record of a turn
    are its own, and complete unless a cut lost some of it
    (backend/agent/app/graph/nodes.py:163-212; build.py:79-183, 250-266). */
module TurnScope {
  import opened GraphState
  import opened Options
  import opened GraphNodes
  import opened GraphRun

  /** What was saved in the thread, what was lost to a cut, or both. */
  datatype Kept = Saved | Lost | Either

  predicate Counts(kept: Kept, saved: bool) { kept == Either || saved == (kept == Saved) }

  function WithRun(runs: seq<Invocation>, e: Event, kept: Kept): seq<Invocation> {
    match e
    case Guarded => []
    case Ran(inv, saved) => if Counts(kept, saved) then runs + [inv] else runs
    case _ => runs
  }

  function WithChunk(chunks: seq<Chunk>, e: Event, kept: Kept): seq<Chunk> {
    match e
    case Guarded => []
    case Harvested(chunk, saved) => if Counts(kept, saved) then chunks + [chunk] else chunks
    case _ => chunks
  }

  /** The tool runs observed since guard last opened a turn. */
  function RunsThisTurn(log: seq<Event>, kept: Kept): seq<Invocation> {
    if log == [] then [] else WithRun(RunsThisTurn(log[..|log| - 1], kept), log[|log| - 1], kept)
  }

  /** The policy text gathered since guard last opened a turn. */
  function HarvestThisTurn(log: seq<Event>, kept: Kept): seq<Chunk> {
    if log == [] then [] else WithChunk(HarvestThisTurn(log[..|log| - 1], kept), log[|log| - 1], kept)
  }

  predicate Distinct(s: seq<string>) { forall i, j :: 0 <= i < j < |s| ==> s[i] != s[j] }

  predicate Cites(chunks: seq<Chunk>, s: string) { exists c :: c in chunks && c.citation == s }

  /** The record of the turn is exactly what was saved in it, and the sources
      are distinct citations of it. */
  ghost predicate Scoped(w: World) {
    && IdsInOrder(w.thread)
    && w.thread.invocations == RunsThisTurn(w.log, Saved)
    && w.thread.retrieved == HarvestThisTurn(w.log, Saved)
    && (forall c :: c in w.thread.retrieved ==> c.citation != "")
    && Distinct(w.thread.sources)
    && (forall s :: s in w.thread.sources ==> Cites(w.thread.retrieved, s))
  }

  // ------------------------------------------------------------ log algebra

  lemma Fold(log: seq<Event>, e: Event)
    ensures forall kept :: RunsThisTurn(log + [e], kept) == WithRun(RunsThisTurn(log, kept), e, kept)
    ensures forall kept :: HarvestThisTurn(log + [e], kept) == WithChunk(HarvestThisTurn(log, kept), e, kept)
  {
    assert (log + [e])[..|log + [e]| - 1] == log;
  }

  lemma {:induction false} FoldHarvests(log: seq<Event>, chunks: seq<Chunk>)
    ensures RunsThisTurn(log + Harvests(chunks), Saved) == RunsThisTurn(log, Saved)
    ensures HarvestThisTurn(log + Harvests(chunks), Saved) == HarvestThisTurn(log, Saved) + chunks
  {
    hide RunsThisTurn, HarvestThisTurn;
    if chunks == [] {
      assert log + Harvests(chunks) == log;
    } else {
      var front, last := chunks[..|chunks| - 1], chunks[|chunks| - 1];
      FoldHarvests(log, front);
      Fold(log + Harvests(front), Harvested(last, true));
      assert log + Harvests(chunks) == log + Harvests(front) + [Harvested(last, true)];
      assert chunks == front + [last];
    }
  }

  lemma CallRecord(cfg: Config, log: seq<Event>, call: Call, result: ToolResult, acc: ToolRun)
    requires acc.invocations == RunsThisTurn(log + acc.events, Saved) && acc.retrieved == HarvestThisTurn(log + acc.events, Saved)
    ensures var run := RunCall(cfg, call, result, acc);
      && run.invocations == RunsThisTurn(log + run.events, Saved)
      && run.retrieved == HarvestThisTurn(log + run.events, Saved)
  {
    hide Schema, Evidence, RunsThisTurn, HarvestThisTurn;
    if call.name in cfg.tools {
      var l0, filed, found := log + acc.events, Files(cfg, call, result), Evidence(call, result);
      var inv := Invocation(call.name, call.args, result.failed);
      if filed == [] { assert l0 + filed == l0; } else { Fold(l0, filed[0]); assert filed == [filed[0]]; }
      FoldHarvests(l0 + filed, found);
      Fold(l0 + filed + Harvests(found), Ran(inv, true));
      assert log + (acc.events + filed + Harvests(found) + [Ran(inv, true)]) == l0 + filed + Harvests(found) + [Ran(inv, true)];
    }
  }

  lemma {:induction false} ToolsRecord(cfg: Config, log: seq<Event>, calls: seq<Call>, results: seq<ToolResult>, acc: ToolRun, k: nat)
    requires k <= |calls| && acc.events == []
    requires acc.invocations == RunsThisTurn(log, Saved) && acc.retrieved == HarvestThisTurn(log, Saved)
    requires forall c :: c in acc.retrieved ==> c.citation != ""
    ensures var run := RunCalls(cfg, calls, results, acc, k);
      && run.invocations == RunsThisTurn(log + run.events, Saved)
      && run.retrieved == HarvestThisTurn(log + run.events, Saved)
      && acc.retrieved <= run.retrieved
      && forall c :: c in run.retrieved ==> c.citation != ""
  {
    hide Schema, Evidence, Files, RunsThisTurn, HarvestThisTurn;
    if k == 0 {
      assert log + [] == log;
    } else {
      ToolsRecord(cfg, log, calls, results, acc, k - 1);
      CallRecord(cfg, log, calls[k - 1], ResultAt(results, k - 1), RunCalls(cfg, calls, results, acc, k - 1));
    }
  }

  // ------------------------------------------------------------- isolation

  lemma CitedStays(before: seq<Chunk>, after: seq<Chunk>, sources: seq<string>)
    requires before <= after
    requires forall s :: s in sources ==> Cites(before, s)
    ensures forall s :: s in sources ==> Cites(after, s)
  {
    forall s | s in sources ensures Cites(after, s) {
      var c :| c in before && c.citation == s;
      assert c in after;
    }
  }

  lemma SourcesAreCited(cfg: Config, text: string, chunks: seq<Chunk>)
    ensures Distinct(SourcesFor(cfg, text, chunks))
    ensures forall s :: s in SourcesFor(cfg, text, chunks) ==> Cites(chunks, s)
  {
    forall s | s in SourcesFor(cfg, text, chunks) ensures Cites(chunks, s) {
      var named := CitationsWhere(chunks, c => cfg.named(text, c));
      var figured := CitationsWhere(chunks, c => OwnsAFigure(cfg, text, chunks, c));
      assert s in named || s in figured || s in CitationsWhere(chunks, c => true);
    }
  }

  /** What a cut leaves behind is lost: the saved record is as it was. */
  lemma {:induction false} LostIsNotSaved(log: seq<Event>, more: seq<Event>)
    requires forall e :: e in more ==> !e.Guarded? && (e.Ran? || e.Harvested? ==> !e.saved)
    ensures RunsThisTurn(log + more, Saved) == RunsThisTurn(log, Saved)
    ensures HarvestThisTurn(log + more, Saved) == HarvestThisTurn(log, Saved)
  {
    hide RunsThisTurn, HarvestThisTurn;
    if more == [] {
      assert log + more == log;
    } else {
      var front, last := more[..|more| - 1], more[|more| - 1];
      assert last in more;
      assert forall e :: e in front ==> e in more;
      LostIsNotSaved(log, front);
      Fold(log + front, last);
      assert log + more == (log + front) + [last];
    }
  }

  lemma {:induction false} CallsOpenNoTurn(cfg: Config, calls: seq<Call>, results: seq<ToolResult>, acc: ToolRun, k: nat)
    requires k <= |calls| && acc.events == []
    ensures forall e :: e in RunCalls(cfg, calls, results, acc, k).events ==> !e.Guarded?
  {
    hide Schema, Evidence;
    if k > 0 { CallsOpenNoTurn(cfg, calls, results, acc, k - 1); }
  }

  lemma CutEffectsAreLost(cfg: Config, node: Node, resume: Option<string>, t: Thread, o: Oracle, k: nat)
    ensures forall e :: e in CutEffects(cfg, node, resume, t, o, k) ==> !e.Guarded? && (e.Ran? || e.Harvested? ==> !e.saved)
  {
    hide Schema, RunCalls;
    var calls := LastCalls(t);
    CallsOpenNoTurn(cfg, calls, o.results, NOTHING_RUN, if k < |calls| then k else |calls|);
    forall e | e in AllUnsaved(CutCalls(cfg, calls, o.results, k))
      ensures !e.Guarded? && (e.Ran? || e.Harvested? ==> !e.saved)
    {
      var i :| 0 <= i < |CutCalls(cfg, calls, o.results, k)| && e == Unsaved(CutCalls(cfg, calls, o.results, k)[i]);
      assert CutCalls(cfg, calls, o.results, k)[i] in CutCalls(cfg, calls, o.results, k);
    }
  }

  lemma ScopedCut(cfg: Config, w: World, o: Oracle, k: nat)
    requires Scoped(w) && w.at.At?
    ensures Scoped(CutAt(cfg, w, o, k))
  {
    hide CutEffects, RunsThisTurn, HarvestThisTurn;
    CutEffectsAreLost(cfg, w.at.node, w.at.resume, w.thread, o, k);
    LostIsNotSaved(w.log, CutEffects(cfg, w.at.node, w.at.resume, w.thread, o, k));
  }

  /** Every step leaves the turn's record the turn's own. */
  lemma ScopedStep(cfg: Config, w: World, a: Action)
    requires Scoped(w)
    ensures Scoped(Next(cfg, w, a))
  {
    hide Schema, Approves, Vouched, SourcesFor, Merge;
    match a
    case Say(_, _, _) => if w.at.Idle? && w.thread.next == None { Fold(w.log, Heard(a.said)); }
    case Cut(o, k) => if w.at.At? { ScopedCut(cfg, w, o, k); }
    case Step(o) =>
      if w.at.At? { ScopedNode(cfg, w, o); }
  }

  lemma ScopedGuard(cfg: Config, w: World, o: Oracle)
    requires Scoped(w) && w.at.At? && w.at.node == Guard
    ensures Scoped(Advance(cfg, w, o))
  {
    hide Schema, Approves, Vouched, SourcesFor, Merge, RunsThisTurn, HarvestThisTurn, AgentNode, CaptureNode,
      ConfirmNode, ToolsNode, ReadbackNode, ParseNode, GroundNode, FormatNode;
    Fold(w.log, Guarded);
  }

  lemma ScopedAgent(cfg: Config, w: World, o: Oracle)
    requires Scoped(w) && w.at.At? && w.at.node == Agent
    ensures Scoped(Advance(cfg, w, o))
  {
    hide Schema, Approves, Vouched, SourcesFor, Merge, RunsThisTurn, HarvestThisTurn, GuardNode, CaptureNode,
      ConfirmNode, ToolsNode, ReadbackNode, ParseNode, GroundNode, FormatNode, Cites, Distinct;
    Fold(w.log, ModelCalled(true));
    assert w.log + [] == w.log;
  }

  /** Confirm pauses, passes the write on, or ends the turn with at most one
      more answer; the evidence is untouched. */
  lemma ConfirmShape(cfg: Config, t: Thread, resume: Option<string>)
    ensures var out := ConfirmNode(cfg, t, resume);
      && out.thread.retrieved == t.retrieved && out.thread.sources == t.sources && out.thread.next == t.next
      && out.thread.invocations == t.invocations
      && (out.events == [] || (|out.events| == 1 && (out.events[0].Displayed? || out.events[0].Answered?)))
      && (IdsInOrder(t) ==> IdsInOrder(out.thread))
      && t.messages <= out.thread.messages
      && (out.paused ==> out.goto == None && out.thread == t)
      && (!out.paused ==> out.goto == Some(Parse) || (out.goto == Some(Tools) && out.thread.messages == t.messages))
  {
    hide Approves, Vouched, LastAnswer;
  }

  lemma ScopedConfirm(cfg: Config, w: World, o: Oracle)
    requires Scoped(w) && w.at.At? && w.at.node == Confirm
    ensures Scoped(Advance(cfg, w, o))
  {
    hide ConfirmNode, RunsThisTurn, HarvestThisTurn;
    ConfirmShape(cfg, w.thread, w.at.resume);
    var out := ConfirmNode(cfg, w.thread, w.at.resume);
    assert w.log + [] == w.log;
    if out.events != [] {
      Fold(w.log, out.events[0]);
      assert out.events == [out.events[0]];
    }
  }

  lemma ScopedCapture(cfg: Config, w: World, o: Oracle)
    requires Scoped(w) && w.at.At? && w.at.node == Capture
    ensures Scoped(Advance(cfg, w, o))
  {
    hide Schema, Approves, Vouched, SourcesFor, Merge, RunsThisTurn, HarvestThisTurn, GuardNode, AgentNode,
      ConfirmNode, ToolsNode, ReadbackNode, ParseNode, GroundNode, FormatNode;
    assert w.log + [] == w.log;
    if o.split.Some? && o.split.value.citation != "" {
      var chunk := Chunk(o.split.value.citation, o.split.value.title, o.split.value.text);
      Fold(w.log, Harvested(chunk, true));
      CitedStays(w.thread.retrieved, w.thread.retrieved + [chunk], w.thread.sources);
      assert chunk in w.thread.retrieved + [chunk];
    }
  }

  lemma ScopedTail(cfg: Config, w: World, o: Oracle)
    requires Scoped(w) && w.at.At? && w.at.node in {Readback, Parse, Format}
    ensures Scoped(Advance(cfg, w, o))
  {
    hide Schema, Approves, Vouched, SourcesFor, Merge, RunsThisTurn, HarvestThisTurn, GuardNode, AgentNode,
      CaptureNode, ConfirmNode, ToolsNode, GroundNode;
    assert w.log + [] == w.log;
    TailRewritesOne(cfg, w.at.node, w.at.resume, w.thread, o);
  }

  lemma ScopedNode(cfg: Config, w: World, o: Oracle)
    requires Scoped(w) && w.at.At?
    ensures Scoped(Advance(cfg, w, o))
  {
    hide Scoped, Advance;
    match w.at.node
    case Guard => ScopedGuard(cfg, w, o);
    case Agent => ScopedAgent(cfg, w, o);
    case Confirm => ScopedConfirm(cfg, w, o);
    case Capture => ScopedCapture(cfg, w, o);
    case Tools => ScopedTools(cfg, w, o);
    case Ground => ScopedGround(cfg, w, o);
    case _ => ScopedTail(cfg, w, o);
  }

  lemma ScopedTools(cfg: Config, w: World, o: Oracle)
    requires Scoped(w) && w.at.At? && w.at.node == Tools
    ensures Scoped(Advance(cfg, w, o))
  {
    hide Schema;
    var acc := ToolRun([], w.thread.invocations, w.thread.retrieved, []);
    var calls := LastCalls(w.thread);
    ToolsRecord(cfg, w.log, calls, o.results, acc, |calls|);
    var run := RunCalls(cfg, calls, o.results, acc, |calls|);
    PostAllExtends(w.thread, run.outputs);
    CitedStays(w.thread.retrieved, run.retrieved, w.thread.sources);
  }

  lemma ScopedGround(cfg: Config, w: World, o: Oracle)
    requires Scoped(w) && w.at.At? && w.at.node == Ground
    ensures Scoped(Advance(cfg, w, o))
  {
    hide SourcesFor, Merge;
    assert w.log + [] == w.log;
    TailRewritesOne(cfg, Ground, w.at.resume, w.thread, o);
    forall text { SourcesAreCited(cfg, text, w.thread.retrieved); }
  }

  // ------------------------------------------------------------ main results

  /** In every run whatever: tool record and evidence are exactly those saved in
      the current turn, and the sources are distinct citations of that evidence. */
  lemma {:induction false} EvidenceIsThisTurns(cfg: Config, run: seq<Action>)
    ensures Scoped(Exec(cfg, run))
  {
    if run != [] {
      EvidenceIsThisTurns(cfg, run[..|run| - 1]);
      ScopedStep(cfg, Exec(cfg, run[..|run| - 1]), run[|run| - 1]);
    }
  }

  lemma {:induction false} SavedAndLost(log: seq<Event>)
    ensures |RunsThisTurn(log, Either)| == |RunsThisTurn(log, Saved)| + |RunsThisTurn(log, Lost)|
    ensures RunsThisTurn(log, Lost) == [] ==> RunsThisTurn(log, Either) == RunsThisTurn(log, Saved)
    ensures |HarvestThisTurn(log, Either)| == |HarvestThisTurn(log, Saved)| + |HarvestThisTurn(log, Lost)|
    ensures HarvestThisTurn(log, Lost) == [] ==> HarvestThisTurn(log, Either) == HarvestThisTurn(log, Saved)
  {
    if log != [] {
      hide RunsThisTurn, HarvestThisTurn;
      var front, last := log[..|log| - 1], log[|log| - 1];
      SavedAndLost(front);
      Fold(front, last);
      assert log == front + [last];
    }
  }

  /** The record is all that was run, and the evidence all that was gathered,
      since guard opened the turn, exactly when a cut lost none of it. */
  lemma RecordIsWholeIff(cfg: Config, run: seq<Action>)
    ensures var w := Exec(cfg, run);
      && (w.thread.invocations == RunsThisTurn(w.log, Either) <==> RunsThisTurn(w.log, Lost) == [])
      && (w.thread.retrieved == HarvestThisTurn(w.log, Either) <==> HarvestThisTurn(w.log, Lost) == [])
  {
    hide RunsThisTurn, HarvestThisTurn;
    EvidenceIsThisTurns(cfg, run);
    SavedAndLost(Exec(cfg, run).log);
  }

  function RunsIn(events: seq<Event>): seq<Invocation> {
    if events == [] then []
    else
      var last := events[|events| - 1];
      RunsIn(events[..|events| - 1]) + (if last.Ran? then [last.run] else [])
  }

  lemma {:induction false} RunsJoin(a: seq<Event>, b: seq<Event>)
    ensures RunsIn(a + b) == RunsIn(a) + RunsIn(b)
  {
    if b == [] {
      assert a + b == a;
    } else {
      RunsJoin(a, b[..|b| - 1]);
      assert (a + b)[..|a + b| - 1] == a + b[..|b| - 1];
    }
  }

  lemma {:induction false} NoRunsIn(events: seq<Event>)
    requires forall e :: e in events ==> !e.Ran?
    ensures RunsIn(events) == []
  {
    if events != [] { NoRunsIn(events[..|events| - 1]); }
  }

  lemma {:induction false} CutIsLost(log: seq<Event>, events: seq<Event>)
    requires forall e :: e in events ==> !e.Guarded?
    ensures RunsThisTurn(log + AllUnsaved(events), Lost) == RunsThisTurn(log, Lost) + RunsIn(events)
  {
    hide RunsThisTurn;
    if events == [] {
      assert log + AllUnsaved(events) == log;
    } else {
      var front, last := events[..|events| - 1], events[|events| - 1];
      assert last in events;
      assert forall e :: e in front ==> e in events;
      CutIsLost(log, front);
      Fold(log + AllUnsaved(front), Unsaved(last));
      assert log + AllUnsaved(events) == (log + AllUnsaved(front)) + [Unsaved(last)];
    }
  }

  /** The runs among a prefix of the calls are those of the known tools in it. */
  lemma {:induction false} CallsRun(cfg: Config, calls: seq<Call>, results: seq<ToolResult>, k: nat)
    requires k <= |calls|
    ensures RunsIn(RunCalls(cfg, calls, results, NOTHING_RUN, k).events) == [] <==> forall i :: 0 <= i < k ==> calls[i].name !in cfg.tools
  {
    hide Schema, Evidence, RunsIn;
    if k == 0 {
      NoRunsIn([]);
    } else {
      CallsRun(cfg, calls, results, k - 1);
      var before, call, result := RunCalls(cfg, calls, results, NOTHING_RUN, k - 1), calls[k - 1], ResultAt(results, k - 1);
      if call.name in cfg.tools {
        OneCallRuns(before.events, Files(cfg, call, result), Harvests(Evidence(call, result)),
                    Ran(Invocation(call.name, call.args, result.failed), true));
      }
    }
  }

  lemma OneCallRuns(before: seq<Event>, filed: seq<Event>, found: seq<Event>, ran: Event)
    requires ran.Ran?
    ensures RunsIn(before + filed + found + [ran]) != []
  {
    var all := before + filed + found + [ran];
    assert all[|all| - 1] == ran;
  }

  /** What a cut loses: nothing, unless it comes in tools after a known tool ran. */
  lemma CutLosesIff(cfg: Config, w: World, o: Oracle, k: nat)
    requires w.at.At?
    ensures var calls := LastCalls(w.thread); var n := if k < |calls| then k else |calls|;
      (RunsThisTurn(CutAt(cfg, w, o, k).log, Lost) == RunsThisTurn(w.log, Lost))
      <==> (w.at.node != Tools || forall i :: 0 <= i < n ==> calls[i].name !in cfg.tools)
  {
    hide RunsThisTurn, RunCalls, Schema, Vouched;
    var calls := LastCalls(w.thread);
    var n := if k < |calls| then k else |calls|;
    if w.at.node == Tools {
      var done := RunCalls(cfg, calls, o.results, NOTHING_RUN, n).events;
      var filed := if k < |calls| && calls[k].name in cfg.tools then Files(cfg, calls[k], ResultAt(o.results, k)) else [];
      CallsOpenNoTurn(cfg, calls, o.results, NOTHING_RUN, n);
      CallsRun(cfg, calls, o.results, n);
      NoRunsIn(filed);
      RunsJoin(done, filed);
      assert done + [] == done;
      assert CutCalls(cfg, calls, o.results, k) == done + filed;
      CutIsLost(w.log, done + filed);
    } else {
      AgentLosesNoRun(w.log);
      if w.at.resume.Some? { Fold(w.log, Answered(w.at.resume.value, false)); }
      assert w.log + [] == w.log;
    }
  }

  lemma AgentLosesNoRun(log: seq<Event>)
    ensures RunsThisTurn(log + [ModelCalled(false)], Lost) == RunsThisTurn(log, Lost)
  {
    Fold(log, ModelCalled(false));
  }
}
