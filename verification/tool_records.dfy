/** What a round of tools leaves behind, call by call, and what an answer then cites
    (backend/agent/app/graph/build.py:79-183, nodes.py:773-860, 1219-1251). */
module ToolRecords {
  import opened GraphState
  import opened GraphNodes
  import opened Options

  /** Call i is a known tool's, and this is what it came back with. */
  predicate Known(cfg: Config, calls: seq<Call>, i: int) { 0 <= i < |calls| && calls[i].name in cfg.tools }

  /** A claim is filed by an accepted submit_claim call that got as far as the append. */
  ghost predicate FiledBy(cfg: Config, calls: seq<Call>, results: seq<ToolResult>, i: int, claim: ClaimArgs) {
    && Known(cfg, calls, i) && calls[i].name == SubmitClaim
    && i < |results| && results[i].reached
    && Schema(cfg, calls[i].args) == Some(claim)
  }

  /** The chunks that a search found, their citations made up where they are missing,
      and the section that an estimate was made by. */
  ghost predicate FoundBy(cfg: Config, calls: seq<Call>, results: seq<ToolResult>, i: int, chunk: Chunk) {
    && Known(cfg, calls, i) && i < |results|
    && (|| (calls[i].name == EstimatePayment && chunk.citation != ""
            && chunk == Chunk(results[i].citation, results[i].section, results[i].says))
        || (calls[i].name == SearchPolicy && exists raw :: raw in results[i].chunks && Cites(chunk, raw)))
  }

  predicate Cites(chunk: Chunk, raw: RawChunk) {
    && chunk.title == raw.title && chunk.text == raw.text
    && (if raw.citation != "" then chunk.citation == raw.citation else chunk.citation == raw.sourceFile + " § " + raw.title)
  }

  lemma EvidenceIff(call: Call, result: ToolResult, chunk: Chunk)
    ensures chunk in Evidence(call, result) <==>
      || (call.name == EstimatePayment && chunk.citation != "" && chunk == Chunk(result.citation, result.section, result.says))
      || (call.name == SearchPolicy && exists raw :: raw in result.chunks && Cites(chunk, raw))
  {
    if call.name == SearchPolicy {
      var found := FilledAll(result.chunks);
      if chunk in found {
        var i :| 0 <= i < |found| && found[i] == chunk;
        assert Cites(chunk, result.chunks[i]);
      }
      if raw :| raw in result.chunks && Cites(chunk, raw) {
        var i :| 0 <= i < |result.chunks| && result.chunks[i] == raw;
        assert found[i] == chunk;
      }
    }
  }

  /** After k calls: exactly the claims and the chunks of these calls are in the log. */
  lemma {:induction false} RoundIsIff(cfg: Config, calls: seq<Call>, results: seq<ToolResult>, acc: ToolRun, k: nat)
    requires k <= |calls| && acc.events == []
    ensures var events := RunCalls(cfg, calls, results, acc, k).events;
      && (forall claim :: Appended(claim) in events <==> exists i :: i < k && FiledBy(cfg, calls, results, i, claim))
      && (forall chunk :: Harvested(chunk, true) in events <==> exists i :: i < k && FoundBy(cfg, calls, results, i, chunk))
  {
    hide Schema, Evidence;
    if k > 0 {
      RoundIsIff(cfg, calls, results, acc, k - 1);
      var call, result := calls[k - 1], ResultAt(results, k - 1);
      OneCall(cfg, calls, results, acc, k);
      hide RunCalls, NewEvents;
      forall claim ensures Appended(claim) in NewEvents(cfg, call, result) <==> FiledBy(cfg, calls, results, k - 1, claim) {
        NewFilings(cfg, call, result, claim);
      }
      forall chunk ensures Harvested(chunk, true) in NewEvents(cfg, call, result) <==> FoundBy(cfg, calls, results, k - 1, chunk) {
        NewChunks(cfg, call, result, chunk);
        EvidenceIff(call, result, chunk);
      }
    }
  }

  /** What tools did, as the log has it: a claim was filed exactly when some accepted
      submit_claim call got as far as the append, and a chunk was found exactly when
      some search or estimate came back with it. */
  lemma ToolsDidIff(cfg: Config, t: Thread, o: Oracle)
    ensures var events := ToolsNode(cfg, t, o).events;
      && (forall claim :: Appended(claim) in events <==> exists i :: FiledBy(cfg, LastCalls(t), o.results, i, claim))
      && (forall chunk :: Harvested(chunk, true) in events <==> exists i :: FoundBy(cfg, LastCalls(t), o.results, i, chunk))
  {
    hide Schema, RunCalls, Cites;
    RoundIsIff(cfg, LastCalls(t), o.results, ToolRun([], t.invocations, t.retrieved, []), |LastCalls(t)|);
  }

  function NewEvents(cfg: Config, call: Call, result: ToolResult): seq<Event> {
    if call.name !in cfg.tools then []
    else Files(cfg, call, result) + Harvests(Evidence(call, result)) + [Ran(Invocation(call.name, call.args, result.failed), true)]
  }

  lemma OneCall(cfg: Config, calls: seq<Call>, results: seq<ToolResult>, acc: ToolRun, k: nat)
    requires 0 < k <= |calls|
    ensures RunCalls(cfg, calls, results, acc, k).events
      == RunCalls(cfg, calls, results, acc, k - 1).events + NewEvents(cfg, calls[k - 1], ResultAt(results, k - 1))
  {
    hide Evidence, Files, Harvests;
  }

  lemma NewFilings(cfg: Config, call: Call, result: ToolResult, claim: ClaimArgs)
    ensures Appended(claim) in NewEvents(cfg, call, result) <==>
      call.name in cfg.tools && call.name == SubmitClaim && result.reached && Schema(cfg, call.args) == Some(claim)
  {
    hide Schema, Evidence;
  }

  lemma NewChunks(cfg: Config, call: Call, result: ToolResult, chunk: Chunk)
    ensures Harvested(chunk, true) in NewEvents(cfg, call, result) <==> call.name in cfg.tools && chunk in Evidence(call, result)
  {
    hide Schema, Evidence;
    var found := Evidence(call, result);
    if chunk in found {
      var i :| 0 <= i < |found| && found[i] == chunk;
      assert Harvests(found)[i] == Harvested(chunk, true);
    }
  }

  /** Capture sets the first write aside with its settlement, and takes the section the
      settlement was read from, when it names one, as evidence and as the source. */
  lemma CaptureTakes(t: Thread, o: Oracle)
    ensures var t1 := CaptureNode(t, o).thread; var events := CaptureNode(t, o).events;
      && t1.messages == t.messages
      && (FirstWrite(LastCalls(t)) == None ==> t1 == t && events == [])
      && (FirstWrite(LastCalls(t)).Some? ==>
            && t1.pendingWrite == FirstWrite(LastCalls(t)) && t1.pendingSplit == o.split
            && (if o.split.Some? && o.split.value.citation != ""
                then t1.sources == [o.split.value.citation] && exists c ::
                       && t1.retrieved == t.retrieved + [c] && events == [Harvested(c, true)]
                       && c.citation == o.split.value.citation && c.text == o.split.value.text
                else t1.sources == t.sources && t1.retrieved == t.retrieved && events == []))
  {
    if FirstWrite(LastCalls(t)).Some? && o.split.Some? && o.split.value.citation != "" {
      var c := Chunk(o.split.value.citation, o.split.value.title, o.split.value.text);
      assert CaptureNode(t, o).thread.retrieved == t.retrieved + [c];
    }
  }

  // ------------------------------------------------------- what is then cited

  lemma {:induction false} CitationsWhereIff(chunks: seq<Chunk>, test: Chunk -> bool, s: string)
    ensures s in CitationsWhere(chunks, test) <==> s != "" && exists c :: c in chunks && c.citation == s && test(c)
  {
    if chunks != [] {
      CitationsWhereIff(chunks[1..], test, s);
      assert forall c :: c in chunks <==> c == chunks[0] || c in chunks[1..];
    }
  }

  /** Some chunk of this citation is named by the answer, or states a figure of it that
      no chunk of another citation states. */
  ghost predicate Credited(cfg: Config, text: string, chunks: seq<Chunk>, s: string) {
    exists c :: c in chunks && c.citation == s && s != "" && (cfg.named(text, c) || TellsApart(cfg, text, chunks, c))
  }

  ghost predicate TellsApart(cfg: Config, text: string, chunks: seq<Chunk>, c: Chunk) {
    exists f :: f in cfg.money(text) * cfg.money(c.text) && forall d :: d in chunks && f in cfg.money(d.text) ==> d.citation == c.citation
  }

  lemma AttributedIff(cfg: Config, text: string, chunks: seq<Chunk>, s: string)
    ensures s in Attributed(cfg, text, chunks) <==> Credited(cfg, text, chunks, s)
  {
    forall c ensures OwnsAFigure(cfg, text, chunks, c) <==> TellsApart(cfg, text, chunks, c) { SameOwner(cfg, text, chunks, c); }
    hide TellsApart, OwnsAFigure;
    CitationsWhereIff(chunks, c => cfg.named(text, c), s);
    CitationsWhereIff(chunks, c => OwnsAFigure(cfg, text, chunks, c), s);
  }

  lemma SameOwner(cfg: Config, text: string, chunks: seq<Chunk>, c: Chunk)
    ensures OwnsAFigure(cfg, text, chunks, c) <==> TellsApart(cfg, text, chunks, c)
  {
    if f :| f in cfg.money(c.text) && f in cfg.money(text) && forall d :: d in chunks && d.citation != c.citation ==> f !in cfg.money(d.text) {
      assert f in cfg.money(text) * cfg.money(c.text);
    }
  }

  /** An answer cites what it draws on, or everything retrieved when that cannot be
      told; each once. */
  lemma CitedIff(cfg: Config, text: string, chunks: seq<Chunk>, s: string)
    ensures s in SourcesFor(cfg, text, chunks) <==>
      (if exists r :: Credited(cfg, text, chunks, r) then Credited(cfg, text, chunks, s)
       else s != "" && exists c :: c in chunks && c.citation == s)
    ensures forall i, j :: 0 <= i < j < |SourcesFor(cfg, text, chunks)| ==> SourcesFor(cfg, text, chunks)[i] != SourcesFor(cfg, text, chunks)[j]
  {
    hide Credited, Attributed;
    var attributed := Attributed(cfg, text, chunks);
    AttributedIff(cfg, text, chunks, s);
    CitationsWhereIff(chunks, c => true, s);
    if attributed != [] {
      AttributedIff(cfg, text, chunks, attributed[0]);
    }
    if r :| Credited(cfg, text, chunks, r) { AttributedIff(cfg, text, chunks, r); }
  }
}
