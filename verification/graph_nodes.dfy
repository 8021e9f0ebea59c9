/** The nine nodes and the routes between them (backend/agent/app/graph/nodes.py
    and build.py), each a function of the thread and of what the outside world
    answered while it ran. */
module GraphNodes {
  import opened GraphState
  import opened Options
  import opened Ascii

  /** What a run does that somebody outside the thread can observe. A node that is
      cut short has done what it did, and nothing of it is saved in the thread. */
  datatype Event =
    | Heard(said: string)          // a human message joined the thread
    | Guarded                      // guard opened a turn
    | ModelCalled(saved: bool)
    | Ran(run: Invocation, saved: bool)
    | Harvested(chunk: Chunk, saved: bool)
    | Displayed(args: Args)        // the confirmation prompt was put up
    | Answered(reply: string, taken: bool)   // a reply was handed to confirm, and acted on or lost to a cut
    | Appended(claim: ClaimArgs)   // the repository's append

  /** What the world answers a node with: the model's reply, the tools' results,
      the settlement. A node reads only the part it asks for. */
  datatype Oracle = Oracle(content: string, calls: seq<Call>, results: seq<ToolResult>, split: Option<Split>)

  /** A node's effect: the new thread, what was observable, and where to go;
      `goto` is None at the end of the graph, and `paused` marks an interrupt. */
  datatype Outcome = Outcome(thread: Thread, events: seq<Event>, goto: Option<Node>, paused: bool)

  // ---------------------------------------------------------------- messages

  /** add_messages for a message without an id: it is given a fresh one. */
  function Post(t: Thread, role: Role, content: string, calls: seq<Call>): Thread {
    t.(messages := t.messages + [Message(t.nextId, role, content, calls)], nextId := t.nextId + 1)
  }

  /** add_messages for a message with an id: it replaces the one that has it. */
  function Merge(ms: seq<Message>, m: Message): seq<Message> {
    if ms == [] then [m]
    else if ms[0].id == m.id then [m] + ms[1..]
    else [ms[0]] + Merge(ms[1..], m)
  }

  predicate IsAnswer(m: Message) { m.role == Assistant && m.calls == [] }

  /** Index of the last assistant message without tool calls. */
  function LastAnswer(ms: seq<Message>): (r: Option<nat>)
    ensures r.Some? ==> r.value < |ms| && IsAnswer(ms[r.value])
    ensures forall i :: (if r.Some? then r.value + 1 else 0) <= i < |ms| ==> !IsAnswer(ms[i])
  {
    if ms == [] then None
    else if IsAnswer(ms[|ms| - 1]) then Some(|ms| - 1)
    else LastAnswer(ms[..|ms| - 1])
  }

  function Republish(t: Thread, i: nat, content: string): Thread
    requires i < |t.messages|
  {
    t.(messages := Merge(t.messages, Message(t.messages[i].id, Assistant, content, [])))
  }

  function LastHuman(ms: seq<Message>): string {
    if ms == [] then ""
    else if ms[|ms| - 1].role == Human then ms[|ms| - 1].content
    else LastHuman(ms[..|ms| - 1])
  }

  // ------------------------------------------------------------------ guard

  const REFUSAL := "I can only help with your policy and your claims."

  function GuardNode(cfg: Config, t: Thread): Outcome {
    var cleared := t.(invocations := [], sources := [], retrieved := [], pendingWrite := None, stopped := false);
    var said := LastHuman(t.messages);
    if cfg.screened(said) then
      Outcome(Post(cleared.(blocked := true, tier := 0), Assistant, REFUSAL, []), [Guarded], Some(Parse), false)
    else
      var tier :=
        if t.channel == Text then 0
        else if t.lowConfidence then 2
        else if cfg.identifier(said).Some? then 1 else 0;
      Outcome(cleared.(blocked := false, tier := tier, iterations := 0), [Guarded], Some(Agent), false)
  }

  // ------------------------------------------------------------------ agent

  const STOPPED := "I wasn't able to complete that."

  function RouteAfterAgent(calls: seq<Call>): Node {
    if calls == [] then Readback
    else if exists c :: c in calls && c.name == SubmitClaim then Capture
    else Tools
  }

  function AgentNode(cfg: Config, t: Thread, o: Oracle): Outcome {
    if t.iterations >= cfg.maxIterations then
      Outcome(Post(t, Assistant, STOPPED, []).(stopped := true), [], Some(Readback), false)
    else
      Outcome(Post(t, Assistant, o.content, o.calls).(iterations := t.iterations + 1),
              [ModelCalled(true)], Some(RouteAfterAgent(o.calls)), false)
  }

  // ---------------------------------------------------------------- capture

  function LastCalls(t: Thread): seq<Call> {
    if t.messages == [] then [] else t.messages[|t.messages| - 1].calls
  }

  function FirstWrite(calls: seq<Call>): Option<Args> {
    if calls == [] then None
    else if calls[0].name == SubmitClaim then Some(calls[0].args)
    else FirstWrite(calls[1..])
  }

  function CaptureNode(t: Thread, o: Oracle): Outcome {
    match FirstWrite(LastCalls(t))
    case None => Outcome(t, [], Some(Confirm), false)
    case Some(args) =>
      var t1 := t.(pendingWrite := Some(args), pendingSplit := o.split);
      if o.split.Some? && o.split.value.citation != "" then
        var chunk := Chunk(o.split.value.citation, o.split.value.title, o.split.value.text);
        Outcome(t1.(retrieved := t.retrieved + [chunk], sources := [chunk.citation]), [Harvested(chunk, true)], Some(Confirm), false)
      else
        Outcome(t1, [], Some(Confirm), false)
  }

  // ---------------------------------------------------------------- confirm

  /** Python's `str`. */
  function Str(j: Json): string {
    match j
    case JNull => "None"
    case JText(s) => s
    case JNumber(repr) => repr
  }

  /** int(Decimal(..)): towards zero. */
  function Truncate(r: real): int {
    if r >= 0.0 then r.Floor else -((-r).Floor)
  }

  ghost predicate SaidPolicy(cfg: Config, ms: seq<Message>, policy: string) {
    exists i :: 0 <= i < |ms| && ms[i].role == Human && policy in cfg.policiesIn(ms[i].content)
  }

  ghost predicate SaidAmount(cfg: Config, ms: seq<Message>, dollars: int) {
    exists i :: 0 <= i < |ms| && ms[i].role == Human && dollars in cfg.amountsIn(ms[i].content)
  }

  function ClaimedPolicy(pending: Args): string {
    if PolicyNumber in pending then Upper(Strip(Str(pending[PolicyNumber]))) else ""
  }

  function ClaimedAmount(pending: Args): Option<Json> {
    if Amount in pending && pending[Amount] != JNull then Some(pending[Amount]) else None
  }

  /** Neither the policy number nor the amount is the model's own. */
  ghost predicate Vouched(cfg: Config, ms: seq<Message>, pending: Args) {
    && (ClaimedPolicy(pending) == "" || SaidPolicy(cfg, ms, ClaimedPolicy(pending)))
    && (ClaimedAmount(pending).Some? ==>
          var d := cfg.decimal(Str(ClaimedAmount(pending).value));
          d.Some? && SaidAmount(cfg, ms, Truncate(d.value)))
  }

  predicate Approves(reply: string) { IsApproval(Lower(Strip(reply))) }

  const DECLINED := "I haven't filed anything."

  function Pending(t: Thread): Args {
    if t.pendingWrite.Some? then t.pendingWrite.value else map[]
  }

  /** An empty dictionary is falsy, so it routes like no write at all. */
  function RouteAfterConfirm(t: Thread): Node {
    if Pending(t) != map[] then Tools else Parse
  }

  function Decline(t: Thread): Thread {
    Post(t.(pendingWrite := None, pendingSplit := None), Assistant, DECLINED, [])
  }

  ghost function ConfirmNode(cfg: Config, t: Thread, resume: Option<string>): Outcome {
    var pending := Pending(t);
    var kept := t.(pendingWrite := Some(pending));
    if !cfg.requireConfirmation then Outcome(kept, [], Some(RouteAfterConfirm(kept)), false)
    else if !Vouched(cfg, t.messages, pending) then Outcome(Decline(t), [], Some(Parse), false)
    else match resume
      case None => Outcome(t, [Displayed(pending)], None, true)
      case Some(reply) =>
        if Approves(reply) then Outcome(kept, [Answered(reply, true)], Some(RouteAfterConfirm(kept)), false)
        else Outcome(Decline(t), [Answered(reply, true)], Some(Parse), false)
  }

  // ------------------------------------------------------------------ tools

  predicate PolicyShaped(p: string) {
    |p| == 8 && p[..4] == "POL-" && forall i :: 4 <= i < 8 ==> IsDigit(p[i])
  }

  /** Two decimals at most, as far as the value shows it. */
  predicate InCents(amount: real) { (amount * 100.0).Floor as real == amount * 100.0 }

  /** The submit_claim schema: exactly four fields, each inside its bounds. */
  function Schema(cfg: Config, args: Args): Option<ClaimArgs> {
    if args.Keys != {PolicyNumber, ClaimType, Amount, Description} then None
    else if !args[PolicyNumber].JText? || !args[ClaimType].JText? || !args[Description].JText? then None
    else
      var policy := Strip(args[PolicyNumber].text);
      var kind := Strip(args[ClaimType].text);
      var why := Strip(args[Description].text);
      var amount := cfg.decimal(Str(args[Amount]));
      if PolicyShaped(policy) && IsClaimType(kind) && 10 <= |why| <= 1000
         && args[Amount] != JNull && amount.Some? && 0.0 < amount.value <= 1000000.0 && InCents(amount.value)
      then Some(ClaimArgs(policy, kind, amount.value, why))
      else None
  }

  /** Chunk validation: a missing citation is built from the file and heading. */
  function Filled(raw: RawChunk): (c: Chunk)
    ensures c.citation != ""
  {
    Chunk(if raw.citation == "" then raw.sourceFile + " § " + raw.title else raw.citation, raw.title, raw.text)
  }

  function FilledAll(raws: seq<RawChunk>): (r: seq<Chunk>)
    ensures |r| == |raws|
    ensures forall i :: 0 <= i < |r| ==> r[i] == Filled(raws[i])
  {
    seq(|raws|, i requires 0 <= i < |raws| => Filled(raws[i]))
  }

  function Evidence(call: Call, result: ToolResult): (r: seq<Chunk>)
    ensures forall c :: c in r ==> c.citation != ""
  {
    if call.name == EstimatePayment && result.citation != "" then [Chunk(result.citation, result.section, result.says)]
    else if call.name == SearchPolicy then FilledAll(result.chunks)
    else []
  }

  function Files(cfg: Config, call: Call, result: ToolResult): seq<Event> {
    if call.name == SubmitClaim && result.reached && Schema(cfg, call.args).Some?
    then [Appended(Schema(cfg, call.args).value)] else []
  }

  function Harvests(chunks: seq<Chunk>): (r: seq<Event>)
    ensures |r| == |chunks|
    ensures forall i :: 0 <= i < |r| ==> r[i] == Harvested(chunks[i], true)
  {
    seq(|chunks|, i requires 0 <= i < |chunks| => Harvested(chunks[i], true))
  }

  datatype ToolRun = ToolRun(outputs: seq<string>, invocations: seq<Invocation>, retrieved: seq<Chunk>, events: seq<Event>)

  const UNKNOWN_TOOL := "Unknown tool"

  /** One call: an unknown tool answers with a message and leaves no record. */
  function RunCall(cfg: Config, call: Call, result: ToolResult, acc: ToolRun): ToolRun {
    if call.name !in cfg.tools then acc.(outputs := acc.outputs + [UNKNOWN_TOOL])
    else
      var inv := Invocation(call.name, call.args, result.failed);
      var found := Evidence(call, result);
      ToolRun(acc.outputs + [result.content], acc.invocations + [inv], acc.retrieved + found,
              acc.events + Files(cfg, call, result) + Harvests(found) + [Ran(inv, true)])
  }

  const NO_RESULT := ToolResult(true, "", [], "", "", "", false)

  function ResultAt(results: seq<ToolResult>, i: nat): ToolResult {
    if i < |results| then results[i] else NO_RESULT
  }

  /** The first k calls, in order. */
  function RunCalls(cfg: Config, calls: seq<Call>, results: seq<ToolResult>, acc: ToolRun, k: nat): ToolRun
    requires k <= |calls|
  {
    if k == 0 then acc
    else RunCall(cfg, calls[k - 1], ResultAt(results, k - 1), RunCalls(cfg, calls, results, acc, k - 1))
  }

  function PostAll(t: Thread, contents: seq<string>): Thread {
    if contents == [] then t
    else Post(PostAll(t, contents[..|contents| - 1]), ToolOutput, contents[|contents| - 1], [])
  }

  function ToolsNode(cfg: Config, t: Thread, o: Oracle): Outcome {
    var run := RunCalls(cfg, LastCalls(t), o.results, ToolRun([], t.invocations, t.retrieved, []), |LastCalls(t)|);
    Outcome(PostAll(t, run.outputs).(invocations := run.invocations, retrieved := run.retrieved, pendingWrite := None),
            run.events, Some(Agent), false)
  }

  // --------------------------------------------------------------- the tail

  function ReadbackNode(cfg: Config, t: Thread): Outcome {
    var id := cfg.identifier(LastHuman(t.messages));
    var last := LastAnswer(t.messages);
    var t1 := if t.channel == Voice && t.tier == 1 && id.Some? && last.Some?
              then Republish(t, last.value, cfg.spelled(id.value, t.messages[last.value].content)) else t;
    Outcome(t1, [], Some(Parse), false)
  }

  function ParseNode(cfg: Config, t: Thread): Outcome {
    var last := LastAnswer(t.messages);
    var t1 := if last.Some? then Republish(t, last.value, cfg.unwrap(t.messages[last.value].content)) else t;
    Outcome(t1, [], Some(Ground), false)
  }

  /** The retrieved citations a test singles out, in retrieval order. */
  function CitationsWhere(chunks: seq<Chunk>, test: Chunk -> bool): (r: seq<string>)
    ensures forall s :: s in r ==> exists i :: 0 <= i < |chunks| && chunks[i].citation == s && s != ""
  {
    if chunks == [] then []
    else if chunks[0].citation != "" && test(chunks[0])
    then [chunks[0].citation] + CitationsWhere(chunks[1..], test)
    else CitationsWhere(chunks[1..], test)
  }

  /** A figure of the answer that this chunk states and no other section does. */
  predicate OwnsAFigure(cfg: Config, text: string, chunks: seq<Chunk>, c: Chunk) {
    exists f :: f in cfg.money(c.text) && f in cfg.money(text)
      && forall d :: d in chunks && d.citation != c.citation ==> f !in cfg.money(d.text)
  }

  function Attributed(cfg: Config, text: string, chunks: seq<Chunk>): seq<string> {
    CitationsWhere(chunks, c => cfg.named(text, c))
    + CitationsWhere(chunks, c => OwnsAFigure(cfg, text, chunks, c))
  }

  /** dict.fromkeys: first occurrences, in order. */
  function Dedup(s: seq<string>): (r: seq<string>)
    ensures forall x :: x in r <==> x in s
    ensures forall i, j :: 0 <= i < j < |r| ==> r[i] != r[j]
  {
    if s == [] then []
    else
      var front := Dedup(s[..|s| - 1]);
      assert s == s[..|s| - 1] + [s[|s| - 1]];
      if s[|s| - 1] in front then front else front + [s[|s| - 1]]
  }

  function SourcesFor(cfg: Config, text: string, chunks: seq<Chunk>): seq<string> {
    var attributed := Attributed(cfg, text, chunks);
    Dedup(if attributed != [] then attributed else CitationsWhere(chunks, c => true))
  }

  function GroundNode(cfg: Config, t: Thread): Outcome {
    match LastAnswer(t.messages)
    case None => Outcome(t.(sources := []), [], Some(Format), false)
    case Some(i) =>
      var text := cfg.grounded(t.messages[i].content, t);
      Outcome(Republish(t, i, text).(sources := SourcesFor(cfg, text, t.retrieved)), [], Some(Format), false)
  }

  function FormatNode(cfg: Config, t: Thread): Outcome {
    var last := LastAnswer(t.messages);
    var t1 := if last.Some? then Republish(t, last.value, cfg.presented(t.messages[last.value].content, t.channel)) else t;
    Outcome(t1, [], None, false)
  }

  // ------------------------------------------------------------ cut short

  function Unsaved(e: Event): Event {
    match e
    case ModelCalled(_) => ModelCalled(false)
    case Ran(run, _) => Ran(run, false)
    case Harvested(chunk, _) => Harvested(chunk, false)
    case _ => e
  }

  function AllUnsaved(events: seq<Event>): (r: seq<Event>)
    ensures |r| == |events| && forall i :: 0 <= i < |r| ==> r[i] == Unsaved(events[i])
  {
    seq(|events|, i requires 0 <= i < |events| => Unsaved(events[i]))
  }

  /** The events of tools cut while its call number k is out: the calls before it
      have run, and it may have got as far as the append. */
  function CutCalls(cfg: Config, calls: seq<Call>, results: seq<ToolResult>, k: nat): seq<Event> {
    if k >= |calls| then RunCalls(cfg, calls, results, NOTHING_RUN, |calls|).events
    else
      RunCalls(cfg, calls, results, NOTHING_RUN, k).events
      + (if calls[k].name in cfg.tools then Files(cfg, calls[k], ResultAt(results, k)) else [])
  }

  const NOTHING_RUN := ToolRun([], [], [], [])

  /** What stands of a node that a timeout or an exception ends after k of its
      calls: agent may have called the model, tools may have run and filed, a reply
      that confirm was handed is gone; the others only read. */
  ghost function CutEffects(cfg: Config, node: Node, resume: Option<string>, t: Thread, o: Oracle, k: nat): seq<Event> {
    match node
    case Confirm =>
      if cfg.requireConfirmation && resume.Some? && Vouched(cfg, t.messages, Pending(t)) then [Answered(resume.value, false)] else []
    case Agent => if t.iterations < cfg.maxIterations && k > 0 then [ModelCalled(false)] else []
    case Tools => AllUnsaved(CutCalls(cfg, LastCalls(t), o.results, k))
    case _ => []
  }

  ghost function RunNode(cfg: Config, node: Node, resume: Option<string>, t: Thread, o: Oracle): Outcome {
    match node
    case Guard => GuardNode(cfg, t)
    case Agent => AgentNode(cfg, t, o)
    case Capture => CaptureNode(t, o)
    case Confirm => ConfirmNode(cfg, t, resume)
    case Tools => ToolsNode(cfg, t, o)
    case Readback => ReadbackNode(cfg, t)
    case Parse => ParseNode(cfg, t)
    case Ground => GroundNode(cfg, t)
    case Format => FormatNode(cfg, t)
  }
}
