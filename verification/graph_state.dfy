/** The data the agent graph carries: messages, tool calls, evidence, and the
    persisted thread (backend/agent/app/graph/state.py). */
module GraphState {
  import opened Options

  /** A JSON value as a model may type it into a tool call. A number keeps the
      text Python's `str` gives for it. */
  datatype Json = JNull | JText(text: string) | JNumber(repr: string)

  /** Argument names: the four that submit_claim declares, and any other. */
  datatype Field = PolicyNumber | ClaimType | Amount | Description | Extra(key: string)

  type Args = map<Field, Json>

  /** Tool names: the ones the nodes treat specially, and any other. */
  datatype Tool = SubmitClaim | SearchPolicy | EstimatePayment | OtherTool(title: string)

  datatype Call = Call(name: Tool, args: Args)

  datatype Role = Human | Assistant | ToolOutput

  datatype Message = Message(id: nat, role: Role, content: string, calls: seq<Call>)

  datatype RawChunk = RawChunk(citation: string, sourceFile: string, title: string, text: string)

  datatype Chunk = Chunk(citation: string, title: string, text: string)

  datatype Invocation = Invocation(name: Tool, args: Args, failed: bool)

  datatype Split = Split(summary: string, citation: string, title: string, text: string)

  /** What one tool call came back with. `reached` says whether submit_claim,
      its arguments accepted, got as far as the repository's append. */
  datatype ToolResult = ToolResult(
    failed: bool, content: string, chunks: seq<RawChunk>,
    citation: string, section: string, says: string, reached: bool)

  datatype Channel = Text | Voice

  datatype Node = Guard | Agent | Capture | Confirm | Tools | Readback | Parse | Ground | Format

  /** The checkpointed state of one conversation; `next` is the node a run that
      did not finish is waiting to execute. */
  datatype Thread = Thread(
    messages: seq<Message>, nextId: nat,
    channel: Channel, lowConfidence: bool,
    retrieved: seq<Chunk>, sources: seq<string>, invocations: seq<Invocation>,
    blocked: bool, pendingWrite: Option<Args>, pendingSplit: Option<Split>,
    tier: nat, iterations: nat, stopped: bool,
    next: Option<Node>)

  /** A claim as the submit_claim schema lets it through. */
  datatype ClaimArgs = ClaimArgs(policy: string, claimType: string, amount: real, description: string)

  /** Everything the graph consults but does not define: settings, the layer-1
      screen, the readers of spoken and written figures, and the text passes. */
  datatype Config = Config(
    requireConfirmation: bool,
    maxIterations: nat,
    tools: set<Tool>,
    screened: string -> bool,
    identifier: string -> Option<string>,
    spelled: (string, string) -> string,
    policiesIn: string -> set<string>,
    amountsIn: string -> set<int>,
    decimal: string -> Option<real>,
    unwrap: string -> string,
    grounded: (string, Thread) -> string,
    presented: (string, Channel) -> string,
    named: (string, Chunk) -> bool,
    money: string -> set<int>)

  const EMPTY_THREAD := Thread([], 0, Text, false, [], [], [], false, None, None, 0, 0, false, None)

  /** The words taken as an approval. */
  predicate IsApproval(w: string) {
    || w == "yes" || w == "y" || w == "confirm" || w == "confirmed" || w == "go ahead"
    || w == "ok" || w == "okay" || w == "yep" || w == "sure"
  }

  /** The claim types of the schema. */
  predicate IsClaimType(kind: string) { kind == "Water Damage" || kind == "Personal Property" }
}
