# The claims agent: what it promises about writes, runs, money and words

This project models the parts of an insurance-claims assistant where a mistake
costs someone something, and proves what holds of them over every input, run or
interleaving. The model is treated as an arbitrary adversary that may return
any message; replicas may interleave and die at any step; clocks are monotone
reals. Where a promise fails, the exact condition under which it holds is
proved, next to a concrete case where it does not.

| modules | part of the system |
|---|---|
| GraphState, GraphNodes, GraphRun, GraphLoops | the agent graph as a step machine: guard, agent, capture, confirm, tools, readback, parse, ground, format, with the interrupt in confirm and a thread that outlives its turns |
| WriteGate, ApprovalWords, FiledClaims, GateConditions, GateHears | nothing is filed that was not shown as it is, approved and stated; what that needs, exactly; nothing stated is refused and nothing else passes |
| OneReply, Approvals | one prompt, one reply; one approval, at most one claim |
| OverlappingRuns | several invocations on one thread: when they are as one after another, and when a second does no harm |
| TurnScope, TurnAnswers, NodeBudget | what one turn may leave in the next; whose answer its end rewrites; how much one invocation may execute |
| GraphScript, TurnStories | whole runs from the first message on, put together from pieces, that show what the conditions exclude |
| VoiceReadback | when an identifier the caller gave is read back |
| ToolRecords | what a round of tools leaves behind, and what an answer then cites |
| ClaimsFile, ReplicatedWriters, WriterProgress | the JSON claims file, any number of replicas writing it, and that none of them is stuck |
| JobQueue, QueueReplicas | the work queue and any number of replicas consuming it |
| RunEvents, EventDelivery | a run's events from the worker through the queue to the gateway's reply |
| TokenBucket, EgressLimiter, EgressMinute, EgressSpending, Resilience, Retry | ingress limiter, egress limiter and what is really spent, circuit breaker, retry |
| NumberWords, Figures, SpokenAmounts, SpokenRuns, SpokenText, SpokenIds | reading amounts and identifiers out of speech: what was said is found, and nothing else |
| Contradictions, Sentences, ShieldedSentence | removing sentences that their own figures disprove |
| Citations, CitationText, OverlappingCitations | finding citations, comparing them and cutting the invented ones |
| Settlements, PolicyRules | the payment split and the policy figures it is read from |
| RankFusion | reciprocal rank fusion |
| IdempotentClaims, InterleavedClaims | filing a claim once |
| Options, Ascii | an optional value; ASCII character classes and string operations |

Loops and objects that change in place are methods and classes, each proved
against a function; the properties are lemmas about those functions and about
runs of them. `hide` at the head of a proof only keeps definitions the proof
does not need out of the solver's way.

What is assumed of the libraries: one graph node runs per step; an interrupted
node starts again from its beginning when resumed; messages are appended, or
replaced by id, and a reply of the model never bears the id of an earlier message;
a message that arrives while a thread has unfinished nodes
resumes it, whether it stopped at the interrupt or was cut off (that is what
`worker.py:80-91` tests). A node that a timeout or an exception ends has done to
the outside world what it did, and nothing of it is in the thread but that it is
to run again. A Redis script and a single Redis command are atomic.

Runs of one thread are taken one invocation after another. The source does not
enforce it: two replicas may be handed two messages of one conversation.
OverlappingRuns models that, each invocation on its own copy of the thread and the
last to save winning, and says when it makes a difference.

## Where the code and its words part

- `capture` shows the first write of a message; `tools` runs every call in it
  (`build.py:86-96`, `210-266`). The gate therefore needs every valid write of a
  message to file the same claim: `GateConditions.OnlyTheShownClaimIsFiled` is exact.
- The worker resumes any unfinished thread, not only one paused at the prompt
  (`worker.py:80-91`), so a message after a cut can approve a write that was never
  shown: `GateConditions.UnshownWrite`, and `CutIsSafeIff` says exactly when it cannot.
- A tools node that is cut runs again from its first call, so one approval can append
  twice: `Approvals.TwoAppendsOnOneApproval`. The idempotency store prevents it, unless
  the cut falls between its append and its put (`InterleavedClaims.CrashFilesTwice`).
- A reply that a cut takes from confirm is gone, and the next message is another reply
  to the same prompt: a claim refused with "no" can be filed on a later "yes"
  (`OneReply.RefusedThenFiled`, `CutOfAReplyIsSafeIff`).
- Two messages of one conversation on two replicas resume the same thread: one prompt
  takes two replies, or one approval files twice (`OverlappingRuns.OverlapIsSafeIff`).
- It also loses its record: what ran before the cut is in no turn's tool record or
  evidence (`TurnScope.CutLosesIff`).
- An agent node that is cut has called the model and not counted it, so a turn may
  call more than n times: `NodeBudget.CallsKeepToNIff`.
- An approved empty write is falsy, so it skips the tools and says nothing
  (`build.py:66-67`). The tail then edits an answer of an earlier turn, or, where
  there is none, drops the sources: `TurnAnswers.EmptyApprovalEditsHistory`,
  `TurnAnswers.EmptyApprovalCitesIff`.
- The worker's limit of 4n nodes is described as never reached; it is only from
  n = 3 on (`worker.py:70`): `NodeBudget.LimitIsSafeFromThree`.
- `reclaim_stalled` changes ownership, and `consume` reads new entries only, so
  an entry of a crashed replica is never handled: `QueueReplicas.AckableIffHeld`.
- A crash or race between `append` and `put` files twice; and `build_worker` gives
  no user and no turn (`worker.py:287`), so within a key's lifetime a genuine second
  claim with the same arguments is answered with the first: `IdempotentClaims`.
- `acquire` waits for tokens once. At constant cost that is enough exactly under
  the condition of `EgressLimiter.TokensCeilingIff`; with varying costs a minute can
  cost as much as requests times the dearest call: `EgressMinute.MinuteIsMet`.
- `record` truncates a sum of doubles, which can land just under a whole number, as
  for 1996 and 1996 (`resilient.py:160`). The estimate then sticks one below what
  every call costs: `EgressLimiter.OneTokenTooMany`.
- The limiter is awaited between the breaker's check and the call
  (`resilient.py:199-209`, `policy.py:117-122`), so a caller that checked before others
  failed calls a provider whose circuit is open: `Resilience.WaitsOutIff`.
- Half-open is said to let one request through; everyone who checks before the probe's
  verdict passes (`policy.py:84-88`): `Resilience.ProbeGoesAloneIff`.
- `record` corrects the last reservation, so with two calls out the first report is
  written over: `EgressSpending.TwoOutTellTheTruthIff`.
- retry_after is computed in doubles, and can be a second short or long
  (`ratelimit_redis.py:44-50`): `TokenBucket.RetryAfterIsClose`, `ToldTooLittle`, `ToldTooMuch`.
- A negative retry-after lets an attempt start past the deadline
  (`policy.py:141-144`): `Retry.DeadlineHoldsIff`.
- `settle` says its two shares always sum to the claim. Rounding a sub-cent limit
  breaks that by a cent, exactly as `Settlements.SharesSumIff` says; no limit read
  from a policy is sub-cent (`PolicyRules.AmountsAreWholeCents`).
- Removing false comparisons is idempotent on text without leading blanks, which is
  what `ground` gives it, and not in general: `ShieldedSentence.TwiceIsNotAlwaysOnce`.
- Overlapping citation spans cut prose: `Citations.CutIsExactIff`.

## Model

| member | source | states |
|---|---|---|
| WriteGate.WritesAreShownApprovedAndStated | backend/agent/app/graph/nodes.py:392-487 | In every run with confirmation on, cut anywhere allowed and with a tools node's appends standing after a cut, every appended claim was displayed (arguments that validate to exactly that claim), the one reply to it that confirm acted on is one of the nine approval words in any capitals with blanks around it, with no prompt and no other reply acted on after it, and some earlier human message gave its policy number and some earlier one its whole-dollar amount |
| ApprovalWords.ApprovesIff | backend/agent/app/graph/nodes.py:473-478 | A reply approves if and only if it is one of nine words written out, in any capitals, with any blanks around it |
| ApprovalWords.OnlyYesGoesToTools | backend/agent/app/graph/nodes.py:455-488 | Asked about a vouched, non-empty write, confirm goes to the tools if and only if the reply is one of those words; any other reply, a question too, drops the write |
| FiledClaims.FiledAsShown | backend/agent/app/graph/nodes.py:455-488 | In every such run the four fields of a claim filed are those of the prompt that was approved, blanks at their ends aside: policy shape, claim type, description and amount to the cent within their bounds |
| FiledClaims.AcceptsIff | backend/libs/contracts/claims.py:97-145 | The schema accepts arguments as a claim if and only if they are exactly its four fields, each what the argument says, and within bounds |
| FiledClaims.ShownIff | backend/agent/app/graph/nodes.py:384-471 | A pending write is put up, as it stands, if and only if its policy number, if it has one, is one the caller gave, and its amount, if it has one, is in whole dollars one the caller gave; otherwise it is dropped |
| GateConditions.OnlyTheShownClaimIsFiled | backend/agent/app/graph/build.py:210-266 | Whatever the tools answer, running a message's calls files nothing but the claim its first write is shown as, if and only if every schema-valid write in the message files that same claim: capture reads one write, tools runs them all |
| GateConditions.CutIsSafeIff | backend/agent/app/worker.py:80-91 | After a cut between capture and the prompt, every allowed way on files only what was shown, approved and stated, if and only if the pending write is not vouched for, is refused by the schema, or has no tool to file it |
| GateConditions.UnshownWrite | backend/agent/app/worker.py:80-91 | A run from the first message: a write proposed, the run cut before its prompt, "yes"; the log then holds the claim filed and no prompt at all |
| GateConditions.SomethingIsFileable | backend/agent/app/graph/nodes.py:392-487 | There are a graph, a message and a write for which nothing stands in the way, so the runs above exist |
| OneReply.WritesHadOneReply | backend/agent/app/graph/nodes.py:455-487 | In runs that never cut confirm with a write in hand that could be filed, that prompt had exactly one reply in all, replies lost to a cut included |
| OneReply.CutOfAReplyIsSafeIff | backend/agent/app/worker.py:103-107 | After a cut of confirm that holds a reply, every such way on appends only on prompts with one reply, if and only if the write is not vouched for, is refused by the schema, or has no tool to file it |
| OneReply.RefusedThenFiled | backend/agent/app/worker.py:80-107 | A run from the first message, allowed by the gate: the policyholder answers "no", the run is cut, and the next "yes" files the claim |
| WriteGate.ConfirmApproves | backend/agent/app/graph/nodes.py:455-478 | Confirm passing on to tools keeps the gate's invariant: the claim in hand is the one displayed, approved and stated |
| WriteGate.ToolsKeepGate | backend/agent/app/graph/build.py:86-96 | Running the calls of a cleared message, all of them, a prefix, or a prefix and part of the next, appends only what was authorised before the first |
| WriteGate.CutKeeps | backend/agent/app/worker.py:103-107 | A timeout or exception in any node, inside the tools or with a reply in confirm's hands, leaves the gate standing, except before the prompt of a write that could be filed |
| WriteGate.VouchedWasHeard | backend/agent/app/graph/nodes.py:321-381 | What the two checks of confirm find in the thread's human messages was really said, for exactly the policy number and amount the schema then accepts |
| GateHears.StatedClaimsAreShown | backend/agent/app/graph/nodes.py:362-381 | The gate never refuses an amount that was given: a pending write whose amount a human message says (plain or "twelve hundred" style, "and" or not) or writes (commas or not), and whose policy number one gives, goes to the prompt |
| GateHears.AmountIsStatedIff | backend/agent/app/graph/nodes.py:362-381 | An amount counts as stated if and only if some human message gives it, as one figure or as one run of number words |
| GateHears.FiledAmountsWereGiven | backend/agent/app/graph/nodes.py:362-381 | In every run with confirmation on, the whole dollars of each claim filed are the worth of one figure, or of one run of number words, of an earlier human message |
| Approvals.OneApprovalOneAppend | backend/agent/app/graph/nodes.py:455-487 | Over a store that files nothing twice, no claim of a conversation is appended twice, between any two appends lies an approval of its own, and there are at most as many appends as approvals |
| Approvals.TwoAppendsOnOneApproval | backend/agent/app/graph/build.py:86-183 | Without such a store one approval leads to two appends of its claim: the tools are cut past the append, and any message resumes them |
| OverlappingRuns.AloneIsOneThread | backend/agent/app/worker.py:68-107 | When a message starts an invocation only while none is in flight, the saved thread and the log are those of a run of one thread, so every result about runs applies |
| OverlappingRuns.OverlapIsSafeIff | backend/agent/app/worker.py:80-107 | A second invocation beside the first leaves every append authorised and approved apart, whatever its message and however the two interleave until the next, if and only if the first is not at confirm or tools, or what is pending there cannot be filed |
| OverlappingRuns.PromptTakesTwoReplies | backend/agent/app/worker.py:80-91 | "yes" and "no" handed to two replicas: one prompt takes both replies and the claim is filed |
| OverlappingRuns.ApprovalIsUsedTwice | backend/agent/app/worker.py:80-91 | A message while the tools run: one approval appends twice, with nothing cut |
| GraphLoops.RunTools | backend/agent/app/graph/build.py:79-183 | The loop over the calls appends outputs, invocations and evidence in order, as the node's definition says, and an unknown tool runs nothing |
| ToolRecords.ToolsDidIff | backend/agent/app/graph/build.py:79-183 | After any round of tools a claim was filed if and only if some accepted submit_claim call got as far as the append, and a chunk was found if and only if a search or an estimate of the round came back with it |
| ToolRecords.CaptureTakes | backend/agent/app/graph/build.py:207-262 | Capture sets the first write aside with its settlement, and the section that was read from, when it names one, is evidence and the source |
| GraphLoops.CapturedWrite | backend/agent/app/graph/build.py:207-214 | The capture loop returns the first write call's arguments, and None exactly when no call is a write |
| GraphLoops.PolicyNumbersStated | backend/agent/app/graph/nodes.py:321-340 | The loop collects exactly the policy numbers that some human message gives |
| GraphLoops.AmountWasStated | backend/agent/app/graph/nodes.py:362-381 | True exactly when the amount parses and some human message gives its whole dollars |
| GraphLoops.RunConfirm | backend/agent/app/graph/nodes.py:392-487 | The two checks, the interrupt and the reply, branch by branch, as the transition relation has them; a reply to a vouched, non-empty write goes to the tools exactly when it is an approval word |
| GraphLoops.LatestHuman | backend/agent/app/graph/nodes.py:176-184 | The loop back through the thread finds the last thing the policyholder said |
| TurnScope.EvidenceIsThisTurns | backend/agent/app/graph/nodes.py:163-212 | In every run whatever, at every step (paused, blocked, refused, cut or done): the tool record and the retrieved evidence are exactly those saved since the last guard, and sources are distinct citations of that evidence |
| TurnScope.RecordIsWholeIff | backend/agent/app/graph/build.py:79-183 | The record is all the tools that ran, and the evidence all that was gathered, since the last guard, if and only if no cut lost any of it |
| TurnScope.CutLosesIff | backend/agent/app/worker.py:103-107 | A cut loses tool runs if and only if it comes in the tools node after a call of a known tool was done |
| TurnStories.CutLosesTheSearch | backend/agent/app/graph/build.py:79-183 | A run from the first message in which a search ran and found its text, and the thread that is resumed records neither |
| TurnAnswers.FinishedTurnsCite | backend/agent/app/graph/nodes.py:1219-1234 | In every run without an empty write approved on a thread that holds no answer, a turn that finished with evidence saved has a source |
| TurnAnswers.EmptyApprovalCitesIff | backend/agent/app/graph/nodes.py:1143-1148 | After an approved empty write, in a turn with evidence, the turn ends with a source if and only if the thread holds some answer, of whatever turn |
| TurnStories.MuteTurn | backend/agent/app/graph/nodes.py:1143-1148 | A run from the first message: the policy is searched, an empty write approved, and the turn ends with that evidence and no source |
| TurnAnswers.EarlierTurnsStand | backend/agent/app/graph/nodes.py:863-971 | What the conversation held when any turn began it holds ever after, unless an empty write is approved: readback, parse, ground and format rewrite only this turn's answer |
| TurnAnswers.TailOwnsItsAnswer | backend/agent/app/graph/build.py:66-67 | Entering the tail from confirm, the answer it will rewrite is this turn's if and only if the approved write was not an empty dictionary |
| TurnAnswers.EmptyApprovalEditsHistory | backend/agent/app/graph/nodes.py:945-971 | After an approved empty write, parse rewrites an answer of an earlier turn, and the history stays a prefix of the conversation if and only if that rewriting changes nothing |
| TurnStories.FinishedAnswerIsEdited | backend/agent/app/graph/nodes.py:945-971 | A run of two turns: the first answer, finished, is rewritten in the second, and its history stands if and only if unwrapping the finished answer again changes nothing |
| TurnStories.SomeHistoryIsEdited | backend/agent/app/graph/nodes.py:945-971 | Such a run whose history is no longer a prefix: an envelope inside an envelope |
| GraphRun.TailRewritesOne | backend/agent/app/graph/nodes.py:876-971 | The tail nodes change nothing of the thread but the sources and the text of its last answer |
| VoiceReadback.VoiceIsReadBack | backend/agent/app/graph/nodes.py:876-916 | In every run an answer is read back with the identifier if and only if the turn is spoken, was heard well enough and the last thing the caller said holds one; readback changes nothing else |
| GraphRun.RepublishReplaces | backend/agent/app/graph/nodes.py:1254-1256 | A message republished under its id replaces that one message in place |
| TurnScope.SourcesAreCited | backend/agent/app/graph/nodes.py:1219-1248 | The sources of an answer are distinct and each is the citation of a retrieved chunk |
| ToolRecords.CitedIff | backend/agent/app/graph/nodes.py:1219-1251 | An answer cites, once each, exactly the retrieved citations that it names or whose figure it alone shares, or all of them when there is none such |
| NodeBudget.InvocationsAreBounded | backend/agent/app/graph/build.py:293-307 | With confirmation on, cut anywhere and any number of times: a turn calls the model at most n times and once more for each call lost to a cut inside the agent, and one invocation begins at most 2n + 6 nodes |
| NodeBudget.CallsKeepToNIff | backend/agent/app/graph/build.py:293-307 | Turns that lose at most m calls keep to n calls in every run, if and only if m is 0 |
| NodeBudget.LostCallsAreRepeated | backend/agent/app/worker.py:103-107 | For every m some turn loses m calls and makes n + m: the bound is met |
| NodeBudget.BoundIsMet | backend/agent/app/graph/nodes.py:284-313 | 2n + 6 is exact for every n: a model that always searches executes that many |
| NodeBudget.LimitIsSafeFromThree | backend/agent/app/worker.py:68-71 | No run passes the worker's limit of 4n if and only if n >= 3 |
| ReplicatedWriters.ReadersSeeTheCommits | backend/libs/adapters/claims_json.py:43-84 | Under any interleaving of replicas and tasks with crashes at any step and cancellation at any await (for the process lock, for the file lock, or inside), the file is the seed and then the commits in lock order; ids rise strictly past every seeded one and never pass CLM-9999 |
| ReplicatedWriters.CommitsLast | backend/libs/adapters/claims_json.py:67-79 | No committed claim is ever lost, moved or changed by any later step |
| ReplicatedWriters.ReturnedClaimsAreStored | backend/libs/adapters/claims_json.py:81-84 | A claim returned to a caller is in the file from then on |
| ReplicatedWriters.OneWriterInside | backend/libs/adapters/claims_json.py:67-84 | At most one writer is between taking and freeing the file lock, even when tasks are cancelled while queued for it or inside and free the process lock early |
| ReplicatedWriters.FullFileRefuses | backend/libs/adapters/claims_json.py:62-65 | An append fails exactly when the highest id is at least 9999, and then the file and the commits are unchanged |
| WriterProgress.EveryAppendCanFinish | backend/libs/adapters/claims_json.py:67-84 | No deadlock: from every reachable state every writer that asks can still finish, and the file is then what it held when its turn came and its claim, unless no number was left |
| WriterProgress.EverySubmissionCanFinish | backend/libs/adapters/claims_json.py:67-84 | And so for every writer that has nothing under way and submits |
| WriterProgress.OneAtATimeInAProcess | backend/libs/adapters/claims_json.py:81-84 | Of the writers of one process that were not cancelled at most one at a time is past the process lock, however the cancelled ones leave |
| WriterProgress.DiesWhileWriting | backend/libs/adapters/claims_json.py:75-79 | A process that dies while it writes leaves half a file beside the path, the path as it was, and its lock free |
| ReplicatedWriters.RunKeeps | backend/libs/adapters/claims_json.py:67-79 | The invariant every step keeps: the path holds whole versions only, and the lock holder works on the current one |
| ClaimsFile.NextClaim | backend/libs/adapters/claims_json.py:62-73 | The record has the arguments as given, status Submitted and the number one above the highest stored, 8821 in an empty file; there is none exactly when a stored number leaves no four digits above it |
| ClaimsFile.JsonFileClaimsRepo.Append | backend/libs/adapters/claims_json.py:67-79 | Appends the next claim, or leaves the file as it is when the id would not fit |
| ClaimsFile.JsonFileClaimsRepo.Get | backend/libs/adapters/claims_json.py:49-54 | Finds a stored claim of that number, or reports every id in the file, none of them that number |
| QueueReplicas.QueueIsSafe | backend/libs/adapters/queue_redis.py:76-127 | In every interleaving of enqueue, deliver, handle, bury, ack, lost acks, crash and reclaim: no entry is handled twice, an acked entry whose handler failed is in the dead stream, and depth is delivered minus acked |
| QueueReplicas.AckedFailuresAreBuried | backend/agent/app/worker.py:190-202 | Whatever else happens, an entry that a handler failed on at some step is in the dead stream once it is acked |
| QueueReplicas.NextEntryGoesThrough | backend/agent/app/worker.py:190-202 | From every reachable state a free replica can take the next entry all the way: handled once and acked, by way of the dead stream exactly when its handler fails |
| QueueReplicas.AckableIffHeld | backend/libs/adapters/queue_redis.py:88-104 | A pending entry can still be acked by some continuation if and only if a live replica holds it |
| QueueReplicas.StrandedForEver | backend/libs/adapters/queue_redis.py:118-127 | Once no live replica holds a pending entry, no step of any replica, reclaim included, ever handles, acks or buries it |
| QueueReplicas.CrashStrands | backend/agent/app/worker.py:190-202 | A crash between delivery and ack strands the entry the replica held |
| JobQueue.RedisQueue.Serve | backend/agent/app/worker.py:190-202 | A batch read and served leaves the pending list as it was and the dead stream longer by exactly the failures, in order |
| JobQueue.RedisQueue.Consume | backend/libs/adapters/queue_redis.py:88-104 | Delivers the next entries nobody was given, in order, and marks them pending for this consumer |
| JobQueue.RedisQueue.DeadLetter | backend/libs/adapters/queue_redis.py:109-116 | Records the failure, then acks |
| JobQueue.RedisQueue.ReclaimStalled | backend/libs/adapters/queue_redis.py:118-127 | Changes the owner of stalled entries and nothing else |
| JobQueue.RedisQueue.Depth | backend/libs/adapters/queue_redis.py:76-86 | Counts the pending entries |
| RunEvents.AgentWorker.Handle | backend/agent/app/worker.py:52-182 | For every outcome, publishes exactly the run's story, numbered from 0, and raises (so dead-letters) exactly on a timeout or failure |
| RunEvents.StoriesAreWellFormed | backend/agent/app/worker.py:52-182 | Numbers are 0, 1, 2, ... and exactly one event is terminal, the last |
| RunEvents.SurfacesHear | backend/agent/app/worker.py:108-182 | Event by event: it started, each call as it ended, the answer if there is one or the question, the sources, the end |
| EventDelivery.SubscribersGetTheStream | backend/libs/adapters/queue_memory.py:35-66 | Under any interleaving of one publisher and n subscribers, a subscriber that closed without timing out yielded exactly the events, and any other a prefix |
| EventDelivery.NobodyIsLeftWaiting | backend/libs/adapters/queue_memory.py:41-66 | No lost wakeup: once the last event is out, a subscriber resumed often enough closes with the whole stream |
| EventDelivery.EveryoneCanBeServed | backend/libs/adapters/queue_memory.py:41-66 | From every reachable state a subscriber that has not timed out can still get the whole stream and close |
| EventDelivery.SleepsWithNothingNew | backend/libs/adapters/queue_memory.py:41-66 | A subscriber that has had everything there is goes to sleep, and looks again only when something was published or its time is up |
| EventDelivery.ClosedForGood | backend/libs/adapters/queue_memory.py:41-66 | A closed subscription stays as it is |
| EventDelivery.InMemoryQueue.Drain | backend/libs/adapters/queue_memory.py:50-60 | The cursor loop yields from the cursor to the first terminal event or the end |
| EventDelivery.InMemoryQueue.Publish | backend/libs/adapters/queue_memory.py:35-39 | Appends the event; a terminal one frees a place in the queue's depth, never below zero |
| RunEvents.Collect | backend/gateway/app/main.py:112-162 | The buffering loop computes the fold over the events, stopping at an error |
| RunEvents.CollectsWhatWasHandled | backend/gateway/app/main.py:112-162 | Collecting what the handler publishes gives the run's text or readback, stripped, its sources, its tool calls in order and the pending one, or its error |
| RunEvents.CollectsFieldByField | backend/gateway/app/main.py:112-162 | Of any stream of events: its first error; or a timeout when nothing ended it; or what was said since the last replacement, the last sources, every call and the last verdict |
| RunEvents.CutOffIsTimeout | backend/gateway/app/main.py:148-152 | A stream without a terminal event is a gateway timeout, never an answer |
| EventDelivery.EndToEnd | backend/gateway/app/main.py:95-162 | From graph outcome to HTTP reply, for every interleaving: a subscription that closed by itself collects to exactly what the run owes, an expired one to a timeout |
| TokenBucket.WindowBound | backend/libs/adapters/ratelimit_redis.py:24-55 | In every trace of a monotone clock, of n calls in a window of length d at most capacity + refill * d are admitted, and n roundings of the balance may add to that |
| TokenBucket.RejectedOnlyAtTheLimit | backend/libs/adapters/ratelimit_redis.py:24-55 | Nobody is turned away early: before every rejection, since some earlier moment d ago, more than capacity + refill * d - 1 calls were admitted, but for a rounding each |
| TokenBucket.Conservation | backend/libs/adapters/ratelimit_redis.py:24-55 | Admissions and what is left never exceed one bucketful, the refill and a rounding per call, from any starting bucket |
| TokenBucket.ExpiryIsInvisible | backend/libs/adapters/ratelimit_redis.py:52-54 | Every call is answered as by a bucket that never expires, as long as roundings come to less than a second's refill, which the script's extra second covers |
| TokenBucket.EveryKeyHasItsBucket | backend/libs/adapters/ratelimit_redis.py:52-73 | However calls under many keys come, each is answered as by a bucket of its key alone that never expires |
| TokenBucket.RetryAfterIsExact | backend/libs/adapters/ratelimit_redis.py:44-50 | Where nothing rounds: after a rejection and any number of rejected calls, a call a whole s seconds later is admitted if and only if s is at least the retry_after given |
| TokenBucket.RetryAfterIsClose | backend/libs/adapters/ratelimit_redis.py:44-50 | However the doubles land, while all roundings come to less than a second's refill: one second more than retry_after always suffices, and two less never do |
| TokenBucket.ToldTooLittle | backend/libs/adapters/ratelimit_redis.py:44-50 | Three a minute, five at once, one call a second: a tiny slip and the 23rd call is told 18 seconds and rejected after them |
| TokenBucket.ToldTooMuch | backend/libs/adapters/ratelimit_redis.py:44-50 | One a minute: a tiny slip the other way and a call told 45 seconds is admitted after 44 |
| TokenBucket.RejectionsWait | backend/libs/adapters/ratelimit_redis.py:66-73 | As long as doubles keep signs, a rejection asks for at least one second, so max(1, ..) never changes it |
| TokenBucket.RedisRateLimiter.Check | backend/libs/adapters/ratelimit_redis.py:66-73 | Charges the identity's bucket, rewrites its expiry and touches no other key |
| EgressLimiter.RequestsCeiling | backend/agent/app/providers/resilient.py:120-143 | In every run any half-open minute holds at most requests_per_minute acquisitions |
| EgressLimiter.HeldAsNeeded | backend/agent/app/providers/resilient.py:120-143 | A call is held no longer than an interval from the last one and, when the trailing minute has no room for its estimate, until its oldest entry is sixty and a quarter seconds old |
| EgressLimiter.EstimateIsBounded | backend/agent/app/providers/resilient.py:145-160 | The estimate stays between any bounds on its seed and the usages recorded, or one below the lower bound, and that only when the double sum of the bound with itself lands under it |
| EgressLimiter.TokensCeilingIff | backend/agent/app/providers/resilient.py:120-160 | At constant cost c and however the machine rounds the double sums, every run of alternating acquire and record keeps the trailing minute within the token ceiling if and only if, for k = tokens / c, the least the estimate comes to after k recordings is too big to fit on top of k calls, or k is at least the request ceiling |
| EgressLimiter.SeedCoversCheapCalls | backend/agent/app/providers/resilient.py:105-114 | A cost no dearer than the seed meets that condition, except when its double sum lands short, the ceiling is one token short of a whole number of calls, and the request rate allows one more |
| EgressLimiter.OneTokenTooMany | backend/agent/app/providers/resilient.py:145-160 | As at cost 1996 under a ceiling of 3991, if its sum lands at 1995: once the estimate has settled, a minute holds 3992 |
| EgressLimiter.DearCallsOverspend | backend/agent/app/providers/resilient.py:145-160 | A cost above the seed need not: 3000 tokens a call against 8900 |
| EgressMinute.MinuteIsBounded | backend/agent/app/providers/resilient.py:120-160 | With varying costs up to h, in every run and whatever the token ceiling, a trailing minute costs at most h for each request allowed in it |
| EgressMinute.MinuteIsMet | backend/agent/app/providers/resilient.py:120-160 | No smaller bound holds: under any token ceiling with room for the first calls some run fills a minute with requests_per_minute calls that all cost h |
| EgressMinute.VaryingCostsOverspend | backend/agent/app/providers/resilient.py:120-160 | Even costs under the seed break the ceiling when they vary: a cheap call's estimate lets a dear one through |
| EgressSpending.LedgerIsTheTruth | backend/agent/app/providers/resilient.py:116-160 | With each call recorded before the next is let through, the trailing ledger is at every moment what was really spent in that minute, through all waits and pruning |
| EgressSpending.TwoOutTellTheTruthIff | backend/agent/app/providers/resilient.py:145-160 | With two calls out, the ledger tells what they cost if and only if the report made first is the estimate: the later one overwrites it |
| EgressSpending.RealMinuteIsBounded | backend/agent/app/providers/resilient.py:120-143 | Whoever reports when, or never: no half-open minute really costs more than the requests allowed in it, each at the dearest cost |
| EgressLimiter.Limiter.SpentLastMinute | backend/agent/app/providers/resilient.py:116-118 | Prunes the ledger to the trailing minute and sums it |
| EgressLimiter.Limiter.Acquire | backend/agent/app/providers/resilient.py:120-143 | At most one wait for tokens and one for the interval, then a reservation at the estimate |
| EgressLimiter.Limiter.Record | backend/agent/app/providers/resilient.py:145-160 | The last reservation becomes the real cost, or goes when none was reported; the estimate is the truncated double sum, which may land one under a whole number |
| EgressLimiter.SmoothedIs | backend/agent/app/providers/resilient.py:160 | The next estimate is seven tenths of the old one and three of the cost, cut down; or one less, where nothing is cut off and the double sum falls short |
| Resilience.BreakerStaysCoherent | backend/libs/resilience/policy.py:71-105 | In every interleaving of checks, successes and failures, opened_at is unset exactly when the failures are under the threshold |
| Resilience.NoCallsWhileOpen | backend/libs/resilience/policy.py:80-98 | For calls one after another: the provider is never called within reset_after_s of a failure that left the breaker open, unless something succeeded since |
| Resilience.WaitsOutIff | backend/agent/app/providers/resilient.py:199-209 | For calls that overlap: a call keeps that distance in every history if and only if its check came after the failure; checked before, it may wait for the limiter and go out at once |
| Resilience.FailedProbeReopens | backend/libs/resilience/policy.py:80-98 | One failed probe reopens the breaker at once |
| Resilience.HalfOpenLetsAll | backend/libs/resilience/policy.py:80-89 | After the reset everyone who checks before the first verdict passes, not one request only |
| Resilience.ProbeGoesAloneIff | backend/libs/resilience/policy.py:80-98 | Within one reset time of the probe and with no success, a check is turned away if and only if a failure was told before it |
| Retry.CallWithRetry | backend/libs/resilience/policy.py:107-146 | Whatever other callers do to the breaker at each await: every attempt passed a check at its start, then called, then told the breaker its end, and the breaker lived through exactly that and the others' steps; each attempt but the last failed transiently with time for one more and waited its delay; it ends by an answer, a permanent error, an open circuit with its remaining time, or the last failure when attempts or time are spent |
| Retry.RetriesWaitOut | backend/agent/app/providers/resilient.py:199-209 | Every call that goes out keeps the reset distance from any failure told before its check, its own or another caller's, with no success between |
| Retry.AloneStaysInTurn | backend/libs/resilience/policy.py:107-146 | With nobody else on the breaker its history stays one of calls in turn, to all of which NoCallsWhileOpen applies |
| Retry.RetriesStartInTime | backend/libs/resilience/policy.py:141-144 | Every attempt after the first starts before the deadline, but for how late the sleep before it woke and how far below zero the wait asked for was |
| Retry.AttemptsWait | backend/libs/resilience/policy.py:61-70 | Between two attempts lies the wait the provider asked for, none if that is negative, or a draw up to the delay cap and the base delay doubled once an attempt |
| Retry.GivesUpLate | backend/libs/resilience/policy.py:141-146 | A call gives up on a failure worth retrying only with its attempts spent, or when the wait would take it to the deadline |
| Retry.DeadlineHoldsIff | backend/libs/resilience/policy.py:141-144 | The test keeps the next attempt inside the deadline if and only if the delay is not negative or the deadline is not above it |
| Retry.Invoke | backend/agent/app/providers/resilient.py:211-229 | The fallback is used if and only if there is one and the primary's circuit was open or its last failure was a transient one; otherwise the primary's outcome is the outcome |
| Resilience.CircuitBreaker.IsOpen | backend/libs/resilience/policy.py:80-89 | Open if and only if it was opened less than reset_after_s ago, in numbers; otherwise the opening is forgotten and one failure reopens it |
| Resilience.TurnedAwayIff | backend/libs/resilience/policy.py:80-105 | A caller is turned away if and only if less than the reset time has passed since the opening, and is told exactly what is left of it, always more than nothing |
| Resilience.ComeBackThen | backend/libs/resilience/policy.py:80-105 | The time told is enough: that many seconds later or more, whatever else happens to the breaker but a failure, a check passes |
| Resilience.OpensAtTheThreshold | backend/libs/resilience/policy.py:91-98 | From closed, failures in a row open the breaker with the one that makes the threshold, and not before |
| SpokenAmounts.SpokenAmounts | backend/libs/guardrails/normalize.py:147-193 | The two loops compute the set that SpokenRuns.AmountsIff characterises |
| SpokenRuns.AmountsIff | backend/libs/guardrails/normalize.py:147-193 | A number is among the amounts of a text if and only if the text gives it: as a figure of one dollar or more, or as a run of number words of a hundred or more |
| SpokenRuns.SpokenIff | backend/libs/guardrails/normalize.py:167-193 | What is heard in any words is exactly the worth of each maximal run of number words and "and"s, one number a run, when it reaches a hundred; a run's worth is defined by its scales and hundreds, not by scanning |
| SpokenRuns.NothingElseIsHeard | backend/libs/guardrails/normalize.py:167-193 | Between words that say no number, the words of a numeral give its value and nothing else |
| SpokenRuns.WrittenIff | backend/libs/guardrails/normalize.py:161-165 | What is read in figures is exactly the value of each maximal run of digits and commas that begins with a digit, when it is a dollar or more |
| SpokenRuns.SplitWeaves | backend/libs/guardrails/normalize.py:168 | The tokens are the runs of small letters, in order; only the first and the last can be empty |
| SpokenAmounts.SpokenIsHeard | backend/libs/guardrails/normalize.py:167-193 | Any way of saying a numeral, between words that do not run into it, leaves its value among the amounts |
| SpokenText.SpokenAmountIsFound | backend/libs/guardrails/normalize.py:167-193 | The same in text of any case, punctuation and spacing |
| SpokenText.ReaderUndoesPrinter | backend/libs/guardrails/normalize.py:147-193 | The reader undoes the printer of number words in any context that does not adjoin it |
| SpokenText.EveryAmountIsFound | backend/libs/guardrails/normalize.py:147-193 | For every n from 100 to 999,999,999 in the plain style, and below 10,000 in hundreds, with "and" or without: n is found |
| SpokenText.WrittenAmountIsFound | backend/libs/guardrails/normalize.py:161-165 | For every n >= 1, written with commas or without, even before a comma of the sentence: n is found |
| SpokenText.SplitPhrase | backend/libs/guardrails/normalize.py:169 | Splitting on anything but letters gives back the words of a phrase |
| Figures.GroupedReadsBack | backend/libs/guardrails/normalize.py:161-165 | A comma-grouped figure reads back as its number |
| NumberWords.NamesAreKnown | backend/libs/guardrails/normalize.py:17-26 | Each number word is known by its usual name |
| NumberWords.OnlyNamesAreKnown | backend/libs/guardrails/normalize.py:17-26 | And nothing else is a number word, but "oh", "o" and "fourty" |
| SpokenIds.WordsToDigits | backend/libs/guardrails/normalize.py:36-66 | The index loop computes the digit groups, a tens word taking the unit after it |
| SpokenIds.TakeIdentifierRun | backend/libs/guardrails/normalize.py:72-95 | The loop takes the first run of number words, if only filler precedes it |
| SpokenIds.CleanedIff | backend/libs/guardrails/normalize.py:84-86 | Tokens are read in small letters without the four marks at their ends, and with everything else |
| SpokenIds.DigitsComeBackIff | backend/libs/guardrails/normalize.py:36-66 | The digits of any rendered groups come back if and only if no bare tens word is followed by a group said as one to nine |
| SpokenIds.RunIsExact | backend/libs/guardrails/normalize.py:72-95 | A non-empty run is taken if and only if filler alone precedes it and no number word follows it |
| SpokenIds.SpokenIdIsReadIff | backend/libs/guardrails/normalize.py:128-131 | A four-digit id said in any groups, after filler and before other words, is read as itself, or as nothing exactly when a tens word collides: never as a wrong id |
| SpokenIds.FromTail | backend/libs/guardrails/normalize.py:128-131 | The tail behind a cue becomes an identifier exactly when its run has four digits |
| Sentences.SplitTiles | backend/agent/app/graph/nodes.py:593 | The sentence matches tile every text exactly |
| Sentences.DropKeepsIff | backend/agent/app/graph/nodes.py:718-734 | The text comes back identical if and only if no sentence contradicts itself; otherwise shorter |
| Sentences.KeptAreTheRest | backend/agent/app/graph/nodes.py:718-734 | What is kept is every sentence that does not contradict itself, and no other, in order |
| Sentences.DropTwiceIff | backend/agent/app/graph/nodes.py:718-734 | A second application changes nothing if and only if nothing was dropped, nothing was left, or the first sentence left does not contradict itself with its leading blanks gone |
| Sentences.DropIsIdempotent | backend/agent/app/graph/nodes.py:718-734 | On every text without leading blanks a second application changes nothing |
| Sentences.SplitAgain | backend/agent/app/graph/nodes.py:593 | Splitting kept sentences again, which may weld bare punctuation onto a neighbour, finds a contradiction exactly when the list holds one |
| ShieldedSentence.TwiceIsNotAlwaysOnce | backend/agent/app/graph/nodes.py:643-652 | A text with a leading blank from which a second application removes more |
| Contradictions.ContradictsItself | backend/agent/app/graph/nodes.py:612-654 | The loops over the terms give the verdict that ContradictsIff characterises |
| Contradictions.ContradictsIff | backend/agent/app/graph/nodes.py:636-654 | By the figures that the words relate: with the first greater term that relates two, a sentence contradicts itself if and only if the first is not above the second; with none, and the first such lesser term, if and only if the first is not below the second; with neither, never |
| Contradictions.Compare | backend/agent/app/graph/nodes.py:657-683 | A pair if and only if the words relate two figures: the last before them and the first after, each gap at most 25 characters without comma or semicolon; the pair is their values |
| Contradictions.ComparedIff | backend/agent/app/graph/nodes.py:657-683 | The comparison the other results speak of is that pair |
| Contradictions.MoneySpans | backend/agent/app/graph/nodes.py:737-744 | The loop finds exactly the figures of the text, from left to right: a digit no comma ties to an earlier one, with all the digits and commas after it, worth a hundred or more |
| Contradictions.ContradictsIgnoresSilence | backend/agent/app/graph/nodes.py:612-654 | Stops and blanks after a sentence never change whether it contradicts itself |
| Citations.CitationSpans | backend/agent/app/graph/nodes.py:509-578 | The scan gives the spans of the heads from left to right |
| Citations.StartsIncrease | backend/agent/app/graph/nodes.py:533-576 | Span starts increase strictly |
| Citations.RealIff | backend/agent/app/graph/nodes.py:536-576 | A head is real if and only if a retrieved citation, flattened, stands there, or what it claims is a flattened prefix of exactly one retrieved citation |
| CitationText.SameCitationIff | backend/agent/app/graph/nodes.py:805-827 | Two citations pass for the same if and only if, made plain and trimmed at the ends, they have the same words but for capitals |
| CitationText.HeadIff | backend/agent/app/graph/nodes.py:495 | A head is a whole name in .md, the section sign and all the blanks about it, and nothing else is one |
| CitationText.TitleIs | backend/agent/app/graph/nodes.py:550-567 | A title is the first word and the title words right after it, no further than a stop or ninety characters |
| CitationText.SpanEndsIff | backend/agent/app/graph/nodes.py:533-576 | A span that retrieved citations open runs as long as the longest of them, any other to the end of its title |
| Citations.CutInvented | backend/agent/app/graph/nodes.py:1160-1164 | The back-to-front loop computes the cut |
| Citations.CutIsExactIff | backend/agent/app/graph/nodes.py:1160-1164 | The cut leaves exactly the characters outside the invented spans, in order, if and only if no invented span runs into the next or nothing is left after the first that does |
| Citations.DisjointIsClean | backend/agent/app/graph/nodes.py:1160-1164 | Disjoint invented spans meet that condition |
| Citations.RealCitationsSurvive | backend/agent/app/graph/nodes.py:1150-1164 | Then any stretch no invented span reaches into, a real citation in particular, survives letter for letter between what survives on either side |
| OverlappingCitations.OverlapCutsProse | backend/agent/app/graph/nodes.py:1160-1164 | A head inside another's title: the prose after both is cut too |
| Settlements.SharesSumIff | backend/libs/policy/rules.py:390-408 | For every claim, limit and deductible the shares sum to the claim if and only if the limit does not apply midway between two cents or the claim is an even number of cents; they are never more than a cent off |
| Settlements.SharesAreSound | backend/libs/policy/rules.py:390-408 | With a whole-cent limit the shares sum exactly, neither is negative, and the insurer's is at most the limit |
| Settlements.WhoPaysWhat | backend/libs/policy/rules.py:396-403 | For whole-cent terms: above the limit after the deductible the insurer pays exactly the limit; otherwise the policyholder pays exactly the lesser of deductible and claim |
| Settlements.InsurerShareGrows | backend/libs/policy/rules.py:390-408 | The insurer's share is monotone in the claim |
| Settlements.ExcessIffAboveLimit | backend/libs/policy/rules.py:269-296 | The excess is positive if and only if the cap cut the payment, and deductible and excess make up the policyholder's share |
| Settlements.PartsAddUpIff | backend/libs/policy/rules.py:402-403 | Half-even rounding of two parts of a whole adds up if and only if they are no ties or the whole is even |
| PolicyRules.ExtractRules | backend/libs/policy/rules.py:93-122 | The three loops keep one rule a kind, setting aside the figures a more specific pattern took |
| PolicyRules.OneRulePerKind | backend/libs/policy/rules.py:93-122 | One rule a kind, and each is the first figure that counts in the first sentence that has one |
| PolicyRules.RulesByKind | backend/libs/policy/rules.py:433-436 | The dictionary settlement_for builds, where the last rule of a kind stays, holds the rule coverage_limit_for finds first |
| PolicyRules.FreshFiguresAreDistinct | backend/libs/policy/rules.py:104-113 | No figure of a sentence counts twice, and every figure found counts once |
| PolicyRules.AmountsAreWholeCents | backend/libs/policy/rules.py:45 | Every amount the pattern can capture is a whole number of cents, so the rounding case cannot arise |
| PolicyRules.FiguresAreWorth | backend/libs/policy/rules.py:45-60 | Every figure, with commas or without, is worth its number, and with two decimals that many cents more |
| PolicyRules.GoverningSection | backend/libs/policy/rules.py:142-174 | The loop with its fallback computes the governing section |
| PolicyRules.GoverningIff | backend/libs/policy/rules.py:142-174 | The governing section is the first that has the claim type as a part of its title or text and states a limit; where none does, the first that has it; where none has it, there is none |
| PolicyRules.CapIffStated | backend/libs/policy/rules.py:165-174 | There is a cap if and only if some section that names the claim type states a limit |
| PolicyRules.LimitAndSettlementAgree | backend/libs/policy/rules.py:177-197 | coverage_limit_for and settlement_for agree: a cap exactly when the split has a limit, to the cent, from the same section |
| PolicyRules.PolicySplitsAreSound | backend/libs/policy/rules.py:411-450 | Every split read from a policy sums to the claim, stays under its limit, and has excess exactly when above it |
| PolicyRules.PolicyPaysWhat | backend/libs/policy/rules.py:411-450 | The same of a split read from a policy, with the deductible and the limit that the governing section states |
| PolicyRules.SplitIff | backend/libs/policy/rules.py:411-450 | There is a split if and only if a section governs the claim type and states a limit or a deductible |
| RankFusion.ReciprocalRankFusion | backend/retrieval/app/hybrid.py:26-42 | The accumulating loops give each ranked id the sum of 1 / (k + rank) over its places |
| RankFusion.Fuse | backend/retrieval/app/hybrid.py:169-183 | Returns the known ones among the top_k of the ids ordered by score, ties by id |
| RankFusion.OrderIsUnique | backend/retrieval/app/hybrid.py:177 | There is only one such order |
| RankFusion.AgreementWinsIff | backend/retrieval/app/hybrid.py:26-42 | For all duplicate-free rankings of depth n, an id in both outscores every id in one, if and only if n <= k + 1 |
| RankFusion.AgreementComesFirst | backend/retrieval/app/hybrid.py:169-183 | Of what fuse returns for rankings no deeper than 61: a chunk of one ranking comes after every chunk of both, and every known chunk of both is there before it |
| RankFusion.SearchesKeepAgreementIff | backend/retrieval/app/index.py:101 | The depth the index searches to is within that bound if and only if top_k <= 30 |
| RankFusion.FusedLength | backend/retrieval/app/hybrid.py:178-183 | When every id is known the output is min(top_k, size of the union) long, each with its score, best first |
| IdempotentClaims.SubmitClaimTool.Submit | backend/agent/app/tools/claims.py:240-271 | Get, append, put: a known key replays its claim and changes nothing, an unknown one files; the lookup of a stored id never fails |
| IdempotentClaims.StoredKeysReplay | backend/agent/app/tools/claims.py:240-255 | In every sequential run a stored key leads to an existing claim with its arguments, and re-executing leaves the repository unchanged |
| IdempotentClaims.SameCallSameClaim | backend/agent/app/tools/claims.py:240-255 | The same call again returns the first one's claim |
| IdempotentClaims.FiledArgumentsDiffer | backend/libs/resilience/policy.py:149-157 | As the agent is wired (one user, one turn), no two claims filed have the same arguments |
| IdempotentClaims.FiledClaimsAreKeyed | backend/agent/app/tools/claims.py:257-259 | As many keys as claims filed, and each claim has its key |
| InterleavedClaims.GuardedRunsFileOnce | backend/agent/app/tools/claims.py:240-259 | However callers interleave, nothing is filed twice when one caller at a time works on a key and none dies between append and put |
| InterleavedClaims.GuardIsExact | backend/agent/app/tools/claims.py:240-259 | That guard is exact: after a look or a death that breaks it, some guarded way on files a claim twice; after one that keeps it, none does |
| InterleavedClaims.CrashFilesTwice | backend/agent/app/tools/claims.py:257-259 | A crash between append and put: the retry files a second claim |
| InterleavedClaims.RaceFilesTwice | backend/agent/app/tools/claims.py:241-257 | Two callers that both look before either files: two claims |

## Left out

- The model's behaviour, prompts and tool texts: its messages are arbitrary inputs of each step.
- LangGraph, LangChain, Redis and file-system internals beyond the semantics stated above; a rename is atomic and a crash frees the locks of the process that held them.
- The regular-expression engine: sentence, number, word, citation and money patterns are scanners over characters, ASCII only; the injection screen, the policy-number pattern, the settlement patterns and section naming are arbitrary functions of the text.
- Unicode: letters, digits and blanks beyond ASCII are not classified, except the typographic spaces, dashes and quotes that citations are compared without.
- Decimal exponents, signs and the precision of Decimal arithmetic, and the exception `extract_rules` raises on an amount of commas only: amounts are reals, and a captured amount has a digit.
- Floating-point rounding in the rank-fusion scores, for which exact fractions stand, and in the egress limiter's and the breaker's clocks; the double sum of the egress estimate is any that lands at its exact value or, where that is whole, possibly just under it, and the bucket's doubles are any within a given error.
- The stream's trimming (`maxlen`) and the idempotency key's time to live: keys and entries are kept.
- The Redis event stream of `publish` and `subscribe`: the in-memory queue stands for event delivery.
- The direct form and the cue search of `_canonicalize`: identifiers start from the tail behind a cue.
- The layout of claim ids as text: a claim carries the number of its CLM-#### id.
- `_confidence_for`, estimated-amount detection, orphaned labels and the space and bracket tidying in `ground`: settled by reading one branch, or text edits without a law of their own.
- `policy_says`, `exclusions`, `citation` and `summary` of a settlement: wording carried along with the figures.
- Voice, tokens for it, frontend, tracing, settings, conversation storage, BM25 scores, embeddings, health checks: input and output, or numerical code with weak laws.
- OverlappingRuns.OverlapIsSafeIff: looks as far as the next message; a graph node is one step, and its save is part of it.
- WriteGate.WritesAreShownApprovedAndStated: assumes that the valid writes of each message agree, and that no run is cut before the prompt of a write that could be filed; GateConditions proves each condition exact.
- Approvals.OneApprovalOneAppend: assumes the guard of InterleavedClaims on the store, and that each append of the log is one of the store's; TwoAppendsOnOneApproval is a run without it.
- TurnAnswers.FinishedTurnsCite: assumes that no empty write was approved on a thread without an answer; EmptyApprovalCitesIff shows that this is exact.
- TurnAnswers.EarlierTurnsStand: assumes that no empty write was approved; EmptyApprovalEditsHistory says when one does harm.
- OneReply.WritesHadOneReply: assumes besides that confirm is not cut with a write that could be filed; CutOfAReplyIsSafeIff proves that exact.
- TokenBucket.RetryAfterIsExact: assumes that nothing rounds; RetryAfterIsClose is for doubles, and both seconds it leaves open occur.
- EgressSpending.TwoOutTellTheTruthIff: for two calls out, the first reservation still within the minute.
- InterleavedClaims.GuardIsExact: exact step by step while two more ids fit the pattern; a run that breaks the guard may still happen to file once.
- EgressLimiter.TokensCeilingIff: for one caller alternating acquire and record at a constant cost; EgressMinute has the bound for every other run.
- EgressMinute.MinuteIsMet: for fewer than 240 requests a minute, where the slack of a quarter second is less than the interval.
- TokenBucket.RedisRateLimiter.constructor: a refill rate of zero per minute, with which the script divides by zero, is not modelled.
- RankFusion.AgreementComesFirst: ids are the places of the id strings in their order.
