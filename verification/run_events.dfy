/** A run's events from the worker that publishes them to the gateway that
    collects them (backend/agent/app/worker.py:52-182, gateway/app/main.py:95-162). */
module RunEvents {
  import opened Ascii

  datatype Status = Ok | Failed | AwaitingConfirmation

  datatype ToolCall = ToolCall(name: string, arguments: string, status: Status)

  datatype Verdict = NoVerdict | Verdict(confidence: real, unknown: bool)

  /** The messages an error event may carry to the policyholder. */
  datatype Notice = EXPIRED | TIMED_OUT | UNAVAILABLE

  datatype Kind =
    | Started
    | Token(text: string)
    | ToolEnd(call: ToolCall)
    | Confirm(tool: string, args: string, readback: string)
    | Sources(sources: seq<string>)
    | Done(replacement: string, verdict: Verdict)   // "" when the event carries no text
    | Error(message: Notice)

  datatype Event = Event(kind: Kind, number: nat)

  predicate Terminal(e: Event) { e.kind.Done? || e.kind.Error? }

  /** How the graph's run came out. */
  datatype Outcome =
    | Expired
    | TimedOut
    | Broke
    | Paused(calls: seq<ToolCall>, args: string, readback: string, sources: seq<string>)
    | Finished(calls: seq<ToolCall>, text: string, sources: seq<string>, verdict: Verdict)

  const WRITE_TOOL := "submit_claim"

  function ToolEnds(calls: seq<ToolCall>): (r: seq<Kind>)
    ensures |r| == |calls|
    ensures forall i :: 0 <= i < |r| ==> r[i] == ToolEnd(calls[i])
  {
    seq(|calls|, i requires 0 <= i < |calls| => ToolEnd(calls[i]))
  }

  /** How a run that reached the graph's end, or its pause, is reported. */
  function Ending(o: Outcome): seq<Kind>
    requires o.Paused? || o.Finished?
  {
    if o.Paused? then [Confirm(WRITE_TOOL, o.args, o.readback), Sources(o.sources), Done("", NoVerdict)]
    else if o.text == "" then [Sources(o.sources), Done("", o.verdict)]
    else [Token(o.text), Sources(o.sources), Done("", o.verdict)]
  }

  /** What the policyholder's surfaces are to be told, in order. */
  function Story(o: Outcome): seq<Kind> {
    match o
    case Expired => [Error(EXPIRED)]
    case TimedOut => [Started, Error(TIMED_OUT)]
    case Broke => [Started, Error(UNAVAILABLE)]
    case _ => [Started] + ToolEnds(o.calls) + Ending(o)
  }

  function NumberedFrom(kinds: seq<Kind>, first: nat): (r: seq<Event>)
    ensures |r| == |kinds|
    ensures forall i :: 0 <= i < |r| ==> r[i] == Event(kinds[i], first + i)
  {
    seq(|kinds|, i requires 0 <= i < |kinds| => Event(kinds[i], first + i))
  }

  function EventsOf(o: Outcome): seq<Event> { NumberedFrom(Story(o), 0) }

  lemma NumberedJoins(a: seq<Kind>, b: seq<Kind>, first: nat)
    ensures NumberedFrom(a + b, first) == NumberedFrom(a, first) + NumberedFrom(b, first + |a|)
  {
  }

  /** Numbered 0, 1, 2, ..., with one terminal event, and that one last. */
  ghost predicate WellFormed(events: seq<Event>) {
    && events != []
    && (forall i :: 0 <= i < |events| ==> events[i].number == i)
    && (forall i :: 0 <= i < |events| ==> (Terminal(events[i]) <==> i == |events| - 1))
  }

  lemma StoriesAreWellFormed(o: Outcome)
    ensures WellFormed(EventsOf(o))
  {
  }

  /** The worker's handler: it publishes as it goes, advancing one counter. */
  class AgentWorker {
    var published: seq<Event>

    method Emit(kind: Kind, number: nat)
      modifies this
      ensures published == old(published) + [Event(kind, number)]
    {
      published := published + [Event(kind, number)];
    }

    method EmitToolCalls(calls: seq<ToolCall>, first: nat) returns (next: nat)
      modifies this
      ensures next == first + |calls|
      ensures published == old(published) + NumberedFrom(ToolEnds(calls), first)
    {
      next := first;
      for i := 0 to |calls|
        invariant next == first + i
        invariant published == old(published) + NumberedFrom(ToolEnds(calls), first)[..i]
      {
        Emit(ToolEnd(calls[i]), next);
        next := next + 1;
      }
    }

    method EmitEnding(o: Outcome, first: nat)
      requires o.Paused? || o.Finished?
      modifies this
      ensures published == old(published) + NumberedFrom(Ending(o), first)
    {
      var number := first;
      if o.Paused? {
        Emit(Confirm(WRITE_TOOL, o.args, o.readback), number);
        number := number + 1;
      } else if o.text != "" {
        Emit(Token(o.text), number);
        number := number + 1;
      }
      Emit(Sources(o.sources), number);
      number := number + 1;
      Emit(Done("", if o.Paused? then NoVerdict else o.verdict), number);
    }

    /** `raised`: the job is dead-lettered rather than acked. */
    method Handle(o: Outcome) returns (raised: bool)
      modifies this
      ensures published == old(published) + EventsOf(o)
      ensures raised <==> o.TimedOut? || o.Broke?
    {
      hide EventsOf, Ending, NumberedFrom;
      StoryShape(o);
      if o.Expired? {
        Emit(Error(EXPIRED), 0);
        return false;
      }
      var number := 0;
      Emit(Started, number);
      number := number + 1;
      if o.TimedOut? {
        Emit(Error(TIMED_OUT), number);
        return true;
      }
      if o.Broke? {
        Emit(Error(UNAVAILABLE), number);
        return true;
      }
      number := EmitToolCalls(o.calls, number);
      EmitEnding(o, number);
      return false;
    }
  }

  lemma StoryShape(o: Outcome)
    ensures o.Expired? ==> EventsOf(o) == [Event(Error(EXPIRED), 0)]
    ensures o.TimedOut? ==> EventsOf(o) == [Event(Started, 0), Event(Error(TIMED_OUT), 1)]
    ensures o.Broke? ==> EventsOf(o) == [Event(Started, 0), Event(Error(UNAVAILABLE), 1)]
    ensures o.Paused? || o.Finished? ==>
      EventsOf(o) == [Event(Started, 0)] + NumberedFrom(ToolEnds(o.calls), 1) + NumberedFrom(Ending(o), 1 + |o.calls|)
  {
    if o.Paused? || o.Finished? { StoryJoins(o); }
  }

  lemma StoryJoins(o: Outcome)
    requires o.Paused? || o.Finished?
    ensures EventsOf(o) == [Event(Started, 0)] + NumberedFrom(ToolEnds(o.calls), 1) + NumberedFrom(Ending(o), 1 + |o.calls|)
  {
    hide Ending;
    NumberedJoins([Started], ToolEnds(o.calls), 0);
    NumberedJoins([Started] + ToolEnds(o.calls), Ending(o), 0);
    assert NumberedFrom([Started], 0) == [Event(Started, 0)];
  }

  // ------------------------------------------------------------- collecting

  datatype Reply =
    | Answer(text: string, sources: seq<string>, calls: seq<ToolCall>, verdict: Verdict)
    | BadGateway(message: Notice)
    | GatewayTimeout

  /** The gateway's buffer. */
  datatype Buffer = Buffer(text: string, sources: seq<string>, calls: seq<ToolCall>, verdict: Verdict, sawTerminal: bool)

  const EMPTY := Buffer("", [], [], NoVerdict, false)

  function Take(b: Buffer, kind: Kind): Buffer
    requires !kind.Error?
  {
    match kind
    case Started => b
    case Token(text) => b.(text := b.text + text)
    case Sources(sources) => b.(sources := sources)
    case ToolEnd(call) => b.(calls := b.calls + [call])
    case Confirm(tool, args, readback) =>
      b.(text := b.text + readback, calls := b.calls + [ToolCall(tool, args, AwaitingConfirmation)])
    case Done(replacement, verdict) =>
      b.(text := if replacement != "" then replacement else b.text, verdict := verdict, sawTerminal := true)
  }

  function CollectFrom(b: Buffer, events: seq<Event>): Reply
    decreases |events|
  {
    if events == [] then
      if b.sawTerminal then Answer(Strip(b.text), b.sources, b.calls, b.verdict) else GatewayTimeout
    else if events[0].kind.Error? then BadGateway(events[0].kind.message)
    else CollectFrom(Take(b, events[0].kind), events[1..])
  }

  /** _collect: the buffered answer, or the error the stream ends in. */
  method Collect(events: seq<Event>) returns (reply: Reply)
    ensures reply == CollectFrom(EMPTY, events)
  {
    var text, sources, calls, verdict, sawTerminal := "", [], [], NoVerdict, false;
    for i := 0 to |events|
      invariant CollectFrom(EMPTY, events) == CollectFrom(Buffer(text, sources, calls, verdict, sawTerminal), events[i..])
    {
      assert events[i..][1..] == events[i + 1..];
      match events[i].kind
      case Started =>
      case Token(t) => text := text + t;
      case Sources(s) => sources := s;
      case ToolEnd(call) => calls := calls + [call];
      case Confirm(tool, args, readback) =>
        text := text + readback;
        calls := calls + [ToolCall(tool, args, AwaitingConfirmation)];
      case Done(replacement, v) =>
        sawTerminal := true;
        if replacement != "" { text := replacement; }
        verdict := v;
      case Error(message) => return BadGateway(message);
    }
    if !sawTerminal { return GatewayTimeout; }
    return Answer(Strip(text), sources, calls, verdict);
  }

  /** What the caller of the gateway should get for each way a run comes out. */
  function Owed(o: Outcome): Reply {
    match o
    case Expired => BadGateway(EXPIRED)
    case TimedOut => BadGateway(TIMED_OUT)
    case Broke => BadGateway(UNAVAILABLE)
    case Paused(calls, args, readback, sources) =>
      Answer(Strip(readback), sources, calls + [ToolCall(WRITE_TOOL, args, AwaitingConfirmation)], NoVerdict)
    case Finished(calls, text, sources, verdict) => Answer(Strip(text), sources, calls, verdict)
  }

  lemma {:induction false} CollectToolEnds(b: Buffer, events: seq<Event>, calls: seq<ToolCall>)
    requires |calls| <= |events|
    requires forall i :: 0 <= i < |calls| ==> events[i].kind == ToolEnd(calls[i])
    ensures CollectFrom(b, events) == CollectFrom(b.(calls := b.calls + calls), events[|calls|..])
    decreases |calls|
  {
    if calls == [] {
      assert b.calls + calls == b.calls && events[0..] == events;
    } else {
      CollectToolEnds(b.(calls := b.calls + [calls[0]]), events[1..], calls[1..]);
      assert b.calls + [calls[0]] + calls[1..] == b.calls + calls;
      assert events[1..][|calls| - 1..] == events[|calls|..];
    }
  }

  /** Collecting what the handler publishes gives back what the run produced. */
  lemma CollectsWhatWasHandled(o: Outcome)
    ensures CollectFrom(EMPTY, EventsOf(o)) == Owed(o)
  {
    if o.Paused? || o.Finished? { CollectsTheEnding(o); } else { CollectsTheFailure(o); }
  }

  lemma CollectsTheFailure(o: Outcome)
    requires !(o.Paused? || o.Finished?)
    ensures CollectFrom(EMPTY, EventsOf(o)) == Owed(o)
  {
    if !o.Expired? {
      assert EventsOf(o)[1..] == [Event(Story(o)[1], 1)];
    }
  }

  lemma CollectsTheEnding(o: Outcome)
    requires o.Paused? || o.Finished?
    ensures CollectFrom(EMPTY, EventsOf(o)) == Owed(o)
  {
    hide EventsOf, CollectFrom, Owed, Ending;
    StoryJoins(o);
    var e, b, ends := EventsOf(o), EMPTY.(calls := o.calls), NumberedFrom(Ending(o), 1 + |o.calls|);
    SkipsStarted(EMPTY, e);
    assert e[1..] == NumberedFrom(ToolEnds(o.calls), 1) + ends;
    CollectToolEnds(EMPTY, e[1..], o.calls);
    assert [] + o.calls == o.calls;
    assert e[1..][|o.calls|..] == ends;
    EndingFolds(o, b, ends);
  }

  lemma SkipsStarted(b: Buffer, e: seq<Event>)
    requires e != [] && e[0].kind == Started
    ensures CollectFrom(b, e) == CollectFrom(b, e[1..])
  {
  }

  lemma CollectNothing(b: Buffer)
    ensures CollectFrom(b, []) == (if b.sawTerminal then Answer(Strip(b.text), b.sources, b.calls, b.verdict) else GatewayTimeout)
  {
  }

  lemma EndingFolds(o: Outcome, b: Buffer, rest: seq<Event>)
    requires o.Paused? || o.Finished?
    requires b == EMPTY.(calls := o.calls)
    requires |rest| == |Ending(o)| && forall i :: 0 <= i < |rest| ==> rest[i].kind == Ending(o)[i]
    ensures CollectFrom(b, rest) == Owed(o)
  {
    hide CollectFrom, Strip;
    if |rest| == 2 { CollectTwo(b, rest); } else { CollectThree(b, rest); }
    forall b: Buffer { CollectNothing(b); }
    if o.Paused? { assert "" + o.readback == o.readback; } else { assert "" + o.text == o.text; }
  }

  lemma CollectTwo(b: Buffer, e: seq<Event>)
    requires |e| == 2 && !e[0].kind.Error? && !e[1].kind.Error?
    ensures CollectFrom(b, e) == CollectFrom(Take(Take(b, e[0].kind), e[1].kind), [])
  {
    assert e[1..][1..] == [];
    assert CollectFrom(Take(b, e[0].kind), e[1..]) == CollectFrom(Take(Take(b, e[0].kind), e[1].kind), e[1..][1..]);
  }

  lemma CollectThree(b: Buffer, e: seq<Event>)
    requires |e| == 3 && !e[0].kind.Error? && !e[1].kind.Error? && !e[2].kind.Error?
    ensures CollectFrom(b, e) == CollectFrom(Take(Take(Take(b, e[0].kind), e[1].kind), e[2].kind), [])
  {
    CollectTwo(Take(b, e[0].kind), e[1..]);
  }

  /** A stream cut off before its terminal event is a timeout, never an answer. */
  lemma {:induction false} CutOffIsTimeout(b: Buffer, events: seq<Event>)
    requires !b.sawTerminal && forall e :: e in events ==> !Terminal(e)
    ensures CollectFrom(b, events) == GatewayTimeout
    decreases |events|
  {
    if events != [] { assert events[0] in events; CutOffIsTimeout(Take(b, events[0].kind), events[1..]); }
  }

  // ----------------------------------------------- event by event, field by field

  /** A run that reached an end is told in this order: it started, each call as it
      ended, the answer if there is one or the question, the sources, the end. */
  lemma SurfacesHear(o: Outcome)
    requires o.Paused? || o.Finished?
    ensures var e, n := EventsOf(o), |o.calls|;
      && |e| == n + (if o.Finished? && o.text == "" then 3 else 4)
      && e[0].kind == Started
      && (forall i :: 0 <= i < n ==> e[1 + i].kind == ToolEnd(o.calls[i]))
      && (o.Finished? && o.text != "" ==> e[n + 1].kind == Token(o.text))
      && (o.Paused? ==> e[n + 1].kind == Confirm("submit_claim", o.args, o.readback))
      && e[|e| - 2].kind == Sources(o.sources)
      && e[|e| - 1].kind == Done("", if o.Paused? then NoVerdict else o.verdict)
  {
    StoryJoins(o);
    hide EventsOf;
    var e, n, ends := EventsOf(o), |o.calls|, NumberedFrom(Ending(o), 1 + |o.calls|);
    assert forall i :: 0 <= i < |ends| ==> e[n + 1 + i] == ends[i];
    assert forall i :: 0 <= i < n ==> e[1 + i] == NumberedFrom(ToolEnds(o.calls), 1)[i];
  }

  predicate NoError(events: seq<Event>) { forall i :: 0 <= i < |events| ==> !events[i].kind.Error? }

  /** The text so far: what was said since the last replacement, and that. */
  function Said(events: seq<Event>): string {
    if events == [] then ""
    else
      var before := Said(events[..|events| - 1]);
      match events[|events| - 1].kind
      case Token(text) => before + text
      case Confirm(_, _, readback) => before + readback
      case Done(replacement, _) => if replacement != "" then replacement else before
      case _ => before
  }

  function CallsIn(events: seq<Event>): seq<ToolCall> {
    if events == [] then []
    else
      var before := CallsIn(events[..|events| - 1]);
      match events[|events| - 1].kind
      case ToolEnd(call) => before + [call]
      case Confirm(tool, args, _) => before + [ToolCall(tool, args, AwaitingConfirmation)]
      case _ => before
  }

  ghost predicate SourcesAt(events: seq<Event>, i: int, sources: seq<string>) {
    && 0 <= i < |events| && events[i].kind == Sources(sources)
    && forall j :: i < j < |events| ==> !events[j].kind.Sources?
  }

  ghost predicate VerdictAt(events: seq<Event>, i: int, verdict: Verdict) {
    && 0 <= i < |events| && events[i].kind.Done? && events[i].kind.verdict == verdict
    && forall j :: i < j < |events| ==> !events[j].kind.Done?
  }

  /** The last sources event, if there is one, has these. */
  ghost predicate LastSources(events: seq<Event>, sources: seq<string>) {
    if forall i :: 0 <= i < |events| ==> !events[i].kind.Sources? then sources == []
    else exists i :: SourcesAt(events, i, sources)
  }

  ghost predicate LastVerdict(events: seq<Event>, verdict: Verdict) {
    if forall i :: 0 <= i < |events| ==> !events[i].kind.Done? then verdict == NoVerdict
    else exists i :: VerdictAt(events, i, verdict)
  }

  function AllTaken(events: seq<Event>): Buffer
    requires NoError(events)
  {
    if events == [] then EMPTY else Take(AllTaken(events[..|events| - 1]), events[|events| - 1].kind)
  }

  lemma {:induction false} CollectSteps(events: seq<Event>, k: nat)
    requires k <= |events| && NoError(events[..k])
    ensures CollectFrom(EMPTY, events) == CollectFrom(AllTaken(events[..k]), events[k..])
  {
    if k == 0 {
      assert events[..0] == [] && events[0..] == events;
    } else {
      var front := events[..k];
      assert front[..k - 1] == events[..k - 1];
      CollectSteps(events, k - 1);
      assert front[k - 1] == events[k - 1] && events[k - 1..][1..] == events[k..];
    }
  }

  lemma {:induction false} FieldsOf(events: seq<Event>)
    requires NoError(events)
    ensures var b := AllTaken(events);
      && b.text == Said(events) && b.calls == CallsIn(events)
      && (b.sawTerminal <==> exists i :: 0 <= i < |events| && events[i].kind.Done?)
  {
    if events != [] {
      var front := events[..|events| - 1];
      FieldsOf(front);
      assert events == front + [events[|events| - 1]];
    }
  }

  lemma {:induction false} SourcesOf(events: seq<Event>)
    requires NoError(events)
    ensures LastSources(events, AllTaken(events).sources)
  {
    if events != [] {
      var n := |events| - 1;
      var front := events[..n];
      SourcesOf(front);
      hide AllTaken;
      assert AllTaken(events) == Take(AllTaken(front), events[n].kind) by { OneTaken(events); }
      var sources := AllTaken(events).sources;
      if events[n].kind.Sources? {
        assert SourcesAt(events, n, sources);
      } else {
        assert forall i :: 0 <= i < n ==> front[i] == events[i];
        assert forall i :: SourcesAt(front, i, sources) ==> SourcesAt(events, i, sources);
      }
    }
  }

  lemma {:induction false} VerdictOf(events: seq<Event>)
    requires NoError(events)
    ensures LastVerdict(events, AllTaken(events).verdict)
  {
    if events != [] {
      var n := |events| - 1;
      var front := events[..n];
      VerdictOf(front);
      hide AllTaken;
      assert AllTaken(events) == Take(AllTaken(front), events[n].kind) by { OneTaken(events); }
      var verdict := AllTaken(events).verdict;
      if events[n].kind.Done? {
        assert VerdictAt(events, n, verdict);
      } else {
        assert forall i :: 0 <= i < n ==> front[i] == events[i];
        assert forall i :: VerdictAt(front, i, verdict) ==> VerdictAt(events, i, verdict);
      }
    }
  }

  lemma OneTaken(events: seq<Event>)
    requires events != [] && NoError(events)
    ensures AllTaken(events) == Take(AllTaken(events[..|events| - 1]), events[|events| - 1].kind)
  {
  }

  /** What is collected from any stream: its first error, or a timeout when nothing
      ended it, or what was said, the last sources, all calls and the last verdict. */
  lemma CollectsFieldByField(events: seq<Event>)
    ensures forall i :: 0 <= i < |events| && events[i].kind.Error? && NoError(events[..i]) ==>
      CollectFrom(EMPTY, events) == BadGateway(events[i].kind.message)
    ensures NoError(events) && (forall i :: 0 <= i < |events| ==> !events[i].kind.Done?) ==>
      CollectFrom(EMPTY, events) == GatewayTimeout
    ensures NoError(events) && (exists i :: 0 <= i < |events| && events[i].kind.Done?) ==>
      exists sources, verdict :: LastSources(events, sources) && LastVerdict(events, verdict)
        && CollectFrom(EMPTY, events) == Answer(Strip(Said(events)), sources, CallsIn(events), verdict)
  {
    hide AllTaken, Said, CallsIn, LastSources, LastVerdict, Strip;
    forall i | 0 <= i < |events| && events[i].kind.Error? && NoError(events[..i])
      ensures CollectFrom(EMPTY, events) == BadGateway(events[i].kind.message)
    {
      CollectSteps(events, i);
    }
    if NoError(events) {
      CollectSteps(events, |events|);
      assert events[..|events|] == events && events[|events|..] == [];
      FieldsOf(events);
      SourcesOf(events);
      VerdictOf(events);
    }
  }
}
