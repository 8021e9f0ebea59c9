/** One run's stream with a publisher and any number of subscribers, each
    resumed at its suspension points in any order
    (backend/libs/adapters/queue_memory.py:35-66). */
module EventDelivery {
  import opened RunEvents

  /** A subscriber between two resumptions. Waiting is inside wakeup.wait();
      `woken` is set for every waiter when the publisher sets the wakeup. */
  datatype Mode = Scanning | Waiting(woken: bool) | Closed(timedOut: bool)

  datatype Reader = Reader(cursor: nat, got: seq<Event>, mode: Mode)

  datatype State = State(published: nat, readers: seq<Reader>)

  datatype Action = Publish | Resume(i: nat) | Expire(i: nat)

  const ARRIVING := Reader(0, [], Scanning)

  /** publish: append, then set the wakeup. */
  function Wake(r: Reader): Reader {
    if r.mode.Waiting? then r.(mode := Waiting(true)) else r
  }

  function WakeAll(readers: seq<Reader>): (r: seq<Reader>)
    ensures |r| == |readers|
    ensures forall i :: 0 <= i < |r| ==> r[i] == Wake(readers[i])
  {
    seq(|readers|, i requires 0 <= i < |readers| => Wake(readers[i]))
  }

  /** One resumption: yield the next event, or clear the wakeup and wait. */
  function Resumed(script: seq<Event>, published: nat, r: Reader): Reader
    requires published <= |script|
  {
    match r.mode
    case Closed(_) => r
    case Waiting(woken) => if woken then r.(mode := Scanning) else r
    case Scanning =>
      if r.cursor < published then
        Reader(r.cursor + 1, r.got + [script[r.cursor]], if Terminal(script[r.cursor]) then Closed(false) else Scanning)
      else r.(mode := Waiting(false))
  }

  function Next(script: seq<Event>, s: State, a: Action): State
    requires s.published <= |script|
    ensures Next(script, s, a).published <= |script|
  {
    match a
    case Publish =>
      if s.published < |script| then State(s.published + 1, WakeAll(s.readers)) else s
    case Resume(i) =>
      if i < |s.readers| then s.(readers := s.readers[i := Resumed(script, s.published, s.readers[i])]) else s
    case Expire(i) =>
      if i < |s.readers| && !s.readers[i].mode.Closed?
      then s.(readers := s.readers[i := s.readers[i].(mode := Closed(true))]) else s
  }

  function Arrivals(n: nat): (r: seq<Reader>)
    ensures |r| == n && forall i :: 0 <= i < n ==> r[i] == ARRIVING
  {
    seq(n, i => ARRIVING)
  }

  function Exec(script: seq<Event>, n: nat, run: seq<Action>): (s: State)
    ensures s.published <= |script|
  {
    if run == [] then State(0, Arrivals(n))
    else Next(script, Exec(script, n, run[..|run| - 1]), run[|run| - 1])
  }

  /** The queue's own bookkeeping: streams by run, and jobs not yet finished. */
  class InMemoryQueue {
    var streams: map<string, seq<Event>>
    var pending: nat

    constructor ()
      ensures streams == map[] && pending == 0
    {
      streams, pending := map[], 0;
    }

    function Stream(run: string): seq<Event>
      reads this
    {
      if run in streams then streams[run] else []
    }

    /** setdefault: a stream that subscribers or the worker opened is kept. */
    method Enqueue(run: string)
      modifies this
      ensures pending == old(pending) + 1
      ensures streams == if run in old(streams) then old(streams) else old(streams)[run := []]
    {
      pending := pending + 1;
      if run !in streams { streams := streams[run := []]; }
    }

    method Publish(run: string, e: Event)
      modifies this
      ensures run in streams && streams == old(streams)[run := streams[run]]
      ensures streams[run] == (if run in old(streams) then old(streams)[run] else []) + [e]
      ensures pending == if Terminal(e) && old(pending) > 0 then old(pending) - 1 else old(pending)
    {
      streams := streams[run := Stream(run) + [e]];
      if Terminal(e) && pending > 0 { pending := pending - 1; }
    }

    /** subscribe's inner loop, resumed without a break: yield from the cursor
        up to the first terminal event, or to the end of what there is. */
    method Drain(run: string, cursor: nat) returns (got: seq<Event>, closed: bool)
      requires cursor <= |Stream(run)|
      ensures run in streams ==> got <= streams[run][cursor..]
      ensures closed <==> got != [] && Terminal(got[|got| - 1])
      ensures forall i :: 0 <= i < |got| - 1 ==> !Terminal(got[i])
      ensures !closed ==> if run in streams then got == streams[run][cursor..] else got == []
    {
      got, closed := [], false;
      while cursor + |got| < |Stream(run)|
        invariant cursor + |got| <= |Stream(run)|
        invariant got == Stream(run)[cursor..cursor + |got|]
        invariant forall i :: 0 <= i < |got| ==> !Terminal(got[i])
      {
        var e := Stream(run)[cursor + |got|];
        got := got + [e];
        if Terminal(e) { return got, true; }
      }
    }
  }

  // ----------------------------------------------------------- the invariant

  ghost predicate ReaderInv(script: seq<Event>, published: nat, r: Reader) {
    && r.cursor <= published <= |script|
    && r.got == script[..r.cursor]
    && (r.mode == Waiting(false) ==> r.cursor == published)   // no lost wakeup
    && (r.mode == Closed(false) ==> r.cursor == |script|)
    && (r.mode != Closed(false) ==> r.cursor < |script|)
  }

  ghost predicate Inv(script: seq<Event>, n: nat, s: State) {
    && |s.readers| == n
    && forall i :: 0 <= i < n ==> ReaderInv(script, s.published, s.readers[i])
  }

  lemma ResumeKeeps(script: seq<Event>, published: nat, r: Reader)
    requires WellFormed(script) && published <= |script| && ReaderInv(script, published, r)
    ensures ReaderInv(script, published, Resumed(script, published, r))
  {
    if r.mode.Scanning? && r.cursor < published {
      assert script[..r.cursor + 1] == script[..r.cursor] + [script[r.cursor]];
    }
  }

  lemma {:induction false} RunKeeps(script: seq<Event>, n: nat, run: seq<Action>)
    requires WellFormed(script)
    ensures Inv(script, n, Exec(script, n, run))
  {
    if run != [] {
      var before, a := Exec(script, n, run[..|run| - 1]), run[|run| - 1];
      RunKeeps(script, n, run[..|run| - 1]);
      if a.Resume? && a.i < n { ResumeKeeps(script, before.published, before.readers[a.i]); }
    }
  }

  // ------------------------------------------------------------ main results

  /** Under any interleaving, a subscriber that closes without timing out has
      yielded exactly the run's events, and one that timed out a proper prefix. */
  lemma SubscribersGetTheStream(script: seq<Event>, n: nat, run: seq<Action>, i: nat)
    requires WellFormed(script) && i < n
    ensures |Exec(script, n, run).readers| == n
    ensures var r := Exec(script, n, run).readers[i];
      && r.got <= script
      && (r.mode == Closed(false) <==> r.got == script)
  {
    RunKeeps(script, n, run);
  }

  function ResumeTimes(script: seq<Event>, r: Reader, k: nat): Reader {
    if k == 0 then r else Resumed(script, |script|, ResumeTimes(script, r, k - 1))
  }

  /** Resumptions left once everything is published. */
  function Left(script: seq<Event>, r: Reader): int {
    if r.mode.Closed? then 0
    else 2 * (|script| - r.cursor) + (if r.mode.Waiting? then 1 else 0)
  }

  lemma ResumeProgresses(script: seq<Event>, r: Reader)
    requires WellFormed(script) && ReaderInv(script, |script|, r) && !r.mode.Closed?
    ensures ReaderInv(script, |script|, Resumed(script, |script|, r))
    ensures Left(script, Resumed(script, |script|, r)) < Left(script, r)
    ensures !(Resumed(script, |script|, r).mode == Closed(true))
  {
    ResumeKeeps(script, |script|, r);
  }

  /** No lost wakeup: once the last event is out, a subscriber that is resumed
      often enough is never left waiting; it closes with the whole stream. */
  lemma {:induction false} NobodyIsLeftWaiting(script: seq<Event>, r: Reader, k: nat)
    requires WellFormed(script) && ReaderInv(script, |script|, r) && r.mode != Closed(true)
    ensures ReaderInv(script, |script|, ResumeTimes(script, r, k))
    ensures ResumeTimes(script, r, k).mode != Closed(true)
    ensures k >= Left(script, r) ==> ResumeTimes(script, r, k).mode == Closed(false) && ResumeTimes(script, r, k).got == script
    ensures Left(script, ResumeTimes(script, r, k)) <= (if k <= Left(script, r) then Left(script, r) - k else 0)
  {
    if k > 0 {
      NobodyIsLeftWaiting(script, r, k - 1);
      var before := ResumeTimes(script, r, k - 1);
      if !before.mode.Closed? { ResumeProgresses(script, before); }
    }
  }

  // ------------------------------------------------- what a run can come to

  lemma OneMore(script: seq<Event>, n: nat, run: seq<Action>, a: Action)
    ensures Exec(script, n, run + [a]) == Next(script, Exec(script, n, run), a)
  {
    assert (run + [a])[..|run|] == run;
  }

  lemma {:induction false} ReadersStay(script: seq<Event>, n: nat, run: seq<Action>)
    ensures |Exec(script, n, run).readers| == n
  {
    if run != [] { ReadersStay(script, n, run[..|run| - 1]); }
  }

  lemma {:induction false} CanPublish(script: seq<Event>, n: nat, run: seq<Action>) returns (more: seq<Action>)
    ensures forall a :: a in more ==> a == Publish
    ensures Exec(script, n, run + more).published == |script|
    decreases |script| - Exec(script, n, run).published
  {
    more := [];
    assert run + more == run;
    if Exec(script, n, run).published < |script| {
      OneMore(script, n, run, Publish);
      var rest := CanPublish(script, n, run + [Publish]);
      more := [Publish] + rest;
      assert run + more == run + [Publish] + rest;
    }
  }

  lemma {:induction false} CanResume(script: seq<Event>, n: nat, run: seq<Action>, i: nat, k: nat) returns (more: seq<Action>)
    requires i < n && |Exec(script, n, run).readers| == n && Exec(script, n, run).published == |script|
    ensures |more| == k && forall a :: a in more ==> a == Resume(i)
    ensures var s, s1 := Exec(script, n, run), Exec(script, n, run + more);
      |s1.readers| == n && s1.published == |script| && s1.readers[i] == ResumeTimes(script, s.readers[i], k)
  {
    if k == 0 {
      more := [];
      assert run + more == run;
    } else {
      var front := CanResume(script, n, run, i, k - 1);
      more := front + [Resume(i)];
      OneMore(script, n, run + front, Resume(i));
      assert run + more == run + front + [Resume(i)];
    }
  }

  /** Publishing never closes a subscription. */
  lemma {:induction false} PublishesClose(script: seq<Event>, n: nat, run: seq<Action>, more: seq<Action>, i: nat)
    requires i < n && (forall a :: a in more ==> a == Publish)
    ensures |Exec(script, n, run).readers| == |Exec(script, n, run + more).readers| == n
    ensures Exec(script, n, run).readers[i].mode != Closed(true) ==> Exec(script, n, run + more).readers[i].mode != Closed(true)
  {
    ReadersStay(script, n, run);
    if more == [] {
      assert run + more == run;
    } else {
      var front := more[..|more| - 1];
      assert more[|more| - 1] in more && forall a :: a in front ==> a in more;
      PublishesClose(script, n, run, front, i);
      OneMore(script, n, run + front, Publish);
      assert run + more == run + front + [Publish];
    }
  }

  /** Whatever publisher and subscribers have done, a subscriber that has not timed out
      can still get the whole stream and close. */
  lemma EveryoneCanBeServed(script: seq<Event>, n: nat, run: seq<Action>, i: nat) returns (more: seq<Action>)
    requires WellFormed(script) && i < n
    ensures |Exec(script, n, run).readers| == |Exec(script, n, run + more).readers| == n
    ensures Exec(script, n, run).readers[i].mode != Closed(true) ==>
      Exec(script, n, run + more).readers[i].mode == Closed(false) && Exec(script, n, run + more).readers[i].got == script
  {
    hide Next, Exec, Resumed, WellFormed;
    var a := CanPublish(script, n, run);
    PublishesClose(script, n, run, a, i);
    RunKeeps(script, n, run + a);
    var r := Exec(script, n, run + a).readers[i];
    var k := if Left(script, r) >= 0 then Left(script, r) else 0;
    var b := CanResume(script, n, run + a, i, k);
    more := a + b;
    assert run + more == run + a + b;
    if r.mode != Closed(true) { NobodyIsLeftWaiting(script, r, k); }
  }

  /** A subscription that has closed stays as it is. */
  lemma {:induction false} ClosedForGood(script: seq<Event>, n: nat, run: seq<Action>, more: seq<Action>, i: nat)
    requires i < n
    ensures |Exec(script, n, run).readers| == |Exec(script, n, run + more).readers| == n
    ensures Exec(script, n, run).readers[i].mode.Closed? ==> Exec(script, n, run + more).readers[i] == Exec(script, n, run).readers[i]
  {
    ReadersStay(script, n, run);
    ReadersStay(script, n, run + more);
    if more == [] {
      assert run + more == run;
    } else {
      var front := more[..|more| - 1];
      ClosedForGood(script, n, run, front, i);
      OneMore(script, n, run + front, more[|more| - 1]);
      assert run + more == run + front + [more[|more| - 1]];
    }
  }

  /** A subscriber that waits goes on only when an event was published or its time is up. */
  lemma {:induction false} SleepsUntilPublished(script: seq<Event>, n: nat, run: seq<Action>, more: seq<Action>, i: nat)
    requires i < n && forall a :: a in more ==> a != Publish && a != Expire(i)
    ensures |Exec(script, n, run).readers| == |Exec(script, n, run + more).readers| == n
    ensures Exec(script, n, run).readers[i].mode == Waiting(false) ==>
      Exec(script, n, run + more).readers[i] == Exec(script, n, run).readers[i]
  {
    ReadersStay(script, n, run);
    ReadersStay(script, n, run + more);
    if more == [] {
      assert run + more == run;
    } else {
      var front := more[..|more| - 1];
      assert more[|more| - 1] in more && forall a :: a in front ==> a in more;
      SleepsUntilPublished(script, n, run, front, i);
      OneMore(script, n, run + front, more[|more| - 1]);
      assert run + more == run + front + [more[|more| - 1]];
    }
  }

  /** A subscriber that has had everything there is goes to sleep, and looks again only
      when something was published. */
  lemma SleepsWithNothingNew(script: seq<Event>, n: nat, run: seq<Action>, more: seq<Action>, i: nat)
    requires i < n && |Exec(script, n, run).readers| == n && forall a :: a in more ==> a != Publish && a != Expire(i)
    requires var s := Exec(script, n, run); s.readers[i].mode.Scanning? && s.readers[i].cursor >= s.published
    ensures var s1 := Exec(script, n, run + [Resume(i)] + more);
      |s1.readers| == n && s1.readers[i] == Exec(script, n, run).readers[i].(mode := Waiting(false))
  {
    OneMore(script, n, run, Resume(i));
    SleepsUntilPublished(script, n, run + [Resume(i)], more, i);
  }

  /** When its time is up a subscriber keeps what it has, and gets no more. */
  lemma ExpiryCloses(script: seq<Event>, n: nat, run: seq<Action>, i: nat)
    requires i < n
    ensures |Exec(script, n, run).readers| == |Exec(script, n, run + [Expire(i)]).readers| == n
    ensures var r, r1 := Exec(script, n, run).readers[i], Exec(script, n, run + [Expire(i)]).readers[i];
      r1.mode.Closed? && r1.got == r.got && (r.mode.Closed? || r1.mode == Closed(true))
  {
    ReadersStay(script, n, run);
    OneMore(script, n, run, Expire(i));
  }

  lemma CollectedFrom(script: seq<Event>, owed: Reply, n: nat, run: seq<Action>, i: nat)
    requires WellFormed(script) && CollectFrom(EMPTY, script) == owed && i < n
    ensures |Exec(script, n, run).readers| == n
    ensures var r := Exec(script, n, run).readers[i];
      CollectFrom(EMPTY, r.got) == if r.mode == Closed(false) then owed else GatewayTimeout
  {
    hide CollectFrom;
    RunKeeps(script, n, run);
    var r := Exec(script, n, run).readers[i];
    if r.mode == Closed(false) { assert r.got == script; } else { CutOffIsTimeout(EMPTY, r.got); }
  }

  /** End to end: whatever the run's outcome and however publisher and
      subscribers interleave, a subscription that closed by itself collects to
      exactly what the run owes, and one that expired to a gateway timeout. */
  lemma EndToEnd(o: Outcome, n: nat, run: seq<Action>, i: nat)
    requires i < n
    ensures |Exec(EventsOf(o), n, run).readers| == n
    ensures var r := Exec(EventsOf(o), n, run).readers[i];
      CollectFrom(EMPTY, r.got) == if r.mode == Closed(false) then Owed(o) else GatewayTimeout
  {
    hide CollectFrom, EventsOf, Owed;
    StoriesAreWellFormed(o);
    CollectsWhatWasHandled(o);
    CollectedFrom(EventsOf(o), Owed(o), n, run, i);
  }
}
