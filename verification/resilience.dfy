/** The circuit breaker, and every history of checks, calls and verdicts it may
    live through (backend/libs/resilience/policy.py:71-105). */
module Resilience {
  import opened Options

  datatype Circuit = Circuit(failures: nat, openedAt: Option<real>)

  datatype Settings = Settings(threshold: nat, resetAfter: real)

  const CLOSED := Circuit(0, None)

  /** One thing that happens to a breaker or behind it; calls that overlap
      interleave them. A call goes out after the check that let it through: it may
      wait for the rate limiter in between. */
  datatype Event = Check(at: real) | Call(at: real) | Success | Failure(at: real)

  /** is_open lets a probe through, and forgets the opening, once the reset is due. */
  function Checked(k: Settings, c: Circuit, now: real): Circuit
    requires k.threshold >= 1
  {
    if c.openedAt.Some? && now - c.openedAt.value >= k.resetAfter then Circuit(k.threshold - 1, None) else c
  }

  predicate Lets(k: Settings, c: Circuit, now: real) {
    c.openedAt == None || now - c.openedAt.value >= k.resetAfter
  }

  function Failed(k: Settings, c: Circuit, now: real): Circuit {
    if c.failures + 1 >= k.threshold then Circuit(c.failures + 1, Some(now)) else Circuit(c.failures + 1, c.openedAt)
  }

  function Apply(k: Settings, c: Circuit, e: Event): Circuit
    requires k.threshold >= 1
  {
    match e
    case Check(now) => Checked(k, c, now)
    case Call(_) => c
    case Success => CLOSED
    case Failure(now) => Failed(k, c, now)
  }

  function Replay(k: Settings, c: Circuit, events: seq<Event>): Circuit
    requires k.threshold >= 1
  {
    if events == [] then c else Apply(k, Replay(k, c, events[..|events| - 1]), events[|events| - 1])
  }

  class CircuitBreaker {
    const settings: Settings
    var failures: nat
    var openedAt: Option<real>

    function View(): Circuit
      reads this
    {
      Circuit(failures, openedAt)
    }

    constructor (threshold: nat, resetAfter: real)
      ensures View() == CLOSED && settings == Settings(threshold, resetAfter)
    {
      settings := Settings(threshold, resetAfter);
      failures, openedAt := 0, None;
    }

    method IsOpen(now: real) returns (open: bool)
      requires settings.threshold >= 1
      modifies this
      ensures View() == Checked(settings, old(View()), now)
      ensures open <==> old(openedAt).Some? && now - old(openedAt).value < settings.resetAfter
      ensures open ==> failures == old(failures) && openedAt == old(openedAt)
      ensures !open ==> openedAt == None && failures == if old(openedAt) == None then old(failures) else settings.threshold - 1
    {
      if openedAt == None { return false; }
      if now - openedAt.value >= settings.resetAfter {
        openedAt := None;
        failures := settings.threshold - 1;
        return false;
      }
      return true;
    }

    method RecordSuccess()
      modifies this
      ensures View() == CLOSED
    {
      failures, openedAt := 0, None;
    }

    method RecordFailure(now: real)
      modifies this
      ensures View() == Failed(settings, old(View()), now)
    {
      failures := failures + 1;
      if failures >= settings.threshold { openedAt := Some(now); }
    }
  }

  // --------------------------------------------------- every run of a breaker

  /** Unset exactly while the failures are under the threshold. */
  predicate Coherent(k: Settings, c: Circuit) { c.openedAt == None <==> c.failures < k.threshold }

  lemma {:induction false} BreakerStaysCoherent(k: Settings, events: seq<Event>)
    requires k.threshold >= 1
    ensures Coherent(k, Replay(k, CLOSED, events))
  {
    if events != [] { BreakerStaysCoherent(k, events[..|events| - 1]); }
  }

  function TimeOf(e: Event): real { match e case Check(t) => t case Call(t) => t case Failure(t) => t case Success => 0.0 }

  predicate Timed(events: seq<Event>) {
    forall i, j :: 0 <= i < j < |events| && !events[i].Success? && !events[j].Success? ==> TimeOf(events[i]) <= TimeOf(events[j])
  }

  /** Event i is a failure that opened the breaker, or kept it open. */
  ghost predicate Opens(k: Settings, events: seq<Event>, i: nat)
    requires k.threshold >= 1 && i < |events|
  {
    events[i].Failure? && Replay(k, CLOSED, events[..i + 1]).openedAt.Some?
  }

  /** Event j is a check that lets its caller through to the provider. */
  ghost predicate Admits(k: Settings, events: seq<Event>, j: nat)
    requires k.threshold >= 1 && j < |events|
  {
    events[j].Check? && Lets(k, Replay(k, CLOSED, events[..j]), events[j].at)
  }

  lemma {:induction false} OpenOrDue(k: Settings, events: seq<Event>, i: nat, j: nat)
    requires k.threshold >= 1 && k.resetAfter >= 0.0 && Timed(events) && i < j <= |events|
    requires Opens(k, events, i)
    requires forall m :: i < m < j ==> !events[m].Success?
    ensures var c := Replay(k, CLOSED, events[..j]);
      || (c.openedAt.Some? && c.openedAt.value >= events[i].at)
      || (TimeOf(events[j - 1]) >= events[i].at + k.resetAfter && events[j - 1] != Success)
  {
    BreakerStaysCoherent(k, events[..j]);
    assert events[..j][..j - 1] == events[..j - 1];
    if j == i + 1 {
      assert events[..i + 1] == events[..j];
    } else {
      OpenOrDue(k, events, i, j - 1);
      BreakerStaysCoherent(k, events[..j - 1]);
      assert TimeOf(events[j - 2]) <= TimeOf(events[j - 1]);
      assert TimeOf(events[i]) <= TimeOf(events[j - 1]);
    }
  }

  /** The failure at i left the breaker open, the call at j went out on the check
      at c, and nothing succeeded between failure and call. */
  ghost predicate CallsSince(k: Settings, events: seq<Event>, i: nat, c: nat, j: nat)
    requires k.threshold >= 1
  {
    && Timed(events) && i < j < |events| && c < j
    && Opens(k, events, i) && Admits(k, events, c) && events[j].Call?
    && forall m :: i < m < j ==> !events[m].Success?
  }

  /** A check made after the failure lets nobody through before the reset is due. */
  lemma CheckedAfterWaits(k: Settings, events: seq<Event>, i: nat, c: nat, j: nat)
    requires k.threshold >= 1 && k.resetAfter >= 0.0 && CallsSince(k, events, i, c, j) && i < c
    ensures TimeOf(events[j]) - TimeOf(events[i]) >= k.resetAfter
  {
    OpenOrDue(k, events, i, c);
    assert TimeOf(events[c - 1]) <= TimeOf(events[c]) <= TimeOf(events[j]);
  }

  /** Every call out of which history is at least the reset after the failure. */
  ghost predicate WaitsOut(k: Settings, checkedAfter: bool)
    requires k.threshold >= 1
  {
    forall events, i, c, j :: CallsSince(k, events, i, c, j) && (i < c <==> checkedAfter) ==>
      TimeOf(events[j]) - TimeOf(events[i]) >= k.resetAfter
  }

  /** A caller that checks, waits for the limiter while others fail, and calls. */
  function Overlap(n: nat): seq<Event> { [Check(0.0)] + seq(n, m => Failure(0.0)) + [Call(0.0)] }

  lemma {:induction false} OverlapFails(k: Settings, n: nat)
    requires k.threshold >= 1
    ensures var c := Replay(k, CLOSED, Overlap(n)[..n + 1]);
      c.failures == n && (n >= k.threshold ==> c.openedAt == Some(0.0))
  {
    var events := Overlap(n);
    if n == 0 {
      assert events[..1] == [Check(0.0)] && [Check(0.0)][..0] == [];
    } else {
      OverlapFails(k, n - 1);
      assert events[..n + 1][..n] == events[..n] == Overlap(n - 1)[..n];
    }
  }

  /** Exactly when a breaker holds calls back for the whole reset time: when they
      were checked after the failure, however they overlap. */
  lemma WaitsOutIff(k: Settings, checkedAfter: bool)
    requires k.threshold >= 1 && k.resetAfter > 0.0
    ensures WaitsOut(k, checkedAfter) <==> checkedAfter
  {
    hide Opens, Admits, Replay;
    if checkedAfter {
      forall events, i, c, j | CallsSince(k, events, i, c, j) && i < c
        ensures TimeOf(events[j]) - TimeOf(events[i]) >= k.resetAfter
      {
        CheckedAfterWaits(k, events, i, c, j);
      }
    } else {
      OverlapReaches(k);
      assert CallsSince(k, Overlap(k.threshold), k.threshold, 0, k.threshold + 1);
    }
  }

  lemma OverlapReaches(k: Settings)
    requires k.threshold >= 1
    ensures CallsSince(k, Overlap(k.threshold), k.threshold, 0, k.threshold + 1)
  {
    var n, events := k.threshold, Overlap(k.threshold);
    OverlapFails(k, n);
    assert events[..0] == [] && Replay(k, CLOSED, []) == CLOSED;
    hide Replay;
    assert events[n] == Failure(0.0) && events[n + 1] == Call(0.0);
    assert forall i :: 0 <= i < |events| ==> TimeOf(events[i]) == 0.0;
  }

  /** Nothing comes between a call and the check that let it through. */
  ghost predicate Sequential(k: Settings, events: seq<Event>)
    requires k.threshold >= 1
  {
    forall j :: 0 < j < |events| && events[j].Call? ==> Admits(k, events, j - 1)
  }

  /** One caller at a time: the provider is never called within `resetAfter` of a
      failure that left the breaker open, unless something succeeded since. */
  lemma NoCallsWhileOpen(k: Settings, events: seq<Event>, i: nat, j: nat)
    requires k.threshold >= 1 && k.resetAfter >= 0.0 && Timed(events) && Sequential(k, events)
    requires i < j < |events| && Opens(k, events, i) && events[j].Call?
    requires forall m :: i < m < j ==> !events[m].Success?
    ensures events[j].at - events[i].at >= k.resetAfter
  {
    hide Replay;
    CheckedAfterWaits(k, events, i, j - 1, j);
  }

  // -------------------------------------------------------- turned away, and let in

  /** What a caller who is turned away is told, in seconds. */
  function ReopensIn(k: Settings, c: Circuit, now: real): real
    requires c.openedAt.Some?
  {
    k.resetAfter - (now - c.openedAt.value)
  }

  /** A caller is turned away exactly while the breaker is open and less than the
      reset time has passed, and is told how much of it is left, which is some. */
  lemma TurnedAwayIff(k: Settings, c: Circuit, now: real)
    ensures !Lets(k, c, now) <==> c.openedAt.Some? && now < c.openedAt.value + k.resetAfter
    ensures !Lets(k, c, now) ==> ReopensIn(k, c, now) > 0.0 && now + ReopensIn(k, c, now) == c.openedAt.value + k.resetAfter
  {
  }

  lemma {:induction false} StillOrClosed(k: Settings, c: Circuit, events: seq<Event>)
    requires k.threshold >= 1 && c.openedAt.Some? && forall e :: e in events ==> !e.Failure?
    ensures var c1 := Replay(k, c, events); c1.openedAt == None || c1.openedAt == c.openedAt
  {
    if events != [] {
      forall e | e in events[..|events| - 1] ensures !e.Failure? { assert e in events; }
      StillOrClosed(k, c, events[..|events| - 1]);
      assert events[|events| - 1] in events;
    }
  }

  /** And the time told is enough: that many seconds later or more, with whatever
      checks, calls and successes in between but no failure, a check passes. */
  lemma ComeBackThen(k: Settings, c: Circuit, now: real, events: seq<Event>, later: real)
    requires k.threshold >= 1 && !Lets(k, c, now) && forall e :: e in events ==> !e.Failure?
    requires later >= now + ReopensIn(k, c, now)
    ensures Lets(k, Replay(k, c, events), later)
  {
    TurnedAwayIff(k, c, now);
    StillOrClosed(k, c, events);
  }

  /** The failure that makes `threshold` of them since the last success opens it, and
      none before does. */
  lemma {:induction false} OpensAtTheThreshold(k: Settings, times: seq<real>, n: nat)
    requires k.threshold >= 1 && n <= |times|
    ensures var c := Replay(k, CLOSED, seq(n, i requires 0 <= i < n => Failure(times[i])));
      c.failures == n && (c.openedAt == if n >= k.threshold then Some(times[n - 1]) else None)
  {
    var events := seq(n, i requires 0 <= i < n => Failure(times[i]));
    if n > 0 {
      OpensAtTheThreshold(k, times, n - 1);
      assert events[..n - 1] == seq(n - 1, i requires 0 <= i < n - 1 => Failure(times[i]));
    }
  }

  /** Half-open, the breaker is one failure away from opening again, at whatever time. */
  lemma ProbesAreAFailureAway(k: Settings, c: Circuit, probe: real, failed: real)
    requires k.threshold >= 1 && c.openedAt.Some? && Lets(k, c, probe)
    ensures Checked(k, c, probe) == Circuit(k.threshold - 1, None)
    ensures Failed(k, Checked(k, c, probe), failed) == Circuit(k.threshold, Some(failed))
  {
  }

  // --------------------------------------------------------------- half-open

  /** Until a verdict comes, everyone who checks after the reset is let through, not
      one request only. */
  lemma {:induction false} HalfOpenLetsAll(k: Settings, c: Circuit, probe: real, events: seq<Event>, now: real)
    requires k.threshold >= 1 && c.openedAt.Some? && Lets(k, c, probe)
    requires forall e :: e in events ==> e.Check? || e.Call?
    ensures Replay(k, Checked(k, c, probe), events) == Circuit(k.threshold - 1, None)
    ensures Lets(k, Replay(k, Checked(k, c, probe), events), now)
  {
    if events != [] {
      assert events[|events| - 1] in events;
      forall e | e in events[..|events| - 1] ensures e.Check? || e.Call? { assert e in events; }
      HalfOpenLetsAll(k, c, probe, events[..|events| - 1], now);
    }
  }

  /** Exactly when the probe goes alone: up to one reset time after it, and with no
      success, a check is turned away if and only if a failure was told before it. */
  lemma {:induction false} ProbeGoesAloneIff(k: Settings, c: Circuit, probe: real, events: seq<Event>, now: real)
    requires k.threshold >= 1 && c.openedAt.Some? && Lets(k, c, probe)
    requires forall e :: e in events ==> !e.Success? && probe <= TimeOf(e) < probe + k.resetAfter
    requires probe <= now < probe + k.resetAfter
    ensures !Lets(k, Replay(k, Checked(k, c, probe), events), now) <==> exists e :: e in events && e.Failure?
  {
    HalfOpenState(k, c, probe, events);
  }

  lemma {:induction false} HalfOpenState(k: Settings, c: Circuit, probe: real, events: seq<Event>)
    requires k.threshold >= 1 && c.openedAt.Some? && Lets(k, c, probe)
    requires forall e :: e in events ==> !e.Success? && probe <= TimeOf(e) < probe + k.resetAfter
    ensures var c1 := Replay(k, Checked(k, c, probe), events);
      if exists e :: e in events && e.Failure? then c1.failures >= k.threshold && c1.openedAt.Some? && c1.openedAt.value >= probe
      else c1 == Circuit(k.threshold - 1, None)
  {
    if events != [] {
      var front, last := events[..|events| - 1], events[|events| - 1];
      assert events == front + [last];
      assert forall e :: e in events <==> e in front || e == last;
      HalfOpenState(k, c, probe, front);
      if last.Failure? { assert last in events; } else { assert (exists e :: e in events && e.Failure?) == (exists e :: e in front && e.Failure?); }
    }
  }

  /** A probe that fails reopens the breaker at once. */
  lemma FailedProbeReopens(k: Settings, c: Circuit, probe: real, failed: real)
    requires k.threshold >= 1
    requires c.openedAt.Some? && Lets(k, c, probe)
    ensures Failed(k, Checked(k, c, probe), failed).openedAt == Some(failed)
  {
  }
}
