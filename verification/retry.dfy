/** The bounded retry and the model call built on it, beside any number of other
    callers of the same breaker (backend/libs/resilience/policy.py:48-70, 107-146;
    backend/agent/app/providers/resilient.py:163-229). */
module Retry {
  import opened Options
  import opened Resilience

  datatype Policy = Policy(attempts: nat, baseDelay: real, maxDelay: real, deadline: real)

  datatype End = Answered | Permanent | Transient(retryAfter: Option<real>) | Unknown

  /** One attempt: how it ended, how long it took, how much of that the limiter
      held it before the call went out, the jitter drawn for it, and how late the
      sleep after it woke. */
  datatype Try = Try(end: End, lasts: real, hold: real, jitter: real, late: real)

  type World = nat -> Try

  function Pow2(n: nat): real { if n == 0 then 1.0 else 2.0 * Pow2(n - 1) }

  function Ceiling(p: Policy, attempt: nat): real {
    var grown := p.baseDelay * Pow2(attempt);
    if p.maxDelay <= grown then p.maxDelay else grown
  }

  /** Full jitter: anything up to the ceiling. */
  ghost predicate Fair(p: Policy, w: World) {
    forall k :: 0.0 <= w(k).hold <= w(k).lasts && w(k).late >= 0.0 && 0.0 <= w(k).jitter <= Ceiling(p, k)
  }

  predicate Retryable(e: End) { e.Transient? || e.Unknown? }

  /** The provider's own wait wins over the backoff. */
  function Delay(t: Try): real {
    if t.end.Transient? && t.end.retryAfter.Some? then t.end.retryAfter.value else t.jitter
  }

  datatype Result = Returned | Refused | CircuitOpen(reopensIn: real) | GaveUp(transient: bool)

  /** The test that allows one more attempt. */
  predicate InTime(p: Policy, elapsed: real, delay: real) { elapsed + delay < p.deadline }

  /** A sleep for a negative time returns at once. */
  function Slept(delay: real): real { if delay >= 0.0 then delay else 0.0 }

  /** Attempt i starts at `now`, the one before having started at `before`. */
  predicate Follows(p: Policy, w: World, started: real, before: real, i: nat, now: real)
    requires i > 0
  {
    var t := w(i - 1);
    InTime(p, before + t.lasts - started, Delay(t)) && now == before + t.lasts + Slept(Delay(t)) + t.late
  }

  /** The starts of consecutive attempts: each but the last failed in a way worth
      retrying, in time for one more, and each waited its delay. */
  ghost predicate Chain(p: Policy, w: World, started: real, starts: seq<real>) {
    && (starts != [] ==> starts[0] == started)
    && (forall i :: 0 <= i < |starts| - 1 ==> Retryable(w(i).end))
    && (forall i :: 0 < i < |starts| ==> Follows(p, w, started, starts[i - 1], i, starts[i]))
  }

  /** What a call looks like: when its attempts started and how it ended. */
  ghost predicate Honest(p: Policy, w: World, started: real, starts: seq<real>, r: Result) {
    && |starts| <= p.attempts
    && Chain(p, w, started, starts)
    && (match r
        case Returned => starts != [] && w(|starts| - 1).end.Answered?
        case Refused => starts != [] && w(|starts| - 1).end.Permanent?
        case CircuitOpen(_) => starts == [] || Retryable(w(|starts| - 1).end)
        case GaveUp(transient) =>
          if starts == [] then p.attempts == 0 && transient
          else SpentOn(p, w, started, starts) && transient == w(|starts| - 1).end.Transient?)
  }

  /** The last attempt failed, and no other is allowed: none is left, or the next
      would be out of time. */
  ghost predicate SpentOn(p: Policy, w: World, started: real, starts: seq<real>)
    requires starts != []
  {
    var t := w(|starts| - 1);
    && Retryable(t.end)
    && (|starts| == p.attempts || !InTime(p, starts[|starts| - 1] + t.lasts - started, Delay(t)))
  }

  /** What other callers do to the breaker while an attempt is held by the limiter,
      while its call is out, and during the sleep after it. */
  datatype Beside = Beside(held: seq<Event>, called: seq<Event>, slept: seq<Event>)

  type Others = nat -> Beside

  const NOBODY := Beside([], [], [])

  /** A refusal is an answer. */
  function Verdict(t: Try, start: real): Event {
    if Retryable(t.end) then Failure(start + t.lasts) else Success
  }

  /** One attempt and what comes between its steps: checked, called, its end told. */
  function Attempt(t: Try, b: Beside, start: real): seq<Event> {
    [Check(start)] + b.held + [Call(start + t.hold)] + b.called + [Verdict(t, start)]
  }

  /** What the others did before attempt n, since the one before it. */
  function Asleep(others: Others, n: nat): seq<Event> { if n == 0 then [] else others(n - 1).slept }

  /** What the breaker lives through from the first attempt to the end of the last. */
  function Told(w: World, others: Others, starts: seq<real>): seq<Event> {
    if starts == [] then []
    else
      var n := |starts| - 1;
      Told(w, others, starts[..n]) + Asleep(others, n) + Attempt(w(n), others(n), starts[n])
  }

  /** The breaker's history up to the check that opens attempt n. */
  function Before(history: seq<Event>, w: World, others: Others, starts: seq<real>, n: nat): seq<Event>
    requires n <= |starts|
  {
    history + Told(w, others, starts[..n]) + Asleep(others, n)
  }

  /** Every attempt passed its check. */
  ghost predicate LetThrough(k: Settings, history: seq<Event>, w: World, others: Others, starts: seq<real>)
    requires k.threshold >= 1
  {
    forall n: nat :: n < |starts| ==> Lets(k, Replay(k, CLOSED, Before(history, w, others, starts, n)), starts[n])
  }

  predicate TurnedAway(k: Settings, c: Circuit, now: real, reopensIn: real) {
    !Lets(k, c, now) && reopensIn == ReopensIn(k, c, now) > 0.0
  }

  /** The breaker's history after the call: the attempts, each let through, among what
      the others did, and at last the check that turned it away, if one did. */
  ghost predicate Lived(k: Settings, history: seq<Event>, w: World, others: Others, starts: seq<real>, r: Result,
                        turned: real, after: seq<Event>)
    requires k.threshold >= 1
  {
    var told := history + Told(w, others, starts);
    && LetThrough(k, history, w, others, starts)
    && after == (if r.CircuitOpen? then told + Asleep(others, |starts|) + [Check(turned)] else told)
    && (r.CircuitOpen? ==> TurnedAway(k, Replay(k, CLOSED, told + Asleep(others, |starts|)), turned, r.reopensIn))
  }

  lemma ChainExtends(p: Policy, w: World, started: real, starts: seq<real>, now: real)
    requires Chain(p, w, started, starts)
    requires starts == [] ==> now == started
    requires starts != [] ==> Retryable(w(|starts| - 1).end) && Follows(p, w, started, starts[|starts| - 1], |starts|, now)
    ensures Chain(p, w, started, starts + [now])
  {
  }

  /** A breaker and its whole history. */
  ghost predicate Known(breaker: CircuitBreaker, history: seq<Event>)
    reads breaker
  {
    breaker.settings.threshold >= 1 && breaker.View() == Replay(breaker.settings, CLOSED, history)
  }

  lemma OneMore(k: Settings, history: seq<Event>, e: Event)
    requires k.threshold >= 1
    ensures Replay(k, CLOSED, history + [e]) == Apply(k, Replay(k, CLOSED, history), e)
  {
    assert (history + [e])[..|history|] == history;
  }

  /** raise_if_open: how long the breaker stays open. */
  method Admit(breaker: CircuitBreaker, now: real, ghost history: seq<Event>) returns (blocked: Option<real>)
    requires Known(breaker, history)
    modifies breaker
    ensures Known(breaker, history + [Check(now)])
    ensures blocked == None <==> Lets(breaker.settings, Replay(breaker.settings, CLOSED, history), now)
    ensures blocked.Some? ==> TurnedAway(breaker.settings, Replay(breaker.settings, CLOSED, history), now, blocked.value)
  {
    OneMore(breaker.settings, history, Check(now));
    hide Replay;
    var open := breaker.IsOpen(now);
    blocked := if open then Some(breaker.settings.resetAfter - (now - breaker.openedAt.value)) else None;
  }

  /** What the breaker is told of an attempt. */
  method Report(breaker: CircuitBreaker, t: Try, start: real, ghost history: seq<Event>)
    requires Known(breaker, history)
    modifies breaker
    ensures Known(breaker, history + [Verdict(t, start)])
  {
    OneMore(breaker.settings, history, Verdict(t, start));
    hide Replay;
    if Retryable(t.end) { breaker.RecordFailure(start + t.lasts); } else { breaker.RecordSuccess(); }
  }

  /** While this caller waits, the others' steps happen to the breaker they share. */
  method Wait(breaker: CircuitBreaker, events: seq<Event>, ghost history: seq<Event>)
    requires Known(breaker, history)
    modifies breaker
    ensures Known(breaker, history + events)
  {
    hide Replay;
    assert history + events[..0] == history;
    for i := 0 to |events|
      invariant Known(breaker, history + events[..i])
    {
      OneMore(breaker.settings, history + events[..i], events[i]);
      assert history + events[..i + 1] == history + events[..i] + [events[i]];
      match events[i] {
        case Check(now) => var _ := breaker.IsOpen(now);
        case Call(_) =>
        case Success => breaker.RecordSuccess();
        case Failure(now) => breaker.RecordFailure(now);
      }
    }
    assert events[..|events|] == events;
  }

  lemma ToldUnfolds(w: World, others: Others, starts: seq<real>, start: real)
    ensures var n := |starts|;
      Told(w, others, starts + [start]) == Told(w, others, starts) + Asleep(others, n) + Attempt(w(n), others(n), start)
  {
    hide Attempt, Asleep;
    assert (starts + [start])[..|starts|] == starts;
  }

  lemma StepByStep(before: seq<Event>, b: Beside, x: Event, y: Event, z: Event)
    ensures before + ([x] + b.held + [y] + b.called + [z]) == before + [x] + b.held + [y] + b.called + [z]
  {
  }

  lemma ToldOne(w: World, others: Others, starts: seq<real>, start: real, history: seq<Event>)
    ensures var n := |starts|;
      history + Told(w, others, starts + [start])
        == history + Told(w, others, starts) + Asleep(others, n) + [Check(start)] + others(n).held
           + [Call(start + w(n).hold)] + others(n).called + [Verdict(w(n), start)]
  {
    hide Told, Verdict, Asleep;
    var n := |starts|;
    ToldUnfolds(w, others, starts, start);
    var before := history + Told(w, others, starts) + Asleep(others, n);
    Joined(history, Told(w, others, starts), Asleep(others, n), Attempt(w(n), others(n), start));
    StepByStep(before, others(n), Check(start), Call(start + w(n).hold), Verdict(w(n), start));
  }

  lemma Joined(a: seq<Event>, b: seq<Event>, c: seq<Event>, d: seq<Event>)
    ensures a + (b + c + d) == a + b + c + d
  {
  }

  lemma OneMoreLetThrough(k: Settings, history: seq<Event>, w: World, others: Others, starts: seq<real>, now: real)
    requires k.threshold >= 1 && LetThrough(k, history, w, others, starts)
    requires Lets(k, Replay(k, CLOSED, history + Told(w, others, starts) + Asleep(others, |starts|)), now)
    ensures LetThrough(k, history, w, others, starts + [now])
  {
    hide Replay, Told, Asleep, Lets;
    var more := starts + [now];
    forall n: nat | n < |more| ensures Lets(k, Replay(k, CLOSED, Before(history, w, others, more, n)), more[n]) {
      assert more[..n] == starts[..n];
      assert n == |starts| ==> starts[..n] == starts;
      if n < |starts| { assert Before(history, w, others, more, n) == Before(history, w, others, starts, n); }
    }
  }

  /** call_with_retry, with a breaker or without, after `history`. At each await the
      others may do anything to the breaker. */
  method CallWithRetry(p: Policy, w: World, breaker: CircuitBreaker?, others: Others, started: real, ghost history: seq<Event>)
    returns (r: Result, starts: seq<real>, ghost turned: real, ghost after: seq<Event>)
    requires breaker != null ==> Known(breaker, history)
    modifies breaker
    ensures Honest(p, w, started, starts, r)
    ensures breaker == null ==> !r.CircuitOpen?
    ensures breaker != null ==> Lived(breaker.settings, history, w, others, starts, r, turned, after)
    ensures breaker != null ==> breaker.View() == Replay(breaker.settings, CLOSED, after)
    ensures r.CircuitOpen? ==> if starts == [] then turned == started else Follows(p, w, started, starts[|starts| - 1], |starts|, turned)
  {
    hide Chain, Replay, LetThrough, Told, Asleep, Verdict;
    starts, after, turned := [], history, started;
    EmptyCalls(p, w, others, started, history);
    var now, transient := started, true;
    for attempt := 0 to p.attempts
      invariant |starts| == attempt && Chain(p, w, started, starts)
      invariant attempt == 0 ==> now == started
      invariant attempt > 0 ==> Retryable(w(attempt - 1).end) && Follows(p, w, started, starts[attempt - 1], attempt, now)
      invariant transient <==> attempt == 0 || w(attempt - 1).end.Transient?
      invariant after == history + Told(w, others, starts) + Asleep(others, attempt)
      invariant breaker != null ==> Known(breaker, after) && LetThrough(breaker.settings, history, w, others, starts)
      invariant attempt == p.attempts ==> p.attempts == 0
    {
      if breaker != null {
        var blocked := Admit(breaker, now, after);
        if blocked.Some? {
          turned, after := now, after + [Check(now)];
          r := CircuitOpen(blocked.value);
          return;
        }
        OneMoreLetThrough(breaker.settings, history, w, others, starts, now);
      }
      ChainExtends(p, w, started, starts, now);
      ToldOne(w, others, starts, now, history);
      starts := starts + [now];
      var t, b := w(attempt), others(attempt);
      ghost var held := after + [Check(now)] + b.held;
      ghost var called := held + [Call(now + t.hold)] + b.called;
      if breaker != null {
        Wait(breaker, b.held, after + [Check(now)]);
        CallIsNothing(breaker, held, now + t.hold);
        Wait(breaker, b.called, held + [Call(now + t.hold)]);
        Report(breaker, t, now, called);
      }
      after := called + [Verdict(t, now)];
      if !Retryable(t.end) {
        r := if t.end.Answered? then Returned else Refused;
        return;
      }
      transient := t.end.Transient?;
      var ended, delay := now + t.lasts, Delay(t);
      if attempt == p.attempts - 1 || !InTime(p, ended - started, delay) {
        r := GaveUp(transient);
        return;
      }
      if breaker != null { Wait(breaker, b.slept, after); }
      after := after + b.slept;
      SleepIs(others, attempt + 1);
      now := ended + Slept(delay) + t.late;
    }
    NoneAsleep(w, others, history, after);
    r := GaveUp(transient);
  }

  lemma CallIsNothing(breaker: CircuitBreaker, history: seq<Event>, now: real)
    requires Known(breaker, history)
    ensures Known(breaker, history + [Call(now)])
  {
    OneMore(breaker.settings, history, Call(now));
  }

  lemma SleepIs(others: Others, n: nat)
    ensures n > 0 ==> Asleep(others, n) == others(n - 1).slept
  {
  }

  lemma NoneAsleep(w: World, others: Others, history: seq<Event>, after: seq<Event>)
    requires after == history + Told(w, others, []) + Asleep(others, 0)
    ensures after == history + Told(w, others, [])
  {
  }

  lemma EmptyCalls(p: Policy, w: World, others: Others, started: real, history: seq<Event>)
    ensures Chain(p, w, started, [])
    ensures history == history + Told(w, others, []) + Asleep(others, 0)
    ensures forall k: Settings :: k.threshold >= 1 ==> LetThrough(k, history, w, others, [])
  {
  }

  // ---------------------------------------------------- what this makes of calls

  /** In the history after it, the check and the call of attempt n: the check let it
      through, and the two are as far apart as the others' steps while it was held.
      So `CheckedAfterWaits` is about every call that goes out, whoever else calls. */
  lemma CallsWereChecked(k: Settings, history: seq<Event>, w: World, others: Others, starts: seq<real>, r: Result,
                         turned: real, after: seq<Event>, n: nat) returns (c: nat, j: nat)
    requires k.threshold >= 1 && Lived(k, history, w, others, starts, r, turned, after) && n < |starts|
    ensures |history| <= c == |Before(history, w, others, starts, n)| && j == c + 1 + |others(n).held| < |after|
    ensures after[c] == Check(starts[n]) && after[j] == Call(starts[n] + w(n).hold) && Admits(k, after, c)
  {
    hide Told, Replay, Verdict, Asleep;
    var before := Before(history, w, others, starts, n);
    c, j := |before|, |before| + 1 + |others(n).held|;
    ToldPrefix(w, others, starts, n + 1);
    assert starts[..n + 1] == starts[..n] + [starts[n]];
    ToldOne(w, others, starts[..n], starts[n], history);
    var upTo := history + Told(w, others, starts[..n + 1]);
    assert upTo <= after;
    var calls := [Call(starts[n] + w(n).hold)] + others(n).called + [Verdict(w(n), starts[n])];
    assert upTo == before + [Check(starts[n])] + others(n).held + calls;
    assert upTo[c] == Check(starts[n]) && upTo[j] == calls[0];
    assert after[..c] == before;
  }

  lemma {:induction false} ToldPrefix(w: World, others: Others, starts: seq<real>, n: nat)
    requires n <= |starts|
    ensures Told(w, others, starts[..n]) <= Told(w, others, starts)
  {
    hide Attempt, Asleep;
    if n == |starts| {
      assert starts[..n] == starts;
    } else {
      ToldPrefix(w, others, starts[..|starts| - 1], n);
      assert starts[..|starts| - 1][..n] == starts[..n];
    }
  }

  /** A provider that this caller calls waits out the reset after any failure that was
      told before its check, its own or another's. */
  lemma RetriesWaitOut(k: Settings, history: seq<Event>, w: World, others: Others, starts: seq<real>, r: Result,
                       turned: real, after: seq<Event>, n: nat, i: nat)
    requires k.threshold >= 1 && k.resetAfter >= 0.0 && Timed(after)
    requires Lived(k, history, w, others, starts, r, turned, after) && n < |starts|
    requires i < |Before(history, w, others, starts, n)| <= |after| && Opens(k, after, i)
    requires forall m :: i < m < |Before(history, w, others, starts, n)| + 1 + |others(n).held| && m < |after| ==> !after[m].Success?
    ensures starts[n] + w(n).hold - TimeOf(after[i]) >= k.resetAfter
  {
    hide Told, Replay, Opens, Admits, Lived, Timed;
    var c, j := CallsWereChecked(k, history, w, others, starts, r, turned, after, n);
    CheckedAfterWaits(k, after, i, c, j);
  }

  // ------------------------------------------------------------- with nobody else

  ghost predicate UpTo(events: seq<Event>, now: real) {
    forall i :: 0 <= i < |events| && !events[i].Success? ==> TimeOf(events[i]) <= now
  }

  /** A history of calls that came one after another, up to `now`. */
  ghost predicate InTurn(k: Settings, history: seq<Event>, now: real)
    requires k.threshold >= 1
  {
    Sequential(k, history) && Timed(history) && UpTo(history, now)
  }

  lemma OneMoreInTurn(k: Settings, history: seq<Event>, e: Event, now: real)
    requires k.threshold >= 1 && InTurn(k, history, now)
    requires e.Call? ==> history != [] && Admits(k, history, |history| - 1)
    requires e.Success? || TimeOf(e) >= now
    ensures InTurn(k, history + [e], if e.Success? then now else TimeOf(e))
  {
    var after := history + [e];
    hide Replay;
    forall j | 0 < j < |after| && after[j].Call? ensures Admits(k, after, j - 1) {
      assert after[..j - 1] == history[..j - 1];
    }
  }

  lemma AttemptInTurn(k: Settings, history: seq<Event>, t: Try, start: real)
    requires k.threshold >= 1 && InTurn(k, history, start) && Lets(k, Replay(k, CLOSED, history), start)
    requires 0.0 <= t.hold <= t.lasts
    ensures InTurn(k, history + Attempt(t, NOBODY, start), start + t.lasts)
  {
    hide InTurn, Replay, Lets;
    OneMoreInTurn(k, history, Check(start), start);
    var checked := history + [Check(start)];
    assert checked[..|history|] == history;
    OneMoreInTurn(k, checked, Call(start + t.hold), start);
    var called := checked + [Call(start + t.hold)];
    OneMoreInTurn(k, called, Verdict(t, start), start + t.hold);
    if !Retryable(t.end) { LaterInTurn(k, called + [Verdict(t, start)], start + t.hold, start + t.lasts); }
    assert history + Attempt(t, NOBODY, start) == called + [Verdict(t, start)];
  }

  lemma LaterInTurn(k: Settings, history: seq<Event>, now: real, later: real)
    requires k.threshold >= 1 && InTurn(k, history, now) && now <= later
    ensures InTurn(k, history, later)
  {
    hide Sequential, Timed;
  }

  lemma FollowsLater(p: Policy, w: World, started: real, before: real, i: nat, now: real)
    requires Fair(p, w) && i > 0 && Follows(p, w, started, before, i, now)
    ensures before + w(i - 1).lasts <= now
  {
    assert w(i - 1).late >= 0.0;
  }

  lemma FrontIsLetThrough(k: Settings, history: seq<Event>, w: World, others: Others, starts: seq<real>, n: nat)
    requires k.threshold >= 1 && LetThrough(k, history, w, others, starts) && n <= |starts|
    ensures LetThrough(k, history, w, others, starts[..n])
  {
    hide Replay, Lets, Told, Asleep;
    var front := starts[..n];
    forall m: nat | m < n ensures Lets(k, Replay(k, CLOSED, Before(history, w, others, front, m)), front[m]) {
      assert front[..m] == starts[..m];
      assert Before(history, w, others, front, m) == Before(history, w, others, starts, m);
    }
  }

  /** Nobody sleeps beside us: attempt n comes right after the one before. */
  lemma NextAttempt(w: World, others: Others, history: seq<Event>, starts: seq<real>)
    requires starts != [] && forall n: nat :: others(n) == NOBODY
    ensures var n := |starts| - 1; var before := Before(history, w, others, starts, n);
      && before == history + Told(w, others, starts[..n])
      && history + Told(w, others, starts) == before + Attempt(w(n), NOBODY, starts[n])
  {
    var n := |starts| - 1;
    assert Told(w, others, starts) == Told(w, others, starts[..n]) + Asleep(others, n) + Attempt(w(n), others(n), starts[n]);
    assert others(n) == NOBODY && Asleep(others, n) == [];
    hide Attempt, Told, Asleep;
    Joined(history, Told(w, others, starts[..n]), Asleep(others, n), Attempt(w(n), others(n), starts[n]));
    NothingMore(history + Told(w, others, starts[..n]), Asleep(others, n));
  }

  lemma NothingMore(a: seq<Event>, b: seq<Event>)
    requires b == []
    ensures a + b == a
  {
  }

  lemma {:induction false} ToldInTurn(p: Policy, w: World, others: Others, started: real, k: Settings, history: seq<Event>, starts: seq<real>)
    requires k.threshold >= 1 && Fair(p, w) && (forall n: nat :: others(n) == NOBODY) && starts != []
    requires InTurn(k, history, started) && Chain(p, w, started, starts) && LetThrough(k, history, w, others, starts)
    ensures var n := |starts| - 1; InTurn(k, history + Told(w, others, starts), starts[n] + w(n).lasts)
  {
    var n := |starts| - 1;
    var before := Before(history, w, others, starts, n);
    hide InTurn, Replay, Attempt, Lets, Told, LetThrough, Before, Chain, Follows;
    LastAttempt(p, w, others, started, k, history, starts);
    NextAttempt(w, others, history, starts);
    FrontIsLetThrough(k, history, w, others, starts, n);
    if n == 0 {
      NothingTold(w, others, history);
      assert starts[..0] == [];
    } else {
      ToldInTurn(p, w, others, started, k, history, starts[..n]);
      FollowsLater(p, w, started, starts[n - 1], n, starts[n]);
      LaterInTurn(k, before, starts[n - 1] + w(n - 1).lasts, starts[n]);
    }
    AttemptInTurn(k, before, w(n), starts[n]);
  }

  lemma LastAttempt(p: Policy, w: World, others: Others, started: real, k: Settings, history: seq<Event>, starts: seq<real>)
    requires k.threshold >= 1 && Fair(p, w) && starts != []
    requires Chain(p, w, started, starts) && LetThrough(k, history, w, others, starts)
    ensures var n := |starts| - 1;
      && Lets(k, Replay(k, CLOSED, Before(history, w, others, starts, n)), starts[n])
      && Chain(p, w, started, starts[..n]) && starts[0] == started
      && (n > 0 ==> Follows(p, w, started, starts[n - 1], n, starts[n]))
      && 0.0 <= w(n).hold <= w(n).lasts
  {
    hide Replay, Lets, Told, Asleep, Follows;
  }

  /** With nobody else on the breaker the history stays one of calls in turn, so that
      `NoCallsWhileOpen` holds of all of it. */
  lemma AloneStaysInTurn(p: Policy, w: World, others: Others, started: real, k: Settings, history: seq<Event>, starts: seq<real>,
                         r: Result, turned: real, after: seq<Event>)
    requires k.threshold >= 1 && Fair(p, w) && forall n: nat :: others(n) == NOBODY
    requires InTurn(k, history, started) && Honest(p, w, started, starts, r)
    requires Lived(k, history, w, others, starts, r, turned, after)
    requires r.CircuitOpen? ==> if starts == [] then turned == started else Follows(p, w, started, starts[|starts| - 1], |starts|, turned)
    ensures Sequential(k, after) && Timed(after)
  {
    hide Replay, Chain, Told, Sequential, Timed, Attempt;
    var told := history + Told(w, others, starts);
    var ended := if starts == [] then started else starts[|starts| - 1] + w(|starts| - 1).lasts;
    if starts == [] { NothingTold(w, others, history); } else { ToldInTurn(p, w, others, started, k, history, starts); }
    if r.CircuitOpen? {
      assert told + Asleep(others, |starts|) == told;
      if starts != [] { FollowsLater(p, w, started, starts[|starts| - 1], |starts|, turned); }
      LaterInTurn(k, told, ended, turned);
      OneMoreInTurn(k, told, Check(turned), turned);
    }
  }

  lemma NothingTold(w: World, others: Others, history: seq<Event>)
    ensures history + Told(w, others, []) == history
  {
  }

  // ------------------------------------------------------------ the deadline

  function Over(delay: real): real { if delay >= 0.0 then 0.0 else -delay }

  /** The deadline binds every attempt after the first, but for how late the sleep
      before it woke and how far below zero the provider asked to wait. */
  lemma RetriesStartInTime(p: Policy, w: World, started: real, starts: seq<real>, r: Result, i: nat)
    requires Honest(p, w, started, starts, r) && 0 < i < |starts|
    ensures starts[i] < started + p.deadline + w(i - 1).late + Over(Delay(w(i - 1)))
  {
    assert Follows(p, w, started, starts[i - 1], i, starts[i]);
  }

  lemma {:induction false} PowersOfTwo(a: nat, b: nat)
    ensures Pow2(0) == 1.0 && Pow2(1) == 2.0 && Pow2(a + b) == Pow2(a) * Pow2(b)
  {
    if a > 0 {
      PowersOfTwo(a - 1, b);
      assert Pow2(a + b) == 2.0 * Pow2(a + b - 1) && a + b - 1 == a - 1 + b;
    }
  }

  /** What comes between two attempts: the wait that the provider asked for, and none
      when it asked for less than none; else anything up to the delay cap and up to
      the base delay doubled once an attempt. */
  lemma AttemptsWait(p: Policy, w: World, started: real, starts: seq<real>, r: Result, i: nat)
    requires Honest(p, w, started, starts, r) && Fair(p, w) && 0 < i < |starts|
    ensures var t := w(i - 1); var waited := starts[i] - starts[i - 1] - t.lasts - t.late;
      && (t.end.Unknown? || t.end.Transient?)
      && (match t.end
          case Transient(Some(asked)) => waited == (if asked < 0.0 then 0.0 else asked)
          case _ => waited == t.jitter && 0.0 <= waited <= p.maxDelay && waited <= p.baseDelay * Pow2(i - 1))
  {
    hide Pow2;
    assert Follows(p, w, started, starts[i - 1], i, starts[i]);
    assert 0.0 <= w(i - 1).jitter <= Ceiling(p, i - 1);
  }

  /** A call gives up on a failure worth retrying only with its attempts spent, or when
      the wait before the next would take it to the deadline. */
  lemma GivesUpLate(p: Policy, w: World, started: real, starts: seq<real>, transient: bool)
    requires Honest(p, w, started, starts, GaveUp(transient)) && starts != []
    ensures var t := w(|starts| - 1); var over := starts[|starts| - 1] + t.lasts;
      && (t.end.Transient? || t.end.Unknown?) && transient == t.end.Transient?
      && (|starts| == p.attempts
          || (match t.end
              case Transient(Some(asked)) => over + asked >= started + p.deadline
              case _ => over + t.jitter >= started + p.deadline))
  {
  }

  /** The chat model: primary under the breaker; the fallback exactly when there
      is one and the primary's circuit is open or it gave up on a transient
      failure. `first` is what became of the primary. */
  method Invoke(p: Policy, primary: World, fallback: Option<World>, breaker: CircuitBreaker, others: Others,
                started: real, resumed: real, ghost history: seq<Event>)
    returns (r: Result, usedFallback: bool, starts: seq<real>, more: seq<real>,
             ghost first: Result, ghost turned: real, ghost after: seq<Event>)
    requires Known(breaker, history)
    modifies breaker
    ensures Honest(p, primary, started, starts, first)
    ensures Lived(breaker.settings, history, primary, others, starts, first, turned, after)
    ensures breaker.View() == Replay(breaker.settings, CLOSED, after)
    ensures usedFallback <==> fallback.Some? && (first.CircuitOpen? || first == GaveUp(true))
    ensures usedFallback ==> Honest(p, fallback.value, resumed, more, r) && !r.CircuitOpen?
    ensures !usedFallback ==> r == first && more == []
  {
    hide Honest, Lived, Replay;
    usedFallback, more := false, [];
    r, starts, turned, after := CallWithRetry(p, primary, breaker, others, started, history);
    first := r;
    if r.CircuitOpen? || r == GaveUp(true) {
      if fallback == None { return; }
      usedFallback := true;
      ghost var t, h;
      r, more, t, h := CallWithRetry(p, fallback.value, null, others, resumed, []);
    }
  }

  /** The test keeps the next attempt inside the deadline exactly when the
      provider does not ask for a negative wait (or the deadline is no time at
      all): a negative wait buys an attempt that starts past the deadline. */
  lemma DeadlineHoldsIff(p: Policy, delay: real)
    ensures (forall elapsed :: elapsed >= 0.0 && InTime(p, elapsed, delay) ==> elapsed + Slept(delay) < p.deadline)
      <==> delay >= 0.0 || p.deadline <= delay
  {
    if delay < 0.0 && p.deadline > delay {
      var elapsed := if p.deadline >= 0.0 then p.deadline else 0.0;
      assert InTime(p, elapsed, delay);
    }
  }
}
