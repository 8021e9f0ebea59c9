/** What a minute can cost when the calls cost different amounts: a bound that no
    setting of the tokens ceiling improves on
    (backend/agent/app/providers/resilient.py:84-160). */
module EgressMinute {
  import opened EgressLimiter

  // ------------------------------------------------------- costs that vary

  predicate UpTo(ledger: seq<Spend>, hi: int) { forall i :: 0 <= i < |ledger| ==> ledger[i].tokens <= hi }

  lemma {:induction false} TotalUpTo(ledger: seq<Spend>, hi: int)
    requires UpTo(ledger, hi)
    ensures Total(ledger) <= |ledger| * hi
  {
    if ledger != [] { TotalUpTo(ledger[1..], hi); }
  }

  /** No call that is recorded costs more than `hi`. */
  predicate CostsUpTo(run: seq<Action>, hi: int) {
    forall i :: 0 <= i < |run| && run[i].Record? ==> run[i].tokens <= hi
  }

  ghost predicate SpentInv(l: Limits, s: State, hi: int)
    requires Sane(l)
  {
    && SpacedLedger(s.ledger, Interval(l)) && UpTo(s.ledger, hi) && s.estimate <= hi
    && forall i :: 0 <= i < |s.ledger| ==> s.ledger[i].at <= s.last
  }

  lemma SuffixStaysSpaced(l: Limits, s: State, now: real, hi: int)
    requires Sane(l) && SpentInv(l, s, hi)
    ensures SpentInv(l, s.(ledger := Trailing(s.ledger, now)), hi)
  {
    IntervalsFillTheWindow(l, 0);
    SpacedIsSorted(s.ledger, Interval(l));
    TrailingIsSuffix(s.ledger, now);
  }

  lemma AcquireKeepsSpent(l: Limits, s: State, c: Clock, hi: int)
    requires Sane(l) && Forward(c) && SpentInv(l, s, hi)
    ensures SpentInv(l, Acquired(l, s, c), hi)
  {
    hide Trailing;
    AcquireSpaces(l, s, c);
    IntervalsFillTheWindow(l, 0);
    var s0 := s.(ledger := Trailing(s.ledger, c.entry));
    SuffixStaysSpaced(l, s, c.entry, hi);
    SuffixStaysSpaced(l, s0, Budgeted(l, s, c), hi);
    hide Interval;
  }

  lemma {:induction false} RunKeepsSpent(l: Limits, run: seq<Action>, hi: int)
    requires Sane(l) && Ticks(run) && SEED <= hi && CostsUpTo(run, hi)
    ensures SpentInv(l, Exec(l, run).s, hi)
  {
    if run != [] {
      var front, a := run[..|run| - 1], run[|run| - 1];
      assert forall i :: 0 <= i < |front| ==> front[i] == run[i];
      RunKeepsSpent(l, front, hi);
      hide Acquired, Interval;
      if a.Acquire? { AcquireKeepsSpent(l, Exec(l, front).s, a.c, hi); }
    }
  }

  /** Whatever the calls cost and whatever the ceiling, a minute never holds more
      than the requests allowed in it, each at the largest cost. */
  lemma MinuteIsBounded(l: Limits, run: seq<Action>, hi: int, now: real)
    requires Sane(l) && Ticks(run) && SEED <= hi && CostsUpTo(run, hi)
    requires now >= Exec(l, run).s.last
    ensures Total(Trailing(Exec(l, run).s.ledger, now)) <= l.requests * hi
  {
    hide Exec, Interval, Trailing, Total;
    RunKeepsSpent(l, run, hi);
    var s := Exec(l, run).s;
    TrailingWithinRate(l, s.ledger, now);
    SuffixStaysSpaced(l, s, now, hi);
    TotalUpTo(Trailing(s.ledger, now), hi);
    Multiples(|Trailing(s.ledger, now)|, l.requests, hi);
  }

  // ------------------------------------ and the bound is met, for any ceiling

  /** n calls of cost `hi`, each begun the instant the last was recorded. */
  function Dear(l: Limits, s: State, hi: int, n: nat): State
    requires Sane(l)
  {
    if n == 0 then s
    else var before := Dear(l, s, hi, n - 1); Recorded(l, Acquired(l, before, Clock(before.last, 0.0, 0.0)), hi)
  }

  /** The minute is full: as many entries as requests are allowed in it. */
  ghost predicate Full(l: Limits, s: State, hi: int, n: nat)
    requires Sane(l)
  {
    var minute := Trailing(s.ledger, s.last);
    && SpacedLedger(s.ledger, Interval(l)) && |minute| == l.requests && SpacedLedger(minute, Interval(l))
    && s.ledger != [] && s.ledger[|s.ledger| - 1].at == s.last && minute[|minute| - 1].at == s.last
    && n <= l.requests && forall i :: l.requests - n <= i < l.requests ==> minute[i].tokens == hi
  }

  lemma DearRound(l: Limits, s: State, hi: int, n: nat)
    requires Sane(l) && l.requests < 240 && l.tokens > 0 && hi > 0 && n < l.requests && Full(l, s, hi, n)
    ensures Full(l, Recorded(l, Acquired(l, s, Clock(s.last, 0.0, 0.0)), hi), hi, n + 1)
  {
    hide Interval, Acquired, Recorded, Smoothed;
    var clock := Clock(s.last, 0.0, 0.0);
    var s1, minute := Recorded(l, Acquired(l, s, clock), hi), Trailing(s.ledger, s.last);
    RoundShape(l, hi, s, clock);
    DearStamp(l, s, hi, n);
    DearMinute(l, s, s1, hi, n);
  }

  lemma OldestIsApart(l: Limits, minute: seq<Spend>)
    requires Sane(l) && SpacedLedger(minute, Interval(l)) && |minute| == l.requests
    ensures minute[|minute| - 1].at + Interval(l) - minute[0].at >= WINDOW
    ensures forall i :: 1 <= i < |minute| ==> minute[i].at >= minute[0].at + Interval(l)
  {
    var gap := Interval(l);
    IntervalsFillTheWindow(l, l.requests);
    LedgerApart(minute, gap, 0, l.requests - 1);
    assert l.requests as real * gap == (l.requests - 1) as real * gap + gap;
    forall i | 1 <= i < |minute| ensures minute[i].at >= minute[0].at + gap {
      LedgerApart(minute, gap, 0, i);
      assert i as real * gap == (i - 1) as real * gap + gap && (i - 1) as real * gap >= 0.0;
    }
  }

  /** The stamp comes when the oldest entry has left, and before the next has. */
  lemma DearStamp(l: Limits, s: State, hi: int, n: nat)
    requires Sane(l) && l.requests < 240 && l.tokens > 0 && n < l.requests && Full(l, s, hi, n)
    ensures var stamp := Acquired(l, s, Clock(s.last, 0.0, 0.0)).last; var minute := Trailing(s.ledger, s.last);
      && stamp >= s.last + Interval(l) && stamp >= Budgeted(l, s, Clock(s.last, 0.0, 0.0)) >= s.last
      && stamp - minute[0].at >= WINDOW
      && forall i :: 1 <= i < |minute| ==> stamp - minute[i].at < WINDOW
  {
    SlackIsLessThanAnInterval(l);
    OldestIsApart(l, Trailing(s.ledger, s.last));
    MinuteAges(l, s);
    hide Interval, Trailing, Total, SpacedLedger;
  }

  lemma SlackIsLessThanAnInterval(l: Limits)
    requires Sane(l) && l.requests < 240
    ensures SLACK < Interval(l)
  {
    assert Interval(l) * l.requests as real == WINDOW;
    assert (Interval(l) - SLACK) * l.requests as real > 0.0;
  }

  lemma MinuteAges(l: Limits, s: State)
    requires Sane(l) && SpacedLedger(s.ledger, Interval(l))
    ensures forall i :: 0 <= i < |Trailing(s.ledger, s.last)| ==> s.last - Trailing(s.ledger, s.last)[i].at < WINDOW
  {
    IntervalsFillTheWindow(l, 0);
    SpacedIsSorted(s.ledger, Interval(l));
    TrailingIsSuffix(s.ledger, s.last);
  }

  /** The minute at the new stamp: without its oldest entry, and with the new. */
  lemma NewMinute(l: Limits, s: State, s1: State, now: real, hi: int)
    requires s.last <= now <= s1.last && Trailing(s.ledger, s.last) != []
    requires var minute := Trailing(s.ledger, s.last);
      && s1.last - minute[0].at >= WINDOW && (forall i :: 1 <= i < |minute| ==> s1.last - minute[i].at < WINDOW)
    requires s1.ledger == Trailing(Trailing(s.ledger, s.last), now) + [Spend(s1.last, hi)]
    ensures Trailing(s1.ledger, s1.last) == Trailing(s.ledger, s.last)[1..] + [Spend(s1.last, hi)]
  {
    var minute := Trailing(s.ledger, s.last);
    EverythingTrails(minute[1..], s1.last);
    assert Trailing(minute, s1.last) == minute[1..];
    hide Trailing;
    TrailingTwice(minute, now, s1.last);
    TrailingSnoc(Trailing(minute, now), Spend(s1.last, hi), s1.last);
  }

  lemma SpacedSuffix(l: Limits, ledger: seq<Spend>, now: real, x: Spend)
    requires Sane(l) && SpacedLedger(ledger, Interval(l)) && ledger != []
    requires x.at >= ledger[|ledger| - 1].at + Interval(l)
    ensures SpacedLedger(Trailing(ledger, now) + [x], Interval(l))
  {
    IntervalsFillTheWindow(l, 0);
    SpacedIsSorted(ledger, Interval(l));
    TrailingIsSuffix(ledger, now);
  }

  lemma DearMinute(l: Limits, s: State, s1: State, hi: int, n: nat)
    requires Sane(l) && n < l.requests && Full(l, s, hi, n)
    requires var minute := Trailing(s.ledger, s.last);
      && s1.last - minute[0].at >= WINDOW && (forall i :: 1 <= i < |minute| ==> s1.last - minute[i].at < WINDOW)
    requires var now := Budgeted(l, s, Clock(s.last, 0.0, 0.0)); s1.last >= s.last + Interval(l) && s.last <= now <= s1.last
    requires s1.ledger == Pruned(l, s, Clock(s.last, 0.0, 0.0)) + [Spend(s1.last, hi)]
    ensures Full(l, s1, hi, n + 1)
  {
    hide Interval, Budgeted, Trailing, OverBudget;
    var now := Budgeted(l, s, Clock(s.last, 0.0, 0.0));
    NewMinute(l, s, s1, now, hi);
    TrailingTwice(s.ledger, s.last, now);
    SpacedSuffix(l, s.ledger, now, Spend(s1.last, hi));
  }

  lemma {:induction false} DearRounds(l: Limits, s: State, hi: int, n: nat)
    requires Sane(l) && l.requests < 240 && l.tokens > 0 && hi > 0 && n <= l.requests && Full(l, s, hi, 0)
    ensures Full(l, Dear(l, s, hi, n), hi, n)
  {
    hide Full, Acquired, Recorded;
    if n > 0 {
      DearRounds(l, s, hi, n - 1);
      DearRound(l, Dear(l, s, hi, n - 1), hi, n - 1);
    }
  }

  lemma FullMinuteCosts(l: Limits, s: State, hi: int)
    requires Sane(l) && Full(l, s, hi, l.requests)
    ensures Total(Trailing(s.ledger, s.last)) == l.requests * hi
  {
    TotalOf(Trailing(s.ledger, s.last), hi);
  }

  // the run: fill the minute with calls of cost 1, then replace them one by one

  lemma OneRound(l: Limits, run: seq<Action>, clock: Clock, c: int)
    requires Sane(l)
    ensures Exec(l, run + [Acquire(clock), Record(c)]).s == Recorded(l, Acquired(l, Exec(l, run).s, clock), c)
  {
    hide Acquired, Recorded;
    var all := run + [Acquire(clock), Record(c)];
    assert all[..|all| - 1] == run + [Acquire(clock)] && (run + [Acquire(clock)])[..|run|] == run;
  }

  lemma {:induction false} RoundsAsRun(l: Limits, c: int, clocks: seq<Clock>) returns (run: seq<Action>)
    requires Sane(l) && forall i :: 0 <= i < |clocks| ==> Forward(clocks[i])
    ensures Exec(l, run).s == Rounds(l, c, clocks) && Ticks(run) && CostsUpTo(run, c)
  {
    hide Acquired, Recorded;
    if clocks == [] {
      run := [];
    } else {
      var front, clock := clocks[..|clocks| - 1], clocks[|clocks| - 1];
      var before := RoundsAsRun(l, c, front);
      OneRound(l, before, clock, c);
      run := before + [Acquire(clock), Record(c)];
    }
  }

  lemma {:induction false} DearAsRun(l: Limits, before: seq<Action>, hi: int, n: nat) returns (run: seq<Action>)
    requires Sane(l) && Ticks(before) && CostsUpTo(before, hi)
    ensures Exec(l, run).s == Dear(l, Exec(l, before).s, hi, n) && Ticks(run) && CostsUpTo(run, hi)
  {
    hide Acquired, Recorded, Exec;
    if n == 0 {
      run := before;
    } else {
      var front := DearAsRun(l, before, hi, n - 1);
      var clock := Clock(Exec(l, front).s.last, 0.0, 0.0);
      OneRound(l, front, clock, hi);
      run := front + [Acquire(clock), Record(hi)];
    }
  }

  lemma {:induction false} CheapCallsFit(l: Limits, m: nat)
    requires m < l.requests && l.tokens >= SEED + l.requests
    ensures m * 1 + Estimate(l, 1, m) <= l.tokens
  {
    EstimateFalls(l, 1, m);
  }

  lemma CheapRounds(l: Limits)
    requires Sane(l) && l.tokens >= SEED + l.requests
    ensures Beaten(l, WINDOW, 1, 0, l.requests, Rounds(l, 1, Steady(l, WINDOW, l.requests)))
  {
    hide Rounds, Estimate, Beat, Steady, IsSteady, Beaten, InOrder;
    var n, none: seq<Clock> := l.requests, [];
    forall m: nat | 0 < m < n ensures m * 1 + Estimate(l, 1, |none| + m) <= l.tokens { CheapCallsFit(l, m); }
    FromTheStart(l);
    SteadyRounds(l, 1, none, WINDOW, n);
    assert none + Steady(l, WINDOW, n) == Steady(l, WINDOW, n);
  }

  lemma CheapFillsTheMinute(l: Limits, hi: int)
    requires Sane(l) && l.tokens >= SEED + l.requests
    ensures Full(l, Rounds(l, 1, Steady(l, WINDOW, l.requests)), hi, 0)
  {
    hide Rounds, Estimate, Trailing, Interval, Beat;
    CheapRounds(l);
    SteadyTrails(l, WINDOW, 1, l.requests, l.requests - 1);
    SteadySpaced(l, WINDOW, l.requests);
  }

  lemma FromTheStart(l: Limits)
    requires Sane(l)
    ensures InOrder(l, 1, []) && IsSteady(l, WINDOW, 1, 0, 0, Rounds(l, 1, []))
  {
    Beats(l, WINDOW, 0, 0);
    assert SteadyLedger(l, WINDOW, 1, 0) == [];
    hide Interval;
  }

  lemma SteadySpaced(l: Limits, base: real, n: nat)
    requires Sane(l)
    ensures SpacedLedger(SteadyLedger(l, base, 1, n), Interval(l))
  {
    forall i | 0 < i < n ensures Beat(l, base, i) >= Beat(l, base, i - 1) + Interval(l) { Beats(l, base, i - 1, i); }
  }

  /** The bound is the least: under any ceiling with room for the first calls, some
      run fills a minute with calls that all cost the most. */
  lemma MinuteIsMet(l: Limits, hi: int) returns (run: seq<Action>)
    requires Sane(l) && l.requests < 240 && l.tokens >= SEED + l.requests && hi >= SEED
    ensures Ticks(run) && CostsUpTo(run, hi)
    ensures var s := Exec(l, run).s; Total(Trailing(s.ledger, s.last)) == l.requests * hi
  {
    hide Exec, Full, Rounds, Dear;
    CheapFillsTheMinute(l, hi);
    var fill := RoundsAsRun(l, 1, Steady(l, WINDOW, l.requests));
    run := DearAsRun(l, fill, hi, l.requests);
    DearRounds(l, Exec(l, fill).s, hi, l.requests);
    FullMinuteCosts(l, Exec(l, run).s, hi);
  }

  /** Even calls no dearer than the seed break the ceiling when costs vary: the
      estimate learnt from a cheap one lets a dear one through. */
  lemma VaryingCostsOverspend(l: Limits)
    requires l.requests == 25 && l.tokens == 2000
    ensures var s0 := Recorded(l, Acquired(l, START, Clock(60.0, 0.0, 0.0)), 100);
      var s := Recorded(l, Acquired(l, s0, Clock(70.0, 0.0, 0.0)), 1990);
      Total(Trailing(s.ledger, s.last)) == 2090 > l.tokens
  {
    assert Interval(l) == 2.4;
    hide Interval;
    var a0 := Acquired(l, START, Clock(60.0, 0.0, 0.0));
    assert a0 == State(60.0, [Spend(60.0, SEED)], SEED);
    var s0 := Recorded(l, a0, 100);
    assert s0.last == 60.0 && s0.ledger == [Spend(60.0, 100)] && 1429 <= s0.estimate <= 1430;
    assert Trailing(s0.ledger, 70.0) == s0.ledger && Total(s0.ledger) == 100;
    var a1 := Acquired(l, s0, Clock(70.0, 0.0, 0.0));
    assert a1 == State(70.0, [Spend(60.0, 100), Spend(70.0, s0.estimate)], s0.estimate);
    var s := Recorded(l, a1, 1990);
    assert s.ledger == [Spend(60.0, 100), Spend(70.0, 1990)];
    assert s.ledger[1..] == [Spend(70.0, 1990)];
    assert Trailing(s.ledger[1..], 70.0) == s.ledger[1..];
    assert Trailing(s.ledger, 70.0) == s.ledger;
    assert Total(s.ledger[1..]) == 1990;
  }
}
