/** The limiter that keeps the agent under its provider's own ceilings: it waits
    rather than rejects (backend/agent/app/providers/resilient.py:84-160). */
module EgressLimiter {

  const WINDOW := 60.0
  const SLACK := 0.25
  const SEED: nat := 2000

  datatype Spend = Spend(at: real, tokens: int)

  /** The two ceilings, and how the machine rounds: `slips(e, t)` says whether the
      double sum 0.7 e + 0.3 t, where its exact value is a whole number, lands
      under it, as it does for 1996 and 1996. */
  datatype Limits = Limits(requests: nat, tokens: int, slips: (int, int) -> bool)

  predicate Sane(l: Limits) { l.requests >= 1 }

  function Interval(l: Limits): real
    requires Sane(l)
  {
    WINDOW / l.requests as real
  }

  datatype State = State(last: real, ledger: seq<Spend>, estimate: int)

  const START := State(0.0, [], SEED)

  /** The entries of the trailing minute. */
  function Trailing(ledger: seq<Spend>, now: real): seq<Spend> {
    if ledger == [] then []
    else if now - ledger[0].at < WINDOW then [ledger[0]] + Trailing(ledger[1..], now)
    else Trailing(ledger[1..], now)
  }

  function Total(ledger: seq<Spend>): int {
    if ledger == [] then 0 else ledger[0].tokens + Total(ledger[1..])
  }

  function Most(a: real, b: real): real { if a >= b then a else b }

  /** When an acquire takes the lock, and how late each sleep wakes. */
  datatype Clock = Clock(entry: real, late1: real, late2: real)

  predicate Forward(c: Clock) { c.late1 >= 0.0 && c.late2 >= 0.0 }

  predicate OverBudget(l: Limits, s: State, now: real) {
    var ledger := Trailing(s.ledger, now);
    l.tokens > 0 && Total(ledger) + s.estimate > l.tokens && ledger != []
  }

  /** The instant after the token wait, if there is one. */
  function Budgeted(l: Limits, s: State, c: Clock): real {
    var ledger := Trailing(s.ledger, c.entry);
    if OverBudget(l, s, c.entry)
    then c.entry + Most(0.0, WINDOW - (c.entry - ledger[0].at)) + SLACK + c.late1
    else c.entry
  }

  /** acquire: at most one wait for tokens, one for the interval, then reserve. */
  function Acquired(l: Limits, s: State, c: Clock): State
    requires Sane(l)
  {
    var now := Budgeted(l, s, c);
    var stamp := now + Most(0.0, Interval(l) - (now - s.last)) + c.late2;
    var ledger := if l.tokens > 0 then Trailing(Trailing(s.ledger, c.entry), now) else s.ledger;
    s.(last := stamp, ledger := ledger + [Spend(stamp, s.estimate)])
  }

  /** int(0.7 * e + 0.3 * t): the exact value cut down, or one less where that is
      whole and the double sum slips under it. */
  function Smoothed(l: Limits, e: int, t: int): int { (7 * e + 3 * t - (if l.slips(e, t) then 1 else 0)) / 10 }

  /** record: the last reservation becomes the real cost, or goes if none was reported. */
  function Recorded(l: Limits, s: State, tokens: int): State {
    if s.ledger == [] then s
    else
      var n := |s.ledger| - 1;
      if tokens <= 0 then s.(ledger := s.ledger[..n])
      else s.(ledger := s.ledger[n := Spend(s.ledger[n].at, tokens)], estimate := Smoothed(l, s.estimate, tokens))
  }

  class Limiter {
    const limits: Limits
    var last: real
    var ledger: seq<Spend>
    var estimate: int

    function View(): State
      reads this
    {
      State(last, ledger, estimate)
    }

    constructor (requestsPerMinute: int, tokensPerMinute: int, slips: (int, int) -> bool)
      ensures Sane(limits) && View() == START
      ensures limits == Limits(if requestsPerMinute < 1 then 1 else requestsPerMinute, tokensPerMinute, slips)
    {
      limits := Limits(if requestsPerMinute < 1 then 1 else requestsPerMinute, tokensPerMinute, slips);
      last, ledger, estimate := 0.0, [], SEED;
    }

    /** Drops what has left the trailing minute, and sums the rest. */
    method SpentLastMinute(now: real) returns (spent: int)
      modifies this`ledger
      ensures ledger == Trailing(old(ledger), now) && spent == Total(ledger)
    {
      var kept: seq<Spend> := [];
      for i := 0 to |ledger|
        invariant ledger == old(ledger)
        invariant kept + Trailing(ledger[i..], now) == Trailing(ledger, now)
      {
        assert ledger[i..][1..] == ledger[i + 1..];
        if now - ledger[i].at < WINDOW { kept := kept + [ledger[i]]; }
      }
      ledger := kept;
      spent := 0;
      for i := 0 to |ledger|
        invariant spent + Total(ledger[i..]) == Total(ledger)
      {
        assert ledger[i..][1..] == ledger[i + 1..];
        spent := spent + ledger[i].tokens;
      }
    }

    method Acquire(c: Clock)
      requires Sane(limits)
      modifies this
      ensures View() == Acquired(limits, old(View()), c)
    {
      var now := c.entry;
      if limits.tokens > 0 {
        var spent := SpentLastMinute(now);
        if spent + estimate > limits.tokens && ledger != [] {
          now := now + Most(0.0, WINDOW - (now - ledger[0].at)) + SLACK + c.late1;
          var _ := SpentLastMinute(now);
        } else {
          TrailingTwice(old(ledger), now, now);
        }
      }
      var wait := Interval(limits) - (now - last);
      last := now + Most(0.0, wait) + c.late2;
      ledger := ledger + [Spend(last, estimate)];
    }

    method Record(tokens: int)
      modifies this
      ensures View() == Recorded(limits, old(View()), tokens)
    {
      if ledger == [] { return; }
      var n := |ledger| - 1;
      if tokens <= 0 {
        ledger := ledger[..n];
        return;
      }
      ledger := ledger[n := Spend(ledger[n].at, tokens)];
      estimate := Smoothed(limits, estimate, tokens);
    }
  }

  /** Seven tenths of the estimate and three of the cost, cut down to a whole number; or
      the number before it, where nothing is cut off and the double sum falls short. */
  lemma SmoothedIs(l: Limits, e: int, t: int)
    ensures var r, sum := Smoothed(l, e, t), 0.7 * e as real + 0.3 * t as real;
      || (l.slips(e, t) && sum == (r + 1) as real)
      || (r as real <= sum < (r + 1) as real && !(l.slips(e, t) && sum == r as real))
  {
    assert 10.0 * (0.7 * e as real + 0.3 * t as real) == (7 * e + 3 * t) as real;
  }

  // ------------------------------------------------------------ the ledger

  lemma {:induction false} TrailingTwice(ledger: seq<Spend>, a: real, b: real)
    requires a <= b
    ensures Trailing(Trailing(ledger, a), b) == Trailing(ledger, b)
  {
    if ledger != [] { TrailingTwice(ledger[1..], a, b); }
  }

  lemma {:induction false} TrailingShrinks(ledger: seq<Spend>, a: real, b: real)
    requires a <= b
    ensures |Trailing(ledger, b)| <= |Trailing(ledger, a)| <= |ledger|
  {
    if ledger != [] { TrailingShrinks(ledger[1..], a, b); }
  }

  lemma {:induction false} TrailingSnoc(ledger: seq<Spend>, x: Spend, now: real)
    ensures Trailing(ledger + [x], now) == Trailing(ledger, now) + (if now - x.at < WINDOW then [x] else [])
  {
    if ledger == [] {
      assert ledger + [x] == [x];
    } else {
      TrailingSnoc(ledger[1..], x, now);
      assert (ledger + [x])[1..] == ledger[1..] + [x];
    }
  }

  predicate AllCost(ledger: seq<Spend>, c: int) { forall i :: 0 <= i < |ledger| ==> ledger[i].tokens == c }

  lemma {:induction false} TotalOf(ledger: seq<Spend>, c: int)
    requires AllCost(ledger, c)
    ensures Total(ledger) == |ledger| * c
  {
    if ledger != [] { TotalOf(ledger[1..], c); }
  }

  lemma {:induction false} TrailingCost(ledger: seq<Spend>, now: real, c: int)
    requires AllCost(ledger, c)
    ensures AllCost(Trailing(ledger, now), c)
  {
    if ledger != [] { TrailingCost(ledger[1..], now, c); }
  }

  predicate Sorted(ledger: seq<Spend>) { forall i, j :: 0 <= i < j < |ledger| ==> ledger[i].at <= ledger[j].at }

  /** In a sorted ledger the trailing minute is its end. */
  lemma {:induction false} TrailingIsSuffix(ledger: seq<Spend>, now: real)
    requires Sorted(ledger)
    ensures |Trailing(ledger, now)| <= |ledger|
    ensures Trailing(ledger, now) == ledger[|ledger| - |Trailing(ledger, now)|..]
    ensures forall i :: 0 <= i < |Trailing(ledger, now)| ==> now - Trailing(ledger, now)[i].at < WINDOW
  {
    if ledger != [] {
      TrailingIsSuffix(ledger[1..], now);
      if now - ledger[0].at < WINDOW { EverythingTrails(ledger, now); }
    }
  }

  lemma {:induction false} EverythingTrails(ledger: seq<Spend>, now: real)
    requires forall i :: 0 <= i < |ledger| ==> now - ledger[i].at < WINDOW
    ensures Trailing(ledger, now) == ledger
  {
    if ledger != [] { EverythingTrails(ledger[1..], now); }
  }

  // ----------------------------------------------------------- every run

  datatype Action = Acquire(c: Clock) | Record(tokens: int)

  /** The state and the instants of every acquisition so far. */
  datatype Trace = Trace(s: State, stamps: seq<real>)

  function Exec(l: Limits, run: seq<Action>): Trace
    requires Sane(l)
  {
    if run == [] then Trace(START, [])
    else
      var before := Exec(l, run[..|run| - 1]);
      match run[|run| - 1]
      case Acquire(c) => var s := Acquired(l, before.s, c); Trace(s, before.stamps + [s.last])
      case Record(tokens) => Trace(Recorded(l, before.s, tokens), before.stamps)
  }

  predicate Ticks(run: seq<Action>) { forall i :: 0 <= i < |run| && run[i].Acquire? ==> Forward(run[i].c) }

  lemma AcquireSpaces(l: Limits, s: State, c: Clock)
    requires Sane(l) && Forward(c)
    ensures Acquired(l, s, c).last >= s.last + Interval(l)
  {
  }

  /** A call is held no longer than it has to be: an interval from the last one, and,
      when the trailing minute has no room for its estimate, until its oldest entry
      is out of it and a quarter of a second more. */
  lemma HeldAsNeeded(l: Limits, s: State, c: Clock)
    requires Sane(l)
    ensures var spent := Trailing(s.ledger, c.entry); var next := s.last + 60.0 / l.requests as real;
      Acquired(l, s, c).last == c.late2 +
        (if l.tokens <= 0 || spent == [] || Total(spent) + s.estimate <= l.tokens then Most(c.entry, next)
         else Most(spent[0].at + 60.25 + c.late1, next))
  {
    var spent := Trailing(s.ledger, c.entry);
    if spent != [] { TrailingIsRecent(s.ledger, c.entry); }
  }

  lemma {:induction false} TrailingIsRecent(ledger: seq<Spend>, now: real)
    ensures forall i :: 0 <= i < |Trailing(ledger, now)| ==> now - Trailing(ledger, now)[i].at < WINDOW
  {
    if ledger != [] { TrailingIsRecent(ledger[1..], now); }
  }

  predicate Spaced(stamps: seq<real>, gap: real) {
    forall i :: 0 < i < |stamps| ==> stamps[i] >= stamps[i - 1] + gap
  }

  lemma {:induction false} RunsAreSpaced(l: Limits, run: seq<Action>)
    requires Sane(l) && Ticks(run)
    ensures var t := Exec(l, run);
      Spaced(t.stamps, Interval(l)) && (t.stamps != [] ==> t.stamps[|t.stamps| - 1] == t.s.last)
  {
    if run != [] {
      RunsAreSpaced(l, run[..|run| - 1]);
      if run[|run| - 1].Acquire? { AcquireSpaces(l, Exec(l, run[..|run| - 1]).s, run[|run| - 1].c); }
    }
  }

  lemma {:induction false} SpacedApart(stamps: seq<real>, gap: real, i: nat, j: nat)
    requires i <= j < |stamps| && Spaced(stamps, gap)
    ensures stamps[j] - stamps[i] >= (j - i) as real * gap
  {
    if i < j {
      SpacedApart(stamps, gap, i, j - 1);
      assert (j - i) as real * gap == (j - 1 - i) as real * gap + gap;
    }
  }

  lemma IntervalsFillTheWindow(l: Limits, n: nat)
    requires Sane(l)
    ensures n >= l.requests ==> n as real * Interval(l) >= WINDOW
    ensures n < l.requests ==> n as real * Interval(l) < WINDOW
    ensures Interval(l) > 0.0
  {
    var r := l.requests as real;
    assert Interval(l) * r == WINDOW;
    assert Interval(l) > 0.0;
    if n >= l.requests {
      assert (n as real - r) * Interval(l) >= 0.0;
    } else {
      assert (r - n as real) * Interval(l) > 0.0;
    }
    assert n as real * Interval(l) == r * Interval(l) + (n as real - r) * Interval(l);
  }

  /** The acquisitions inside the half-open minute from `a`. */
  function Within(stamps: seq<real>, a: real): set<nat> {
    set i: nat | i < |stamps| && a <= stamps[i] < a + WINDOW
  }

  lemma {:induction false} CloseTogether(s: set<nat>, lo: nat, n: nat)
    requires forall i: nat :: i in s ==> lo <= i < lo + n
    ensures |s| <= n
  {
    if n == 0 {
      assert forall i: nat :: i !in s;
      assert s == {};
    } else {
      CloseTogether(s - {lo + n - 1}, lo, n - 1);
      if lo + n - 1 !in s { assert s - {lo + n - 1} == s; }
    }
  }

  lemma {:induction false} LeastIndex(s: set<nat>) returns (lo: nat)
    requires s != {}
    ensures lo in s && forall i: nat :: i in s ==> lo <= i
  {
    lo :| lo in s;
    if s != {lo} {
      var other := LeastIndex(s - {lo});
      forall i: nat | i in s ensures i == lo || other <= i { if i != lo { assert i in s - {lo}; } }
      if other < lo { lo := other; }
    }
  }

  lemma WithinApart(l: Limits, stamps: seq<real>, a: real, i: nat, j: nat)
    requires Sane(l) && Spaced(stamps, Interval(l)) && i <= j
    requires i in Within(stamps, a) && j in Within(stamps, a)
    ensures j < i + l.requests
  {
    SpacedApart(stamps, Interval(l), i, j);
    IntervalsFillTheWindow(l, j - i);
  }

  /** The requests ceiling: in every run, whatever is recorded between, any
      half-open minute holds at most requests_per_minute acquisitions. */
  lemma RequestsCeiling(l: Limits, run: seq<Action>, a: real)
    requires Sane(l) && Ticks(run)
    ensures |Within(Exec(l, run).stamps, a)| <= l.requests
  {
    var stamps := Exec(l, run).stamps;
    RunsAreSpaced(l, run);
    var inside := Within(stamps, a);
    if inside != {} {
      var lo := LeastIndex(inside);
      forall i: nat | i in inside ensures lo <= i < lo + l.requests {
        WithinApart(l, stamps, a, lo, i);
      }
      CloseTogether(inside, lo, l.requests);
    }
  }

  /** The estimate stays between any bounds on its seed and every usage recorded,
      but for one below the lower, and that only where the bound itself slips. */
  lemma {:induction false} EstimateIsBounded(l: Limits, run: seq<Action>, lo: int, hi: int)
    requires Sane(l) && 1 <= lo <= SEED <= hi
    requires forall i :: 0 <= i < |run| && run[i].Record? && run[i].tokens > 0 ==> lo <= run[i].tokens <= hi
    ensures (if l.slips(lo, lo) then lo - 1 else lo) <= Exec(l, run).s.estimate <= hi
  {
    if run != [] {
      var front, a := run[..|run| - 1], run[|run| - 1];
      forall i | 0 <= i < |front| && front[i].Record? && front[i].tokens > 0 ensures lo <= front[i].tokens <= hi {
        assert front[i] == run[i];
      }
      EstimateIsBounded(l, front, lo, hi);
    }
  }

  // ----------------------------------------- the tokens ceiling, constant cost

  /** n rounds of acquire then record, every call costing c. */
  function Rounds(l: Limits, c: int, clocks: seq<Clock>): State
    requires Sane(l)
  {
    if clocks == [] then START
    else Recorded(l, Acquired(l, Rounds(l, c, clocks[..|clocks| - 1]), clocks[|clocks| - 1]), c)
  }

  /** The estimate after n recordings of c. */
  function Estimate(l: Limits, c: int, n: nat): int {
    if n == 0 then SEED else Smoothed(l, Estimate(l, c, n - 1), c)
  }

  /** Each acquire takes the lock no earlier than the last one let go. */
  predicate InOrder(l: Limits, c: int, clocks: seq<Clock>)
    requires Sane(l)
  {
    forall i :: 0 <= i < |clocks| ==> Forward(clocks[i]) && clocks[i].entry >= Rounds(l, c, clocks[..i]).last
  }

  /** Within the tokens ceiling, now and until the next acquisition. */
  ghost predicate UnderCeiling(l: Limits, s: State) {
    forall now :: now >= s.last ==> Total(Trailing(s.ledger, now)) <= l.tokens
  }

  /** The least the estimate comes to once k calls of cost c are recorded: it
      climbs to a dear cost, and falls to a cheap one, or to one under it. */
  function Least(l: Limits, c: int, k: nat): int {
    if c > SEED then Estimate(l, c, k) else if l.slips(c, c) then c - 1 else c
  }

  /** The exact condition, computable before the first call: when the ceiling
      has room for k calls, the estimate learnt from k of them must not promise
      room for one more, or the request rate alone must keep to k a minute. */
  predicate EstimateHolds(l: Limits, c: int)
    requires 0 < c <= l.tokens
  {
    var k := l.tokens / c;
    assert k >= 0;
    k * c + Least(l, c, k) > l.tokens || k >= l.requests
  }

  lemma {:induction false} EstimateClimbs(l: Limits, c: int, n: nat, m: nat)
    requires n <= m && c > SEED
    ensures Estimate(l, c, n) <= Estimate(l, c, m) < c
  {
    if m > 0 { EstimateClimbs(l, c, if n < m then n else m - 1, m - 1); }
  }

  lemma {:induction false} EstimateFalls(l: Limits, c: int, n: nat)
    requires 0 < c <= SEED
    ensures Least(l, c, n) <= Estimate(l, c, n) <= SEED
    ensures Estimate(l, c, n) <= c || Estimate(l, c, n) <= SEED - n
    ensures n > 0 && Estimate(l, c, n - 1) <= c ==> Estimate(l, c, n) <= c
  {
    if n > 0 { EstimateFalls(l, c, n - 1); }
  }

  lemma {:induction false} EstimateSettles(l: Limits, c: int, n: nat)
    requires 0 < c <= SEED && n > SEED - c
    ensures Estimate(l, c, n) <= c
    ensures n > SEED - c + 1 ==> Estimate(l, c, n) == Least(l, c, n)
  {
    EstimateFalls(l, c, n);
    EstimateFalls(l, c, n - 1);
    if n > SEED - c + 1 { EstimateSettles(l, c, n - 1); }
  }

  lemma EstimateIsLeast(l: Limits, c: int, k: nat, n: nat)
    requires c > 0 && k <= n
    ensures Estimate(l, c, n) >= Least(l, c, k)
  {
    if c > SEED { EstimateClimbs(l, c, k, n); } else { EstimateFalls(l, c, n); }
  }

  ghost predicate RoundInv(l: Limits, c: int, s: State, n: nat)
    requires Sane(l) && c > 0
  {
    && s.estimate == Estimate(l, c, n)
    && AllCost(s.ledger, c)
    && |s.ledger| <= n
    && SpacedLedger(s.ledger, Interval(l))
    && (forall i :: 0 <= i < |s.ledger| ==> s.ledger[i].at <= s.last)
    && (s.ledger != [] ==> s.ledger[|s.ledger| - 1].at == s.last)
    && |Trailing(s.ledger, s.last)| <= l.tokens / c
  }

  predicate SpacedLedger(ledger: seq<Spend>, gap: real) {
    forall i :: 0 < i < |ledger| ==> ledger[i].at >= ledger[i - 1].at + gap
  }

  lemma {:induction false} LedgerApart(ledger: seq<Spend>, gap: real, i: nat, j: nat)
    requires i <= j < |ledger| && SpacedLedger(ledger, gap)
    ensures ledger[j].at - ledger[i].at >= (j - i) as real * gap
  {
    if i < j {
      LedgerApart(ledger, gap, i, j - 1);
      assert (j - i) as real * gap == (j - 1 - i) as real * gap + gap;
    }
  }

  lemma SpacedIsSorted(ledger: seq<Spend>, gap: real)
    requires SpacedLedger(ledger, gap) && gap > 0.0
    ensures Sorted(ledger)
  {
    forall i, j | 0 <= i < j < |ledger| ensures ledger[i].at <= ledger[j].at {
      LedgerApart(ledger, gap, i, j);
      assert (j - i) as real * gap >= 0.0;
    }
  }

  lemma FewInAMinute(l: Limits, ledger: seq<Spend>, first: nat, now: real)
    requires Sane(l) && SpacedLedger(ledger, Interval(l)) && first < |ledger|
    requires ledger[|ledger| - 1].at <= now && now - ledger[first].at < WINDOW
    ensures |ledger| - first <= l.requests
  {
    hide SpacedLedger, Interval;
    LedgerApart(ledger, Interval(l), first, |ledger| - 1);
    IntervalsFillTheWindow(l, |ledger| - 1 - first);
  }

  /** A minute of a spaced ledger holds no more entries than requests. */
  lemma TrailingWithinRate(l: Limits, ledger: seq<Spend>, now: real)
    requires Sane(l) && SpacedLedger(ledger, Interval(l))
    requires ledger != [] ==> ledger[|ledger| - 1].at <= now
    ensures |Trailing(ledger, now)| <= l.requests
  {
    hide SpacedLedger, Interval, Trailing;
    IntervalsFillTheWindow(l, 0);
    SpacedIsSorted(ledger, Interval(l));
    TrailingIsSuffix(ledger, now);
    var tail := Trailing(ledger, now);
    if tail != [] {
      var first := |ledger| - |tail|;
      assert tail[0] == ledger[first];
      FewInAMinute(l, ledger, first, now);
    }
  }

  /** The ledger acquire adds to, after its one chance to wait. */
  function Pruned(l: Limits, s: State, c: Clock): seq<Spend> {
    Trailing(Trailing(s.ledger, c.entry), Budgeted(l, s, c))
  }

  lemma PrunedShape(l: Limits, c: int, s: State, clock: Clock)
    requires Sane(l) && c > 0 && l.tokens > 0 && Forward(clock)
    requires AllCost(s.ledger, c) && SpacedLedger(s.ledger, Interval(l))
    ensures var p := Pruned(l, s, clock);
      && AllCost(p, c) && SpacedLedger(p, Interval(l)) && |p| <= |Trailing(s.ledger, clock.entry)| <= |s.ledger|
      && (p != [] ==> s.ledger != [] && p[|p| - 1] == s.ledger[|s.ledger| - 1])
      && forall i :: 0 <= i < |p| ==> p[i] in s.ledger
  {
    IntervalsFillTheWindow(l, 0);
    SpacedIsSorted(s.ledger, Interval(l));
    var now := Budgeted(l, s, clock);
    assert now >= clock.entry;
    hide Trailing, Budgeted, Interval, AllCost, SpacedLedger, Sorted;
    TrailingTwice(s.ledger, clock.entry, now);
    TrailingShrinks(s.ledger, clock.entry, now);
    TrailingIsSuffix(s.ledger, now);
    TrailingCost(s.ledger, now, c);
    SuffixIsSpaced(s.ledger, |s.ledger| - |Trailing(s.ledger, now)|, Interval(l));
  }

  lemma SuffixIsSpaced(ledger: seq<Spend>, from: nat, gap: real)
    requires from <= |ledger| && SpacedLedger(ledger, gap)
    ensures SpacedLedger(ledger[from..], gap)
  {
  }

  lemma Multiples(k: int, m: int, c: int)
    requires c > 0
    ensures k <= m ==> k * c <= m * c
    ensures k < m ==> k * c + c <= m * c
  {
    if k <= m { assert (m - k) * c >= 0; }
    if k < m { assert (m - k - 1) * c >= 0; }
  }

  lemma OneMoreIsTooMany(tokens: int, c: int)
    requires 0 < c <= tokens
    ensures tokens / c >= 1
    ensures tokens / c * c <= tokens < tokens / c * c + c
  {
  }

  /** What the estimate is worth after k recordings, it is worth for good. */
  lemma EstimateVouches(l: Limits, c: int, n: nat)
    requires 0 < c <= l.tokens && n >= l.tokens / c
    requires l.tokens / c * c + Least(l, c, l.tokens / c) > l.tokens
    ensures l.tokens / c * c + Estimate(l, c, n) > l.tokens
  {
    hide Least;
    OneMoreIsTooMany(l.tokens, c);
    EstimateIsLeast(l, c, l.tokens / c, n);
  }

  /** With the condition, the pruned ledger has room for one more call: either
      the wait made it, or the estimate vouched for it. */
  lemma RoomForOne(l: Limits, c: int, s: State, n: nat, clock: Clock)
    requires Sane(l) && 0 < c <= l.tokens && Forward(clock) && clock.entry >= s.last
    requires RoundInv(l, c, s, n)
    requires l.tokens / c * c + Least(l, c, l.tokens / c) > l.tokens
    ensures |Pruned(l, s, clock)| < l.tokens / c
  {
    hide SpacedLedger, Interval, Estimate, Least;
    var k, now := l.tokens / c, Budgeted(l, s, clock);
    var ledger := Trailing(s.ledger, clock.entry);
    PrunedShape(l, c, s, clock);
    TrailingShrinks(s.ledger, s.last, clock.entry);
    TrailingCost(s.ledger, clock.entry, c);
    TotalOf(ledger, c);
    OneMoreIsTooMany(l.tokens, c);
    if OverBudget(l, s, clock.entry) {
      assert now - ledger[0].at >= WINDOW;
      TrailingShrinks(ledger[1..], clock.entry, now);
      assert Trailing(ledger, now) == Trailing(ledger[1..], now);
    } else if ledger != [] && |ledger| == k {
      EstimateVouches(l, c, n);
      assert false;
    }
  }

  lemma RoundShape(l: Limits, c: int, s: State, clock: Clock)
    requires Sane(l) && 0 < c && l.tokens > 0
    ensures var s1 := Recorded(l, Acquired(l, s, clock), c);
      && s1.ledger == Pruned(l, s, clock) + [Spend(s1.last, c)]
      && s1.estimate == Smoothed(l, s.estimate, c)
      && s1.last == Acquired(l, s, clock).last
  {
    var p, a := Pruned(l, s, clock), Acquired(l, s, clock);
    assert a.ledger == p + [Spend(a.last, s.estimate)];
  }

  lemma RoundKeeps(l: Limits, c: int, s: State, n: nat, clock: Clock)
    requires Sane(l) && 0 < c <= l.tokens && Forward(clock) && clock.entry >= s.last
    requires RoundInv(l, c, s, n) && EstimateHolds(l, c)
    ensures RoundInv(l, c, Recorded(l, Acquired(l, s, clock), c), n + 1)
  {
    hide Interval, Pruned, Acquired, Recorded, Trailing, Smoothed, Least;
    var p, s1 := Pruned(l, s, clock), Recorded(l, Acquired(l, s, clock), c);
    PrunedShape(l, c, s, clock);
    RoundShape(l, c, s, clock);
    AcquireSpaces(l, s, clock);
    IntervalsFillTheWindow(l, 0);
    TrailingShrinks(s1.ledger, s1.last - WINDOW, s1.last);
    if l.tokens / c >= l.requests {
      TrailingWithinRate(l, s1.ledger, s1.last);
    } else {
      RoomForOne(l, c, s, n, clock);
    }
  }

  lemma NoRoundsYet(l: Limits, c: int)
    requires Sane(l) && 0 < c <= l.tokens
    ensures RoundInv(l, c, START, 0)
  {
    assert l.tokens / c >= 0;
  }

  lemma {:induction false} RoundsKeep(l: Limits, c: int, clocks: seq<Clock>)
    requires Sane(l) && 0 < c <= l.tokens && EstimateHolds(l, c) && InOrder(l, c, clocks)
    ensures RoundInv(l, c, Rounds(l, c, clocks), |clocks|)
  {
    hide RoundInv, EstimateHolds, Acquired, Recorded;
    if clocks == [] {
      NoRoundsYet(l, c);
    } else {
      var n := |clocks| - 1;
      var front := clocks[..n];
      forall i | 0 <= i < n ensures Forward(front[i]) && front[i].entry >= Rounds(l, c, front[..i]).last {
        assert front[..i] == clocks[..i];
      }
      RoundsKeep(l, c, front);
      RoundKeeps(l, c, Rounds(l, c, front), n, clocks[n]);
    }
  }

  /** With the condition, the trailing minute never costs more than the ceiling,
      although acquire waits only once and never checks again. */
  lemma TokensCeilingHolds(l: Limits, c: int, clocks: seq<Clock>)
    requires Sane(l) && 0 < c <= l.tokens && EstimateHolds(l, c) && InOrder(l, c, clocks)
    ensures UnderCeiling(l, Rounds(l, c, clocks))
  {
    RoundsKeep(l, c, clocks);
    hide Rounds, Trailing;
    var s := Rounds(l, c, clocks);
    forall now | now >= s.last ensures Total(Trailing(s.ledger, now)) <= l.tokens {
      TrailingTotals(s.ledger, s.last, now, c, l.tokens);
    }
  }

  lemma TrailingTotals(ledger: seq<Spend>, last: real, now: real, c: int, tokens: int)
    requires 0 < c <= tokens && AllCost(ledger, c) && last <= now
    requires |Trailing(ledger, last)| <= tokens / c
    ensures Total(Trailing(ledger, now)) <= tokens
  {
    TrailingShrinks(ledger, last, now);
    TrailingCost(ledger, now, c);
    TotalOf(Trailing(ledger, now), c);
    Multiples(|Trailing(ledger, now)|, tokens / c, c);
  }

  // ------------------------------------- and fails without the condition

  /** The i-th of the calls made from `base` on as fast as the rate lets them. */
  function Beat(l: Limits, base: real, i: nat): real
    requires Sane(l)
  {
    base + i as real * Interval(l)
  }

  function Steady(l: Limits, base: real, n: nat): (clocks: seq<Clock>)
    requires Sane(l)
    ensures |clocks| == n && forall i :: 0 <= i < n ==> clocks[i] == Clock(Beat(l, base, i), 0.0, 0.0)
  {
    seq(n, i requires 0 <= i < n => Clock(Beat(l, base, i), 0.0, 0.0))
  }

  function SteadyLedger(l: Limits, base: real, c: int, n: nat): (ledger: seq<Spend>)
    requires Sane(l)
    ensures |ledger| == n && forall i :: 0 <= i < n ==> ledger[i] == Spend(Beat(l, base, i), c)
  {
    seq(n, i requires 0 <= i < n => Spend(Beat(l, base, i), c))
  }

  lemma Beats(l: Limits, base: real, i: nat, j: nat)
    requires Sane(l) && i <= j
    ensures Beat(l, base, i) <= Beat(l, base, j) && Beat(l, base, i + 1) == Beat(l, base, i) + Interval(l)
    ensures j - i < l.requests ==> Beat(l, base, j) - Beat(l, base, i) < WINDOW
    ensures Interval(l) <= WINDOW && base <= Beat(l, base, i)
  {
    IntervalsFillTheWindow(l, j - i);
    IntervalsFillTheWindow(l, i);
    assert (j - i) as real * Interval(l) == j as real * Interval(l) - i as real * Interval(l);
    assert (j - i) as real * Interval(l) >= 0.0 && i as real * Interval(l) >= 0.0;
    assert (i + 1) as real * Interval(l) == i as real * Interval(l) + Interval(l);
    assert l.requests as real * Interval(l) == WINDOW && (l.requests - 1) as real * Interval(l) >= 0.0;
    assert l.requests as real * Interval(l) == (l.requests - 1) as real * Interval(l) + Interval(l);
  }

  lemma SteadyTrails(l: Limits, base: real, c: int, n: nat, j: nat)
    requires Sane(l) && n <= j + 1 && j < l.requests
    ensures Trailing(SteadyLedger(l, base, c, n), Beat(l, base, j)) == SteadyLedger(l, base, c, n)
  {
    forall i | 0 <= i < n ensures Beat(l, base, j) - Beat(l, base, i) < WINDOW { Beats(l, base, i, j); }
    EverythingTrails(SteadyLedger(l, base, c, n), Beat(l, base, j));
  }

  /** `s` comes before the n-th call of a steady run from `base`, after `warm`
      earlier calls of which the trailing minute holds nothing. */
  predicate IsSteady(l: Limits, base: real, c: int, warm: nat, n: nat, s: State)
    requires Sane(l)
  {
    && s.estimate == Estimate(l, c, warm + n)
    && Trailing(s.ledger, Beat(l, base, n)) == SteadyLedger(l, base, c, n)
    && s.last <= Beat(l, base, n) - Interval(l)
  }

  /** And after it. */
  predicate Beaten(l: Limits, base: real, c: int, warm: nat, n: nat, s: State)
    requires Sane(l) && n > 0
  {
    s == State(Beat(l, base, n - 1), SteadyLedger(l, base, c, n), Estimate(l, c, warm + n))
  }

  lemma SteadyRound(l: Limits, base: real, c: int, warm: nat, n: nat, s: State)
    requires Sane(l) && 0 < c && l.tokens > 0 && n < l.requests
    requires n > 0 ==> n * c + Estimate(l, c, warm + n) <= l.tokens
    requires IsSteady(l, base, c, warm, n, s)
    ensures Beaten(l, base, c, warm, n + 1, Recorded(l, Acquired(l, s, Clock(Beat(l, base, n), 0.0, 0.0)), c))
  {
    var clock := Clock(Beat(l, base, n), 0.0, 0.0);
    TotalOf(SteadyLedger(l, base, c, n), c);
    hide Beat, Interval, Trailing, Total, Smoothed;
    assert !OverBudget(l, s, clock.entry);
    TrailingTwice(s.ledger, clock.entry, clock.entry);
    var a := Acquired(l, s, clock);
    assert a.last == Beat(l, base, n);
    assert a.ledger == SteadyLedger(l, base, c, n) + [Spend(Beat(l, base, n), s.estimate)];
    assert Recorded(l, a, c).ledger == SteadyLedger(l, base, c, n + 1);
  }

  lemma SteadyAgain(l: Limits, base: real, c: int, warm: nat, n: nat, s: State)
    requires Sane(l) && 0 < n < l.requests && Beaten(l, base, c, warm, n, s)
    ensures IsSteady(l, base, c, warm, n, s) && s.last <= Beat(l, base, n)
  {
    hide Trailing, Estimate;
    SteadyTrails(l, base, c, n, n);
    Beats(l, base, n - 1, n);
  }

  lemma SteadyStep(l: Limits, c: int, front: seq<Clock>, base: real, warm: nat, n: nat)
    requires Sane(l) && 0 < c <= l.tokens && n < l.requests && InOrder(l, c, front)
    requires if n == 0 then IsSteady(l, base, c, warm, 0, Rounds(l, c, front)) else Beaten(l, base, c, warm, n, Rounds(l, c, front))
    requires n > 0 ==> n * c + Estimate(l, c, warm + n) <= l.tokens
    ensures var clocks := front + [Clock(Beat(l, base, n), 0.0, 0.0)];
      InOrder(l, c, clocks) && Beaten(l, base, c, warm, n + 1, Rounds(l, c, clocks))
  {
    hide Interval, Beat, Acquired, Recorded, Estimate, Trailing, Rounds, InOrder, IsSteady, Beaten;
    var s := Rounds(l, c, front);
    if n > 0 { SteadyAgain(l, base, c, warm, n, s); } else { StartsLater(l, base, c, warm, s); }
    SteadyRound(l, base, c, warm, n, s);
    InOrderGrows(l, c, front, Clock(Beat(l, base, n), 0.0, 0.0));
  }

  /** Steady calls after any run that left the last minute empty. */
  lemma {:induction false} SteadyRounds(l: Limits, c: int, before: seq<Clock>, base: real, n: nat)
    requires Sane(l) && 0 < c <= l.tokens && 0 < n <= l.requests && InOrder(l, c, before)
    requires IsSteady(l, base, c, |before|, 0, Rounds(l, c, before))
    requires forall m: nat :: 0 < m < n ==> m * c + Estimate(l, c, |before| + m) <= l.tokens
    ensures InOrder(l, c, before + Steady(l, base, n))
    ensures Beaten(l, base, c, |before|, n, Rounds(l, c, before + Steady(l, base, n)))
  {
    hide Beat, Estimate, Rounds, InOrder, IsSteady, Beaten;
    assert before + Steady(l, base, n) == before + Steady(l, base, n - 1) + [Clock(Beat(l, base, n - 1), 0.0, 0.0)];
    if n == 1 {
      assert before + Steady(l, base, 0) == before;
    } else {
      SteadyRounds(l, c, before, base, n - 1);
    }
    SteadyStep(l, c, before + Steady(l, base, n - 1), base, |before|, n - 1);
  }

  lemma StartsLater(l: Limits, base: real, c: int, warm: nat, s: State)
    requires Sane(l) && IsSteady(l, base, c, warm, 0, s)
    ensures s.last <= Beat(l, base, 0)
  {
    IntervalsFillTheWindow(l, 0);
  }

  lemma InOrderGrows(l: Limits, c: int, front: seq<Clock>, clock: Clock)
    requires Sane(l) && InOrder(l, c, front) && Forward(clock) && clock.entry >= Rounds(l, c, front).last
    ensures InOrder(l, c, front + [clock])
    ensures Rounds(l, c, front + [clock]) == Recorded(l, Acquired(l, Rounds(l, c, front), clock), c)
  {
    hide Acquired, Recorded;
    var clocks := front + [clock];
    assert clocks[..|front|] == front;
    forall i | 0 <= i < |clocks| ensures Forward(clocks[i]) && clocks[i].entry >= Rounds(l, c, clocks[..i]).last {
      if i < |front| { assert clocks[..i] == front[..i]; }
    }
  }

  lemma RoomGrows(l: Limits, c: int, m: nat, k: nat)
    requires SEED < c <= l.tokens && m <= k && k == l.tokens / c
    requires k * c + Estimate(l, c, k) <= l.tokens
    ensures m * c + Estimate(l, c, m) <= l.tokens
  {
    OneMoreIsTooMany(l.tokens, c);
    EstimateClimbs(l, c, m, k);
    Multiples(m, k, c);
  }

  // ------------------------------- calls two minutes apart, to settle it

  function Apart(n: nat): (clocks: seq<Clock>)
    ensures |clocks| == n && forall i :: 0 <= i < n ==> clocks[i] == Clock((i + 1) as real * 120.0, 0.0, 0.0)
  {
    seq(n, i requires 0 <= i < n => Clock((i + 1) as real * 120.0, 0.0, 0.0))
  }

  /** The state after n of them: nothing of it is left two minutes later. */
  predicate IsApart(l: Limits, c: int, n: nat, s: State) {
    && s.estimate == Estimate(l, c, n) && s.last == n as real * 120.0
    && forall i :: 0 <= i < |s.ledger| ==> s.ledger[i].at <= s.last
  }

  lemma {:induction false} NothingTrails(ledger: seq<Spend>, now: real)
    requires forall i :: 0 <= i < |ledger| ==> now - ledger[i].at >= WINDOW
    ensures Trailing(ledger, now) == []
  {
    if ledger != [] { NothingTrails(ledger[1..], now); }
  }

  lemma ApartRound(l: Limits, c: int, n: nat, s: State)
    requires Sane(l) && 0 < c && l.tokens > 0 && IsApart(l, c, n, s)
    ensures IsApart(l, c, n + 1, Recorded(l, Acquired(l, s, Clock((n + 1) as real * 120.0, 0.0, 0.0)), c))
  {
    var now := (n + 1) as real * 120.0;
    assert now == s.last + 120.0;
    NothingTrails(s.ledger, now);
    Beats(l, 0.0, 0, 0);
    hide Interval, Smoothed;
    assert Trailing([], now) == [];
    assert Acquired(l, s, Clock(now, 0.0, 0.0)) == State(now, [Spend(now, s.estimate)], s.estimate);
  }

  lemma {:induction false} ApartRounds(l: Limits, c: int, n: nat)
    requires Sane(l) && 0 < c <= l.tokens
    ensures InOrder(l, c, Apart(n)) && IsApart(l, c, n, Rounds(l, c, Apart(n)))
  {
    hide Acquired, Recorded, Estimate;
    if n == 0 {
      EstimateAtZero(l, c);
    } else {
      ApartRounds(l, c, n - 1);
      var s := Rounds(l, c, Apart(n - 1));
      ApartRound(l, c, n - 1, s);
      assert Apart(n) == Apart(n - 1) + [Clock(n as real * 120.0, 0.0, 0.0)];
      InOrderGrows(l, c, Apart(n - 1), Clock(n as real * 120.0, 0.0, 0.0));
    }
  }

  lemma EstimateAtZero(l: Limits, c: int)
    ensures Estimate(l, c, 0) == SEED
  {
  }

  lemma ApartThenSteady(l: Limits, c: int, n: nat)
    requires Sane(l) && 0 < c <= l.tokens
    ensures IsSteady(l, (n + 1) as real * 120.0, c, n, 0, Rounds(l, c, Apart(n)))
  {
    hide Rounds, Estimate;
    var s, base := Rounds(l, c, Apart(n)), (n + 1) as real * 120.0;
    ApartRounds(l, c, n);
    assert base == s.last + 120.0;
    Beats(l, base, 0, 0);
    hide Interval;
    assert Beat(l, base, 0) == base;
    NothingTrails(s.ledger, base);
    assert SteadyLedger(l, base, c, 0) == [];
  }

  /** How many calls settle the estimate at its least. */
  function Warm(c: int): nat { if 0 < c <= SEED then SEED - c + 2 else 0 }

  lemma WarmLeavesRoom(l: Limits, c: int, m: nat)
    requires Sane(l) && 0 < c <= l.tokens && !EstimateHolds(l, c) && 0 < m <= l.tokens / c
    ensures m * c + Estimate(l, c, Warm(c) + m) <= l.tokens
  {
    hide Estimate;
    var k := l.tokens / c;
    OneMoreIsTooMany(l.tokens, c);
    Multiples(m, k, c);
    if c > SEED { RoomGrows(l, c, m, k); } else { EstimateSettles(l, c, Warm(c) + m); }
  }

  function Overspending(l: Limits, c: int): seq<Clock>
    requires Sane(l) && 0 < c <= l.tokens
  {
    OneMoreIsTooMany(l.tokens, c);
    Apart(Warm(c)) + Steady(l, (Warm(c) + 1) as real * 120.0, l.tokens / c + 1)
  }

  /** Without it the ceiling is broken: once the estimate is settled, calls at
      the steady rate overspend. */
  lemma TokensCeilingBreaks(l: Limits, c: int)
    requires Sane(l) && 0 < c <= l.tokens && !EstimateHolds(l, c)
    ensures InOrder(l, c, Overspending(l, c)) && !UnderCeiling(l, Rounds(l, c, Overspending(l, c)))
    ensures var s := Rounds(l, c, Overspending(l, c)); Total(Trailing(s.ledger, s.last)) == (l.tokens / c + 1) * c
  {
    hide Rounds, InOrder, Estimate, IsSteady;
    var k, n := l.tokens / c, Warm(c);
    var base := (n + 1) as real * 120.0;
    OneMoreIsTooMany(l.tokens, c);
    forall m: nat | 0 < m < k + 1 ensures m * c + Estimate(l, c, n + m) <= l.tokens { WarmLeavesRoom(l, c, m); }
    ApartRounds(l, c, n);
    ApartThenSteady(l, c, n);
    SteadyRounds(l, c, Apart(n), base, k + 1);
    SteadyTrails(l, base, c, k + 1, k);
    var s := Rounds(l, c, Overspending(l, c));
    TotalOf(s.ledger, c);
    assert Total(Trailing(s.ledger, s.last)) == (k + 1) * c > l.tokens by { OneMoreCosts(k, c); }
  }

  lemma OneMoreCosts(k: int, c: int)
    ensures (k + 1) * c == k * c + c
  {
  }

  /** At constant cost c, every run keeps to the tokens ceiling if and only if
      the estimate holds, whichever way the machine rounds. */
  lemma TokensCeilingIff(l: Limits, c: int)
    requires Sane(l) && 0 < c <= l.tokens
    ensures (forall clocks :: InOrder(l, c, clocks) ==> UnderCeiling(l, Rounds(l, c, clocks))) <==> EstimateHolds(l, c)
  {
    if EstimateHolds(l, c) {
      forall clocks | InOrder(l, c, clocks) ensures UnderCeiling(l, Rounds(l, c, clocks)) {
        TokensCeilingHolds(l, c, clocks);
      }
    } else {
      TokensCeilingBreaks(l, c);
    }
  }

  /** A call no dearer than the seed meets the condition, unless the ceiling is one
      token short of one call more and the cost slips. */
  lemma SeedCoversCheapCalls(l: Limits, c: int)
    requires 0 < c <= l.tokens && c <= SEED
    ensures EstimateHolds(l, c) <==> !(l.slips(c, c) && l.tokens % c == c - 1 && l.tokens / c < l.requests)
  {
    OneMoreIsTooMany(l.tokens, c);
    assert l.tokens == l.tokens / c * c + l.tokens % c;
  }

  /** As 1996 does: under a ceiling of 3991, a second such call in the minute. */
  lemma OneTokenTooMany(l: Limits)
    requires l.requests == 25 && l.tokens == 3991 && l.slips(1996, 1996)
    ensures var s := Rounds(l, 1996, Overspending(l, 1996));
      InOrder(l, 1996, Overspending(l, 1996)) && Total(Trailing(s.ledger, s.last)) == 3992
  {
    hide Rounds, InOrder, Estimate, EstimateHolds, Overspending, Trailing, Total;
    SeedCoversCheapCalls(l, 1996);
    TokensCeilingBreaks(l, 1996);
  }

  /** A dearer one need not: at 3000 tokens a call, three calls pass a ceiling of 8900. */
  lemma DearCallsOverspend(l: Limits)
    requires l.requests == 25 && l.tokens == 8900
    ensures !EstimateHolds(l, 3000)
  {
    assert Estimate(l, 3000, 0) == 2000;
    assert Estimate(l, 3000, 1) <= 2300;
    assert Estimate(l, 3000, 2) <= 2510;
  }
}
