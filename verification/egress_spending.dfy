/** What was really spent, against the ledger that stands for it: `record` corrects
    the last reservation, whoever's call it is
    (backend/agent/app/providers/resilient.py:116-160, 199-209). */
module EgressSpending {
  import opened EgressLimiter

  /** What the i-th acquisition's call really costs, recorded or not. */
  type Costs = nat -> int

  /** The real cost of the first n acquisitions that fall in the half-open minute from `a`. */
  function Spent(stamps: seq<real>, costs: Costs, a: real, n: nat): int
    requires n <= |stamps|
  {
    if n == 0 then 0
    else Spent(stamps, costs, a, n - 1) + (if a <= stamps[n - 1] < a + WINDOW then costs(n - 1) else 0)
  }

  lemma {:induction false} SpentIsFew(stamps: seq<real>, costs: Costs, a: real, n: nat, hi: int)
    requires n <= |stamps| && hi >= 0 && forall i: nat :: i < |stamps| ==> costs(i) <= hi
    ensures Spent(stamps, costs, a, n) <= |Within(stamps[..n], a)| * hi
  {
    var inside := Within(stamps[..n], a);
    if n == 0 {
      assert inside == {};
    } else {
      SpentIsFew(stamps, costs, a, n - 1, hi);
      var before := Within(stamps[..n - 1], a);
      if a <= stamps[n - 1] < a + WINDOW {
        assert inside == before + {n - 1};
        assert (|before| + 1) * hi == |before| * hi + hi;
      } else {
        assert inside == before;
      }
    }
  }

  /** Whoever reports when, or never, and however many calls are out at once: no
      half-open minute really costs more than the requests allowed in it, each at the
      dearest cost. */
  lemma RealMinuteIsBounded(l: Limits, run: seq<Action>, costs: Costs, hi: int, a: real)
    requires Sane(l) && Ticks(run) && hi >= 0
    requires forall i: nat :: i < |Exec(l, run).stamps| ==> costs(i) <= hi
    ensures var stamps := Exec(l, run).stamps; Spent(stamps, costs, a, |stamps|) <= l.requests * hi
  {
    var stamps := Exec(l, run).stamps;
    SpentIsFew(stamps, costs, a, |stamps|, hi);
    assert stamps[..|stamps|] == stamps;
    RequestsCeiling(l, run, a);
    Multiples(|Within(stamps, a)|, l.requests, if hi > 0 then hi else 1);
  }

  // --------------------------------------------------------- one call at a time

  datatype Round = Round(clock: Clock, cost: int)

  function After(l: Limits, rounds: seq<Round>): State
    requires Sane(l)
  {
    if rounds == [] then START
    else
      var n := |rounds| - 1;
      Recorded(l, Acquired(l, After(l, rounds[..n]), rounds[n].clock), rounds[n].cost)
  }

  /** Every call at its stamp with its real cost, for ever. */
  function Bills(l: Limits, rounds: seq<Round>): seq<Spend>
    requires Sane(l)
  {
    if rounds == [] then []
    else
      var n := |rounds| - 1;
      Bills(l, rounds[..n]) + (if rounds[n].cost > 0 then [Spend(After(l, rounds).last, rounds[n].cost)] else [])
  }

  lemma RoundLedger(l: Limits, s: State, r: Round)
    requires Sane(l) && Forward(r.clock)
    ensures var s1 := Recorded(l, Acquired(l, s, r.clock), r.cost); var now := Budgeted(l, s, r.clock);
      && r.clock.entry <= now <= s1.last
      && s1.ledger == (if l.tokens > 0 then Trailing(Trailing(s.ledger, r.clock.entry), now) else s.ledger)
           + (if r.cost > 0 then [Spend(s1.last, r.cost)] else [])
  {
    var a := Acquired(l, s, r.clock);
    var kept := if l.tokens > 0 then Trailing(Trailing(s.ledger, r.clock.entry), Budgeted(l, s, r.clock)) else s.ledger;
    assert a.ledger == kept + [Spend(a.last, s.estimate)];
    assert kept + [] == kept;
    hide Trailing, Interval;
  }

  /** With each call recorded before the next is let through, the ledger's trailing
      minute is what was really spent in it, at any moment, waits and pruning and all. */
  lemma {:induction false} LedgerIsTheTruth(l: Limits, rounds: seq<Round>, now: real)
    requires Sane(l) && (forall i :: 0 <= i < |rounds| ==> Forward(rounds[i].clock)) && now >= After(l, rounds).last
    ensures Trailing(After(l, rounds).ledger, now) == Trailing(Bills(l, rounds), now)
  {
    if rounds != [] {
      var n := |rounds| - 1;
      var s, r := After(l, rounds[..n]), rounds[n];
      var s1, budgeted := After(l, rounds), Budgeted(l, s, r.clock);
      AcquireSpaces(l, s, r.clock);
      IntervalsFillTheWindow(l, 0);
      hide Acquired, Interval, Trailing;
      RoundLedger(l, s, r);
      LastStays(l, s, r);
      LedgerIsTheTruth(l, rounds[..n], now);
      TrailingTwice(s.ledger, r.clock.entry, budgeted);
      TrailingTwice(s.ledger, budgeted, now);
      SameEnd(if l.tokens > 0 then Trailing(Trailing(s.ledger, r.clock.entry), budgeted) else s.ledger, Bills(l, rounds[..n]),
              if r.cost > 0 then [Spend(s1.last, r.cost)] else [], now);
    }
  }

  lemma LastStays(l: Limits, s: State, r: Round)
    requires Sane(l)
    ensures Recorded(l, Acquired(l, s, r.clock), r.cost).last == Acquired(l, s, r.clock).last
  {
    hide Acquired;
  }

  lemma SameEnd(a: seq<Spend>, b: seq<Spend>, end: seq<Spend>, now: real)
    requires Trailing(a, now) == Trailing(b, now) && |end| <= 1
    ensures Trailing(a + end, now) == Trailing(b + end, now)
  {
    hide Trailing;
    if end == [] {
      assert a + end == a && b + end == b;
    } else {
      assert end == [end[0]];
      TrailingSnoc(a, end[0], now);
      TrailingSnoc(b, end[0], now);
    }
  }

  // ------------------------------------------------------------- two calls out

  /** Two calls let through before either reports; both then report what they cost. */
  function TwoOut(l: Limits, s: State, c1: Clock, c2: Clock, first: int, second: int): State
    requires Sane(l)
  {
    Recorded(l, Recorded(l, Acquired(l, Acquired(l, s, c1), c2), first), second)
  }

  /** What is in the ledger then: for the first call the estimate, for the second the
      second report, whichever of the two made it. */
  lemma TwoOutLedger(l: Limits, s: State, c1: Clock, c2: Clock, first: int, second: int) returns (before: seq<Spend>)
    requires Sane(l) && Forward(c1) && Forward(c2) && first > 0 && second > 0
    requires l.tokens > 0 ==> c2.entry - Acquired(l, s, c1).last < WINDOW
    requires l.tokens > 0 ==> Budgeted(l, Acquired(l, s, c1), c2) - Acquired(l, s, c1).last < WINDOW
    ensures var s1 := Acquired(l, s, c1); var s2 := Acquired(l, s1, c2);
      TwoOut(l, s, c1, c2, first, second).ledger == before + [Spend(s1.last, s.estimate), Spend(s2.last, second)]
  {
    var s1 := Acquired(l, s, c1);
    var s2 := Acquired(l, s1, c2);
    var x, now := Spend(s1.last, s.estimate), Budgeted(l, s1, c2);
    var kept := if l.tokens > 0 then Trailing(Trailing(s.ledger, c1.entry), Budgeted(l, s, c1)) else s.ledger;
    assert s1.ledger == kept + [x] && s1.estimate == s.estimate;
    hide Interval, Trailing;
    if l.tokens > 0 {
      TrailingSnoc(kept, x, c2.entry);
      TrailingSnoc(Trailing(kept, c2.entry), x, now);
      before := Trailing(Trailing(kept, c2.entry), now);
    } else {
      before := kept;
    }
    assert s2.ledger == before + [x] + [Spend(s2.last, s.estimate)];
    var s3 := Recorded(l, s2, first);
    assert s3.ledger == before + [x] + [Spend(s2.last, first)];
    assert Recorded(l, s3, second).ledger == before + [x] + [Spend(s2.last, second)];
  }

  lemma {:induction false} TotalJoins(a: seq<Spend>, b: seq<Spend>)
    ensures Total(a + b) == Total(a) + Total(b)
  {
    if a == [] {
      assert a + b == b;
    } else {
      assert (a + b)[1..] == a[1..] + b;
      TotalJoins(a[1..], b);
    }
  }

  /** So the ledger tells what the two really cost exactly when the report that was
      written over, the one made first, happens to be the estimate. */
  lemma TwoOutTellTheTruthIff(l: Limits, s: State, c1: Clock, c2: Clock, first: int, second: int) returns (before: seq<Spend>)
    requires Sane(l) && Forward(c1) && Forward(c2) && first > 0 && second > 0
    requires l.tokens > 0 ==> c2.entry - Acquired(l, s, c1).last < WINDOW
    requires l.tokens > 0 ==> Budgeted(l, Acquired(l, s, c1), c2) - Acquired(l, s, c1).last < WINDOW
    ensures var ledger := TwoOut(l, s, c1, c2, first, second).ledger;
      && before <= ledger && |ledger| == |before| + 2
      && (Total(ledger) == Total(before) + first + second <==> first == s.estimate)
  {
    hide Acquired, TwoOut, Budgeted;
    before := TwoOutLedger(l, s, c1, c2, first, second);
    var x, y := Spend(Acquired(l, s, c1).last, s.estimate), Spend(Acquired(l, Acquired(l, s, c1), c2).last, second);
    TotalJoins(before, [x, y]);
    assert [x, y][1..] == [y] && Total([y]) == second && Total([x, y]) == s.estimate + second;
  }

  /** A call that fails reports nothing: its reservation stays at the estimate. */
  lemma FailedCallKeepsItsEstimate(l: Limits, s: State, c: Clock)
    requires Sane(l)
    ensures var s1 := Acquired(l, s, c);
      s1.ledger != [] && s1.ledger[|s1.ledger| - 1] == Spend(s1.last, s.estimate) && s1.estimate == s.estimate
  {
    hide Trailing, Interval;
  }
}
