/** The ingress limiter: a token bucket updated by one atomic script per call
    (backend/libs/adapters/ratelimit_redis.py). Times are in seconds; a key's
    expiry is judged by the clock the script is given. */
module TokenBucket {

  /** How the script's doubles land: the balance, from the tokens kept and the
      seconds since; the wait, from the balance; and capacity over refill. The
      charge itself is exact: what is at least one and a double loses one exactly. */
  datatype Doubles = Doubles(balance: (real, real) -> real, wait: real -> real, drained: real)

  /** `refill` is the rate meant, whatever the double it is kept in. */
  datatype Limits = Limits(capacity: real, refill: real, doubles: Doubles)

  predicate Sane(l: Limits) { l.capacity >= 1.0 && l.refill > 0.0 }

  datatype Bucket = Absent | Bucket(tokens: real, ts: real)

  datatype Answer = Admitted | Rejected(retryAfter: int)

  function Ceil(x: real): (n: int)
    ensures n as real - 1.0 < x <= n as real
  {
    -((-x).Floor)
  }

  function Least(a: real, b: real): real { if a <= b then a else b }

  /** What `d` seconds refill. */
  function Gain(l: Limits, d: real): real { d * l.refill }

  /** Doubles keep signs: nothing negative comes of what is not, and what is missing
      is waited for. */
  ghost predicate KeepsSigns(l: Limits) {
    && (forall tokens: real, d: real :: tokens >= 0.0 && d >= 0.0 ==> l.doubles.balance(tokens, d) >= 0.0)
    && (forall tokens: real :: tokens < 1.0 ==> l.doubles.wait(tokens) > 0.0)
  }

  predicate Close(a: real, b: real, error: real) { -error <= a - b <= error }

  /** Balances land within `eps` of their exact values, as far as a little over a
      bucketful, and waits within `delta`. */
  ghost predicate Within(l: Limits, eps: real, delta: real)
    requires Sane(l)
  {
    var full := l.capacity + l.refill;
    && eps >= 0.0 && delta >= 0.0
    && (forall tokens: real, d: real :: Close(Least(full, l.doubles.balance(tokens, d)), Least(full, tokens + Gain(l, d)), eps))
    && (forall tokens: real :: Close(l.doubles.wait(tokens), (1.0 - tokens) / l.refill, delta))
    && Close(l.doubles.drained, l.capacity / l.refill, delta)
  }

  /** Tokens on hand at `now`, after the refill and before the charge. */
  function OnHand(l: Limits, b: Bucket, now: real): real {
    match b
    case Absent => l.capacity
    case Bucket(tokens, ts) => Least(l.capacity, l.doubles.balance(tokens, now - ts))
  }

  /** The script, for a cost of one token. */
  function Charge(l: Limits, b: Bucket, now: real): (Bucket, Answer)
    requires Sane(l)
  {
    var tokens := OnHand(l, b, now);
    if tokens >= 1.0 then (Bucket(tokens - 1.0, now), Admitted)
    else (Bucket(tokens, now), Rejected(Ceil(l.doubles.wait(tokens))))
  }

  /** One second past the whole seconds that fill an empty bucket. */
  function Lifetime(l: Limits): (d: real)
    requires Sane(l)
    ensures l.doubles.drained + 1.0 <= d < l.doubles.drained + 2.0
  {
    (Ceil(l.doubles.drained) + 1) as real
  }

  /** A stored key, and the moment Redis drops it. */
  datatype Entry = Entry(bucket: Bucket, expires: real)

  function FoundIn(stored: Entry, now: real): Bucket {
    if now < stored.expires then stored.bucket else Absent
  }

  /** One call under a key: the store after it, and its answer. */
  function Touched(l: Limits, store: map<string, Entry>, key: string, now: real): (map<string, Entry>, Answer)
    requires Sane(l)
  {
    var charged := Charge(l, if key in store then FoundIn(store[key], now) else Absent, now);
    (store[key := Entry(charged.0, now + Lifetime(l))], AtLeastOne(charged.1))
  }

  class RedisRateLimiter {
    const limits: Limits
    var store: map<string, Entry>

    constructor (perMinute: nat, burst: int, doubles: Doubles)
      requires perMinute > 0
      ensures store == map[]
      ensures limits == Limits(if burst >= 1 then burst as real else 1.0, perMinute as real / 60.0, doubles) && Sane(limits)
    {
      limits := Limits(if burst >= 1 then burst as real else 1.0, perMinute as real / 60.0, doubles);
      store := map[];
    }

    /** The bucket the script finds under a key. */
    function Found(key: string, now: real): Bucket
      reads this
    {
      if key in store && now < store[key].expires then store[key].bucket else Absent
    }

    method Check(key: string, now: real) returns (answer: Answer)
      requires Sane(limits)
      modifies this`store
      ensures (store, answer) == Touched(limits, old(store), key, now)
    {
      var charged := Charge(limits, Found(key, now), now);
      store := store[key := Entry(charged.0, now + Lifetime(limits))];
      answer := AtLeastOne(charged.1);
    }
  }

  /** max(1, retry_after). */
  function AtLeastOne(answer: Answer): (r: Answer)
    ensures r.Rejected? <==> answer.Rejected?
    ensures r.Rejected? ==> r.retryAfter >= 1 && r.retryAfter >= answer.retryAfter && r.retryAfter in {1, answer.retryAfter}
  {
    match answer
    case Admitted => Admitted
    case Rejected(wait) => Rejected(if wait < 1 then 1 else wait)
  }

  /** max(1, retry_after) never has to raise it: a rejection asks for a wait. */
  lemma RejectionsWait(l: Limits, b: Bucket, now: real)
    requires Sane(l) && KeepsSigns(l)
    ensures AtLeastOne(Charge(l, b, now).1) == Charge(l, b, now).1
  {
  }

  // ------------------------------------------------------------- arithmetic

  /** n roundings. */
  function Drift(n: nat, eps: real): real { n as real * eps }

  lemma DriftAdds(m: nat, n: nat, eps: real)
    ensures Drift(m + n, eps) == Drift(m, eps) + Drift(n, eps)
    ensures Drift(0, eps) == 0.0 && Drift(1, eps) == eps
    ensures eps >= 0.0 ==> Drift(n, eps) >= 0.0
  {
  }

  lemma CloseBelow(full: real, x: real, y: real, eps: real, cap: real)
    requires Close(Least(full, x), Least(full, y), eps) && cap <= full
    ensures Close(Least(cap, x), Least(cap, y), eps)
  {
  }

  lemma BalanceIsClose(l: Limits, eps: real, delta: real, b: Bucket, now: real)
    requires Sane(l) && Within(l, eps, delta) && b.Bucket?
    ensures Close(OnHand(l, b, now), Least(l.capacity, b.tokens + Gain(l, now - b.ts)), eps)
    ensures eps <= l.refill && OnHand(l, b, now) < 1.0 ==> Close(OnHand(l, b, now), b.tokens + Gain(l, now - b.ts), eps)
  {
    hide Gain;
    var full := l.capacity + l.refill;
    var x, y := l.doubles.balance(b.tokens, now - b.ts), b.tokens + Gain(l, now - b.ts);
    assert Close(Least(full, x), Least(full, y), eps);
    CloseBelow(full, x, y, eps, l.capacity);
  }

  lemma GainAdds(l: Limits, a: real, b: real)
    ensures Gain(l, a + b) == Gain(l, a) + Gain(l, b)
  {
  }

  lemma GainGrows(l: Limits, a: real, b: real)
    requires Sane(l) && a >= b
    ensures Gain(l, a) >= Gain(l, b)
    ensures a > b ==> Gain(l, a) > Gain(l, b)
  {
    var d := a - b;
    assert d * l.refill >= 0.0;
    assert d > 0.0 ==> d * l.refill > 0.0;
    assert a * l.refill == b * l.refill + d * l.refill;
  }

  lemma GainOfNothing(l: Limits)
    ensures Gain(l, 0.0) == 0.0
  {
  }

  lemma DivMul(x: real, y: real)
    requires y > 0.0
    ensures x / y * y == x
  {
  }

  // ------------------------------------------------------------------ traces

  /** The bucket after calls at these times, never expiring. */
  function After(l: Limits, start: Bucket, nows: seq<real>): Bucket
    requires Sane(l)
  {
    if nows == [] then start
    else Charge(l, After(l, start, nows[..|nows| - 1]), nows[|nows| - 1]).0
  }

  function AnswerTo(l: Limits, start: Bucket, nows: seq<real>, i: nat): Answer
    requires Sane(l) && i < |nows|
  {
    Charge(l, After(l, start, nows[..i]), nows[i]).1
  }

  /** How many of the calls are admitted. */
  function Admissions(l: Limits, start: Bucket, nows: seq<real>): nat
    requires Sane(l)
  {
    if nows == [] then 0
    else
      Admissions(l, start, nows[..|nows| - 1])
      + (if AnswerTo(l, start, nows, |nows| - 1).Admitted? then 1 else 0)
  }

  predicate Monotone(nows: seq<real>) { forall i, j :: 0 <= i < j < |nows| ==> nows[i] <= nows[j] }

  /** Tokens are conserved: what was admitted and what is left came from one
      bucketful, the refill and a rounding per call. No assumption on the clock is
      needed. */
  lemma {:induction false} Conservation(l: Limits, eps: real, delta: real, start: Bucket, nows: seq<real>)
    requires Sane(l) && Within(l, eps, delta) && nows != []
    ensures After(l, start, nows).Bucket? && After(l, start, nows).ts == nows[|nows| - 1]
    ensures Admissions(l, start, nows) as real + After(l, start, nows).tokens
      <= l.capacity + Gain(l, nows[|nows| - 1] - nows[0]) + Drift(|nows|, eps)
  {
    hide Gain, Within, Drift;
    var n := |nows| - 1;
    WithinIsPositive(l, eps, delta);
    DriftAdds(n, 1, eps);
    DriftAdds(0, n, eps);
    if n == 0 {
      assert nows[..0] == [];
      GainOfNothing(l);
    } else {
      Conservation(l, eps, delta, start, nows[..n]);
      BalanceIsClose(l, eps, delta, After(l, start, nows[..n]), nows[n]);
      GainAdds(l, nows[n] - nows[n - 1], nows[n - 1] - nows[0]);
      assert nows[n] - nows[0] == (nows[n] - nows[n - 1]) + (nows[n - 1] - nows[0]);
    }
  }

  lemma WithinIsPositive(l: Limits, eps: real, delta: real)
    requires Sane(l) && Within(l, eps, delta)
    ensures eps >= 0.0 && delta >= 0.0
  {
  }

  lemma NeverInDebt(l: Limits, start: Bucket, nows: seq<real>)
    requires Sane(l) && KeepsSigns(l) && Monotone(nows) && nows != []
    requires start.Bucket? ==> start.tokens >= 0.0 && start.ts <= nows[0]
    ensures After(l, start, nows).Bucket? && After(l, start, nows).tokens >= 0.0 && After(l, start, nows).ts == nows[|nows| - 1]
  {
    var n := |nows| - 1;
    if n == 0 { assert nows[..0] == []; } else { NeverInDebt(l, start, nows[..n]); }
  }

  lemma {:induction false} AfterSplits(l: Limits, start: Bucket, a: seq<real>, b: seq<real>)
    requires Sane(l)
    ensures After(l, start, a + b) == After(l, After(l, start, a), b)
  {
    if b == [] {
      assert a + b == a;
    } else {
      AfterSplits(l, start, a, b[..|b| - 1]);
      assert (a + b)[..|a + b| - 1] == a + b[..|b| - 1];
    }
  }

  lemma {:induction false} AdmissionsSplit(l: Limits, start: Bucket, a: seq<real>, b: seq<real>)
    requires Sane(l)
    ensures Admissions(l, start, a + b) == Admissions(l, start, a) + Admissions(l, After(l, start, a), b)
  {
    if b == [] {
      assert a + b == a;
    } else {
      AdmissionsSplit(l, start, a, b[..|b| - 1]);
      AfterSplits(l, start, a, b[..|b| - 1]);
      assert (a + b)[..|a + b| - 1] == a + b[..|b| - 1];
    }
  }

  lemma NothingSpentYet(l: Limits)
    requires Sane(l)
    ensures After(l, Absent, []) == Absent
  {
  }

  lemma StretchBound(l: Limits, eps: real, delta: real, start: Bucket, nows: seq<real>)
    requires Sane(l) && KeepsSigns(l) && Within(l, eps, delta) && Monotone(nows) && nows != []
    requires start.Bucket? ==> start.tokens >= 0.0 && start.ts <= nows[0]
    ensures Admissions(l, start, nows) as real <= l.capacity + Gain(l, nows[|nows| - 1] - nows[0]) + Drift(|nows|, eps)
  {
    hide Gain, After, Admissions, Within, KeepsSigns, Drift;
    NeverInDebt(l, start, nows);
    Conservation(l, eps, delta, start, nows);
  }

  lemma PartsAreMonotone(nows: seq<real>, i: nat, j: nat)
    requires Monotone(nows) && i < j <= |nows|
    ensures Monotone(nows[..i]) && Monotone(nows[i..j])
    ensures i > 0 ==> nows[i - 1] <= nows[i]
  {
  }

  /** The calls i..j are those of a bucket that i calls have left. */
  lemma WindowSplits(l: Limits, nows: seq<real>, i: nat, j: nat)
    requires Sane(l) && KeepsSigns(l) && Monotone(nows) && i < j <= |nows|
    ensures var start := After(l, Absent, nows[..i]);
      && Admissions(l, Absent, nows[..j]) == Admissions(l, Absent, nows[..i]) + Admissions(l, start, nows[i..j])
      && (start.Bucket? ==> start.tokens >= 0.0 && start.ts <= nows[i])
  {
    hide After, Admissions, KeepsSigns, Monotone;
    PartsAreMonotone(nows, i, j);
    assert nows[..j] == nows[..i] + nows[i..j];
    AdmissionsSplit(l, Absent, nows[..i], nows[i..j]);
    NothingSpentYet(l);
    if i > 0 { NeverInDebt(l, Absent, nows[..i]); } else { assert nows[..i] == []; }
  }

  /** The limit. In every trace of a monotone clock, of the calls i..j, which span a
      window of length d, at most capacity + refill * d are admitted, and what a
      rounding of each of them may add. */
  lemma WindowBound(l: Limits, eps: real, delta: real, nows: seq<real>, i: nat, j: nat)
    requires Sane(l) && KeepsSigns(l) && Within(l, eps, delta) && Monotone(nows) && i < j <= |nows|
    ensures (Admissions(l, Absent, nows[..j]) - Admissions(l, Absent, nows[..i])) as real
      <= l.capacity + Gain(l, nows[j - 1] - nows[i]) + Drift(j - i, eps)
  {
    hide Gain, After, Admissions, Within, KeepsSigns, Drift, Monotone;
    PartsAreMonotone(nows, i, j);
    WindowSplits(l, nows, i, j);
    StretchBound(l, eps, delta, After(l, Absent, nows[..i]), nows[i..j]);
  }

  /** A call takes one token from what it finds, or none. */
  lemma OneMoreCall(l: Limits, nows: seq<real>, n: nat)
    requires Sane(l) && n < |nows|
    ensures var b := After(l, Absent, nows[..n + 1]);
      var taken := Admissions(l, Absent, nows[..n + 1]) - Admissions(l, Absent, nows[..n]);
      b.Bucket? && b.ts == nows[n] && b.tokens == OnHand(l, After(l, Absent, nows[..n]), nows[n]) - taken as real
  {
    assert nows[..n + 1][..n] == nows[..n];
  }

  /** What a call finds in the bucket, from some earlier moment when it was full: the
      refill since then, less what was admitted since. */
  lemma {:induction false} FullSince(l: Limits, eps: real, delta: real, nows: seq<real>, i: nat) returns (j: nat)
    requires Sane(l) && Within(l, eps, delta) && i < |nows|
    ensures j <= i
    ensures OnHand(l, After(l, Absent, nows[..i]), nows[i]) >= l.capacity + Gain(l, nows[i] - nows[j])
      - (Admissions(l, Absent, nows[..i]) - Admissions(l, Absent, nows[..j])) as real - Drift(i - j + 1, eps)
  {
    hide Gain, Within, Drift, After, Admissions, OnHand;
    WithinIsPositive(l, eps, delta);
    GainOfNothing(l);
    DriftAdds(1, 0, eps);
    if i == 0 {
      j := 0;
      assert nows[..0] == [];
      FreshIsFull(l, nows[0]);
    } else {
      j := FullSince(l, eps, delta, nows, i - 1);
      OneMoreCall(l, nows, i - 1);
      var b, d := After(l, Absent, nows[..i]), nows[i] - nows[i - 1];
      BalanceIsClose(l, eps, delta, b, nows[i]);
      if b.tokens + Gain(l, d) >= l.capacity {
        j := i;
      } else {
        GainAdds(l, d, nows[i - 1] - nows[j]);
        assert d + (nows[i - 1] - nows[j]) == nows[i] - nows[j];
        DriftAdds(i - j, 1, eps);
      }
    }
  }

  lemma FreshIsFull(l: Limits, now: real)
    requires Sane(l)
    ensures OnHand(l, After(l, Absent, []), now) == l.capacity
  {
  }

  /** Nobody is turned away early. A call is rejected only when the limit is used up:
      since some earlier moment the calls before it were admitted more than
      capacity + refill * d - 1 times, but for a rounding of each. */
  lemma RejectedOnlyAtTheLimit(l: Limits, eps: real, delta: real, nows: seq<real>, i: nat) returns (j: nat)
    requires Sane(l) && Within(l, eps, delta) && i < |nows| && AnswerTo(l, Absent, nows, i).Rejected?
    ensures j <= i
    ensures (Admissions(l, Absent, nows[..i]) - Admissions(l, Absent, nows[..j])) as real
      > l.capacity + Gain(l, nows[i] - nows[j]) - 1.0 - Drift(i - j + 1, eps)
  {
    hide Gain, After, Admissions, Within, Drift;
    j := FullSince(l, eps, delta, nows, i);
  }

  // ------------------------------------------------------------------ expiry

  /** The entry after calls at these times, each of which rewrites the expiry. */
  function Stored(l: Limits, nows: seq<real>): Entry
    requires Sane(l)
  {
    if nows == [] then Entry(Absent, 0.0)
    else
      var now := nows[|nows| - 1];
      Entry(Charge(l, FoundIn(Stored(l, nows[..|nows| - 1]), now), now).0, now + Lifetime(l))
  }

  /** All roundings of m calls and one wait together come to less than one second's
      refill, which is what the script's extra second and a caller's cover. */
  predicate Fine(l: Limits, eps: real, delta: real, m: nat) { Drift(m + 1, eps) + Gain(l, delta) <= l.refill }

  /** By then a bucketful and more has come in, enough to cover a rounding. */
  lemma LifetimeRefills(l: Limits, eps: real, delta: real, tokens: real, d: real)
    requires Sane(l) && Close(l.doubles.drained, l.capacity / l.refill, delta) && Fine(l, eps, delta, 0)
    requires tokens >= 0.0 && d >= Lifetime(l)
    ensures tokens + Gain(l, d) >= l.capacity + eps
  {
    var due := l.capacity / l.refill - delta + 1.0;
    DriftAdds(0, 1, eps);
    DivMul(l.capacity, l.refill);
    assert Lifetime(l) >= due;
    GainGrows(l, d, due);
    assert Gain(l, due) == l.capacity - Gain(l, delta) + l.refill;
  }

  lemma RefilledByExpiry(l: Limits, eps: real, delta: real, b: Bucket, now: real)
    requires Sane(l) && Within(l, eps, delta) && Fine(l, eps, delta, 0)
    requires b.Bucket? && b.tokens >= 0.0 && now >= b.ts + Lifetime(l)
    ensures OnHand(l, b, now) == l.capacity
  {
    hide Gain, Lifetime, Drift;
    WithinIsPositive(l, eps, delta);
    GainOfNothing(l);
    GainGrows(l, delta, 0.0);
    DriftAdds(0, 1, eps);
    LifetimeRefills(l, eps, delta, b.tokens, now - b.ts);
    var full := l.capacity + l.refill;
    assert Close(Least(full, l.doubles.balance(b.tokens, now - b.ts)), Least(full, b.tokens + Gain(l, now - b.ts)), eps);
  }

  /** Expiry is invisible: the bucket a call finds charges as if it had never
      been dropped, and the key always holds the never-expiring bucket. */
  lemma {:induction false} ExpiryIsInvisible(l: Limits, eps: real, delta: real, nows: seq<real>, now: real)
    requires Sane(l) && KeepsSigns(l) && Within(l, eps, delta) && Fine(l, eps, delta, 0) && Monotone(nows + [now])
    ensures Stored(l, nows).bucket == After(l, Absent, nows)
    ensures Charge(l, FoundIn(Stored(l, nows), now), now) == Charge(l, After(l, Absent, nows), now)
  {
    hide KeepsSigns, Within, Fine, Gain;
    if nows != [] {
      var n := |nows| - 1;
      assert nows[..n] + [nows[n]] == nows;
      assert Monotone(nows) by { assert nows == (nows + [now])[..n + 1]; }
      assert nows[n] <= now by { assert (nows + [now])[n] <= (nows + [now])[n + 1]; }
      ExpiryIsInvisible(l, eps, delta, nows[..n], nows[n]);
      NeverInDebt(l, Absent, nows);
      if now >= Stored(l, nows).expires { RefilledByExpiry(l, eps, delta, After(l, Absent, nows), now); }
    }
  }

  // ------------------------------------------------------------- many keys

  datatype Visit = Visit(key: string, now: real)

  /** The limiter's store after calls under any keys. */
  function Served(l: Limits, visits: seq<Visit>): map<string, Entry>
    requires Sane(l)
  {
    if visits == [] then map[]
    else
      var n := |visits| - 1;
      Touched(l, Served(l, visits[..n]), visits[n].key, visits[n].now).0
  }

  /** When a key was called. */
  function TimesOf(visits: seq<Visit>, key: string): seq<real> {
    if visits == [] then []
    else
      var n := |visits| - 1;
      TimesOf(visits[..n], key) + (if visits[n].key == key then [visits[n].now] else [])
  }

  lemma StoredNext(l: Limits, nows: seq<real>, now: real)
    requires Sane(l)
    ensures Stored(l, nows + [now]) == Entry(Charge(l, FoundIn(Stored(l, nows), now), now).0, now + Lifetime(l))
    ensures nows == [] ==> FoundIn(Stored(l, nows), now) == Absent
  {
    hide Lifetime, Charge;
    assert (nows + [now])[..|nows|] == nows;
  }

  /** What is under a key comes of the calls under that key alone. */
  lemma {:induction false} KeysAreApart(l: Limits, visits: seq<Visit>, key: string)
    requires Sane(l)
    ensures var store, nows := Served(l, visits), TimesOf(visits, key);
      (key in store <==> nows != []) && (key in store ==> store[key] == Stored(l, nows))
  {
    hide Lifetime, Charge;
    if visits != [] {
      var n := |visits| - 1;
      KeysAreApart(l, visits[..n], key);
      if visits[n].key == key {
        var before, nows := Served(l, visits[..n]), TimesOf(visits[..n], key);
        StoredNext(l, nows, visits[n].now);
        assert TimesOf(visits, key) == nows + [visits[n].now];
        assert Served(l, visits) == Touched(l, before, key, visits[n].now).0;
      } else {
        assert TimesOf(visits, key) == TimesOf(visits[..n], key);
      }
    }
  }

  /** Each key has a bucket of its own that never expires: a call is answered as the
      bucket charged by the earlier calls under its key would. */
  lemma EveryKeyHasItsBucket(l: Limits, eps: real, delta: real, visits: seq<Visit>, key: string, now: real)
    requires Sane(l) && KeepsSigns(l) && Within(l, eps, delta) && Fine(l, eps, delta, 0)
    requires Monotone(TimesOf(visits, key) + [now])
    ensures Touched(l, Served(l, visits), key, now).1 == AnswerTo(l, Absent, TimesOf(visits, key) + [now], |TimesOf(visits, key)|)
  {
    hide KeepsSigns, Within, Fine, Served, TimesOf, Lifetime, Monotone;
    var nows := TimesOf(visits, key);
    KeysAreApart(l, visits, key);
    ExpiryIsInvisible(l, eps, delta, nows, now);
    RejectionsWait(l, After(l, Absent, nows), now);
    assert (nows + [now])[..|nows|] == nows;
    assert (nows + [now])[|nows|] == now;
  }

  // ------------------------------------------------------------- retry_after

  /** After a rejection and any further rejections, the balance is what it was plus
      the refill since, up to a rounding per call. */
  lemma {:induction false} RejectedCallsCostNothing(l: Limits, eps: real, delta: real, b: Bucket, nows: seq<real>)
    requires Sane(l) && Within(l, eps, delta) && eps <= l.refill && b.Bucket?
    requires forall i :: 0 <= i < |nows| ==> AnswerTo(l, b, nows, i).Rejected?
    ensures var after := After(l, b, nows);
      && after.Bucket?
      && after.ts == (if nows == [] then b.ts else nows[|nows| - 1])
      && Close(after.tokens, b.tokens + Gain(l, after.ts - b.ts), Drift(|nows|, eps))
  {
    hide Gain, Within, Drift;
    GainOfNothing(l);
    DriftAdds(0, 0, eps);
    if nows != [] {
      var n := |nows| - 1;
      forall i | 0 <= i < n ensures AnswerTo(l, b, nows[..n], i).Rejected? {
        assert AnswerTo(l, b, nows, i).Rejected?;
        assert nows[..n][..i] == nows[..i];
      }
      RejectedCallsCostNothing(l, eps, delta, b, nows[..n]);
      assert AnswerTo(l, b, nows, n).Rejected?;
      var before := After(l, b, nows[..n]);
      BalanceIsClose(l, eps, delta, before, nows[n]);
      GainAdds(l, before.ts - b.ts, nows[n] - before.ts);
      assert nows[n] - b.ts == (before.ts - b.ts) + (nows[n] - before.ts);
      DriftAdds(n, 1, eps);
    }
  }

  /** What is on hand at t + s after a rejection at t and any more in between. */
  lemma BalanceAfter(l: Limits, eps: real, delta: real, b: Bucket, between: seq<real>, s: int)
    requires Sane(l) && Within(l, eps, delta) && Fine(l, eps, delta, |between|) && b.Bucket?
    requires forall i :: 0 <= i < |between| ==> AnswerTo(l, b, between, i).Rejected?
    ensures var hand := OnHand(l, After(l, b, between), b.ts + s as real); var exact := b.tokens + Gain(l, s as real);
      var drift := Drift(|between| + 1, eps);
      && (exact - drift >= 1.0 ==> hand >= 1.0) && (exact + drift < 1.0 ==> hand < 1.0)
  {
    hide Gain, Within, Drift, AnswerTo;
    WithinIsPositive(l, eps, delta);
    DriftAdds(|between|, 1, eps);
    GainOfNothing(l);
    GainGrows(l, delta, 0.0);
    DriftAdds(0, |between|, eps);
    RejectedCallsCostNothing(l, eps, delta, b, between);
    var after := After(l, b, between);
    BalanceIsClose(l, eps, delta, after, b.ts + s as real);
    GainAdds(l, after.ts - b.ts, b.ts + s as real - after.ts);
    assert (after.ts - b.ts) + (b.ts + s as real - after.ts) == s as real;
  }

  /** The wait a rejection reports is, to a second either way, what refills the rest. */
  lemma WaitRefills(l: Limits, eps: real, delta: real, m: nat, tokens: real, s: int)
    requires Sane(l) && Within(l, eps, delta) && Fine(l, eps, delta, m)
    ensures var told := Ceil(l.doubles.wait(tokens)); var exact := tokens + Gain(l, s as real);
      && (s >= told + 1 ==> exact - Drift(m + 1, eps) >= 1.0)
      && (s <= told - 2 ==> exact + Drift(m + 1, eps) < 1.0)
  {
    var told, wait := Ceil(l.doubles.wait(tokens)), (1.0 - tokens) / l.refill;
    assert Close(l.doubles.wait(tokens), wait, delta);
    hide Within, Ceil, Drift;
    DivMul(1.0 - tokens, l.refill);
    assert Gain(l, wait + delta - 1.0) == 1.0 - tokens + Gain(l, delta) - l.refill;
    assert Gain(l, wait - delta + 1.0) == 1.0 - tokens - Gain(l, delta) + l.refill;
    if s >= told + 1 { GainGrows(l, s as real, wait - delta + 1.0); }
    if s <= told - 2 { GainGrows(l, wait + delta - 1.0, s as real); }
  }

  /** retry_after is right to the second. Rejected at t, and with any number of
      rejected calls in between, a call a whole s seconds after t is admitted when s
      is more than the retry_after given, and rejected when it is two less or more:
      as long as the roundings come to less than a second's refill. */
  lemma RetryAfterIsClose(l: Limits, eps: real, delta: real, b0: Bucket, t: real, between: seq<real>, s: int)
    requires Sane(l) && Within(l, eps, delta) && Fine(l, eps, delta, |between|)
    requires Charge(l, b0, t).1.Rejected?
    requires forall i :: 0 <= i < |between| ==> AnswerTo(l, Charge(l, b0, t).0, between, i).Rejected?
    ensures var told := Charge(l, b0, t).1.retryAfter;
      var answer := Charge(l, After(l, Charge(l, b0, t).0, between), t + s as real).1;
      (s >= told + 1 ==> answer.Admitted?) && (s <= told - 2 ==> answer.Rejected?)
  {
    var b := Charge(l, b0, t).0;
    hide Gain, Ceil, Within, Drift, Fine, After, AnswerTo;
    BalanceAfter(l, eps, delta, b, between, s);
    WaitRefills(l, eps, delta, |between|, b.tokens, s);
  }

  /** Where nothing rounds it is exact: admitted if and only if s is at least the
      retry_after that was given. */
  lemma RetryAfterIsExact(l: Limits, b0: Bucket, t: real, between: seq<real>, s: int)
    requires Sane(l) && Within(l, 0.0, 0.0)
    requires Charge(l, b0, t).1.Rejected?
    requires forall i :: 0 <= i < |between| ==> AnswerTo(l, Charge(l, b0, t).0, between, i).Rejected?
    ensures Charge(l, After(l, Charge(l, b0, t).0, between), t + s as real).1.Admitted?
      <==> s >= Charge(l, b0, t).1.retryAfter
  {
    var b := Charge(l, b0, t).0;
    NothingDrifts(l, |between|);
    ExactWait(l, b.tokens, s);
    hide Gain, Ceil, Within, Drift, Fine, After, AnswerTo;
    BalanceAfter(l, 0.0, 0.0, b, between, s);
  }

  lemma NothingDrifts(l: Limits, m: nat)
    requires Sane(l)
    ensures Fine(l, 0.0, 0.0, m) && Drift(m + 1, 0.0) == 0.0
  {
  }

  lemma ExactWait(l: Limits, tokens: real, s: int)
    requires Sane(l) && Within(l, 0.0, 0.0)
    ensures s >= Ceil(l.doubles.wait(tokens)) <==> tokens + Gain(l, s as real) >= 1.0
  {
    var wait := (1.0 - tokens) / l.refill;
    assert Close(l.doubles.wait(tokens), wait, 0.0);
    DivMul(1.0 - tokens, l.refill);
    assert Gain(l, wait) == 1.0 - tokens;
    if s >= Ceil(wait) { GainGrows(l, s as real, wait); } else { GainGrows(l, wait, s as real); }
  }

  // ------------------------------------------ both seconds in doubt do happen

  const TINY := 0.0000000000000001

  /** Three a minute, five at once; of 0.1 and eighteen seconds' refill the doubles
      make a little less than one. */
  const SLIPS := Limits(5.0, 0.05, Doubles(
    (tokens, d) => if tokens == 0.1 && d == 18.0 then 1.0 - TINY else tokens + d * 0.05,
    tokens => (1.0 - tokens) / 0.05, 100.0))

  function Seconds(n: nat): (nows: seq<real>)
    ensures |nows| == n && forall i :: 0 <= i < n ==> nows[i] == i as real
  {
    seq(n, i requires 0 <= i < n => i as real)
  }

  lemma SlipsAreTiny()
    ensures Within(SLIPS, TINY, 0.0) && KeepsSigns(SLIPS) && forall m: nat :: m <= 1000 ==> Fine(SLIPS, TINY, 0.0, m)
  {
    var full := SLIPS.capacity + SLIPS.refill;
    forall tokens: real, d: real
      ensures Close(Least(full, SLIPS.doubles.balance(tokens, d)), Least(full, tokens + Gain(SLIPS, d)), TINY)
    {
      if tokens == 0.1 && d == 18.0 { assert tokens + Gain(SLIPS, d) == 1.0; }
    }
    forall m: nat | m <= 1000 ensures Fine(SLIPS, TINY, 0.0, m) {
      assert (m + 1) as real * TINY <= 1001.0 * TINY;
    }
  }

  /** What the n-th call of one a second, from a full bucket, leaves. */
  function Kept(n: nat): real {
    if n <= 4 then 4.0 - n as real * 0.95
    else if n <= 19 then 0.2 + (n - 4) as real * 0.05
    else if n == 20 then 0.0 else (n - 20) as real * 0.05
  }

  lemma SecondLater(n: nat)
    requires n < 22
    ensures Charge(SLIPS, Bucket(Kept(n), n as real), (n + 1) as real)
      == (Bucket(Kept(n + 1), (n + 1) as real), if n + 1 <= 4 || n + 1 == 20 then Admitted else Rejected(Ceil((1.0 - Kept(n + 1)) / 0.05)))
  {
    assert (n + 1) as real - n as real == 1.0;
  }

  lemma {:induction false} OneASecond(n: nat)
    requires n <= 22
    ensures After(SLIPS, Absent, Seconds(n + 1)) == Bucket(Kept(n), n as real)
  {
    hide Charge, Kept;
    assert Seconds(n + 1)[..n] == Seconds(n);
    if n == 0 {
      FirstOne();
    } else {
      OneASecond(n - 1);
      SecondLater(n - 1);
    }
  }

  lemma FirstOne()
    ensures Charge(SLIPS, After(SLIPS, Absent, Seconds(0)), 0.0).0 == Bucket(Kept(0), 0.0)
  {
  }

  lemma TwentyThirdCall()
    ensures Charge(SLIPS, Bucket(Kept(21), 21.0), 22.0) == (Bucket(0.1, 22.0), Rejected(18))
    ensures Charge(SLIPS, Bucket(0.1, 22.0), 22.0 + 18.0).1.Rejected?
  {
    assert Kept(21) == 0.05 && 0.9 / 0.05 == 18.0;
  }

  /** The 23rd call is told eighteen seconds, waits them, and is rejected again. */
  lemma ToldTooLittle()
    ensures Within(SLIPS, TINY, 0.0) && Fine(SLIPS, TINY, 0.0, 0)
    ensures AnswerTo(SLIPS, Absent, Seconds(23), 22) == Rejected(18)
    ensures Charge(SLIPS, After(SLIPS, Absent, Seconds(23)), 22.0 + 18.0).1.Rejected?
  {
    hide After, Within, Charge, Kept, KeepsSigns, Fine;
    SlipsAreTiny();
    OneASecond(21);
    OneASecond(22);
    TwentyThirdCall();
    assert Seconds(23)[..22] == Seconds(22);
    LastCharge(Absent, Seconds(23));
  }

  lemma LastCharge(start: Bucket, nows: seq<real>)
    requires nows != []
    ensures After(SLIPS, start, nows) == Charge(SLIPS, After(SLIPS, start, nows[..|nows| - 1]), nows[|nows| - 1]).0
  {
  }

  /** One a minute, one at once; of what 4/15 lack the doubles make a little more
      than forty-four seconds. */
  const CREEPS := Limits(1.0, 1.0 / 60.0, Doubles(
    (tokens, d) => tokens + d * (1.0 / 60.0),
    tokens => if tokens == 16.0 / 60.0 then 44.0 + TINY else (1.0 - tokens) / (1.0 / 60.0), 60.0))

  /** The second call is told forty-five seconds, and is admitted after forty-four. */
  lemma ToldTooMuch()
    ensures Within(CREEPS, 0.0, TINY) && Fine(CREEPS, 0.0, TINY, 0)
    ensures AnswerTo(CREEPS, Absent, [0.0, 16.0], 1) == Rejected(45)
    ensures Charge(CREEPS, After(CREEPS, Absent, [0.0, 16.0]), 16.0 + 44.0).1.Admitted?
  {
    CreepsAreTiny();
    assert [0.0, 16.0][..1] == [0.0] && [0.0][..0] == [];
    assert After(CREEPS, Absent, []) == Absent;
    assert After(CREEPS, Absent, [0.0]) == Bucket(0.0, 0.0);
    hide Within;
    assert OnHand(CREEPS, Bucket(0.0, 0.0), 16.0) == 16.0 / 60.0;
    assert After(CREEPS, Absent, [0.0, 16.0]) == Bucket(16.0 / 60.0, 16.0);
    assert OnHand(CREEPS, Bucket(16.0 / 60.0, 16.0), 60.0) == 1.0;
  }

  lemma CreepsAreTiny()
    ensures Within(CREEPS, 0.0, TINY) && Fine(CREEPS, 0.0, TINY, 0)
  {
    assert (1.0 - 16.0 / 60.0) / (1.0 / 60.0) == 44.0;
    assert 1.0 / (1.0 / 60.0) == 60.0;
  }
}
