/** Filing a claim once: look the key up, append, note the key
    (backend/agent/app/tools/claims.py:215-271, libs/resilience/policy.py:149-157). */
module IdempotentClaims {
  import opened GraphState
  import opened Options
  import opened ClaimsFile

  /** idempotency_key digests all four without collision, so they are the key.
      The agent never passes a user or a turn: both keep their defaults
      (worker.py:287). */
  datatype Key = Key(user: string, args: ClaimArgs, turn: nat)

  datatype Store = Store(claims: seq<Claim>, keys: map<Key, nat>)

  datatype Answer = Filed(claim: Claim) | Replayed(claim: Claim) | NotFound | Refused

  function ByNumber(claims: seq<Claim>, number: nat): (r: Option<Claim>)
    ensures r.Some? ==> r.value in claims && r.value.number == number
    ensures r == None ==> forall c :: c in claims ==> c.number != number
  {
    if claims == [] then None
    else if claims[0].number == number then Some(claims[0])
    else ByNumber(claims[1..], number)
  }

  /** One call: what it leaves, and what it answers. */
  function Submitted(s: Store, key: Key): (Store, Answer) {
    if key in s.keys then
      match ByNumber(s.claims, s.keys[key])
      case Some(c) => (s, Replayed(c))
      case None => (s, NotFound)
    else
      match NextClaim(s.claims, key.args)
      case Some(c) => (Store(s.claims + [c], s.keys[key := c.number]), Filed(c))
      case None => (s, Refused)
  }

  /** The key's number is borne by one claim, which has the key's arguments. */
  ghost predicate Stands(claims: seq<Claim>, key: Key, number: nat) {
    exists i :: 0 <= i < |claims| && claims[i].number == number && claims[i].args == key.args
      && forall j :: 0 <= j < |claims| && j != i ==> claims[j].number != number
  }

  ghost predicate Sound(s: Store) { forall key :: key in s.keys ==> Stands(s.claims, key, s.keys[key]) }

  class SubmitClaimTool {
    const repo: JsonFileClaimsRepo
    const user: string
    const turn: nat
    var stored: map<Key, nat>

    ghost function State(): Store
      reads this, repo
    {
      Store(repo.Claims(), stored)
    }

    constructor (repo: JsonFileClaimsRepo, user: string, turn: nat)
      ensures this.repo == repo && this.user == user && this.turn == turn && stored == map[]
    {
      this.repo, this.user, this.turn, stored := repo, user, turn, map[];
    }

    method Submit(args: ClaimArgs) returns (answer: Answer)
      requires Sound(State())
      modifies this, repo
      ensures Sound(State()) && State() == Submitted(old(State()), Key(user, args, turn)).0
      ensures answer == Submitted(old(State()), Key(user, args, turn)).1 && !answer.NotFound?
    {
      hide Sound, Stands, NextClaim, ByNumber;
      var key := Key(user, args, turn);
      SubmitKeepsSound(State(), key);
      if key in stored {
        StoredIsFound(State(), key);
        var claim, known := repo.Get(stored[key]);
        OnlyOne(State(), key, claim);
        return Replayed(claim.value);
      }
      var claim := repo.Append(args);
      if claim == None { return Refused; }
      stored := stored[key := claim.value.number];
      return Filed(claim.value);
    }
  }

  lemma StoredIsFound(s: Store, key: Key)
    requires Sound(s) && key in s.keys
    ensures ByNumber(s.claims, s.keys[key]).Some? && ByNumber(s.claims, s.keys[key]).value.args == key.args
    ensures exists c :: c in s.claims && c.number == s.keys[key]
  {
    assert Stands(s.claims, key, s.keys[key]);
  }

  /** Whatever claim bears the number is the one. */
  lemma OnlyOne(s: Store, key: Key, found: Option<Claim>)
    requires Sound(s) && key in s.keys
    requires found.Some? ==> found.value in s.claims && found.value.number == s.keys[key]
    ensures found.Some? ==> found == ByNumber(s.claims, s.keys[key])
  {
    assert Stands(s.claims, key, s.keys[key]);
  }

  lemma StandsLonger(claims: seq<Claim>, c: Claim, key: Key, number: nat)
    requires Stands(claims, key, number) && c.number != number
    ensures Stands(claims + [c], key, number)
  {
    var i :| 0 <= i < |claims| && claims[i].number == number && claims[i].args == key.args
      && forall j :: 0 <= j < |claims| && j != i ==> claims[j].number != number;
    assert (claims + [c])[i] == claims[i];
  }

  lemma StandsFirst(claims: seq<Claim>, c: Claim, key: Key)
    requires c.args == key.args && forall d :: d in claims ==> d.number < c.number
    ensures Stands(claims + [c], key, c.number)
  {
    assert (claims + [c])[|claims|] == c;
  }

  lemma SubmitKeepsSound(s: Store, key: Key)
    requires Sound(s)
    ensures Sound(Submitted(s, key).0)
  {
    hide Stands, NextClaim, ByNumber;
    if key !in s.keys && NextClaim(s.claims, key.args).Some? {
      var c := NextClaim(s.claims, key.args).value;
      StandsFirst(s.claims, c, key);
      forall k | k in s.keys ensures Stands(s.claims + [c], k, s.keys[k]) {
        StoredIsFound(s, k);
        StandsLonger(s.claims, c, k, s.keys[k]);
      }
    }
  }

  // ------------------------------------------------------- sequential runs

  function Start(seed: seq<Claim>): Store { Store(seed, map[]) }

  function Exec(seed: seq<Claim>, calls: seq<Key>): Store {
    if calls == [] then Start(seed) else Submitted(Exec(seed, calls[..|calls| - 1]), calls[|calls| - 1]).0
  }

  function AnswerTo(seed: seq<Claim>, calls: seq<Key>, i: nat): Answer
    requires i < |calls|
  {
    Submitted(Exec(seed, calls[..i]), calls[i]).1
  }

  lemma {:induction false} RunKeepsSound(seed: seq<Claim>, calls: seq<Key>)
    ensures Sound(Exec(seed, calls))
  {
    hide Sound, Submitted;
    if calls == [] {
      assert Sound(Start(seed)) by { NothingStored(seed); }
    } else {
      RunKeepsSound(seed, calls[..|calls| - 1]);
      SubmitKeepsSound(Exec(seed, calls[..|calls| - 1]), calls[|calls| - 1]);
    }
  }

  lemma NothingStored(seed: seq<Claim>)
    ensures Sound(Start(seed))
  {
  }

  /** In every sequential run a stored key leads to a claim that exists and has
      its arguments: asking for it never fails, and re-executing the call
      leaves the repository as it is. */
  lemma StoredKeysReplay(seed: seq<Claim>, calls: seq<Key>, key: Key)
    requires key in Exec(seed, calls).keys
    ensures var s := Exec(seed, calls); var (s1, answer) := Submitted(s, key);
      s1 == s && answer.Replayed? && answer.claim in s.claims && answer.claim.number == s.keys[key] && answer.claim.args == key.args
  {
    hide Exec, Sound;
    RunKeepsSound(seed, calls);
    StoredIsFound(Exec(seed, calls), key);
  }

  lemma {:induction false} KeysLast(seed: seq<Claim>, calls: seq<Key>, i: nat, key: Key)
    requires i <= |calls| && key in Exec(seed, calls[..i]).keys
    ensures key in Exec(seed, calls).keys && Exec(seed, calls).keys[key] == Exec(seed, calls[..i]).keys[key]
    ensures Exec(seed, calls[..i]).claims <= Exec(seed, calls).claims
  {
    hide NextClaim, ByNumber;
    if i == |calls| {
      assert calls[..i] == calls;
    } else {
      assert calls[..|calls| - 1][..i] == calls[..i];
      KeysLast(seed, calls[..|calls| - 1], i, key);
    }
  }

  /** The same call again, for as long as its key is kept, gets the first claim
      back: with a turn that never changes, a genuine second claim is not filed. */
  lemma SameCallSameClaim(seed: seq<Claim>, calls: seq<Key>, i: nat, j: nat)
    requires i < j < |calls| && calls[i] == calls[j]
    requires AnswerTo(seed, calls, i).Filed?
    ensures AnswerTo(seed, calls, j) == Replayed(AnswerTo(seed, calls, i).claim)
  {
    hide NextClaim, Sound;
    var key, c := calls[i], AnswerTo(seed, calls, i).claim;
    assert calls[..i + 1][..i] == calls[..i];
    assert key in Exec(seed, calls[..i + 1]).keys;
    assert calls[..j][..i + 1] == calls[..i + 1];
    KeysLast(seed, calls[..j], i + 1, key);
    var s := Exec(seed, calls[..j]);
    assert s.keys[key] == c.number;
    assert c in Exec(seed, calls[..i + 1]).claims;
    RunKeepsSound(seed, calls[..j]);
    StoredIsFound(s, key);
    OnlyOne(s, key, Some(c));
  }

  predicate KeyOf(s: Store, key: Key, c: Claim) { key in s.keys && key.args == c.args && s.keys[key] == c.number }

  ghost predicate HasKey(s: Store, c: Claim) { exists key :: KeyOf(s, key, c) }

  /** As many keys as claims filed, and each of those claims has its key. */
  ghost predicate Accounted(seed: seq<Claim>, s: Store) {
    && seed <= s.claims
    && |s.keys| == |s.claims| - |seed|
    && (forall i :: |seed| <= i < |s.claims| ==> HasKey(s, s.claims[i]))
  }

  lemma OneMoreKey(seed: seq<Claim>, s: Store, key: Key, c: Claim)
    requires Accounted(seed, s) && key !in s.keys && c.args == key.args
    ensures Accounted(seed, Store(s.claims + [c], s.keys[key := c.number]))
  {
    var s1 := Store(s.claims + [c], s.keys[key := c.number]);
    forall i | |seed| <= i < |s1.claims| ensures HasKey(s1, s1.claims[i]) {
      if i < |s.claims| {
        assert HasKey(s, s.claims[i]);
        var k :| KeyOf(s, k, s.claims[i]);
        assert KeyOf(s1, k, s1.claims[i]);
      } else {
        assert KeyOf(s1, key, s1.claims[i]);
      }
    }
  }

  lemma {:induction false} FiledClaimsAreKeyed(seed: seq<Claim>, calls: seq<Key>)
    ensures Accounted(seed, Exec(seed, calls))
  {
    hide NextClaim, ByNumber, Accounted;
    if calls == [] {
      assert Accounted(seed, Start(seed)) by { NothingToAccount(seed); }
    } else {
      var s, key := Exec(seed, calls[..|calls| - 1]), calls[|calls| - 1];
      FiledClaimsAreKeyed(seed, calls[..|calls| - 1]);
      if key !in s.keys && NextClaim(s.claims, key.args).Some? { OneMoreKey(seed, s, key, NextClaim(s.claims, key.args).value); }
    }
  }

  lemma NothingToAccount(seed: seq<Claim>)
    ensures Accounted(seed, Start(seed))
  {
  }

  predicate OneTurn(calls: seq<Key>) {
    forall i, j :: 0 <= i < j < |calls| ==> calls[i].user == calls[j].user && calls[i].turn == calls[j].turn
  }

  lemma {:induction false} KeysAreCalled(seed: seq<Claim>, calls: seq<Key>)
    ensures forall key :: key in Exec(seed, calls).keys ==> key in calls
  {
    hide NextClaim, ByNumber;
    if calls != [] {
      KeysAreCalled(seed, calls[..|calls| - 1]);
      assert calls == calls[..|calls| - 1] + [calls[|calls| - 1]];
    }
  }

  predicate ArgumentsDiffer(claims: seq<Claim>, from: nat) {
    forall i, j :: from <= i < j < |claims| ==> claims[i].args != claims[j].args
  }

  lemma OneMoreDiffers(claims: seq<Claim>, from: nat, c: Claim)
    requires ArgumentsDiffer(claims, from) && forall i :: from <= i < |claims| ==> claims[i].args != c.args
    ensures ArgumentsDiffer(claims + [c], from)
  {
  }

  /** As the agent is wired, no two claims filed have the same arguments. */
  lemma {:induction false} FiledArgumentsDiffer(seed: seq<Claim>, calls: seq<Key>)
    requires OneTurn(calls)
    ensures ArgumentsDiffer(Exec(seed, calls).claims, |seed|)
  {
    hide NextClaim, ByNumber, Accounted, ArgumentsDiffer;
    if calls == [] {
      assert ArgumentsDiffer(seed, |seed|) by { SeedsDoNotCount(seed); }
    } else {
      var front, key := calls[..|calls| - 1], calls[|calls| - 1];
      var s := Exec(seed, front);
      assert front + [key] == calls;
      FiledArgumentsDiffer(seed, front);
      KeysAreCalled(seed, front);
      if key !in s.keys && NextClaim(s.claims, key.args).Some? {
        forall i | |seed| <= i < |s.claims| ensures s.claims[i].args != key.args { NotFiledYet(seed, front, key, i); }
        OneMoreDiffers(s.claims, |seed|, NextClaim(s.claims, key.args).value);
      }
    }
  }

  lemma SeedsDoNotCount(seed: seq<Claim>)
    ensures ArgumentsDiffer(seed, |seed|)
  {
  }

  lemma NotFiledYet(seed: seq<Claim>, calls: seq<Key>, key: Key, i: nat)
    requires OneTurn(calls + [key]) && key !in Exec(seed, calls).keys
    requires forall k :: k in Exec(seed, calls).keys ==> k in calls
    requires |seed| <= i < |Exec(seed, calls).claims|
    ensures Exec(seed, calls).claims[i].args != key.args
  {
    hide Exec;
    FiledClaimsAreKeyed(seed, calls);
    var s := Exec(seed, calls);
    assert HasKey(s, s.claims[i]);
    var k :| KeyOf(s, k, s.claims[i]);
    var n :| 0 <= n < |calls| && calls[n] == k;
    assert (calls + [key])[n] == k && (calls + [key])[|calls|] == key;
  }
}
