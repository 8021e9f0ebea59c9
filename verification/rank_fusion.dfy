/** Fusing two rankings by reciprocal rank, over exact fractions
    (backend/retrieval/app/hybrid.py:26-42, 169-183; index.py:99-112). */
module RankFusion {

  /** A chunk id, as its place in the order of ids as strings. */
  type Id = nat

  const RRF_K: nat := 60

  function Weight(k: nat, rank: nat): real
    requires k + rank > 0
  {
    1.0 / (k + rank) as real
  }

  // --------------------------------------------------------------- the scores

  /** Reference: what a ranking gives an id, over every place it stands. */
  function ScoreIn(ranking: seq<Id>, k: nat, id: Id): real {
    if ranking == [] then 0.0
    else
      var n := |ranking| - 1;
      ScoreIn(ranking[..n], k, id) + (if ranking[n] == id then Weight(k, n + 1) else 0.0)
  }

  function Score(rankings: seq<seq<Id>>, k: nat, id: Id): real {
    if rankings == [] then 0.0
    else Score(rankings[..|rankings| - 1], k, id) + ScoreIn(rankings[|rankings| - 1], k, id)
  }

  predicate Ranked(rankings: seq<seq<Id>>, id: Id) { exists r :: r in rankings && id in r }

  predicate Distinct(s: seq<Id>) { forall i, j :: 0 <= i < j < |s| ==> s[i] != s[j] }

  /** The score map, with its keys in the order they were first added. */
  method ReciprocalRankFusion(rankings: seq<seq<Id>>, k: nat) returns (keys: seq<Id>, scores: map<Id, real>)
    ensures Distinct(keys) && forall id: Id :: id in keys <==> id in scores
    ensures forall id: Id :: id in scores <==> Ranked(rankings, id)
    ensures forall id: Id :: id in scores ==> scores[id] == Score(rankings, k, id)
  {
    hide Weight;
    keys, scores := [], map[];
    for i := 0 to |rankings|
      invariant Distinct(keys) && forall id: Id :: id in keys <==> id in scores
      invariant forall id: Id :: id in scores <==> Ranked(rankings[..i], id)
      invariant forall id: Id :: Total(scores, id) == Score(rankings[..i], k, id)
    {
      keys, scores := AddRanking(rankings[i], k, keys, scores);
      assert rankings[..i + 1] == rankings[..i] + [rankings[i]] && rankings[..i + 1][..i] == rankings[..i];
      forall id: Id ensures Ranked(rankings[..i + 1], id) <==> Ranked(rankings[..i], id) || id in rankings[i] {
        RankedGrows(rankings[..i], rankings[i], id);
      }
    }
    assert rankings[..|rankings|] == rankings;
    forall id: Id | id in scores ensures scores[id] == Score(rankings, k, id) { assert Total(scores, id) == scores[id]; }
  }

  function Total(scores: map<Id, real>, id: Id): real { if id in scores then scores[id] else 0.0 }

  lemma RankedGrows(rankings: seq<seq<Id>>, r: seq<Id>, id: Id)
    ensures Ranked(rankings + [r], id) <==> Ranked(rankings, id) || id in r
  {
    assert forall s :: s in rankings + [r] <==> s in rankings || s == r;
  }

  method AddRanking(ranking: seq<Id>, k: nat, keys0: seq<Id>, scores0: map<Id, real>)
    returns (keys: seq<Id>, scores: map<Id, real>)
    requires Distinct(keys0) && forall id: Id :: id in keys0 <==> id in scores0
    ensures Distinct(keys) && forall id: Id :: id in keys <==> id in scores
    ensures forall id: Id :: id in scores <==> id in scores0 || id in ranking
    ensures forall id: Id :: Total(scores, id) == Total(scores0, id) + ScoreIn(ranking, k, id)
  {
    hide Weight;
    keys, scores := keys0, scores0;
    for n := 0 to |ranking|
      invariant Distinct(keys) && forall id: Id :: id in keys <==> id in scores
      invariant forall id: Id :: id in scores <==> id in scores0 || id in ranking[..n]
      invariant forall id: Id :: Total(scores, id) == Total(scores0, id) + ScoreIn(ranking[..n], k, id)
    {
      var id := ranking[n];
      assert ranking[..n + 1] == ranking[..n] + [id] && ranking[..n + 1][..n] == ranking[..n];
      if id !in scores { keys := keys + [id]; }
      scores := scores[id := Total(scores, id) + Weight(k, n + 1)];
    }
    assert ranking[..|ranking|] == ranking;
  }

  // ----------------------------------------------------------------- ordering

  /** Higher score first; equal scores in the order of ids. */
  predicate Before(scores: map<Id, real>, a: Id, b: Id)
    requires a in scores && b in scores
  {
    scores[a] > scores[b] || (scores[a] == scores[b] && a < b)
  }

  predicate AllScored(scores: map<Id, real>, s: seq<Id>) { forall id :: id in s ==> id in scores }

  predicate InOrder(scores: map<Id, real>, s: seq<Id>)
    requires AllScored(scores, s)
  {
    forall i, j :: 0 <= i < j < |s| ==> Before(scores, s[i], s[j])
  }

  function Insert(scores: map<Id, real>, s: seq<Id>, x: Id): (r: seq<Id>)
    requires AllScored(scores, s) && x in scores
    ensures multiset(r) == multiset(s) + multiset{x} && AllScored(scores, r)
  {
    if s == [] || Before(scores, x, s[0]) then
      assert multiset([x] + s) == multiset{x} + multiset(s);
      assert forall id :: id in [x] + s ==> id == x || id in s;
      [x] + s
    else
      assert s == [s[0]] + s[1..];
      var rest := Insert(scores, s[1..], x);
      assert forall id :: id in [s[0]] + rest ==> id == s[0] || id in rest;
      [s[0]] + rest
  }

  /** sorted(.., key=(-score, id)). */
  function Sort(scores: map<Id, real>, keys: seq<Id>): (r: seq<Id>)
    requires AllScored(scores, keys)
    ensures multiset(r) == multiset(keys) && AllScored(scores, r)
  {
    if keys == [] then [] else
      assert keys == [keys[0]] + keys[1..];
      Insert(scores, Sort(scores, keys[1..]), keys[0])
  }

  lemma {:induction false} InsertKeepsOrder(scores: map<Id, real>, s: seq<Id>, x: Id)
    requires AllScored(scores, s) && x in scores && InOrder(scores, s) && x !in s
    ensures InOrder(scores, Insert(scores, s, x))
  {
    if s != [] && !Before(scores, x, s[0]) {
      var rest := Insert(scores, s[1..], x);
      InsertKeepsOrder(scores, s[1..], x);
      forall id | id in rest ensures Before(scores, s[0], id) {
        assert id in multiset(rest);
        if id != x { assert id in s[1..]; }
      }
    }
  }

  lemma {:induction false} SortOrders(scores: map<Id, real>, keys: seq<Id>)
    requires AllScored(scores, keys) && Distinct(keys)
    ensures InOrder(scores, Sort(scores, keys))
  {
    if keys != [] {
      SortOrders(scores, keys[1..]);
      var rest := Sort(scores, keys[1..]);
      assert keys[0] !in keys[1..];
      assert keys[0] !in multiset(rest);
      InsertKeepsOrder(scores, rest, keys[0]);
    }
  }

  // ------------------------------------------------------------------- fusing

  datatype Hit = Hit(id: Id, score: real)

  function KnownHits(ordered: seq<Id>, scores: map<Id, real>, known: set<Id>): (hits: seq<Hit>)
    requires AllScored(scores, ordered)
    ensures |hits| <= |ordered|
  {
    if ordered == [] then []
    else
      var n := |ordered| - 1;
      KnownHits(ordered[..n], scores, known) + (if ordered[n] in known then [Hit(ordered[n], scores[ordered[n]])] else [])
  }

  function Least(a: nat, b: nat): nat { if a <= b then a else b }

  lemma PrefixIsScored(scores: map<Id, real>, s: seq<Id>, n: nat)
    requires AllScored(scores, s) && n <= |s|
    ensures AllScored(scores, s[..n])
  {
  }

  /** The known ones among the first topK. */
  function Returned(ordered: seq<Id>, scores: map<Id, real>, known: set<Id>, topK: nat): seq<Hit>
    requires AllScored(scores, ordered)
  {
    PrefixIsScored(scores, ordered, Least(topK, |ordered|));
    KnownHits(ordered[..Least(topK, |ordered|)], scores, known)
  }

  function Union(dense: seq<Id>, sparse: seq<Id>): (ids: set<Id>)
    ensures forall id: Id :: id in ids <==> id in dense || id in sparse
  {
    (set id | id in dense) + (set id | id in sparse)
  }

  /** The reference scores of two rankings. */
  function Scores(dense: seq<Id>, sparse: seq<Id>): (m: map<Id, real>)
    ensures m.Keys == Union(dense, sparse)
  {
    map id | id in Union(dense, sparse) :: ScoreIn(dense, RRF_K, id) + ScoreIn(sparse, RRF_K, id)
  }

  /** The ranked ids, best first. */
  ghost predicate FusedOrder(dense: seq<Id>, sparse: seq<Id>, ordered: seq<Id>) {
    && (forall id: Id :: id in ordered <==> id in Scores(dense, sparse))
    && Distinct(ordered) && InOrder(Scores(dense, sparse), ordered)
  }

  /** What fuse returns: the known ones among the topK best. */
  ghost predicate FusedInto(dense: seq<Id>, sparse: seq<Id>, known: set<Id>, topK: nat, out: seq<Hit>) {
    exists ordered :: FusedOrder(dense, sparse, ordered) && out == Returned(ordered, Scores(dense, sparse), known, topK)
  }

  method Fuse(dense: seq<Id>, sparse: seq<Id>, known: set<Id>, topK: nat) returns (out: seq<Hit>)
    ensures FusedInto(dense, sparse, known, topK, out)
  {
    var keys, scores := ReciprocalRankFusion([dense, sparse], RRF_K);
    PairScores(dense, sparse);
    assert scores == Scores(dense, sparse);
    SortOrders(scores, keys);
    var ordered := Sort(scores, keys);
    SameIds(keys, ordered);
    OrderIsDistinct(scores, ordered);
    assert FusedOrder(dense, sparse, ordered);
    hide Distinct, InOrder, ScoreIn, Union, FusedOrder, Sort;
    out := [];
    var n := Least(topK, |ordered|);
    for i := 0 to n
      invariant AllScored(scores, ordered[..i]) && out == KnownHits(ordered[..i], scores, known)
    {
      assert ordered[..i + 1][..i] == ordered[..i] && ordered[i] in ordered;
      if ordered[i] in known { out := out + [Hit(ordered[i], scores[ordered[i]])]; }
    }
  }

  /** There is one such order, so one answer. */
  lemma {:induction false} OrderIsUnique(scores: map<Id, real>, a: seq<Id>, b: seq<Id>)
    requires AllScored(scores, a) && AllScored(scores, b) && InOrder(scores, a) && InOrder(scores, b)
    requires forall id: Id :: id in a <==> id in b
    ensures a == b
  {
    if a == [] {
      assert forall i :: 0 <= i < |b| ==> b[i] in b;
    } else {
      assert a[0] in a && a[0] in b;
      assert b[0] in b && b[0] in a;
      OrderIsDistinct(scores, a);
      OrderIsDistinct(scores, b);
      assert a[0] == b[0];
      assert forall id: Id :: id in a[1..] <==> id in a && id != a[0];
      assert forall id: Id :: id in b[1..] <==> id in b && id != b[0];
      OrderIsUnique(scores, a[1..], b[1..]);
      assert a == [a[0]] + a[1..] && b == [b[0]] + b[1..];
    }
  }

  lemma PairScores(dense: seq<Id>, sparse: seq<Id>)
    ensures forall id: Id :: Score([dense, sparse], RRF_K, id) == ScoreIn(dense, RRF_K, id) + ScoreIn(sparse, RRF_K, id)
    ensures forall id: Id :: Ranked([dense, sparse], id) <==> id in dense || id in sparse
  {
    assert [dense, sparse][..1] == [dense] && [dense][..0] == [];
    forall id: Id ensures Score([dense, sparse], RRF_K, id) == ScoreIn(dense, RRF_K, id) + ScoreIn(sparse, RRF_K, id) {
      assert Score([dense], RRF_K, id) == Score([], RRF_K, id) + ScoreIn(dense, RRF_K, id);
    }
    forall id: Id ensures Ranked([dense, sparse], id) <==> id in dense || id in sparse {
      assert dense in [dense, sparse] && sparse in [dense, sparse];
    }
  }

  lemma SameIds(a: seq<Id>, b: seq<Id>)
    requires multiset(a) == multiset(b)
    ensures |a| == |b| && forall id: Id :: id in a <==> id in b
  {
    assert |multiset(a)| == |multiset(b)|;
    assert forall id: Id :: id in a <==> id in multiset(a);
  }

  lemma OrderIsDistinct(scores: map<Id, real>, s: seq<Id>)
    requires AllScored(scores, s) && InOrder(scores, s)
    ensures Distinct(s)
  {
  }

  // ---------------------------------------------------------- agreement wins

  lemma {:induction false} ScoreOutside(ranking: seq<Id>, k: nat, id: Id)
    requires id !in ranking
    ensures ScoreIn(ranking, k, id) == 0.0
  {
    if ranking != [] { ScoreOutside(ranking[..|ranking| - 1], k, id); }
  }

  /** In a ranking without duplicates an id scores by its one place. */
  lemma {:induction false} ScoreAt(ranking: seq<Id>, k: nat, i: nat)
    requires Distinct(ranking) && i < |ranking|
    ensures ScoreIn(ranking, k, ranking[i]) == Weight(k, i + 1)
  {
    var n := |ranking| - 1;
    if i == n { ScoreOutside(ranking[..n], k, ranking[i]); } else { ScoreAt(ranking[..n], k, i); }
  }

  lemma WeightFalls(k: nat, r: nat, s: nat)
    requires 0 < r <= s
    ensures Weight(k, r) >= Weight(k, s) > 0.0
  {
    Reciprocals((k + r) as real, (k + s) as real);
  }

  lemma Reciprocals(a: real, b: real)
    requires 0.0 < a <= b
    ensures 1.0 / a >= 1.0 / b > 0.0
  {
    assert 1.0 / a * a == 1.0 && 1.0 / b * b == 1.0;
  }

  /** Two last places within k + 1 outweigh one first place. */
  lemma TwoOutweighOne(k: nat)
    ensures 2.0 * Weight(k, k + 1) > Weight(k, 1)
    ensures 2.0 * Weight(k, k + 2) == Weight(k, 1)
  {
    var a, b := (2 * k + 1) as real, (k + 1) as real;
    assert Weight(k, k + 1) == 1.0 / a && Weight(k, 1) == 1.0 / b && Weight(k, k + 2) == 1.0 / (2.0 * b);
    assert 1.0 / a * a == 1.0 && 1.0 / b * b == 1.0 && 1.0 / (2.0 * b) * (2.0 * b) == 1.0;
    assert a < 2.0 * b;
    Reciprocals(a, 2.0 * b);
    Halves(b);
    StrictReciprocal(a, 2.0 * b);
  }

  lemma Halves(b: real)
    requires b > 0.0
    ensures 2.0 * (1.0 / (2.0 * b)) == 1.0 / b
  {
    var x := 1.0 / (2.0 * b);
    assert x * (2.0 * b) == 1.0;
    assert (2.0 * x) * b == 1.0;
  }

  lemma StrictReciprocal(a: real, b: real)
    requires 0.0 < a < b
    ensures 1.0 / a > 1.0 / b
  {
    assert 1.0 / a * a == 1.0 && 1.0 / b * b == 1.0;
  }

  predicate InBoth(dense: seq<Id>, sparse: seq<Id>, id: Id) { id in dense && id in sparse }

  predicate InOne(dense: seq<Id>, sparse: seq<Id>, id: Id) { (id in dense) != (id in sparse) }

  function Sum(dense: seq<Id>, sparse: seq<Id>, k: nat, id: Id): real { ScoreIn(dense, k, id) + ScoreIn(sparse, k, id) }

  lemma BothScoreAtLeast(dense: seq<Id>, sparse: seq<Id>, k: nat, n: nat, id: Id)
    requires Distinct(dense) && Distinct(sparse) && |dense| <= n && |sparse| <= n && InBoth(dense, sparse, id)
    ensures n > 0 && Sum(dense, sparse, k, id) >= 2.0 * Weight(k, n)
  {
    hide ScoreIn, Weight;
    var i :| 0 <= i < |dense| && dense[i] == id;
    var j :| 0 <= j < |sparse| && sparse[j] == id;
    ScoreAt(dense, k, i);
    ScoreAt(sparse, k, j);
    WeightFalls(k, i + 1, n);
    WeightFalls(k, j + 1, n);
  }

  lemma OneScoresAtMost(dense: seq<Id>, sparse: seq<Id>, k: nat, id: Id)
    requires Distinct(dense) && Distinct(sparse) && InOne(dense, sparse, id)
    ensures Sum(dense, sparse, k, id) <= Weight(k, 1)
  {
    hide ScoreIn, Weight;
    var (here, there) := if id in dense then (dense, sparse) else (sparse, dense);
    var i :| 0 <= i < |here| && here[i] == id;
    ScoreAt(here, k, i);
    ScoreOutside(there, k, id);
    WeightFalls(k, 1, i + 1);
  }

  /** What the index relies on, for a depth n and any rankings of that depth. */
  ghost predicate AgreementWins(k: nat, n: nat) {
    forall dense, sparse: seq<Id>, a: Id, b: Id ::
      Distinct(dense) && Distinct(sparse) && |dense| <= n && |sparse| <= n && InBoth(dense, sparse, a) && InOne(dense, sparse, b) ==>
      Sum(dense, sparse, k, a) > Sum(dense, sparse, k, b)
  }

  /** Agreement outweighs any single placing exactly up to depth k + 1. */
  lemma AgreementWinsIff(k: nat, n: nat)
    ensures AgreementWins(k, n) <==> n <= k + 1
  {
    hide Sum, Weight, ScoreIn, Distinct;
    if n <= k + 1 {
      forall dense, sparse: seq<Id>, a: Id, b: Id |
        Distinct(dense) && Distinct(sparse) && |dense| <= n && |sparse| <= n && InBoth(dense, sparse, a) && InOne(dense, sparse, b)
        ensures Sum(dense, sparse, k, a) > Sum(dense, sparse, k, b)
      {
        BothScoreAtLeast(dense, sparse, k, k + 1, a);
        OneScoresAtMost(dense, sparse, k, b);
        TwoOutweighOne(k);
      }
    } else {
      var dense, sparse := TieAtDepth(k);
    }
  }

  /** At depth k + 2 the last place in both ties with the first place in one. */
  lemma TieAtDepth(k: nat) returns (dense: seq<Id>, sparse: seq<Id>)
    ensures Distinct(dense) && Distinct(sparse) && |dense| == |sparse| == k + 2
    ensures InBoth(dense, sparse, k + 1) && InOne(dense, sparse, 0)
    ensures Sum(dense, sparse, k, k + 1) == Sum(dense, sparse, k, 0)
  {
    hide ScoreIn, Weight;
    dense := seq(k + 2, i requires 0 <= i < k + 2 => i);
    sparse := seq(k + 2, i requires 0 <= i < k + 2 => if i == k + 1 then k + 1 else k + 2 + i);
    assert dense[k + 1] == k + 1 && sparse[k + 1] == k + 1 && dense[0] == 0;
    ScoreAt(dense, k, k + 1);
    ScoreAt(sparse, k, k + 1);
    ScoreAt(dense, k, 0);
    ScoreOutside(sparse, k, 0);
    TwoOutweighOne(k);
  }

  lemma AgreementIsOrderedFirst(dense: seq<Id>, sparse: seq<Id>, ordered: seq<Id>, i: nat, j: nat)
    requires FusedOrder(dense, sparse, ordered) && i < |ordered| && j < |ordered|
    requires Distinct(dense) && Distinct(sparse) && |dense| <= RRF_K + 1 && |sparse| <= RRF_K + 1
    requires InBoth(dense, sparse, ordered[i]) && InOne(dense, sparse, ordered[j])
    ensures i < j
  {
    hide Weight, ScoreIn, Distinct;
    AgreementWinsIff(RRF_K, RRF_K + 1);
    assert Sum(dense, sparse, RRF_K, ordered[i]) > Sum(dense, sparse, RRF_K, ordered[j]);
    assert ordered[i] in Scores(dense, sparse) && ordered[j] in Scores(dense, sparse);
  }

  predicate Listed(hits: seq<Hit>, id: Id) { exists h :: 0 <= h < |hits| && hits[h].id == id }

  lemma {:induction false} KnownAreListed(ordered: seq<Id>, scores: map<Id, real>, known: set<Id>)
    requires AllScored(scores, ordered)
    ensures forall id: Id :: Listed(KnownHits(ordered, scores, known), id) <==> id in ordered && id in known
  {
    if ordered != [] {
      var n := |ordered| - 1;
      var hits, front := KnownHits(ordered, scores, known), KnownHits(ordered[..n], scores, known);
      KnownAreListed(ordered[..n], scores, known);
      assert ordered == ordered[..n] + [ordered[n]];
      forall id: Id ensures Listed(hits, id) <==> Listed(front, id) || (id == ordered[n] && id in known) {
        assert forall h :: 0 <= h < |front| ==> hits[h] == front[h];
        if ordered[n] in known { assert hits[|front|].id == ordered[n]; }
      }
    }
  }

  /** The i-th hit is a known id at some place, and the hits before it those of the
      ids before that place. */
  lemma {:induction false} HitComesFrom(ordered: seq<Id>, scores: map<Id, real>, known: set<Id>, i: nat) returns (p: nat)
    requires AllScored(scores, ordered) && i < |KnownHits(ordered, scores, known)|
    ensures p < |ordered| && KnownHits(ordered, scores, known)[i].id == ordered[p]
    ensures AllScored(scores, ordered[..p]) && KnownHits(ordered[..p], scores, known) == KnownHits(ordered, scores, known)[..i]
  {
    var n := |ordered| - 1;
    var hits, front := KnownHits(ordered, scores, known), KnownHits(ordered[..n], scores, known);
    if i < |front| {
      p := HitComesFrom(ordered[..n], scores, known, i);
      assert ordered[..n][..p] == ordered[..p] && hits[..i] == front[..i];
    } else {
      p := n;
      assert hits[..i] == front;
    }
  }

  /** What lists before hit i: the known ids before its place in the order. */
  lemma WhatComesBefore(ordered: seq<Id>, scores: map<Id, real>, known: set<Id>, i: nat) returns (p: nat)
    requires AllScored(scores, ordered) && i < |KnownHits(ordered, scores, known)|
    ensures p < |ordered| && KnownHits(ordered, scores, known)[i].id == ordered[p]
    ensures forall id: Id :: Listed(KnownHits(ordered, scores, known)[..i], id) <==> id in ordered[..p] && id in known
  {
    hide KnownHits, Listed;
    p := HitComesFrom(ordered, scores, known, i);
    KnownAreListed(ordered[..p], scores, known);
  }

  /** Of what fuse returns: a chunk of one ranking only comes after every chunk of
      both, and every known chunk of both is there before it; for rankings without
      duplicates no deeper than 61. */
  lemma AgreementComesFirst(dense: seq<Id>, sparse: seq<Id>, known: set<Id>, topK: nat, out: seq<Hit>, j: nat)
    requires FusedInto(dense, sparse, known, topK, out) && j < |out| && InOne(dense, sparse, out[j].id)
    requires Distinct(dense) && Distinct(sparse) && |dense| <= RRF_K + 1 && |sparse| <= RRF_K + 1
    ensures forall i :: j <= i < |out| ==> !InBoth(dense, sparse, out[i].id)
    ensures forall id: Id :: id in known && InBoth(dense, sparse, id) ==> Listed(out[..j], id)
  {
    hide Distinct, InOrder, KnownHits, Sum, ScoreIn, Listed;
    var scores := Scores(dense, sparse);
    var ordered :| FusedOrder(dense, sparse, ordered) && out == Returned(ordered, scores, known, topK);
    var n := Least(topK, |ordered|);
    PrefixIsScored(scores, ordered, n);
    var p := WhatComesBefore(ordered[..n], scores, known, j);
    forall i | j <= i < |out| && InBoth(dense, sparse, out[i].id) ensures false {
      var q := WhatComesBefore(ordered[..n], scores, known, i);
      AgreementIsOrderedFirst(dense, sparse, ordered, q, p);
      if j < i {
        ListedBefore(out, j, i);
        var r :| 0 <= r < q && ordered[..n][..q][r] == out[j].id;
        AgreementIsOrderedFirst(dense, sparse, ordered, q, r);
      }
    }
    forall id: Id | id in known && InBoth(dense, sparse, id) ensures Listed(out[..j], id) {
      assert id in ordered;
      var q :| 0 <= q < |ordered| && ordered[q] == id;
      AgreementIsOrderedFirst(dense, sparse, ordered, q, p);
      assert ordered[..n][..p][q] == id;
    }
  }

  lemma ListedBefore(out: seq<Hit>, j: nat, i: nat)
    requires j < i <= |out|
    ensures Listed(out[..i], out[j].id)
  {
    assert out[..i][j] == out[j];
  }

  /** The depth the index searches to. */
  function SearchDepth(topK: nat): (d: nat)
    ensures d >= 5 && d >= 2 * topK && d in {5, 2 * topK}
  {
    if topK * 2 >= 5 then topK * 2 else 5
  }

  /** So the index may be asked for up to thirty chunks. */
  lemma SearchesKeepAgreementIff(topK: nat)
    ensures AgreementWins(RRF_K, SearchDepth(topK)) <==> topK <= 30
  {
    hide AgreementWins;
    AgreementWinsIff(RRF_K, SearchDepth(topK));
  }

  // ------------------------------------------------------------ how many come

  lemma {:induction false} AllKnown(ordered: seq<Id>, scores: map<Id, real>, known: set<Id>)
    requires AllScored(scores, ordered) && forall id :: id in ordered ==> id in known
    ensures |KnownHits(ordered, scores, known)| == |ordered|
    ensures forall i :: 0 <= i < |ordered| ==> KnownHits(ordered, scores, known)[i] == Hit(ordered[i], scores[ordered[i]])
  {
    if ordered != [] { AllKnown(ordered[..|ordered| - 1], scores, known); }
  }

  lemma {:induction false} CountDistinct(s: seq<Id>, ids: set<Id>)
    requires Distinct(s) && forall id: Id :: id in s <==> id in ids
    ensures |s| == |ids|
  {
    if s == [] {
      assert ids == {};
    } else {
      var n := |s| - 1;
      assert s[n] in s;
      assert forall id: Id :: id in s <==> id in s[..n] || id == s[n];
      CountDistinct(s[..n], ids - {s[n]});
    }
  }

  /** The hits are the first of the ordered ids, with their scores. */
  predicate Lists(hits: seq<Hit>, ordered: seq<Id>, scores: map<Id, real>)
    requires AllScored(scores, ordered)
  {
    |hits| <= |ordered| && forall i :: 0 <= i < |hits| ==> hits[i] == Hit(ordered[i], scores[ordered[i]])
  }

  /** With every id known, as many chunks come back as were asked for or ranked,
      whichever is fewer, each with its score, best first. */
  lemma FusedLength(dense: seq<Id>, sparse: seq<Id>, ordered: seq<Id>, known: set<Id>, topK: nat)
    requires FusedOrder(dense, sparse, ordered) && Union(dense, sparse) <= known
    ensures var out := Returned(ordered, Scores(dense, sparse), known, topK);
      && |out| == Least(topK, |Union(dense, sparse)|)
      && Lists(out, ordered, Scores(dense, sparse))
  {
    hide KnownHits, InOrder, Union, ScoreIn;
    CountDistinct(ordered, Union(dense, sparse));
    var top := ordered[..Least(topK, |ordered|)];
    PrefixIsScored(Scores(dense, sparse), ordered, |top|);
    forall id | id in top ensures id in known { assert id in ordered; }
    AllKnown(top, Scores(dense, sparse), known);
  }
}
