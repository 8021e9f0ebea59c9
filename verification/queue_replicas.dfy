/** Any number of replicas on that queue, each step free to interleave with any
    other, fail, or die (backend/agent/app/worker.py:190-202). */
module QueueReplicas {

  /** What a replica is doing with the entry it was given. */
  datatype Hand =
    | Free
    | Given(entry: nat)
    | Handling(entry: nat)
    | Handled(entry: nat, ok: bool)
    | Buried(entry: nat)             // dead-lettered, still to be acked

  datatype State = State(
    enqueued: nat, delivered: nat,
    pending: map<nat, nat>, acked: set<nat>, dead: seq<nat>,
    hands: map<nat, Hand>,
    begun: seq<nat>, failed: set<nat>)   // the handler's history

  datatype Action =
    | Enqueue
    | Deliver(r: nat)
    | Begin(r: nat)
    | Finish(r: nat, ok: bool)
    | Ack(r: nat)
    | AckFails(r: nat, reached: bool)   // the reply is lost; the server may have acted
    | Bury(r: nat)
    | Crash(r: nat)
    | Reclaim(r: nat, stalled: set<nat>)

  const START := State(0, 0, map[], {}, [], map[], [], {})

  function HandOf(s: State, r: nat): Hand { if r in s.hands then s.hands[r] else Free }

  function Put(s: State, r: nat, h: Hand): State { s.(hands := s.hands[r := h]) }

  function Acked(s: State, id: nat): State {
    if id in s.pending then s.(pending := s.pending - {id}, acked := s.acked + {id}) else s
  }

  function Next(s: State, a: Action): State {
    match a
    case Enqueue => s.(enqueued := s.enqueued + 1)
    case Deliver(r) =>
      if HandOf(s, r).Free? && s.delivered < s.enqueued
      then Put(s.(delivered := s.delivered + 1, pending := s.pending[s.delivered := r]), r, Given(s.delivered)) else s
    case Begin(r) =>
      var h := HandOf(s, r);
      if h.Given? then Put(s.(begun := s.begun + [h.entry]), r, Handling(h.entry)) else s
    case Finish(r, ok) =>
      var h := HandOf(s, r);
      if h.Handling? then Put(s.(failed := if ok then s.failed else s.failed + {h.entry}), r, Handled(h.entry, ok)) else s
    case Ack(r) =>
      var h := HandOf(s, r);
      if (h.Handled? && h.ok) || h.Buried? then Put(Acked(s, h.entry), r, Free) else s
    case AckFails(r, reached) =>
      var h := HandOf(s, r);
      if h.Handled? && h.ok then Put(if reached then Acked(s, h.entry) else s, r, Handled(h.entry, false))
      else if h.Buried? then Put(if reached then Acked(s, h.entry) else s, r, Free)   // the loop dies with it
      else s
    case Bury(r) =>
      var h := HandOf(s, r);
      if h.Handled? && !h.ok then Put(s.(dead := s.dead + [h.entry]), r, Buried(h.entry)) else s
    case Crash(r) => Put(s, r, Free)
    case Reclaim(r, stalled) =>
      s.(pending := map id | id in s.pending :: if id in stalled then r else s.pending[id])
  }

  function ExecFrom(s: State, run: seq<Action>): State {
    if run == [] then s else Next(ExecFrom(s, run[..|run| - 1]), run[|run| - 1])
  }

  predicate Holds(h: Hand, id: nat) { !h.Free? && h.entry == id }

  /** Nobody alive is working on this entry. */
  ghost predicate Unattended(s: State, id: nat) {
    forall r: nat :: r in s.hands ==> !Holds(s.hands[r], id)
  }

  predicate OnceOnly(begun: seq<nat>) { forall i, j :: 0 <= i < j < |begun| ==> begun[i] != begun[j] }

  /** Each delivered entry is pending or acked, and not both. */
  ghost predicate EntriesInv(s: State) {
    && s.delivered <= s.enqueued
    && (forall id: nat :: id < s.delivered <==> id in s.pending || id in s.acked)
    && (forall id: nat :: id in s.pending ==> id !in s.acked)
    && (forall id: nat :: id in s.begun ==> id < s.delivered)
    && OnceOnly(s.begun)
  }

  /** No two replicas hold one entry; one just given was never begun. */
  ghost predicate HandsInv(s: State) {
    && (forall r: nat :: r in s.hands && !s.hands[r].Free? ==> s.hands[r].entry < s.delivered)
    && (forall r: nat, q: nat :: r in s.hands && q in s.hands && r != q && !s.hands[r].Free? ==> !Holds(s.hands[q], s.hands[r].entry))
    && (forall r: nat :: r in s.hands && s.hands[r].Given? ==> s.hands[r].entry !in s.begun)
    && (forall r: nat :: r in s.hands && (s.hands[r].Given? || s.hands[r].Handling?) ==> s.hands[r].entry in s.pending)
    && (forall r: nat :: r in s.hands && s.hands[r].Handling? ==> s.hands[r].entry in s.begun)
  }

  ghost predicate Inv(s: State) { EntriesInv(s) && HandsInv(s) && FailuresBuried(s) }

  /** An acked entry whose handler failed is already in the dead stream. */
  ghost predicate FailuresBuried(s: State) {
    && (forall id: nat :: id in s.failed ==> id in s.begun)
    && (forall id: nat :: id in s.failed && id in s.acked ==> id in s.dead)
    && (forall r: nat :: r in s.hands && s.hands[r].Buried? ==> s.hands[r].entry in s.dead)
    && (forall r: nat :: r in s.hands && (s.hands[r].Handling? || (s.hands[r].Handled? && s.hands[r].ok)) ==> s.hands[r].entry !in s.failed)
  }

  lemma DeliverKeeps(s: State, r: nat)
    requires Inv(s)
    ensures Inv(Next(s, Deliver(r)))
  {
  }

  lemma BeginKeeps(s: State, r: nat)
    requires Inv(s)
    ensures Inv(Next(s, Begin(r)))
  {
  }

  lemma FinishKeeps(s: State, r: nat, ok: bool)
    requires Inv(s)
    ensures Inv(Next(s, Finish(r, ok)))
  {
  }

  lemma AckKeepsEntries(s: State, r: nat)
    requires Inv(s)
    ensures EntriesInv(Next(s, Ack(r)))
  {
    hide HandsInv, FailuresBuried;
  }

  lemma AckKeepsHands(s: State, r: nat)
    requires Inv(s)
    ensures HandsInv(Next(s, Ack(r)))
  {
    hide EntriesInv, FailuresBuried;
  }

  lemma AckKeeps(s: State, r: nat)
    requires Inv(s)
    ensures Inv(Next(s, Ack(r)))
  {
    AckKeepsEntries(s, r);
    AckKeepsHands(s, r);
    hide EntriesInv, HandsInv;
  }

  lemma AckFailsKeepsEntries(s: State, r: nat, reached: bool)
    requires Inv(s)
    ensures EntriesInv(Next(s, AckFails(r, reached)))
  {
    hide HandsInv, FailuresBuried;
  }

  lemma AckFailsKeepsHands(s: State, r: nat, reached: bool)
    requires Inv(s)
    ensures HandsInv(Next(s, AckFails(r, reached)))
  {
    hide EntriesInv, FailuresBuried;
  }

  lemma AckFailsKeeps(s: State, r: nat, reached: bool)
    requires Inv(s)
    ensures Inv(Next(s, AckFails(r, reached)))
  {
    AckFailsKeepsEntries(s, r, reached);
    AckFailsKeepsHands(s, r, reached);
    hide EntriesInv, HandsInv;
  }

  lemma BuryKeeps(s: State, r: nat)
    requires Inv(s)
    ensures Inv(Next(s, Bury(r)))
  {
  }

  lemma CrashKeeps(s: State, r: nat)
    requires Inv(s)
    ensures Inv(Next(s, Crash(r)))
  {
  }

  lemma NextKeeps(s: State, a: Action)
    requires Inv(s)
    ensures Inv(Next(s, a))
  {
    match a
    case Deliver(r) => DeliverKeeps(s, r);
    case Begin(r) => BeginKeeps(s, r);
    case Finish(r, ok) => FinishKeeps(s, r, ok);
    case Ack(r) => AckKeeps(s, r);
    case AckFails(r, reached) => AckFailsKeeps(s, r, reached);
    case Bury(r) => BuryKeeps(s, r);
    case Crash(r) => CrashKeeps(s, r);
    case _ =>
  }

  lemma {:induction false} RunKeeps(s: State, run: seq<Action>)
    requires Inv(s)
    ensures Inv(ExecFrom(s, run))
  {
    if run != [] {
      RunKeeps(s, run[..|run| - 1]);
      NextKeeps(ExecFrom(s, run[..|run| - 1]), run[|run| - 1]);
    }
  }

  lemma {:induction false} UpTo(s: set<nat>, n: nat)
    requires forall id: nat :: id in s <==> id < n
    ensures |s| == n
  {
    if n == 0 {
      assert s == {};
    } else {
      UpTo(s - {n - 1}, n - 1);
    }
  }

  // ------------------------------------------------------------ main results

  /** In every interleaving: no entry is handled twice; what was acked after a
      failure is in the dead stream; depth is delivered minus acked. */
  lemma QueueIsSafe(run: seq<Action>)
    ensures var s := ExecFrom(START, run);
      && OnceOnly(s.begun)
      && (forall id :: id in s.failed && id in s.acked ==> id in s.dead)
      && |s.pending| == s.delivered - |s.acked|
  {
    RunKeeps(START, run);
    var s := ExecFrom(START, run);
    var all := s.pending.Keys + s.acked;
    UpTo(all, s.delivered);
    assert s.pending.Keys !! s.acked;
  }

  /** The entry is pending and stays so, untouched by any handler. */
  ghost predicate Stranded(s: State, id: nat) {
    id in s.pending && Unattended(s, id)
  }

  lemma StrandedStep(s: State, a: Action, id: nat)
    requires Inv(s) && Stranded(s, id)
    ensures Stranded(Next(s, a), id)
    ensures id in Next(s, a).begun <==> id in s.begun
  {
    assert id < s.delivered;
  }

  /** Once nobody alive holds a pending entry, no step of any replica, reclaim
      included, will ever handle it, ack it or bury it. */
  lemma {:induction false} StrandedForEver(s: State, id: nat, run: seq<Action>)
    requires Inv(s) && Stranded(s, id)
    ensures Stranded(ExecFrom(s, run), id) && id !in ExecFrom(s, run).acked
    ensures id in ExecFrom(s, run).begun <==> id in s.begun
  {
    RunKeeps(s, run);
    if run != [] {
      StrandedForEver(s, id, run[..|run| - 1]);
      RunKeeps(s, run[..|run| - 1]);
      StrandedStep(ExecFrom(s, run[..|run| - 1]), run[|run| - 1], id);
    }
  }

  /** The steps a replica has left before its entry is acked. */
  function Finishing(h: Hand, r: nat): seq<Action> {
    match h
    case Free => []
    case Given(_) => [Begin(r), Finish(r, true), Ack(r)]
    case Handling(_) => [Finish(r, true), Ack(r)]
    case Handled(_, ok) => if ok then [Ack(r)] else [Bury(r), Ack(r)]
    case Buried(_) => [Ack(r)]
  }

  lemma {:induction false} ExecOn(s: State, a: Action, rest: seq<Action>)
    ensures ExecFrom(s, [a] + rest) == ExecFrom(Next(s, a), rest)
  {
    var run := [a] + rest;
    if rest == [] {
      assert run[..0] == [];
    } else {
      ExecOn(s, a, rest[..|rest| - 1]);
      assert run[..|run| - 1] == [a] + rest[..|rest| - 1];
    }
  }

  ghost predicate CanBeAcked(s: State, id: nat) {
    exists run :: id in ExecFrom(s, run).acked
  }

  /** A pending entry can still be acked exactly when a live replica holds it:
      a crash between delivery and ack loses it, and reclaiming does not help. */
  lemma AckableIffHeld(s: State, id: nat)
    requires Inv(s) && id in s.pending
    ensures CanBeAcked(s, id) <==> exists r :: r in s.hands && Holds(s.hands[r], id)
  {
    if Unattended(s, id) {
      forall run ensures id !in ExecFrom(s, run).acked { StrandedForEver(s, id, run); }
    } else {
      var r :| r in s.hands && Holds(s.hands[r], id);
      FinishingAcks(s, r);
    }
  }

  lemma FinishingAcks(s: State, r: nat)
    requires r in s.hands && !s.hands[r].Free? && s.hands[r].entry in s.pending
    ensures s.hands[r].entry in ExecFrom(s, Finishing(s.hands[r], r)).acked
    decreases |Finishing(s.hands[r], r)|
  {
    var run := Finishing(s.hands[r], r);
    var s1 := Next(s, run[0]);
    ExecOn(s, run[0], run[1..]);
    assert run == [run[0]] + run[1..];
    if |run| > 1 {
      assert run[1..] == Finishing(s1.hands[r], r);
      FinishingAcks(s1, r);
    } else {
      assert ExecFrom(s1, []) == s1;
    }
  }

  /** What a crash does to the entry its replica was holding. */
  lemma CrashStrands(s: State, r: nat)
    requires Inv(s) && r in s.hands && !s.hands[r].Free? && s.hands[r].entry in s.pending
    ensures Stranded(Next(s, Crash(r)), s.hands[r].entry)
  {
  }

  lemma FailedStay(s: State, a: Action)
    ensures s.failed <= Next(s, a).failed
    ensures a.Finish? && !a.ok && HandOf(s, a.r).Handling? ==> HandOf(s, a.r).entry in Next(s, a).failed
  {
  }

  /** An entry that a handler failed on, at whatever step, is in the dead stream once it
      is acked. */
  lemma {:induction false} AckedFailuresAreBuried(run: seq<Action>, i: nat, id: nat)
    requires i < |run| && run[i].Finish? && !run[i].ok && HandOf(ExecFrom(START, run[..i]), run[i].r) == Handling(id)
    ensures id in ExecFrom(START, run).failed
    ensures id in ExecFrom(START, run).acked ==> id in ExecFrom(START, run).dead
  {
    hide Next;
    RunKeeps(START, run);
    var n := |run| - 1;
    FailedStay(ExecFrom(START, run[..n]), run[n]);
    if i < n {
      assert run[..n][..i] == run[..i];
      AckedFailuresAreBuried(run[..n], i, id);
    }
  }

  lemma Serves(s: State, r: nat, ok: bool)
    requires HandOf(s, r).Free? && s.delivered < s.enqueued
    ensures var s1 := Next(Next(Next(s, Deliver(r)), Begin(r)), Finish(r, ok));
      && HandOf(s1, r) == Handled(s.delivered, ok) && s.delivered in s1.pending
      && s1.begun == s.begun + [s.delivered] && s1.delivered == s.delivered + 1 && s1.dead == s.dead
  {
  }

  lemma Settles(s: State, r: nat)
    requires HandOf(s, r).Handled? && HandOf(s, r).entry in s.pending
    ensures var id := HandOf(s, r).entry; var s1 := if HandOf(s, r).ok then s else Next(s, Bury(r)); var s2 := Next(s1, Ack(r));
      && id in s2.acked && HandOf(s2, r).Free? && s2.begun == s.begun && s2.delivered == s.delivered
      && s2.dead == (if HandOf(s, r).ok then s.dead else s.dead + [id])
  {
  }

  /** A free replica can take the next entry all the way: handled, and acked, by way of
      the dead stream if the handler fails. */
  lemma NextEntryGoesThrough(run: seq<Action>, r: nat, ok: bool) returns (more: seq<Action>)
    requires var s := ExecFrom(START, run); HandOf(s, r).Free? && s.delivered < s.enqueued
    ensures var s, s1 := ExecFrom(START, run), ExecFrom(START, run + more);
      && s.delivered in s1.acked && s1.begun == s.begun + [s.delivered] && HandOf(s1, r).Free?
      && s1.delivered == s.delivered + 1 && s1.dead == (if ok then s.dead else s.dead + [s.delivered])
  {
    hide Next, ExecFrom, HandOf;
    var served := run + [Deliver(r)] + [Begin(r)] + [Finish(r, ok)];
    OneMore(run, Deliver(r));
    OneMore(run + [Deliver(r)], Begin(r));
    OneMore(run + [Deliver(r)] + [Begin(r)], Finish(r, ok));
    Serves(ExecFrom(START, run), r, ok);
    Settles(ExecFrom(START, served), r);
    if ok {
      more := [Deliver(r)] + [Begin(r)] + [Finish(r, ok)] + [Ack(r)];
      OneMore(served, Ack(r));
      assert run + more == served + [Ack(r)];
    } else {
      more := [Deliver(r)] + [Begin(r)] + [Finish(r, ok)] + [Bury(r)] + [Ack(r)];
      OneMore(served, Bury(r));
      OneMore(served + [Bury(r)], Ack(r));
      assert run + more == served + [Bury(r)] + [Ack(r)];
    }
  }

  lemma OneMore(run: seq<Action>, a: Action)
    ensures ExecFrom(START, run + [a]) == Next(ExecFrom(START, run), a)
  {
    hide Next;
    assert (run + [a])[..|run|] == run;
  }
}
