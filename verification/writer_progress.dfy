/** No append is stuck: from every state that can be reached, every writer that waits
    can still finish; and what the process lock is worth
    (backend/libs/adapters/claims_json.py:62-93). */
module WriterProgress {
  import opened ClaimsFile
  import opened GraphState
  import opened Options
  import opened ReplicatedWriters

  function ExecFrom(rep: Placement, s: State, run: seq<Action>): State
    decreases |run|
  {
    if run == [] then s else ExecFrom(rep, Next(rep, s, run[0]), run[1..])
  }

  lemma {:induction false} RunsJoin(rep: Placement, s: State, a: seq<Action>, b: seq<Action>)
    ensures ExecFrom(rep, s, a + b) == ExecFrom(rep, ExecFrom(rep, s, a), b)
    decreases |a|
  {
    hide Next;
    if a == [] {
      assert a + b == b;
    } else {
      assert (a + b)[1..] == a[1..] + b;
      RunsJoin(rep, Next(rep, s, a[0]), a[1..], b);
    }
  }

  lemma {:induction false} GoesOn(rep: Placement, seed: Disk, run: seq<Action>, more: seq<Action>)
    ensures ExecFrom(rep, Exec(rep, seed, run), more) == Exec(rep, seed, run + more)
    decreases |more|
  {
    hide Next;
    if more == [] {
      assert run + more == run;
    } else {
      assert run + more == (run + [more[0]]) + more[1..];
      assert (run + [more[0]])[..|run|] == run;
      GoesOn(rep, seed, run + [more[0]], more[1..]);
    }
  }

  /** Past the process lock: waiting for the file lock, or inside. */
  predicate Past(pc: Pc) { pc.Queued? || Inside(pc) }

  /** A lock is held by someone who can still let it go. */
  ghost predicate ProcessLocksAreHeld(rep: Placement, s: State) {
    forall r :: r in s.processLocks ==> rep(s.processLocks[r]) == r && Past(PcOf(s, s.processLocks[r]))
  }

  ghost predicate FileLockIsHeld(s: State) {
    && (s.fileLock.Some? ==> Inside(PcOf(s, s.fileLock.value)))
    && (forall w: nat :: Inside(PcOf(s, w)) ==> s.fileLock == Some(w))
  }

  ghost predicate LocksAreHeld(rep: Placement, s: State) { ProcessLocksAreHeld(rep, s) && FileLockIsHeld(s) }

  lemma StepKeepsProcessLocks(rep: Placement, s: State, a: Action)
    requires ProcessLocksAreHeld(rep, s)
    ensures ProcessLocksAreHeld(rep, Next(rep, s, a))
  {
    hide NextClaim;
  }

  lemma StepKeepsFileLock(rep: Placement, s: State, a: Action)
    requires FileLockIsHeld(s)
    ensures FileLockIsHeld(Next(rep, s, a))
  {
    hide NextClaim;
  }

  lemma {:induction false} RunKeepsLocks(rep: Placement, seed: Disk, run: seq<Action>)
    ensures LocksAreHeld(rep, Exec(rep, seed, run))
  {
    hide Next;
    if run == [] {
    } else {
      RunKeepsLocks(rep, seed, run[..|run| - 1]);
      hide ProcessLocksAreHeld, FileLockIsHeld;
      StepKeepsProcessLocks(rep, Exec(rep, seed, run[..|run| - 1]), run[|run| - 1]);
      StepKeepsFileLock(rep, Exec(rep, seed, run[..|run| - 1]), run[|run| - 1]);
    }
  }

  // ------------------------------------------------------ whoever is inside

  function Rank(pc: Pc): nat {
    match pc
    case Reading(_, _) => 6
    case Computing(_, _, _) => 5
    case Opening(_, _, _) => 4
    case Writing(_, _, _) => 3
    case Written(_, _, _) => 2
    case Leaving(_) => 1
    case _ => 0
  }

  /** The next step of a writer inside. */
  function StepOf(pc: Pc, w: nat): Action
    requires Inside(pc)
  {
    match pc
    case Reading(_, _) => Read(w)
    case Computing(_, _, _) => Compute(w)
    case Opening(_, _, _) => OpenTemp(w)
    case Writing(_, _, _) => FillTemp(w)
    case Written(_, _, _) => Replace(w)
    case Leaving(_) => Release(w)
  }

  ghost predicate OthersStay(s: State, s1: State, w: nat) {
    && (forall v: nat :: v != w ==> PcOf(s1, v) == PcOf(s, v))
    && (forall r :: r in s1.processLocks ==> r in s.processLocks && s1.processLocks[r] == s.processLocks[r])
  }

  lemma StepInside(rep: Placement, s: State, w: nat)
    requires Inside(PcOf(s, w))
    ensures var s1 := Next(rep, s, StepOf(PcOf(s, w), w));
      && OthersStay(s, s1, w)
      && (if PcOf(s, w).Leaving?
          then PcOf(s1, w).Resting? && s1.fileLock == None && (rep(w) in s1.processLocks ==> s1.processLocks[rep(w)] != w)
          else Inside(PcOf(s1, w)) && Rank(PcOf(s1, w)) < Rank(PcOf(s, w)))
  {
    hide NextClaim;
  }

  /** Nothing stops a writer inside: its own steps alone take it out and free its locks. */
  lemma {:induction false} HolderCanLeave(rep: Placement, s: State, w: nat) returns (more: seq<Action>)
    requires Inside(PcOf(s, w))
    ensures var s1 := ExecFrom(rep, s, more);
      && OthersStay(s, s1, w) && PcOf(s1, w).Resting? && s1.fileLock == None
      && (rep(w) in s1.processLocks ==> s1.processLocks[rep(w)] != w)
    decreases Rank(PcOf(s, w))
  {
    var a := StepOf(PcOf(s, w), w);
    StepInside(rep, s, w);
    hide Next, Inside, Rank;
    if PcOf(s, w).Leaving? {
      more := [a];
      assert [a][1..] == [] && ExecFrom(rep, Next(rep, s, a), []) == Next(rep, s, a);
    } else {
      var rest := HolderCanLeave(rep, Next(rep, s, a), w);
      more := [a] + rest;
      assert more[1..] == rest;
    }
  }

  // ----------------------------------------------------------- whoever waits

  /** The process lock comes free: its holder gives up waiting, or goes through. */
  lemma ProcessLockComesFree(rep: Placement, s: State, w: nat) returns (more: seq<Action>)
    requires LocksAreHeld(rep, s) && PcOf(s, w).Asking?
    ensures var s1 := ExecFrom(rep, s, more); PcOf(s1, w) == PcOf(s, w) && rep(w) !in s1.processLocks
  {
    if rep(w) !in s.processLocks {
      more := [];
    } else {
      var v := s.processLocks[rep(w)];
      if PcOf(s, v).Queued? {
        more := [LockTimeout(v)];
        assert more[1..] == [] && ExecFrom(rep, s, more) == Next(rep, s, LockTimeout(v));
      } else {
        hide Next, ExecFrom;
        more := HolderCanLeave(rep, s, v);
      }
    }
  }

  lemma FileLockComesFree(rep: Placement, s: State, w: nat) returns (more: seq<Action>)
    requires LocksAreHeld(rep, s) && PcOf(s, w).Queued?
    ensures var s1 := ExecFrom(rep, s, more); PcOf(s1, w) == PcOf(s, w) && s1.fileLock == None
  {
    hide Next;
    if s.fileLock == None {
      more := [];
    } else {
      more := HolderCanLeave(rep, s, s.fileLock.value);
    }
  }

  lemma TakesProcessLock(rep: Placement, s: State, w: nat)
    requires PcOf(s, w).Asking? && rep(w) !in s.processLocks
    ensures PcOf(ExecFrom(rep, s, [TakeProcessLock(w)]), w) == Queued(PcOf(s, w).args)
  {
    assert [TakeProcessLock(w)][1..] == [];
    assert ExecFrom(rep, s, [TakeProcessLock(w)]) == Next(rep, s, TakeProcessLock(w));
  }

  /** With the file lock free, a queued writer's own steps append its claim. */
  lemma AppendGoesThrough(rep: Placement, s: State, w: nat, claims: seq<Claim>) returns (more: seq<Action>)
    requires PcOf(s, w).Queued? && s.fileLock == None && Parsed(s.path) == Some(claims)
    ensures var s1 := ExecFrom(rep, s, more);
      && PcOf(s1, w).Resting? && s1.fileLock == None
      && Parsed(s1.path) == Some(match NextClaim(claims, PcOf(s, w).args) case None => claims case Some(claim) => claims + [claim])
  {
    hide NextClaim;
    var s1 := Next(rep, Next(rep, s, TakeFileLock(w)), Read(w));
    assert PcOf(s1, w) == Computing(PcOf(s, w).args, s.grants, claims) && s1.path == s.path;
    var rest := WritesAndLeaves(rep, s1, w);
    hide Next;
    more := [TakeFileLock(w), Read(w)] + rest;
    assert more[1..][1..] == rest;
    assert ExecFrom(rep, s, more) == ExecFrom(rep, Next(rep, s, more[0]), more[1..]);
    assert ExecFrom(rep, Next(rep, s, more[0]), more[1..]) == ExecFrom(rep, s1, rest);
  }

  lemma WritesAndLeaves(rep: Placement, s: State, w: nat) returns (more: seq<Action>)
    requires PcOf(s, w).Computing? && Parsed(s.path) == Some(PcOf(s, w).claims)
    ensures var s1 := ExecFrom(rep, s, more); var claims := PcOf(s, w).claims;
      && PcOf(s1, w).Resting? && s1.fileLock == None
      && Parsed(s1.path) == Some(match NextClaim(claims, PcOf(s, w).args) case None => claims case Some(claim) => claims + [claim])
  {
    hide NextClaim;
    var s1 := Next(rep, s, Compute(w));
    if NextClaim(PcOf(s, w).claims, PcOf(s, w).args) == None {
      more := [Compute(w), Release(w)];
      var s2 := Next(rep, s1, Release(w));
      TwoSteps(rep, s, Compute(w), Release(w));
    } else {
      var s2 := Next(rep, s1, OpenTemp(w));
      var s4 := Next(rep, Next(rep, s2, FillTemp(w)), Replace(w));
      Writes(rep, s1, w);
      more := [Compute(w), OpenTemp(w)] + [FillTemp(w), Replace(w)] + [Release(w)];
      hide Next;
      RunsJoin(rep, s, [Compute(w), OpenTemp(w)] + [FillTemp(w), Replace(w)], [Release(w)]);
      RunsJoin(rep, s, [Compute(w), OpenTemp(w)], [FillTemp(w), Replace(w)]);
      TwoSteps(rep, s, Compute(w), OpenTemp(w));
      TwoSteps(rep, s2, FillTemp(w), Replace(w));
      OneStep(rep, s4, Release(w));
    }
  }

  lemma Writes(rep: Placement, s: State, w: nat)
    requires PcOf(s, w).Opening?
    ensures var s1 := Next(rep, Next(rep, Next(rep, s, OpenTemp(w)), FillTemp(w)), Replace(w)); var s2 := Next(rep, s1, Release(w));
      s2.path == Whole(PcOf(s, w).claims + [PcOf(s, w).claim]) && PcOf(s2, w).Resting? && s2.fileLock == None
  {
    hide NextClaim;
  }

  lemma OneStep(rep: Placement, s: State, a: Action)
    ensures ExecFrom(rep, s, [a]) == Next(rep, s, a)
  {
    hide Next;
    assert [a][1..] == [];
  }

  lemma TwoSteps(rep: Placement, s: State, a: Action, b: Action)
    ensures ExecFrom(rep, s, [a, b]) == Next(rep, Next(rep, s, a), b)
  {
    hide Next;
    assert [a, b][1..] == [b];
    OneStep(rep, Next(rep, s, a), b);
  }

  /** No deadlock: whatever has happened, a writer that asks
      for its append can still have it. The run goes on so that the writer is done, and
      the file holds what it held when the writer's turn came, and the writer's claim
      unless no number was left for it. */
  lemma EveryAppendCanFinish(rep: Placement, seed: Disk, run: seq<Action>, w: nat)
    returns (more: seq<Action>, claims: seq<Claim>)
    requires Parsed(seed).Some? && PcOf(Exec(rep, seed, run), w).Asking?
    ensures var s := Exec(rep, seed, run); var s1 := Exec(rep, seed, run + more);
      && PcOf(s1, w).Resting?
      && Parsed(s.path).Some? && Parsed(s.path).value <= claims
      && Parsed(s1.path) == Some(match NextClaim(claims, PcOf(s, w).args) case None => claims case Some(claim) => claims + [claim])
  {
    hide Next, NextClaim, LocksAreHeld, Parsed, Inside;
    var s := Exec(rep, seed, run);
    RunKeepsLocks(rep, seed, run);
    var a := ProcessLockComesFree(rep, s, w);
    var sa := ExecFrom(rep, s, a);
    TakesProcessLock(rep, sa, w);
    GoesOn(rep, seed, run, a);
    var b := a + [TakeProcessLock(w)];
    RunsJoin(rep, s, a, [TakeProcessLock(w)]);
    GoesOn(rep, seed, run, b);
    RunKeepsLocks(rep, seed, run + b);
    var c := FileLockComesFree(rep, ExecFrom(rep, s, b), w);
    RunsJoin(rep, s, b, c);
    GoesOn(rep, seed, run, b + c);
    claims := RecordAt(rep, seed, run, b + c);
    var d := AppendGoesThrough(rep, ExecFrom(rep, s, b + c), w, claims);
    more := b + c + d;
    RunsJoin(rep, s, b + c, d);
    GoesOn(rep, seed, run, more);
  }

  /** And so for everyone who has nothing under way and submits. */
  lemma EverySubmissionCanFinish(rep: Placement, seed: Disk, run: seq<Action>, w: nat, args: ClaimArgs)
    returns (more: seq<Action>, claims: seq<Claim>)
    requires Parsed(seed).Some? && PcOf(Exec(rep, seed, run), w).Resting?
    ensures var s := Exec(rep, seed, run); var s1 := Exec(rep, seed, run + [Submit(w, args)] + more);
      && PcOf(s1, w).Resting?
      && Parsed(s.path).Some? && Parsed(s.path).value <= claims
      && Parsed(s1.path) == Some(match NextClaim(claims, args) case None => claims case Some(claim) => claims + [claim])
  {
    Asks(rep, seed, run, w, args);
    hide Next, NextClaim, Parsed;
    more, claims := EveryAppendCanFinish(rep, seed, run + [Submit(w, args)], w);
  }

  lemma Asks(rep: Placement, seed: Disk, run: seq<Action>, w: nat, args: ClaimArgs)
    requires PcOf(Exec(rep, seed, run), w).Resting?
    ensures var s1 := Exec(rep, seed, run + [Submit(w, args)]);
      PcOf(s1, w) == Asking(args) && s1.path == Exec(rep, seed, run).path
  {
    assert (run + [Submit(w, args)])[..|run|] == run;
  }

  /** What the file holds later on starts with what it holds now. */
  lemma RecordAt(rep: Placement, seed: Disk, run: seq<Action>, more: seq<Action>) returns (claims: seq<Claim>)
    requires Parsed(seed).Some?
    ensures var s := Exec(rep, seed, run); Parsed(s.path).Some? && Parsed(s.path).value <= claims
    ensures Parsed(Exec(rep, seed, run + more).path) == Some(claims)
  {
    hide Next, Exec, RecordInv;
    var s, s1 := Exec(rep, seed, run), Exec(rep, seed, run + more);
    RunKeeps(rep, seed, run);
    RunKeeps(rep, seed, run + more);
    PathIsRecord(seed, s);
    PathIsRecord(seed, s1);
    assert (run + more)[..|run|] == run;
    CommitsLast(rep, seed, run + more, |run|);
    RecordGrows(seed, s.commits, s1.commits);
    claims := Record(seed, s1.commits);
  }

  // ------------------------------------------------- what the locks are for

  /** The writers cancelled since they last asked for an append. */
  function Cancelled(rep: Placement, seed: Disk, run: seq<Action>): set<nat> {
    if run == [] then {}
    else
      var n := |run| - 1;
      var before := Cancelled(rep, seed, run[..n]);
      match run[n]
      case Submit(w, _) => if PcOf(Exec(rep, seed, run[..n]), w).Resting? then before - {w} else before
      case Cancel(w) => before + {w}
      case _ => before
  }

  ghost predicate HoldTheirLock(rep: Placement, s: State, cancelled: set<nat>) {
    forall w: nat :: Past(PcOf(s, w)) && w !in cancelled ==> rep(w) in s.processLocks && s.processLocks[rep(w)] == w
  }

  lemma StepHoldsLock(rep: Placement, s: State, a: Action, cancelled: set<nat>)
    requires HoldTheirLock(rep, s, cancelled)
    ensures a.Submit? ==>
      HoldTheirLock(rep, Next(rep, s, a), if PcOf(s, a.w).Resting? then cancelled - {a.w} else cancelled)
    ensures a.Cancel? ==> HoldTheirLock(rep, Next(rep, s, a), cancelled + {a.w})
    ensures !a.Submit? && !a.Cancel? ==> HoldTheirLock(rep, Next(rep, s, a), cancelled)
  {
    hide NextClaim;
  }

  lemma {:induction false} RunHoldsLock(rep: Placement, seed: Disk, run: seq<Action>)
    ensures HoldTheirLock(rep, Exec(rep, seed, run), Cancelled(rep, seed, run))
  {
    hide Next;
    if run != [] {
      RunHoldsLock(rep, seed, run[..|run| - 1]);
      hide HoldTheirLock;
      StepHoldsLock(rep, Exec(rep, seed, run[..|run| - 1]), run[|run| - 1], Cancelled(rep, seed, run[..|run| - 1]));
    }
  }

  /** Of one replica's writers at most one at a time that was not cancelled is past the
      process lock, though others of them leave it early or late. */
  lemma OneAtATimeInAProcess(rep: Placement, seed: Disk, run: seq<Action>, v: nat, w: nat)
    requires var s := Exec(rep, seed, run); Past(PcOf(s, v)) && Past(PcOf(s, w)) && rep(v) == rep(w)
    requires v !in Cancelled(rep, seed, run) && w !in Cancelled(rep, seed, run)
    ensures v == w
  {
    RunHoldsLock(rep, seed, run);
  }

  /** A process that dies while it writes leaves half a file, but not where readers
      look, and its lock is free. */
  lemma DiesWhileWriting(rep: Placement, s: State, w: nat)
    requires LocksAreHeld(rep, s) && PcOf(s, w).Opening?
    ensures var s1 := Next(rep, Next(rep, s, OpenTemp(w)), Crash(rep(w)));
      && s1.temp == Torn && s1.path == s.path
      && s1.fileLock == None && rep(w) !in s1.processLocks && PcOf(s1, w).Resting?
  {
  }
}
