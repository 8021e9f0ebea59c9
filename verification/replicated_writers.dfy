/** Many replicas, each with many tasks, on one file: every step of an append
    may interleave with any other, be cancelled, or die with its process. */
module ReplicatedWriters {
  import opened GraphState
  import opened Options
  import opened ClaimsFile

  /** What a path holds; Torn is a write in progress or one that died. */
  datatype Disk = Absent | Torn | Whole(claims: seq<Claim>)

  datatype Pc =
    | Resting
    | Asking(args: ClaimArgs)                                   // wants the process lock
    | Queued(args: ClaimArgs)                                   // wants the file lock
    | Reading(args: ClaimArgs, grant: nat)                      // holds it, like all below
    | Computing(args: ClaimArgs, grant: nat, claims: seq<Claim>)
    | Opening(grant: nat, claims: seq<Claim>, claim: Claim)
    | Writing(grant: nat, claims: seq<Claim>, claim: Claim)
    | Written(grant: nat, claims: seq<Claim>, claim: Claim)
    | Leaving(result: Option<Claim>)

  datatype Commit = Commit(grant: nat, claim: Claim)

  /** `grants` counts file-lock acquisitions; `commits` records each rename. */
  datatype State = State(
    path: Disk, temp: Disk,
    processLocks: map<nat, nat>, fileLock: Option<nat>,
    pcs: map<nat, Pc>, grants: nat, commits: seq<Commit>)

  datatype Action =
    | Submit(w: nat, args: ClaimArgs)
    | TakeProcessLock(w: nat)
    | TakeFileLock(w: nat)
    | LockTimeout(w: nat)
    | Read(w: nat)
    | Compute(w: nat)
    | OpenTemp(w: nat)
    | FillTemp(w: nat)
    | Replace(w: nat)
    | Release(w: nat)
    | Cancel(w: nat)              // the awaiting task is cancelled; its thread, if it has one, runs on
    | Crash(replica: nat)         // the process dies; the system frees its locks

  /** Which replica a writer belongs to. */
  type Placement = nat -> nat

  function PcOf(s: State, w: nat): Pc { if w in s.pcs then s.pcs[w] else Resting }

  predicate Inside(pc: Pc) { pc.Reading? || pc.Computing? || pc.Opening? || pc.Writing? || pc.Written? || pc.Leaving? }

  function Parsed(d: Disk): Option<seq<Claim>> {
    match d
    case Absent => Some([])
    case Torn => None
    case Whole(claims) => Some(claims)
  }

  function Unlock(s: State, rep: Placement, w: nat): State {
    if rep(w) in s.processLocks && s.processLocks[rep(w)] == w
    then s.(processLocks := s.processLocks - {rep(w)}) else s
  }

  function Move(s: State, w: nat, pc: Pc): State { s.(pcs := s.pcs[w := pc]) }

  function Next(rep: Placement, s: State, a: Action): State {
    match a
    case Submit(w, args) =>
      if PcOf(s, w).Resting? then Move(s, w, Asking(args)) else s
    case TakeProcessLock(w) =>
      var pc := PcOf(s, w);
      if pc.Asking? && rep(w) !in s.processLocks
      then Move(s.(processLocks := s.processLocks[rep(w) := w]), w, Queued(pc.args)) else s
    case TakeFileLock(w) =>
      var pc := PcOf(s, w);
      if pc.Queued? && s.fileLock == None
      then Move(s.(fileLock := Some(w), grants := s.grants + 1), w, Reading(pc.args, s.grants)) else s
    case LockTimeout(w) =>
      if PcOf(s, w).Queued? then Move(Unlock(s, rep, w), w, Resting) else s
    case Read(w) =>
      var pc := PcOf(s, w);
      if !pc.Reading? then s
      else if Parsed(s.path) == None then Move(s, w, Leaving(None))
      else Move(s, w, Computing(pc.args, pc.grant, Parsed(s.path).value))
    case Compute(w) =>
      var pc := PcOf(s, w);
      if !pc.Computing? then s
      else if NextClaim(pc.claims, pc.args) == None then Move(s, w, Leaving(None))
      else Move(s, w, Opening(pc.grant, pc.claims, NextClaim(pc.claims, pc.args).value))
    case OpenTemp(w) =>
      var pc := PcOf(s, w);
      if pc.Opening? then Move(s.(temp := Torn), w, Writing(pc.grant, pc.claims, pc.claim)) else s
    case FillTemp(w) =>
      var pc := PcOf(s, w);
      if pc.Writing?
      then Move(s.(temp := Whole(pc.claims + [pc.claim])), w, Written(pc.grant, pc.claims, pc.claim)) else s
    case Replace(w) =>
      var pc := PcOf(s, w);
      if pc.Written?
      then Move(s.(path := s.temp, temp := Absent, commits := s.commits + [Commit(pc.grant, pc.claim)]), w, Leaving(Some(pc.claim)))
      else s
    case Release(w) =>
      if PcOf(s, w).Leaving? then Move(Unlock(s, rep, w).(fileLock := None), w, Resting) else s
    case Cancel(w) =>
      var pc := PcOf(s, w);
      if pc.Asking? then Move(s, w, Resting)
      else if pc.Queued? || Inside(pc) then Unlock(s, rep, w)
      else s
    case Crash(replica) =>
      s.(pcs := map w | w in s.pcs && rep(w) != replica :: s.pcs[w],
         processLocks := s.processLocks - {replica},
         fileLock := if s.fileLock.Some? && rep(s.fileLock.value) == replica then None else s.fileLock)
  }

  function Start(seed: Disk): State { State(seed, Absent, map[], None, map[], 0, []) }

  function Exec(rep: Placement, seed: Disk, run: seq<Action>): State {
    if run == [] then Start(seed)
    else Next(rep, Exec(rep, seed, run[..|run| - 1]), run[|run| - 1])
  }

  // ----------------------------------------------------------- the invariant

  function Claimed(commits: seq<Commit>): (r: seq<Claim>)
    ensures |r| == |commits|
    ensures forall i :: 0 <= i < |r| ==> r[i] == commits[i].claim
  {
    seq(|commits|, i requires 0 <= i < |commits| => commits[i].claim)
  }

  /** What a reader of the path gets: the seed and every commit, in order. */
  function Record(seed: Disk, commits: seq<Commit>): seq<Claim>
    requires Parsed(seed).Some?
  {
    Parsed(seed).value + Claimed(commits)
  }

  predicate Ascending(commits: seq<Commit>) {
    forall i, j :: 0 <= i < j < |commits| ==>
      commits[i].grant < commits[j].grant && commits[i].claim.number < commits[j].claim.number
  }

  /** The lock holder works on the current record, and only it may be inside. */
  ghost predicate HolderInv(seed: Disk, s: State, w: nat)
    requires Parsed(seed).Some?
  {
    match PcOf(s, w)
    case Reading(_, g) => g < s.grants && LastGrant(s.commits) < g as int
    case Computing(_, g, claims) => g < s.grants && LastGrant(s.commits) < g as int && claims == Record(seed, s.commits)
    case Opening(g, claims, claim) => g < s.grants && LastGrant(s.commits) < g as int && Grows(seed, s.commits, claims, claim)
    case Writing(g, claims, claim) => g < s.grants && LastGrant(s.commits) < g as int && Grows(seed, s.commits, claims, claim)
    case Written(g, claims, claim) =>
      g < s.grants && LastGrant(s.commits) < g as int && Grows(seed, s.commits, claims, claim) && s.temp == Whole(claims + [claim])
    case Leaving(result) => result.Some? ==> result.value in Record(seed, s.commits)
    case _ => false
  }

  predicate Grows(seed: Disk, commits: seq<Commit>, claims: seq<Claim>, claim: Claim)
    requires Parsed(seed).Some?
  {
    claims == Record(seed, commits) && claim.number <= LAST_ID && forall c :: c in claims ==> c.number < claim.number
  }

  function LastGrant(commits: seq<Commit>): int {
    if commits == [] then -1 else commits[|commits| - 1].grant
  }

  /** Commits in lock order, ids rising past every seeded one. */
  ghost predicate Orderly(seed: Disk, commits: seq<Commit>)
    requires Parsed(seed).Some?
  {
    && Ascending(commits)
    && (forall i :: 0 <= i < |commits| ==> commits[i].claim.number <= LAST_ID)
    && (forall i, c :: 0 <= i < |commits| && c in Parsed(seed).value ==> c.number < commits[i].claim.number)
  }

  /** The path holds whole versions only: the seed, then every commit. */
  ghost predicate RecordInv(seed: Disk, s: State)
    requires Parsed(seed).Some?
  {
    && (if s.commits == [] then s.path == seed else s.path == Whole(Record(seed, s.commits)))
    && Orderly(seed, s.commits)
    && LastGrant(s.commits) < s.grants
  }

  /** Whoever is inside holds the file lock, and is doing the right thing. */
  ghost predicate LockInv(seed: Disk, s: State)
    requires Parsed(seed).Some?
  {
    && (forall w :: w in s.pcs && Inside(s.pcs[w]) ==> s.fileLock == Some(w))
    && (s.fileLock.Some? ==> s.fileLock.value in s.pcs && HolderInv(seed, s, s.fileLock.value))
  }

  ghost predicate Inv(seed: Disk, s: State)
    requires Parsed(seed).Some?
  {
    RecordInv(seed, s) && LockInv(seed, s)
  }

  lemma PathIsRecord(seed: Disk, s: State)
    requires Parsed(seed).Some? && RecordInv(seed, s)
    ensures Parsed(s.path) == Some(Record(seed, s.commits))
  {
    if s.commits == [] { assert Record(seed, s.commits) == Parsed(seed).value; }
  }

  lemma CommitExtends(seed: Disk, commits: seq<Commit>, c: Commit)
    requires Parsed(seed).Some?
    ensures Record(seed, commits + [c]) == Record(seed, commits) + [c.claim]
    ensures forall i :: 0 <= i < |commits| ==> commits[i].claim in Record(seed, commits)
  {
    assert Claimed(commits + [c]) == Claimed(commits) + [c.claim];
    forall i | 0 <= i < |commits| ensures commits[i].claim in Record(seed, commits) {
      assert commits[i].claim == Claimed(commits)[i];
    }
  }

  lemma NewIdIsHighest(seed: Disk, commits: seq<Commit>, claim: Claim)
    requires Parsed(seed).Some? && Grows(seed, commits, Record(seed, commits), claim)
    ensures forall i :: 0 <= i < |commits| ==> commits[i].claim.number < claim.number
    ensures forall d :: d in Parsed(seed).value ==> d.number < claim.number
  {
    CommitExtends(seed, commits, Commit(0, claim));
    var record := Record(seed, commits);
    forall d | d in Parsed(seed).value ensures d.number < claim.number {
      var k :| 0 <= k < |Parsed(seed).value| && Parsed(seed).value[k] == d;
      assert record[k] == d;
    }
  }

  lemma CommitKeepsOrder(seed: Disk, commits: seq<Commit>, c: Commit)
    requires Parsed(seed).Some? && Orderly(seed, commits)
    requires LastGrant(commits) < c.grant && Grows(seed, commits, Record(seed, commits), c.claim)
    ensures Orderly(seed, commits + [c])
  {
    hide Record;
    NewIdIsHighest(seed, commits, c.claim);
    assert forall i :: 0 <= i < |commits| ==> commits[i].grant < c.grant by {
      assert forall i :: 0 <= i < |commits| - 1 ==> commits[i].grant < commits[|commits| - 1].grant;
    }
  }

  lemma ReplaceKeeps(rep: Placement, seed: Disk, s: State, w: nat)
    requires Parsed(seed).Some? && Inv(seed, s) && PcOf(s, w).Written?
    ensures RecordInv(seed, Next(rep, s, Replace(w)))
  {
    hide Orderly, Record;
    var pc := PcOf(s, w);
    assert s.fileLock == Some(w) && HolderInv(seed, s, w);
    CommitExtends(seed, s.commits, Commit(pc.grant, pc.claim));
    CommitKeepsOrder(seed, s.commits, Commit(pc.grant, pc.claim));
  }

  lemma ReplaceKeepsLock(rep: Placement, seed: Disk, s: State, w: nat)
    requires Parsed(seed).Some? && Inv(seed, s) && PcOf(s, w).Written?
    ensures LockInv(seed, Next(rep, s, Replace(w)))
  {
    hide RecordInv, Record;
    CommitExtends(seed, s.commits, Commit(PcOf(s, w).grant, PcOf(s, w).claim));
  }

  /** A step that leaves the commits and the path alone keeps the record. */
  lemma RecordStays(seed: Disk, s: State, s1: State)
    requires Parsed(seed).Some? && RecordInv(seed, s)
    requires s1.path == s.path && s1.commits == s.commits && s1.grants >= s.grants
    ensures RecordInv(seed, s1)
  {
  }

  lemma ReadMoves(rep: Placement, seed: Disk, s: State, w: nat)
    requires Parsed(seed).Some? && Inv(seed, s)
    ensures LockInv(seed, Next(rep, s, Read(w)))
  {
    PathIsRecord(seed, s);
    hide RecordInv, Record;
  }

  lemma ComputeMoves(rep: Placement, seed: Disk, s: State, w: nat)
    requires Parsed(seed).Some? && Inv(seed, s)
    ensures LockInv(seed, Next(rep, s, Compute(w)))
  {
    hide RecordInv, Record, NextClaim, Grows;
    if PcOf(s, w).Computing? { NextClaimGrows(seed, s.commits, PcOf(s, w).args); }
  }

  lemma TempMoves(rep: Placement, seed: Disk, s: State, w: nat)
    requires Parsed(seed).Some? && Inv(seed, s)
    ensures LockInv(seed, Next(rep, s, OpenTemp(w)))
  {
    hide RecordInv, Record, NextClaim, Grows;
  }

  lemma FillMoves(rep: Placement, seed: Disk, s: State, w: nat)
    requires Parsed(seed).Some? && Inv(seed, s)
    ensures LockInv(seed, Next(rep, s, FillTemp(w)))
  {
    hide RecordInv, Record, NextClaim, Grows;
  }

  lemma NextClaimGrows(seed: Disk, commits: seq<Commit>, args: ClaimArgs)
    requires Parsed(seed).Some?
    ensures var next := NextClaim(Record(seed, commits), args);
      next.Some? ==> Grows(seed, commits, Record(seed, commits), next.value)
  {
  }

  /** Steps on the way to the file lock. */
  lemma ArrivingMoves(rep: Placement, seed: Disk, s: State, a: Action)
    requires Parsed(seed).Some? && Inv(seed, s)
    requires a.Submit? || a.TakeProcessLock? || a.TakeFileLock? || a.LockTimeout?
    ensures LockInv(seed, Next(rep, s, a))
  {
    hide Record, NextClaim, Grows, Orderly;
  }

  /** Steps away from it. */
  lemma LeavingMoves(rep: Placement, seed: Disk, s: State, a: Action)
    requires Parsed(seed).Some? && Inv(seed, s)
    requires a.Release? || a.Cancel? || a.Crash?
    ensures LockInv(seed, Next(rep, s, a))
  {
    hide Record, NextClaim, Grows, Orderly;
  }

  lemma OnlyReplaceCommits(rep: Placement, s: State, a: Action)
    requires !a.Replace?
    ensures var s1 := Next(rep, s, a); s1.path == s.path && s1.commits == s.commits && s1.grants >= s.grants
  {
    hide NextClaim;
  }

  lemma ReplaceWaits(rep: Placement, s: State, w: nat)
    requires !PcOf(s, w).Written?
    ensures Next(rep, s, Replace(w)) == s
  {
  }

  lemma NextKeeps(rep: Placement, seed: Disk, s: State, a: Action)
    requires Parsed(seed).Some? && Inv(seed, s)
    ensures Inv(seed, Next(rep, s, a))
  {
    hide RecordInv, LockInv, Next;
    var s1 := Next(rep, s, a);
    if a.Replace? {
      if PcOf(s, a.w).Written? {
        ReplaceKeeps(rep, seed, s, a.w);
        ReplaceKeepsLock(rep, seed, s, a.w);
      } else {
        ReplaceWaits(rep, s, a.w);
      }
    } else {
      OnlyReplaceCommits(rep, s, a);
      RecordStays(seed, s, s1);
      match a
      case Read(w) => ReadMoves(rep, seed, s, w);
      case Compute(w) => ComputeMoves(rep, seed, s, w);
      case OpenTemp(w) => TempMoves(rep, seed, s, w);
      case FillTemp(w) => FillMoves(rep, seed, s, w);
      case Release(_) => LeavingMoves(rep, seed, s, a);
      case Cancel(_) => LeavingMoves(rep, seed, s, a);
      case Crash(_) => LeavingMoves(rep, seed, s, a);
      case _ => ArrivingMoves(rep, seed, s, a);
    }
  }

  /** In every interleaving, at every moment, the invariant holds. */
  lemma {:induction false} RunKeeps(rep: Placement, seed: Disk, run: seq<Action>)
    requires Parsed(seed).Some?
    ensures Inv(seed, Exec(rep, seed, run))
  {
    if run != [] {
      RunKeeps(rep, seed, run[..|run| - 1]);
      NextKeeps(rep, seed, Exec(rep, seed, run[..|run| - 1]), run[|run| - 1]);
    }
  }

  // ------------------------------------------------------------ main results

  /** Linearizable: whoever reads the path, whenever, gets the seed followed by
      the committed appends in the order their writers took the lock; the ids
      rise strictly, past every seeded one, and fit the pattern. */
  lemma ReadersSeeTheCommits(rep: Placement, seed: Disk, run: seq<Action>)
    requires Parsed(seed).Some?
    ensures var s := Exec(rep, seed, run);
      && Parsed(s.path) == Some(Parsed(seed).value + Claimed(s.commits))
      && (forall i, j :: 0 <= i < j < |s.commits| ==> s.commits[i].grant < s.commits[j].grant)
      && (forall i, j :: 0 <= i < j < |s.commits| ==> s.commits[i].claim.number < s.commits[j].claim.number)
      && (forall i, c :: 0 <= i < |s.commits| && c in Parsed(seed).value ==> c.number < s.commits[i].claim.number <= LAST_ID)
      && (forall i :: 0 <= i < |s.commits| ==> s.commits[i].claim.number <= LAST_ID)
  {
    RunKeeps(rep, seed, run);
    PathIsRecord(seed, Exec(rep, seed, run));
  }

  /** No committed claim is ever lost or moved, whatever happens next. */
  lemma {:induction false} CommitsLast(rep: Placement, seed: Disk, run: seq<Action>, i: nat)
    requires i <= |run|
    ensures Exec(rep, seed, run[..i]).commits <= Exec(rep, seed, run).commits
  {
    hide Next;
    if i == |run| {
      assert run[..i] == run;
    } else {
      CommitsLast(rep, seed, run[..|run| - 1], i);
      assert run[..|run| - 1][..i] == run[..i];
      NextCommits(rep, Exec(rep, seed, run[..|run| - 1]), run[|run| - 1]);
    }
  }

  lemma NextCommits(rep: Placement, s: State, a: Action)
    ensures s.commits <= Next(rep, s, a).commits
  {
    hide NextClaim;
  }

  lemma RecordGrows(seed: Disk, before: seq<Commit>, after: seq<Commit>)
    requires Parsed(seed).Some? && before <= after
    ensures Record(seed, before) <= Record(seed, after)
  {
    assert Claimed(before) == Claimed(after)[..|before|];
  }

  /** A caller that is given a claim can find it in the file from then on. */
  lemma ReturnedClaimsAreStored(rep: Placement, seed: Disk, run: seq<Action>, i: nat, w: nat)
    requires Parsed(seed).Some? && i <= |run|
    requires PcOf(Exec(rep, seed, run[..i]), w).Leaving? && PcOf(Exec(rep, seed, run[..i]), w).result.Some?
    ensures PcOf(Exec(rep, seed, run[..i]), w).result.value in Parsed(seed).value + Claimed(Exec(rep, seed, run).commits)
  {
    hide Exec, RecordInv;
    RunKeeps(rep, seed, run[..i]);
    CommitsLast(rep, seed, run, i);
    RecordGrows(seed, Exec(rep, seed, run[..i]).commits, Exec(rep, seed, run).commits);
  }

  /** At most one writer is inside at a time, cancelled or not. */
  lemma OneWriterInside(rep: Placement, seed: Disk, run: seq<Action>, v: nat, w: nat)
    requires Parsed(seed).Some?
    requires Inside(PcOf(Exec(rep, seed, run), v)) && Inside(PcOf(Exec(rep, seed, run), w))
    ensures v == w
  {
    RunKeeps(rep, seed, run);
  }

  /** Once the record holds CLM-9999 every append fails, and the file stays. */
  lemma FullFileRefuses(rep: Placement, seed: Disk, run: seq<Action>, w: nat)
    requires Parsed(seed).Some?
    requires PcOf(Exec(rep, seed, run), w).Computing?
    ensures var s := Exec(rep, seed, run); var s1 := Next(rep, s, Compute(w));
      && s1.path == s.path && s1.commits == s.commits
      && Parsed(s.path).Some?
      && (PcOf(s1, w) == Leaving(None) <==> Highest(Parsed(s.path).value) >= LAST_ID)
  {
    hide Exec, NextClaim, Orderly, Grows;
    RunKeeps(rep, seed, run);
    PathIsRecord(seed, Exec(rep, seed, run));
  }
}
