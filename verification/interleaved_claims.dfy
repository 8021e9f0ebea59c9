/** The same protocol by several callers at once, step by step, where a caller
    may die between any two steps. */
module InterleavedClaims {
  import opened GraphState
  import opened Options
  import opened ClaimsFile

  datatype Stage = Idle | Missed(args: ClaimArgs) | Filed(args: ClaimArgs, number: nat)

  datatype State = State(claims: seq<Claim>, keys: map<ClaimArgs, nat>, stages: map<nat, Stage>)

  datatype Action =
    | Look(w: nat, args: ClaimArgs)   // idempotency.get
    | File(w: nat)                    // repo.append
    | Note(w: nat)                    // idempotency.put
    | Die(w: nat)

  function StageOf(s: State, w: nat): Stage { if w in s.stages then s.stages[w] else Idle }

  function Move(s: State, w: nat, stage: Stage): State { s.(stages := s.stages[w := stage]) }

  function Next(s: State, a: Action): State {
    match a
    case Look(w, args) =>
      if StageOf(s, w).Idle? && args !in s.keys then Move(s, w, Missed(args)) else s
    case File(w) =>
      var stage := StageOf(s, w);
      if !stage.Missed? then s
      else (match NextClaim(s.claims, stage.args)
        case Some(c) => Move(s.(claims := s.claims + [c]), w, Filed(stage.args, c.number))
        case None => Move(s, w, Idle))
    case Note(w) =>
      var stage := StageOf(s, w);
      if stage.Filed? then Move(s.(keys := s.keys[stage.args := stage.number]), w, Idle) else s
    case Die(w) => Move(s, w, Idle)
  }

  function ExecFrom(s: State, run: seq<Action>): State {
    if run == [] then s else Next(ExecFrom(s, run[..|run| - 1]), run[|run| - 1])
  }

  function Exec(seed: seq<Claim>, run: seq<Action>): State { ExecFrom(State(seed, map[], map[]), run) }

  predicate BusyWith(s: State, w: nat, args: ClaimArgs) { !StageOf(s, w).Idle? && StageOf(s, w).args == args }

  /** One caller at a time on each key, and none dies with a claim un-noted. */
  ghost predicate Guarded(s: State, a: Action) {
    && (a.Look? ==> forall w: nat :: !BusyWith(s, w, a.args))
    && (a.Die? ==> !StageOf(s, a.w).Filed?)
  }

  ghost predicate GuardedFrom(s: State, run: seq<Action>) {
    forall i :: 0 <= i < |run| ==> Guarded(ExecFrom(s, run[..i]), run[i])
  }

  /** No two claims filed in the run have the same arguments. */
  predicate FiledOnce(seed: seq<Claim>, s: State) {
    forall i, j :: |seed| <= i < j < |s.claims| ==> s.claims[i].args != s.claims[j].args
  }

  predicate FiledFor(seed: seq<Claim>, s: State, args: ClaimArgs) {
    exists i :: |seed| <= i < |s.claims| && s.claims[i].args == args
  }

  ghost predicate Inv(seed: seq<Claim>, s: State) {
    && FiledOnce(seed, s)
    && |seed| <= |s.claims|
    && (forall v: nat, w: nat :: v != w && !StageOf(s, v).Idle? && !StageOf(s, w).Idle? ==>
          StageOf(s, v).args != StageOf(s, w).args)
    && (forall i :: |seed| <= i < |s.claims| ==>
          s.claims[i].args in s.keys || exists w: nat :: Holds(s, w, s.claims[i].args))
    && (forall w: nat :: !StageOf(s, w).Idle? ==> StageOf(s, w).args !in s.keys)
    && (forall w: nat :: StageOf(s, w).Missed? ==> !FiledFor(seed, s, StageOf(s, w).args))
    && (forall w: nat :: StageOf(s, w).Filed? ==> FiledFor(seed, s, StageOf(s, w).args))
  }

  predicate Holds(s: State, w: nat, args: ClaimArgs) { StageOf(s, w).Filed? && StageOf(s, w).args == args }

  lemma OthersStay(s: State, w: nat, stage: Stage)
    ensures forall v: nat :: StageOf(Move(s, w, stage), v) == if v == w then stage else StageOf(s, v)
  {
  }

  lemma SameStages(s: State, s1: State)
    requires s.stages == s1.stages
    ensures forall v: nat :: StageOf(s1, v) == StageOf(s, v)
  {
  }

  lemma LookKeeps(seed: seq<Claim>, s: State, w: nat, args: ClaimArgs)
    requires Inv(seed, s) && Guarded(s, Look(w, args))
    ensures Inv(seed, Next(s, Look(w, args)))
  {
    var s1 := Next(s, Look(w, args));
    if s1 != s {
      OthersStay(s, w, Missed(args));
      SameStages(Move(s, w, Missed(args)), s1);
      forall v: nat | !StageOf(s, v).Idle? ensures StageOf(s, v).args != args { assert !BusyWith(s, v, args); }
      SameFiled(seed, s, s1);
      forall i | |seed| <= i < |s.claims| && s.claims[i].args !in s.keys
        ensures exists v: nat :: Holds(s1, v, s.claims[i].args)
      {
        var v: nat :| Holds(s, v, s.claims[i].args);
        assert Holds(s1, v, s.claims[i].args);
      }
    }
  }

  lemma SameFiled(seed: seq<Claim>, s: State, s1: State)
    requires s.claims == s1.claims
    ensures forall a :: FiledFor(seed, s1, a) <==> FiledFor(seed, s, a)
  {
  }

  lemma FiledGrows(seed: seq<Claim>, s: State, c: Claim, s1: State)
    requires |seed| <= |s.claims| && s1.claims == s.claims + [c]
    ensures forall a :: FiledFor(seed, s1, a) <==> FiledFor(seed, s, a) || a == c.args
    ensures FiledOnce(seed, s) && !FiledFor(seed, s, c.args) ==> FiledOnce(seed, s1)
  {
    assert s1.claims[|s.claims|] == c;
    forall a ensures FiledFor(seed, s1, a) <==> FiledFor(seed, s, a) || a == c.args {
      if FiledFor(seed, s, a) {
        var i :| |seed| <= i < |s.claims| && s.claims[i].args == a;
        assert s1.claims[i].args == a;
      }
    }
  }

  lemma FileKeeps(seed: seq<Claim>, s: State, w: nat)
    requires Inv(seed, s)
    ensures Inv(seed, Next(s, File(w)))
  {
    hide NextClaim, FiledFor;
    var s1, stage := Next(s, File(w)), StageOf(s, w);
    if stage.Missed? {
      OthersStay(s, w, StageOf(s1, w));
      SameStages(Move(s, w, StageOf(s1, w)), s1);
      if NextClaim(s.claims, stage.args).Some? {
        FiledGrows(seed, s, NextClaim(s.claims, stage.args).value, s1);
      } else {
        SameFiled(seed, s, s1);
      }
      forall i | |seed| <= i < |s1.claims| && s1.claims[i].args !in s1.keys
        ensures exists v: nat :: Holds(s1, v, s1.claims[i].args)
      {
        if i < |s.claims| {
          var v: nat :| Holds(s, v, s.claims[i].args);
          assert Holds(s1, v, s1.claims[i].args);
        } else {
          assert Holds(s1, w, s1.claims[i].args);
        }
      }
    }
  }

  lemma NoteKeeps(seed: seq<Claim>, s: State, w: nat)
    requires Inv(seed, s)
    ensures Inv(seed, Next(s, Note(w)))
  {
    hide FiledFor;
    var s1, stage := Next(s, Note(w)), StageOf(s, w);
    if stage.Filed? {
      OthersStay(s, w, Idle);
      SameStages(Move(s, w, Idle), s1);
      SameFiled(seed, s, s1);
      forall i | |seed| <= i < |s1.claims| && s1.claims[i].args !in s1.keys
        ensures exists v: nat :: Holds(s1, v, s1.claims[i].args)
      {
        var v: nat :| Holds(s, v, s.claims[i].args);
        assert Holds(s1, v, s1.claims[i].args);
      }
    }
  }

  lemma DieKeeps(seed: seq<Claim>, s: State, w: nat)
    requires Inv(seed, s) && Guarded(s, Die(w))
    ensures Inv(seed, Next(s, Die(w)))
  {
    var s1 := Next(s, Die(w));
    OthersStay(s, w, Idle);
    SameFiled(seed, s, s1);
    forall i | |seed| <= i < |s1.claims| && s1.claims[i].args !in s1.keys
      ensures exists v: nat :: Holds(s1, v, s1.claims[i].args)
    {
      var v: nat :| Holds(s, v, s.claims[i].args);
      assert Holds(s1, v, s1.claims[i].args);
    }
  }

  lemma {:induction false} RunKeeps(seed: seq<Claim>, s: State, run: seq<Action>)
    requires Inv(seed, s) && GuardedFrom(s, run)
    ensures Inv(seed, ExecFrom(s, run))
  {
    hide Inv, Next, Guarded;
    if run != [] {
      var front, a := run[..|run| - 1], run[|run| - 1];
      forall i | 0 <= i < |front| ensures Guarded(ExecFrom(s, front[..i]), front[i]) { assert front[..i] == run[..i]; }
      RunKeeps(seed, s, front);
      var before := ExecFrom(s, front);
      assert run[..|run| - 1] == front && Guarded(before, a);
      match a
      case Look(w, args) => LookKeeps(seed, before, w, args);
      case File(w) => FileKeeps(seed, before, w);
      case Note(w) => NoteKeeps(seed, before, w);
      case Die(w) => DieKeeps(seed, before, w);
    }
  }

  lemma NothingFiled(seed: seq<Claim>)
    ensures Inv(seed, Exec(seed, []))
  {
  }

  // ------------------------------------------------------------ main results

  /** With one caller at a time on each key, and no crash between the append and
      the note, no claim is filed twice, however the callers interleave. */
  lemma GuardedRunsFileOnce(seed: seq<Claim>, run: seq<Action>)
    requires GuardedFrom(Exec(seed, []), run)
    ensures FiledOnce(seed, Exec(seed, run))
  {
    hide ExecFrom, GuardedFrom;
    NothingFiled(seed);
    RunKeeps(seed, Exec(seed, []), run);
    StartsThere(seed);
  }

  lemma StartsThere(seed: seq<Claim>)
    ensures Exec(seed, []) == State(seed, map[], map[])
  {
  }

  /** Every guarded way on from here files nothing twice. */
  ghost predicate SafeFrom(seed: seq<Claim>, s: State) {
    forall run :: GuardedFrom(s, run) ==> FiledOnce(seed, ExecFrom(s, run))
  }

  /** A step that does something: a look by an idle caller that misses, or a death. */
  predicate Matters(s: State, a: Action) {
    (a.Look? && StageOf(s, a.w).Idle? && a.args !in s.keys) || a.Die?
  }

  predicate RoomForTwo(s: State) { Highest(s.claims) + 2 <= LAST_ID }

  /** The guard asks for no more than it must: after a step that breaks it, some
      guarded way on files a claim twice, and after one that keeps it, none does. */
  lemma GuardIsExact(seed: seq<Claim>, s: State, a: Action)
    requires Inv(seed, s) && Matters(s, a) && RoomForTwo(s)
    ensures SafeFrom(seed, Next(s, a)) <==> Guarded(s, a)
  {
    hide Inv, Next, ExecFrom, GuardedFrom, FiledOnce, Highest, Guarded;
    var s1 := Next(s, a);
    if Guarded(s, a) {
      if a.Look? { LookKeeps(seed, s, a.w, a.args); } else { DieKeeps(seed, s, a.w); }
      forall run | GuardedFrom(s1, run) ensures FiledOnce(seed, ExecFrom(s1, run)) {
        RunKeeps(seed, s1, run);
        InvFilesOnce(seed, ExecFrom(s1, run));
      }
    } else if a.Look? {
      var run := LookTooSoon(seed, s, a.w, a.args);
    } else {
      var run := DeathTooSoon(seed, s, a.w);
    }
  }

  lemma InvFilesOnce(seed: seq<Claim>, s: State)
    requires Inv(seed, s)
    ensures FiledOnce(seed, s)
  {
  }

  lemma FilingTwice(seed: seq<Claim>, s: State, w: nat)
    requires StageOf(s, w).Missed? && FiledFor(seed, s, StageOf(s, w).args) && |seed| <= |s.claims|
    requires NextClaim(s.claims, StageOf(s, w).args).Some?
    ensures !FiledOnce(seed, Next(s, File(w)))
  {
    var i :| |seed| <= i < |s.claims| && s.claims[i].args == StageOf(s, w).args;
    var s1 := Next(s, File(w));
    assert s1.claims[i].args == s1.claims[|s.claims|].args;
  }

  lemma OneStep(s: State, a: Action)
    ensures ExecFrom(s, [a]) == Next(s, a) && (Guarded(s, a) ==> GuardedFrom(s, [a]))
  {
    assert [a][..0] == [];
    assert ExecFrom(s, []) == s;
  }

  lemma TwoSteps(s: State, a: Action, b: Action)
    ensures ExecFrom(s, [a, b]) == Next(Next(s, a), b)
    ensures Guarded(s, a) && Guarded(Next(s, a), b) ==> GuardedFrom(s, [a, b])
  {
    hide Next, Guarded;
    OneStep(s, a);
    assert [a, b][..1] == [a] && [a, b][..0] == [];
    assert ExecFrom(s, []) == s;
  }

  lemma HighestGrows(claims: seq<Claim>, c: Claim)
    requires forall d :: d in claims ==> d.number < c.number
    ensures Highest(claims + [c]) == c.number
  {
    var all := claims + [c];
    assert all[|claims|] == c;
    var top :| top in all && top.number == Highest(all);
    assert c in all;
  }

  /** A look while another caller is busy with the key. */
  lemma LookTooSoon(seed: seq<Claim>, s: State, w: nat, args: ClaimArgs) returns (run: seq<Action>)
    requires Inv(seed, s) && Matters(s, Look(w, args)) && !Guarded(s, Look(w, args)) && RoomForTwo(s)
    ensures var s1 := Next(s, Look(w, args)); GuardedFrom(s1, run) && !FiledOnce(seed, ExecFrom(s1, run))
  {
    hide Highest, FiledOnce;
    var s1 := Next(s, Look(w, args));
    var v: nat :| BusyWith(s, v, args);
    OthersStay(s, w, Missed(args));
    if StageOf(s, v).Filed? {
      assert FiledFor(seed, s1, args);
      FilingTwice(seed, s1, w);
      OneStep(s1, File(w));
      run := [File(w)];
    } else {
      var c := NextClaim(s.claims, args).value;
      var s2 := Next(s1, File(v));
      FiledGrows(seed, s1, c, s2);
      OthersStay(s1, v, Filed(args, c.number));
      SameStages(Move(s1, v, Filed(args, c.number)), s2);
      HighestGrows(s.claims, c);
      FilingTwice(seed, s2, w);
      TwoSteps(s1, File(v), File(w));
      run := [File(v), File(w)];
    }
  }

  /** A death between the append and the note. */
  lemma DeathTooSoon(seed: seq<Claim>, s: State, w: nat) returns (run: seq<Action>)
    requires Inv(seed, s) && !Guarded(s, Die(w)) && RoomForTwo(s)
    ensures var s1 := Next(s, Die(w)); GuardedFrom(s1, run) && !FiledOnce(seed, ExecFrom(s1, run))
  {
    hide Highest, FiledOnce;
    var args := StageOf(s, w).args;
    var s1 := Next(s, Die(w));
    OthersStay(s, w, Idle);
    forall v: nat ensures !BusyWith(s1, v, args) {
    }
    var s2 := Next(s1, Look(w, args));
    OthersStay(s1, w, Missed(args));
    assert FiledFor(seed, s, args);
    assert FiledFor(seed, s2, args);
    FilingTwice(seed, s2, w);
    TwoSteps(s1, Look(w, args), File(w));
    run := [Look(w, args), File(w)];
  }
  /** A crash between the append and the note: the retry files a second claim. */
  lemma CrashFilesTwice(args: ClaimArgs)
    ensures !FiledOnce([], Exec([], [Look(0, args), File(0), Die(0), Look(0, args), File(0)]))
  {
    var run := [Look(0, args), File(0), Die(0), Look(0, args), File(0)];
    StepsOf(run);
    var s := Exec([], run[..2]);
    assert |s.claims| == 1 && s.claims[0].args == args;
    assert Exec([], run[..3]).keys == map[] && StageOf(Exec([], run[..3]), 0) == Idle;
    assert StageOf(Exec([], run[..4]), 0) == Missed(args);
    var e := Exec([], run);
    assert |e.claims| == 2 && e.claims[0].args == e.claims[1].args;
  }

  /** Two callers that both look before either files: two claims. */
  lemma RaceFilesTwice(args: ClaimArgs)
    ensures !FiledOnce([], Exec([], [Look(0, args), Look(1, args), File(0), File(1)]))
  {
    var run := [Look(0, args), Look(1, args), File(0), File(1)];
    StepsOf(run);
    var s := Exec([], run[..3]);
    assert |s.claims| == 1 && s.claims[0].args == args && StageOf(s, 1) == Missed(args);
    var e := Exec([], run);
    assert |e.claims| == 2 && e.claims[0].args == e.claims[1].args;
  }

  lemma StepsOf(run: seq<Action>)
    requires 4 <= |run| <= 5
    ensures Exec([], run[..1]) == Next(State([], map[], map[]), run[0])
    ensures Exec([], run[..2]) == Next(Exec([], run[..1]), run[1])
    ensures Exec([], run[..3]) == Next(Exec([], run[..2]), run[2])
    ensures Exec([], run[..4]) == Next(Exec([], run[..3]), run[3])
    ensures |run| == 5 ==> Exec([], run) == Next(Exec([], run[..4]), run[4])
    ensures |run| == 4 ==> run[..4] == run
  {
    hide Next;
    assert run[..1][..0] == [] && run[..2][..1] == run[..1] && run[..3][..2] == run[..2] && run[..4][..3] == run[..3];
    assert Exec([], []) == State([], map[], map[]);
  }
}
