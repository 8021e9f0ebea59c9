/** The loops inside the nodes, proved against what the nodes' definitions say
    (backend/agent/app/graph/build.py:79-183, 207-267; nodes.py:180-184, 321-381). */
module GraphLoops {
  import opened GraphState
  import opened Options
  import opened GraphNodes
  import opened ApprovalWords

  /** tools_node: every call of the last message, in order, appending as it goes. */
  method RunTools(cfg: Config, t: Thread, results: seq<ToolResult>) returns (run: ToolRun)
    ensures run == RunCalls(cfg, LastCalls(t), results, ToolRun([], t.invocations, t.retrieved, []), |LastCalls(t)|)
  {
    hide Schema;
    var calls := LastCalls(t);
    run := ToolRun([], t.invocations, t.retrieved, []);
    for i := 0 to |calls|
      invariant run == RunCalls(cfg, calls, results, ToolRun([], t.invocations, t.retrieved, []), i)
    {
      var call, result := calls[i], ResultAt(results, i);
      if call.name !in cfg.tools {
        run := run.(outputs := run.outputs + [UNKNOWN_TOOL]);
        continue;
      }
      var found := Evidence(call, result);
      var inv := Invocation(call.name, call.args, result.failed);
      run := ToolRun(run.outputs + [result.content], run.invocations + [inv], run.retrieved + found,
                     run.events + Files(cfg, call, result) + Harvests(found) + [Ran(inv, true)]);
    }
  }

  predicate FirstWriteAt(calls: seq<Call>, i: nat) {
    i < |calls| && calls[i].name == SubmitClaim && forall j :: 0 <= j < i ==> calls[j].name != SubmitClaim
  }

  /** capture stops at the first write: the calls before it are reads. */
  method CapturedWrite(calls: seq<Call>) returns (args: Option<Args>)
    ensures args == FirstWrite(calls)
    ensures args == None <==> forall c :: c in calls ==> c.name != SubmitClaim
    ensures args.Some? ==> exists i :: 0 <= i < |calls| && FirstWriteAt(calls, i) && calls[i].args == args.value
  {
    for i := 0 to |calls|
      invariant forall j :: 0 <= j < i ==> calls[j].name != SubmitClaim
      invariant FirstWrite(calls[i..]) == FirstWrite(calls)
    {
      assert calls[i..][1..] == calls[i + 1..];
      if calls[i].name == SubmitClaim {
        assert FirstWriteAt(calls, i);
        return Some(calls[i].args);
      }
    }
    return None;
  }

  predicate LastHumanAt(ms: seq<Message>, i: nat) {
    i < |ms| && ms[i].role == Human && forall j :: i < j < |ms| ==> ms[j].role != Human
  }

  /** guard and readback look back for the last thing the policyholder said. */
  method LatestHuman(ms: seq<Message>) returns (said: string)
    ensures said == LastHuman(ms)
    ensures (exists i :: 0 <= i < |ms| && ms[i].role == Human) ==>
      exists i: nat :: LastHumanAt(ms, i) && ms[i].content == said
  {
    var i := |ms|;
    assert ms[..i] == ms;
    while i > 0
      invariant 0 <= i <= |ms|
      invariant forall j :: i <= j < |ms| ==> ms[j].role != Human
      invariant LastHuman(ms[..i]) == LastHuman(ms)
    {
      i := i - 1;
      assert ms[..i + 1][..i] == ms[..i];
      if ms[i].role == Human {
        assert LastHumanAt(ms, i);
        return ms[i].content;
      }
    }
    return "";
  }

  /** Every policy number some human message of the thread gives. */
  method PolicyNumbersStated(cfg: Config, ms: seq<Message>) returns (stated: set<string>)
    ensures forall p :: p in stated <==> SaidPolicy(cfg, ms, p)
  {
    stated := {};
    for i := 0 to |ms|
      invariant forall p :: p in stated <==> exists j :: 0 <= j < i && ms[j].role == Human && p in cfg.policiesIn(ms[j].content)
    {
      if ms[i].role == Human { stated := stated + cfg.policiesIn(ms[i].content); }
    }
  }

  /** Whether some human message gives the amount, compared in whole dollars. */
  method AmountWasStated(cfg: Config, amount: Json, ms: seq<Message>) returns (said: bool)
    ensures said <==> cfg.decimal(Str(amount)).Some? && SaidAmount(cfg, ms, Truncate(cfg.decimal(Str(amount)).value))
  {
    var read := cfg.decimal(Str(amount));
    if read == None { return false; }
    var want := Truncate(read.value);
    for i := 0 to |ms|
      invariant forall j :: 0 <= j < i && ms[j].role == Human ==> want !in cfg.amountsIn(ms[j].content)
    {
      if ms[i].role == Human && want in cfg.amountsIn(ms[i].content) { return true; }
    }
    return false;
  }

  /** confirm: the two checks, then the prompt, then the reply. */
  method RunConfirm(cfg: Config, t: Thread, resume: Option<string>) returns (out: Outcome)
    ensures out == ConfirmNode(cfg, t, resume)
    ensures cfg.requireConfirmation && resume.Some? && Vouched(cfg, t.messages, Pending(t)) && Pending(t) != map[] ==>
      (out.goto == Some(Tools) <==> SaysYes(resume.value))
  {
    hide Approves, SaysYes;
    if resume.Some? { ApprovesIff(resume.value); }
    var pending := Pending(t);
    var kept := t.(pendingWrite := Some(pending));
    if !cfg.requireConfirmation { return Outcome(kept, [], Some(RouteAfterConfirm(kept)), false); }
    var claimed := ClaimedPolicy(pending);
    var stated := PolicyNumbersStated(cfg, t.messages);
    if claimed != "" && claimed !in stated { return Outcome(Decline(t), [], Some(Parse), false); }
    if ClaimedAmount(pending).Some? {
      var said := AmountWasStated(cfg, ClaimedAmount(pending).value, t.messages);
      if !said { return Outcome(Decline(t), [], Some(Parse), false); }
    }
    if resume == None { return Outcome(t, [Displayed(pending)], None, true); }
    if Approves(resume.value) {
      return Outcome(kept, [Answered(resume.value, true)], Some(RouteAfterConfirm(kept)), false);
    }
    return Outcome(Decline(t), [Answered(resume.value, true)], Some(Parse), false);
  }
}
