/** Which replies approve: nine words, in any capitals, with blanks around them, and
    nothing else (backend/agent/app/graph/nodes.py:473-478). */
module ApprovalWords {
  import opened Ascii
  import opened GraphState
  import opened GraphNodes
  import opened Options

  ghost predicate SaysYes(reply: string) {
    || IsTheWord(reply, "yes") || IsTheWord(reply, "y")
    || IsTheWord(reply, "confirm") || IsTheWord(reply, "confirmed") || IsTheWord(reply, "go ahead")
    || IsTheWord(reply, "ok") || IsTheWord(reply, "okay") || IsTheWord(reply, "yep") || IsTheWord(reply, "sure")
  }

  lemma ApprovesIff(reply: string)
    ensures Approves(reply) <==> SaysYes(reply)
  {
    hide Strip, Lower, IsTheWord;
    StripLowerIff(reply, "yes");
    StripLowerIff(reply, "y");
    StripLowerIff(reply, "confirm");
    StripLowerIff(reply, "confirmed");
    StripLowerIff(reply, "go ahead");
    StripLowerIff(reply, "ok");
    StripLowerIff(reply, "okay");
    StripLowerIff(reply, "yep");
    StripLowerIff(reply, "sure");
  }

  /** Asked about a write that is vouched for and not empty, confirm goes on to the
      tools if and only if the reply is one of them; any other reply declines it. */
  lemma OnlyYesGoesToTools(cfg: Config, t: Thread, reply: string)
    requires cfg.requireConfirmation && Vouched(cfg, t.messages, Pending(t)) && Pending(t) != map[]
    ensures var out := ConfirmNode(cfg, t, Some(reply));
      && !out.paused
      && (SaysYes(reply) <==> out.goto == Some(Tools))
      && (!SaysYes(reply) ==> out.goto == Some(Parse) && out.thread.pendingWrite == None)
  {
    hide Vouched, Approves, SaysYes;
    ApprovesIff(reply);
  }

  /** A question at the prompt is no approval. */
  lemma AQuestionDeclines()
    ensures !SaysYes("wait, what is my deductible?")
  {
    var reply := "wait, what is my deductible?";
    LongerThanAll(reply);
  }

  lemma LongerThanAll(reply: string)
    requires |reply| > 9 && !IsSpace(reply[0]) && !IsSpace(reply[|reply| - 1])
    ensures !SaysYes(reply)
  {
    forall small: string | IsTheWord(reply, small) ensures |small| == |reply| {
      var i, j :| 0 <= i <= j <= |reply| && Blank(reply[..i]) && Blank(reply[j..]) && SameWord(reply[i..j], small);
      BlankEnds(reply, i, j);
    }
    hide IsTheWord;
  }
}
