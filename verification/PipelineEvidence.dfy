/** What a run's actions rest on: the answers, replies and samples that this very goroutine received. */
module PipelineEvidence {
  import opened Samples
  import opened Slices
  import opened Strings
  import opened Triage
  import opened Remediate
  import opened Pipeline
  import opened PipelineLists
  import opened PipelineCooldown
  import opened PipelineAlone

  // ------------------------------------------------------- the goroutine's own answer

  predicate Answered(run: seq<Step>, p: nat, answer: Option<Llm>) { At(p, Begin(answer)) in run }

  predicate Unbegun(pc: Pc) { pc.Put? || pc.Start? }

  /** Past its first step the goroutine holds the one answer it received; before, it has received none. */
  ghost predicate HoldsAnswer(cfg: Config, run: seq<Step>, p: nat, pr: Proc) {
    if Unbegun(pr.pc) then forall answer :: !Answered(run, p, answer)
    else cfg.hasLlm && !Resolved(pr.event) ==> forall answer :: Answered(run, p, answer) <==> answer == pr.event.llm
  }

  lemma {:induction false} OnlyDeliveredAct(cfg: Config, run: seq<Step>, p: nat, op: Op)
    requires Exec(cfg, run).Some? && At(p, op) in run
    ensures p < |Exec(cfg, run).value.procs|
  {
    hide NextProcs, NextHeap, NextStore, NextLast, NextMarks, NextCalls, NextMisses, Describes;
    var n := |run| - 1;
    StepProcs(cfg, Exec(cfg, run[..n]).value, run[n]);
    if At(p, op) != run[n] {
      var i :| 0 <= i < |run| && run[i] == At(p, op);
      assert run[..n][i] == At(p, op);
      OnlyDeliveredAct(cfg, run[..n], p, op);
    }
  }

  lemma AnsweredNext(run: seq<Step>, p: nat, answer: Option<Llm>)
    requires run != []
    ensures Answered(run, p, answer) <==>
            Answered(run[..|run| - 1], p, answer) || run[|run| - 1] == At(p, Begin(answer))
  {
    assert run == run[..|run| - 1] + [run[|run| - 1]];
  }

  /** How a step of the goroutine itself moves its inference. */
  lemma InferenceStep(cfg: Config, pr: Proc, op: Op, w: Sight)
    requires OpEnabled(pr.pc, op)
    ensures var next := NextProc(cfg, pr, op, w);
            next.event.info == pr.event.info &&
            (op.Begin? ==> pr.pc.Start? && !Unbegun(next.pc)) &&
            (op.Begin? && cfg.hasLlm && !Resolved(pr.event) ==> next.event.llm == op.answer) &&
            (!op.Begin? ==> next.event == pr.event && (Unbegun(next.pc) <==> pr.pc.Put?))
  {
    hide Decide, Grown, LogOf;
  }

  lemma HoldsNext(cfg: Config, run: seq<Step>, p: nat, pr: Proc, op: Op, w: Sight)
    requires run != [] && run[|run| - 1] == At(p, op) && OpEnabled(pr.pc, op)
    requires HoldsAnswer(cfg, run[..|run| - 1], p, pr)
    ensures HoldsAnswer(cfg, run, p, NextProc(cfg, pr, op, w))
  {
    hide NextProc, Answered;
    InferenceStep(cfg, pr, op, w);
    forall answer
      ensures Answered(run, p, answer) <==> Answered(run[..|run| - 1], p, answer) || op == Begin(answer)
    {
      AnsweredNext(run, p, answer);
    }
  }

  /** In every run the inference a goroutine works with is the answer that this goroutine received, and no older one. */
  lemma {:induction false} OwnAnswer(cfg: Config, run: seq<Step>, p: nat)
    requires Exec(cfg, run).Some? && p < |Exec(cfg, run).value.procs|
    ensures HoldsAnswer(cfg, run, p, Exec(cfg, run).value.procs[p])
  {
    hide HoldsAnswer, NextProc, NextHeap, NextStore, NextLast, NextMarks, NextCalls, NextMisses, Describes, Answered;
    if run != [] {
      var n := |run| - 1;
      var s, a := Exec(cfg, run[..n]).value, run[n];
      if p < |s.procs| {
        OwnAnswer(cfg, run[..n], p);
        if a.At? && a.p == p {
          HoldsNext(cfg, run, p, s.procs[p], a.op, Seen(s));
        } else {
          SingleOwner(cfg, s, a, p);
          OthersAnswer(cfg, run, p, s.procs[p]);
        }
      } else {
        hide NextProcs;
        StepProcs(cfg, s, a);
        Delivered(cfg, s, a);
        FreshAnswer(cfg, run, p, Exec(cfg, run).value.procs[p]);
      }
    }
  }

  lemma OthersAnswer(cfg: Config, run: seq<Step>, p: nat, pr: Proc)
    requires run != [] && HoldsAnswer(cfg, run[..|run| - 1], p, pr)
    requires !(run[|run| - 1].At? && run[|run| - 1].p == p)
    ensures HoldsAnswer(cfg, run, p, pr)
  {
    hide Answered;
    forall answer ensures Answered(run, p, answer) <==> Answered(run[..|run| - 1], p, answer) {
      AnsweredNext(run, p, answer);
    }
  }

  lemma FreshAnswer(cfg: Config, run: seq<Step>, p: nat, pr: Proc)
    requires run != [] && Exec(cfg, run[..|run| - 1]).Some? && p >= |Exec(cfg, run[..|run| - 1]).value.procs|
    requires pr.pc.Put? && run[|run| - 1].Deliver?
    ensures HoldsAnswer(cfg, run, p, pr)
  {
    hide Exec;
    forall answer ensures !Answered(run, p, answer) {
      AnsweredNext(run, p, answer);
      if Answered(run[..|run| - 1], p, answer) { OnlyDeliveredAct(cfg, run[..|run| - 1], p, Begin(answer)); }
    }
  }

  // --------------------------------------------------------------- without an LLM

  lemma NoInferenceStep(cfg: Config, s: State, a: Step)
    requires WellFormed(s) && Enabled(s, a) && !cfg.hasLlm && forall pr :: pr in s.procs ==> pr.event.llm == None
    ensures forall pr :: pr in Apply(cfg, s, a).procs ==> pr.event.llm == None
  {
    hide NextHeap, NextStore, NextLast, NextMarks, NextCalls, NextMisses, Describes, NextProc, EventId, Classify,
      BudgetImpact;
    if a.At? {
      var w := Seen(s);
      assert s.procs[a.p] in s.procs;
      UninferredStep(cfg, s.procs[a.p], a.op, w);
    } else if a.Deliver? {
      var id := EventId(cfg.digest, a.payload);
      if id in s.store { assert s.procs[s.store[id]] in s.procs; }
    }
  }

  lemma UninferredStep(cfg: Config, pr: Proc, op: Op, w: Sight)
    requires OpEnabled(pr.pc, op) && !cfg.hasLlm
    ensures NextProc(cfg, pr, op, w).event == pr.event
  {
    hide Decide, Grown, LogOf;
  }

  lemma {:induction false} NoInference(cfg: Config, run: seq<Step>)
    requires Exec(cfg, run).Some? && !cfg.hasLlm
    ensures forall pr :: pr in Exec(cfg, run).value.procs ==> pr.event.llm == None
  {
    if run != [] {
      hide Apply;
      NoInference(cfg, run[..|run| - 1]);
      NoInferenceStep(cfg, Exec(cfg, run[..|run| - 1]).value, run[|run| - 1]);
    }
  }

  /** Without an LLM client no run rolls anything back. */
  lemma NoLlmNoRollback(cfg: Config, run: seq<Step>, c: Performed)
    requires Exec(cfg, run).Some? && c in Exec(cfg, run).value.calls && !cfg.hasLlm
    requires forall r :: r in cfg.table && r.action == RolloutUndo ==> r.isDangerous
    ensures c.call != AbortRollout
  {
    hide Exec;
    RollbackSafety(cfg, run, c);
    NoInference(cfg, run);
    assert Exec(cfg, run).value.procs[c.proc] in Exec(cfg, run).value.procs;
  }

  /**
   Every rollback rests on an answer that its own goroutine received in this run: the LLM recommended it with a
   confidence of 0.7 or more. No stored answer of an earlier delivery will do.
   */
  lemma RollbackRests(cfg: Config, run: seq<Step>, c: Performed)
    requires Exec(cfg, run).Some? && c in Exec(cfg, run).value.calls && c.call == AbortRollout
    requires forall r :: r in cfg.table && r.action == RolloutUndo ==> r.isDangerous
    ensures cfg.hasLlm && !cfg.dryRun
    ensures exists l: Llm :: At(c.proc, Begin(Some(l))) in run && l.recommendRollback && l.confidence >= 0.7
  {
    hide Exec;
    RollbackSafety(cfg, run, c);
    if !cfg.hasLlm { NoLlmNoRollback(cfg, run, c); }
    var pr := Exec(cfg, run).value.procs[c.proc];
    CallerBegan(cfg, run, c);
    OwnAnswer(cfg, run, c.proc);
    assert Answered(run, c.proc, pr.event.llm);
    assert At(c.proc, Begin(Some(pr.event.llm.value))) in run;
  }

  lemma CallerBegan(cfg: Config, run: seq<Step>, c: Performed)
    requires Exec(cfg, run).Some? && c in Exec(cfg, run).value.calls
    ensures c.proc < |Exec(cfg, run).value.procs| && !Unbegun(Exec(cfg, run).value.procs[c.proc].pc)
  {
    hide Exec;
    SafeRun(cfg, run);
  }

  // ------------------------------------------------------- the goroutine's own reply

  predicate Replied(run: seq<Step>, p: nat, reply: Reply) { At(p, Perform(reply)) in run }

  /** The entry that a goroutine has made, if it has got that far. */
  function LogIn(pc: Pc): Option<Log> {
    match pc
    case Append(log) => Some(log)
    case PublishLog(log) => Some(log)
    case Finished(log) => log
    case _ => None
  }

  /**
   The entry says what the cluster replied: executed or failed with that message, and nothing else without a reply.
   */
  ghost predicate SaysReply(run: seq<Step>, p: nat, pc: Pc) {
    match LogIn(pc)
    case None => forall reply :: !Replied(run, p, reply)
    case Some(log) =>
      (forall msg :: Replied(run, p, Done(msg)) <==> log.result == Executed && log.reason == Message(msg)) &&
      (forall msg :: Replied(run, p, Error(msg)) <==> log.result == Failed && log.reason == Message(msg)) &&
      (log.result in {Executed, Failed} <==> log.reason.Message?)
  }

  lemma RepliedNext(run: seq<Step>, p: nat, reply: Reply)
    requires run != []
    ensures Replied(run, p, reply) <==> Replied(run[..|run| - 1], p, reply) || run[|run| - 1] == At(p, Perform(reply))
  {
    assert run == run[..|run| - 1] + [run[|run| - 1]];
  }

  lemma ReplyStep(cfg: Config, pr: Proc, op: Op, w: Sight)
    requires OpEnabled(pr.pc, op)
    ensures var next := NextProc(cfg, pr, op, w);
            match op
            case Perform(Done(msg)) =>
              LogIn(pr.pc) == None && LogIn(next.pc).Some? &&
              LogIn(next.pc).value.result == Executed && LogIn(next.pc).value.reason == Message(msg)
            case Perform(Error(msg)) =>
              LogIn(pr.pc) == None && LogIn(next.pc).Some? &&
              LogIn(next.pc).value.result == Failed && LogIn(next.pc).value.reason == Message(msg)
            case Check =>
              LogIn(pr.pc) == None &&
              (LogIn(next.pc).Some? ==>
                 LogIn(next.pc).value.result in {Skipped, DryRun} && !LogIn(next.pc).value.reason.Message?)
            case _ => LogIn(next.pc) == LogIn(pr.pc)
  {
    hide Match, Cooling, Confirmed, Grown;
  }

  lemma SaysNext(cfg: Config, run: seq<Step>, p: nat, pr: Proc, op: Op, w: Sight)
    requires run != [] && run[|run| - 1] == At(p, op) && OpEnabled(pr.pc, op)
    requires SaysReply(run[..|run| - 1], p, pr.pc)
    ensures SaysReply(run, p, NextProc(cfg, pr, op, w).pc)
  {
    hide NextProc, Replied, LogIn;
    ReplyStep(cfg, pr, op, w);
    forall reply
      ensures Replied(run, p, reply) <==> Replied(run[..|run| - 1], p, reply) || op == Perform(reply)
    {
      RepliedNext(run, p, reply);
    }
  }

  lemma OthersReply(run: seq<Step>, p: nat, pc: Pc)
    requires run != [] && SaysReply(run[..|run| - 1], p, pc) && !(run[|run| - 1].At? && run[|run| - 1].p == p)
    ensures SaysReply(run, p, pc)
  {
    hide Replied, LogIn;
    forall reply ensures Replied(run, p, reply) <==> Replied(run[..|run| - 1], p, reply) { RepliedNext(run, p, reply); }
  }

  lemma FreshReply(cfg: Config, run: seq<Step>, p: nat)
    requires run != [] && Exec(cfg, run[..|run| - 1]).Some? && p >= |Exec(cfg, run[..|run| - 1]).value.procs|
    requires run[|run| - 1].Deliver?
    ensures SaysReply(run, p, Put)
  {
    hide Exec;
    forall reply ensures !Replied(run, p, reply) {
      RepliedNext(run, p, reply);
      if Replied(run[..|run| - 1], p, reply) { OnlyDeliveredAct(cfg, run[..|run| - 1], p, Perform(reply)); }
    }
  }

  /** In every run a goroutine's entry says "executed" or "failed" exactly as the cluster replied to this goroutine. */
  lemma {:induction false} OwnReply(cfg: Config, run: seq<Step>, p: nat)
    requires Exec(cfg, run).Some? && p < |Exec(cfg, run).value.procs|
    ensures SaysReply(run, p, Exec(cfg, run).value.procs[p].pc)
  {
    hide SaysReply, NextProc, NextHeap, NextStore, NextLast, NextMarks, NextCalls, NextMisses, Describes, Replied;
    if run != [] {
      var n := |run| - 1;
      var s, a := Exec(cfg, run[..n]).value, run[n];
      if p < |s.procs| {
        OwnReply(cfg, run[..n], p);
        if a.At? && a.p == p {
          SaysNext(cfg, run, p, s.procs[p], a.op, Seen(s));
        } else {
          SingleOwner(cfg, s, a, p);
          OthersReply(run, p, s.procs[p].pc);
        }
      } else {
        hide NextProcs;
        StepProcs(cfg, s, a);
        Delivered(cfg, s, a);
        FreshReply(cfg, run, p);
      }
    }
  }

  // ----------------------------------------------------------- the shipped responses

  predicate AtLeast(burn: Float, x: real) { burn == PosInf || (burn.Fin? && burn.v >= x) }

  /** The call that the shipped table has for an alert at a burn. */
  function Response(alertName: string, burn: Float): Option<Call> {
    if alertName == "OrdersvcHighErrorRatePage" then
      if AtLeast(burn, 50.0) then Some(AbortRollout)
      else if AtLeast(burn, 30.0) then Some(Scale(6))
      else if AtLeast(burn, 14.4) then Some(ResetFault)
      else None
    else if alertName == "OrdersvcHighLatencyP99Ticket" && AtLeast(burn, 0.0) then Some(Scale(8))
    else None
  }

  /** Its row: the identifier, and how many seconds must pass between two actions for one event. */
  function RowOf(call: Call): (string, int) {
    match call
    case AbortRollout => ("R-D1", 1800)
    case Scale(n) => if n == 6 then ("R-B1", 600) else ("R-C1", 600)
    case ResetFault => ("R-A1", 300)
  }

  lemma LatencyRow(burn: Float)
    ensures Match(RULES, "OrdersvcHighLatencyP99Ticket", burn) == if AtLeast(burn, 0.0) then Some(RULES[3]) else None
  {
    var name := "OrdersvcHighLatencyP99Ticket";
    var tail := RULES[1..][1..][1..];
    assert tail == [RULES[3]] && tail[1..] == [];
    assert Match(tail, name, burn) == if AtLeast(burn, 0.0) then Some(RULES[3]) else None;
    assert "OrdersvcHighErrorRatePage" != name by { assert |"OrdersvcHighErrorRatePage"| != |name|; }
    assert RULES[1..][1..][0] == RULES[2] && RULES[1..][0] == RULES[1];
    assert Match(RULES[1..][1..], name, burn) == Match(tail, name, burn);
    assert Match(RULES[1..], name, burn) == Match(RULES[1..][1..], name, burn);
  }

  lemma OtherAlerts(name: string, burn: Float)
    requires name != "OrdersvcHighErrorRatePage" && name != "OrdersvcHighLatencyP99Ticket"
    ensures Match(RULES, name, burn) == None
  {
    FirstIsBest(RULES, name, burn) by { ShippedTable(name); }
  }

  /** The shipped table, read as the call it leads to. */
  lemma ShippedRows(name: string, burn: Float)
    ensures var m, want := Match(RULES, name, burn), Response(name, burn);
            (m.Some? <==> want.Some?) &&
            (m.Some? ==>
               CallOf(m.value) == want.value && (m.value.id, m.value.cooldownSec) == RowOf(want.value) &&
               (m.value.isDangerous <==> want.value == AbortRollout))
  {
    hide Match;
    if name == "OrdersvcHighErrorRatePage" { ShippedPageBands(burn); }
    else if name == "OrdersvcHighLatencyP99Ticket" { LatencyRow(burn); }
    else { OtherAlerts(name, burn); }
  }

  /** With the shipped table every call of every run is the response to its event's alert and burn. */
  lemma ShippedCalls(cfg: Config, run: seq<Step>, c: Performed)
    requires Exec(cfg, run).Some? && c in Exec(cfg, run).value.calls && cfg.table == RULES
    ensures var procs := Exec(cfg, run).value.procs;
            c.proc < |procs| &&
            Response(procs[c.proc].event.info.alertName, procs[c.proc].event.info.burn5m) == Some(c.call)
  {
    hide Exec, Match, Response;
    SafeRun(cfg, run);
    var e := Exec(cfg, run).value.procs[c.proc].event;
    ShippedRows(e.info.alertName, e.info.burn5m);
  }

  predicate RecentlyMarked(last: map<string, int>, id: string, row: (string, int), now: int) {
    (id + ":" + row.0) in last && now - last[id + ":" + row.0] < row.1 * 1_000_000_000
  }

  /**
   What an undisturbed goroutine with the shipped table does: the response to its alert and burn, unless that is cooling
   down for this event. A rollback needs besides that the LLM's answer to this goroutine confirms it, outside dry run.
   */
  lemma ShippedResponse(cfg: Config, s: State, p: nat, c: Choices)
    requires WellFormed(s) && Fitting(s.heap, s.procs) && p < |s.procs| && s.procs[p].pc == Start
    requires cfg.table == RULES && cfg.hasLlm && s.procs[p].event.info.status != "resolved"
    ensures var e, t, now := s.procs[p].event, Alone(cfg, s, p, c), s.clock + c.early;
            var want := Response(e.info.alertName, e.info.burn5m);
            var acts := !e.info.isChaos && want.Some? && !RecentlyMarked(s.last, e.info.id, RowOf(want.value), now) &&
                        (want.value == AbortRollout ==>
                           c.answer.Some? && c.answer.value.recommendRollback && c.answer.value.confidence >= 0.7 &&
                           !cfg.dryRun);
            CallsOf(t.calls) == CallsOf(s.calls) + if acts then [want.value] else []
  {
    hide Alone, Match, Response, CallOf, RowOf, CallsOf, LogOf, Fitting, List, Key, Cooling;
    var e := s.procs[p].event;
    ProcessesAlone(cfg, s, p, c);
    ShippedRows(e.info.alertName, e.info.burn5m);
    DecidesCall(cfg, Inferred(e, cfg.hasLlm, c.answer), s.last, s.clock + c.early);
  }

  lemma DecidesCall(cfg: Config, e: EventData, last: map<string, int>, now: int)
    requires cfg.table == RULES
    ensures var verdict := Decide(cfg.table, cfg.dryRun, e, last, now);
            var want := Response(e.info.alertName, e.info.burn5m);
            (verdict.Go? <==>
               !e.info.isChaos && want.Some? && !RecentlyMarked(last, e.info.id, RowOf(want.value), now) &&
               (want.value == AbortRollout ==>
                  e.llm.Some? && e.llm.value.recommendRollback && e.llm.value.confidence >= 0.7 && !cfg.dryRun)) &&
            (verdict.Go? ==> CallOf(verdict.rule) == want.value)
  {
    hide Match, Response, CallOf, RowOf;
    ShippedRows(e.info.alertName, e.info.burn5m);
  }
}
