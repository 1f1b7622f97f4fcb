/** A goroutine whose steps are not interleaved with others': the step system does what the handler's methods do. */
module PipelineAlone {
  import opened Samples
  import opened Slices
  import opened Strings
  import opened Triage
  import opened Remediate
  import opened Pipeline
  import opened PipelineLists
  import opened PipelineCooldown

  ghost predicate Reachable(cfg: Config, s: State) { exists run :: Exec(cfg, run) == Some(s) }

  lemma ReachNext(cfg: Config, s: State, a: Step)
    requires Reachable(cfg, s) && WellFormed(s) && Enabled(s, a)
    ensures Reachable(cfg, Apply(cfg, s, a))
  {
    hide Apply, Enabled;
    var run :| Exec(cfg, run) == Some(s);
    assert (run + [a])[..|run|] == run;
    assert Exec(cfg, run + [a]) == Some(Apply(cfg, s, a));
  }

  /**
   What the environment decides for one goroutine: the LLM's answer, the waits before check and mark, the cluster's
   reply, the runtime's spare capacity.
   */
  datatype Choices = Choices(answer: Option<Llm>, early: nat, late: nat, reply: Reply, extra: nat)

  function Rank(pc: Pc): nat {
    match pc
    case Put => 8
    case Start => 7
    case PublishAnswer => 6
    case Judge => 5
    case MarkNext(_, _, _) => 4
    case Act(_) => 3
    case Append(_) => 2
    case PublishLog(_) => 1
    case Finished(_) => 0
  }

  /** The goroutine's own next step. */
  function OwnOp(pc: Pc, c: Choices): (op: Op)
    requires !pc.Finished?
    ensures OpEnabled(pc, op)
  {
    match pc
    case Put => StoreNew
    case Start => Begin(c.answer)
    case PublishAnswer => Publish
    case Judge => Check
    case MarkNext(_, _, _) => Mark
    case Act(_) => Perform(c.reply)
    case Append(_) => Record(c.extra)
    case PublishLog(_) => Publish
  }

  function Wait(pc: Pc, c: Choices): nat { if pc.Judge? then c.early else if pc.MarkNext? then c.late else 0 }

  /** Time passes, then goroutine p takes its next step. */
  function Turn(cfg: Config, s: State, p: nat, c: Choices): (t: State)
    requires WellFormed(s) && p < |s.procs| && !s.procs[p].pc.Finished?
    ensures WellFormed(t)
  {
    var later := Apply(cfg, s, Tick(Wait(s.procs[p].pc, c)));
    Apply(cfg, later, At(p, OwnOp(s.procs[p].pc, c)))
  }

  // ------------------------------------------------------- the goroutine's view

  /** What one goroutine's steps can change. */
  datatype View = View(pr: Proc, heap: Heap<Log>, store: map<string, nat>, last: map<string, int>, clock: int,
                       marks: nat, calls: seq<Call>)

  function CallsOf(calls: seq<Performed>): seq<Call> { seq(|calls|, i requires 0 <= i < |calls| => calls[i].call) }

  /** t differs from s in goroutine p's view only. */
  predicate Looks(s: State, t: State, p: nat, v: View) {
    p < |s.procs| && WellFormed(t) && t.procs == s.procs[p := v.pr] && t.heap == v.heap && t.store == v.store &&
    t.last == v.last && t.clock == v.clock && |t.marks| == v.marks && CallsOf(t.calls) == v.calls
  }

  function NextView(cfg: Config, p: nat, v: View, c: Choices): View
    requires !v.pr.pc.Finished?
  {
    var op, now, id := OwnOp(v.pr.pc, c), v.clock + Wait(v.pr.pc, c), v.pr.event.info.id;
    View(NextProc(cfg, v.pr, op, Sight(v.last, now, v.marks, |v.heap|)),
         if op.Record? then Written(v.heap, v.pr.list, v.pr.pc.log, op.extra) else v.heap,
         if op.StoreNew? || op.Publish? then v.store[id := p] else v.store,
         if op.Mark? then v.last[Key(id, v.pr.pc.rule.id) := now] else v.last,
         now,
         if op.Mark? then v.marks + 1 else v.marks,
         if op.Perform? then v.calls + [CallOf(v.pr.pc.rule)] else v.calls)
  }

  lemma TurnView(cfg: Config, s: State, t: State, p: nat, v: View, c: Choices)
    requires Looks(s, t, p, v) && !v.pr.pc.Finished?
    ensures t.procs[p] == v.pr && Looks(s, Turn(cfg, t, p, c), p, NextView(cfg, p, v, c))
  {
    hide NextProc, CallOf, Key, NextMisses;
    assert t.procs[p] == v.pr;
    var u := Turn(cfg, t, p, c);
    assert u.procs == s.procs[p := NextView(cfg, p, v, c).pr];
    if OwnOp(v.pr.pc, c).Perform? {
      assert CallsOf(u.calls)[..|t.calls|] == CallsOf(t.calls);
      assert CallsOf(u.calls) == CallsOf(t.calls) + [CallOf(v.pr.pc.rule)];
    }
  }

  lemma Descends(cfg: Config, pr: Proc, c: Choices, w: Sight)
    requires !pr.pc.Finished?
    ensures Rank(NextProc(cfg, pr, OwnOp(pr.pc, c), w).pc) < Rank(pr.pc)
  {
    hide Decide;
  }

  /** Goroutine p alone, from where it stands to its end. */
  function Alone(cfg: Config, s: State, p: nat, c: Choices): State
    requires WellFormed(s) && p < |s.procs|
    decreases Rank(s.procs[p].pc)
  {
    if s.procs[p].pc.Finished? then s
    else
      TurnView(cfg, s, s, p, View(s.procs[p], s.heap, s.store, s.last, s.clock, |s.marks|, CallsOf(s.calls)), c);
      Descends(cfg, s.procs[p], c, Seen(Apply(cfg, s, Tick(Wait(s.procs[p].pc, c)))));
      Alone(cfg, Turn(cfg, s, p, c), p, c)
  }

  function AloneView(cfg: Config, p: nat, v: View, c: Choices): View
    decreases Rank(v.pr.pc)
  {
    if v.pr.pc.Finished? then v
    else
      Descends(cfg, v.pr, c, Sight(v.last, v.clock + Wait(v.pr.pc, c), v.marks, |v.heap|));
      AloneView(cfg, p, NextView(cfg, p, v, c), c)
  }

  lemma {:induction false} AloneLooks(cfg: Config, s: State, t: State, p: nat, v: View, c: Choices)
    requires Looks(s, t, p, v)
    ensures Looks(s, Alone(cfg, t, p, c), p, AloneView(cfg, p, v, c))
    decreases Rank(v.pr.pc)
  {
    hide Looks, NextView, Turn;
    assert t.procs[p] == v.pr && p < |t.procs| && WellFormed(t) by { LooksHere(s, t, p, v); }
    if !v.pr.pc.Finished? {
      TurnView(cfg, s, t, p, v, c);
      Descends(cfg, v.pr, c, Sight(v.last, v.clock + Wait(v.pr.pc, c), v.marks, |v.heap|));
      NextPr(cfg, p, v, c);
      AloneLooks(cfg, s, Turn(cfg, t, p, c), p, NextView(cfg, p, v, c), c);
      LooksHere(s, Turn(cfg, t, p, c), p, NextView(cfg, p, v, c));
    }
  }

  lemma LooksHere(s: State, t: State, p: nat, v: View)
    requires Looks(s, t, p, v)
    ensures p < |t.procs| && t.procs[p] == v.pr && WellFormed(t)
  {}

  lemma NextPr(cfg: Config, p: nat, v: View, c: Choices)
    requires !v.pr.pc.Finished?
    ensures NextView(cfg, p, v, c).pr ==
            NextProc(cfg, v.pr, OwnOp(v.pr.pc, c), Sight(v.last, v.clock + Wait(v.pr.pc, c), v.marks, |v.heap|))
  {}

  lemma TurnReachable(cfg: Config, s: State, p: nat, c: Choices)
    requires Reachable(cfg, s) && WellFormed(s) && p < |s.procs| && !s.procs[p].pc.Finished?
    ensures Reachable(cfg, Turn(cfg, s, p, c))
  {
    hide Reachable;
    var tick := Tick(Wait(s.procs[p].pc, c));
    ReachNext(cfg, s, tick);
    ReachNext(cfg, Apply(cfg, s, tick), At(p, OwnOp(s.procs[p].pc, c)));
  }

  /** Running alone is one of the machine's interleavings. */
  lemma {:induction false} AloneReachable(cfg: Config, s: State, p: nat, c: Choices)
    requires Reachable(cfg, s) && WellFormed(s) && p < |s.procs|
    ensures Reachable(cfg, Alone(cfg, s, p, c))
    decreases Rank(s.procs[p].pc)
  {
    hide Reachable, Turn, NextProc;
    if !s.procs[p].pc.Finished? {
      TurnReachable(cfg, s, p, c);
      TurnView(cfg, s, s, p, Here(s, p), c);
      LooksHere(s, Turn(cfg, s, p, c), p, NextView(cfg, p, Here(s, p), c));
      Descends(cfg, s.procs[p], c, Seen(Apply(cfg, s, Tick(Wait(s.procs[p].pc, c)))));
      AloneReachable(cfg, Turn(cfg, s, p, c), p, c);
    }
  }

  /** Goroutine p's view of a state. */
  function Here(s: State, p: nat): (v: View)
    requires WellFormed(s) && p < |s.procs|
    ensures Looks(s, s, p, v)
  {
    View(s.procs[p], s.heap, s.store, s.last, s.clock, |s.marks|, CallsOf(s.calls))
  }

  // ------------------------------------------------------------- what it computes

  lemma OneTurn(cfg: Config, p: nat, v: View, c: Choices)
    requires !v.pr.pc.Finished?
    ensures AloneView(cfg, p, v, c) == AloneView(cfg, p, NextView(cfg, p, v, c), c)
  {}

  /** A view after the goroutine has recorded and published its entry. */
  function Published(p: nat, v: View, log: Log, c: Choices): View {
    v.(pr := Proc(v.pr.event, Grown(v.pr.list, |v.heap|, c.extra), Finished(Some(log))),
       heap := Written(v.heap, v.pr.list, log, c.extra), store := v.store[v.pr.event.info.id := p])
  }

  /** From a verdict's log to the end: record it, publish it. */
  lemma Concludes(cfg: Config, p: nat, log: Log, v: View, c: Choices)
    requires v.pr.pc == Append(log)
    ensures AloneView(cfg, p, v, c) == Published(p, v, log, c)
  {
    hide AloneView, Grown, Written;
    var v1 := NextView(cfg, p, v, c);
    OneTurn(cfg, p, v, c);
    OneTurn(cfg, p, v1, c);
    assert NextView(cfg, p, v1, c) == Published(p, v, log, c);
    Ended(cfg, p, Published(p, v, log, c), c);
  }

  lemma Ended(cfg: Config, p: nat, v: View, c: Choices)
    requires v.pr.pc.Finished?
    ensures AloneView(cfg, p, v, c) == v
  {}

  lemma JudgedStops(cfg: Config, p: nat, v: View, c: Choices, log: Log)
    requires v.pr.pc == Judge && Decide(cfg.table, cfg.dryRun, v.pr.event, v.last, v.clock + c.early) == Stop(log)
    ensures AloneView(cfg, p, v, c) == Published(p, v.(clock := v.clock + c.early), log, c)
  {
    hide AloneView, Decide, LogOf, CallOf, Key, Grown, Written;
    OneTurn(cfg, p, v, c);
    Concludes(cfg, p, log, NextView(cfg, p, v, c), c);
  }

  lemma JudgedGoes(cfg: Config, p: nat, v: View, c: Choices, rule: RepairRule)
    requires v.pr.pc == Judge && Decide(cfg.table, cfg.dryRun, v.pr.event, v.last, v.clock + c.early) == Go(rule)
    ensures var v1 := v.(pr := v.pr.(pc := MarkNext(rule, v.marks, v.clock + c.early)), clock := v.clock + c.early);
            AloneView(cfg, p, v, c) == AloneView(cfg, p, v1, c)
  {
    hide AloneView, Decide, LogOf, CallOf, Key;
    OneTurn(cfg, p, v, c);
  }

  lemma ActsAlone(cfg: Config, p: nat, rule: RepairRule, v: View, c: Choices)
    requires v.pr.pc.MarkNext? && v.pr.pc.rule == rule
    ensures var e := v.pr.event;
            AloneView(cfg, p, v, c) ==
              Published(p, v.(last := v.last[Key(e.info.id, rule.id) := v.clock + c.late], clock := v.clock + c.late,
                              marks := v.marks + 1, calls := v.calls + [CallOf(rule)]),
                        LogOf(rule, c.reply, e.info.createdAt), c)
  {
    hide AloneView, LogOf, CallOf, Key, Grown, Written;
    var v1 := NextView(cfg, p, v, c);
    OneTurn(cfg, p, v, c);
    OneTurn(cfg, p, v1, c);
    Concludes(cfg, p, LogOf(rule, c.reply, v.pr.event.info.createdAt), NextView(cfg, p, v1, c), c);
  }

  /** The goroutine ended by recording log; the rest is what the verdict's execution makes of the shared state. */
  predicate EndsAs(p: nat, v: View, end: View, e: EventData, last: map<string, int>, calls: seq<Call>, log: Log,
                   c: Choices) {
    end.pr == Proc(e, Grown(v.pr.list, |v.heap|, c.extra), Finished(Some(log))) && end.last == last &&
    end.calls == calls &&
    end.heap == Written(v.heap, v.pr.list, log, c.extra) && end.store == v.store[e.info.id := p]
  }

  function LogMade(cfg: Config, e: EventData, last: map<string, int>, now: int, reply: Reply): Log {
    match Decide(cfg.table, cfg.dryRun, e, last, now)
    case Stop(log) => log
    case Go(rule) => LogOf(rule, reply, e.info.createdAt)
  }

  lemma JudgedAlone(cfg: Config, p: nat, e: EventData, list: seq<Log>, v: View, c: Choices)
    requires v.pr.event == e && v.pr.pc == Judge
    ensures var at := v.clock + c.early;
            var out := Concluded(cfg.table, cfg.dryRun, e, list, v.last, v.calls, at, at + c.late, c.reply);
            var log := LogMade(cfg, e, v.last, at, c.reply);
            EndsAs(p, v, AloneView(cfg, p, v, c), out.event, out.last, out.calls, log, c) && out.event == e &&
            out.list == list + [log]
  {
    hide AloneView, NextView, Decide, LogOf, CallOf, Key, Grown, Written;
    var at := v.clock + c.early;
    match Decide(cfg.table, cfg.dryRun, e, v.last, at)
    case Stop(log) => JudgedStops(cfg, p, v, c, log);
    case Go(rule) =>
      JudgedGoes(cfg, p, v, c, rule);
      ActsAlone(cfg, p, rule, v.(pr := v.pr.(pc := MarkNext(rule, v.marks, at)), clock := at), c);
  }

  lemma StartedAlone(cfg: Config, p: nat, e: EventData, list: seq<Log>, v: View, c: Choices)
    requires v.pr.event == e && v.pr.pc == Start
    ensures var at := v.clock + c.early;
            var out := ProcessedBy(cfg.table, cfg.dryRun, cfg.hasLlm, e, list, v.last, v.calls, c.answer,
                                   at, at + c.late, c.reply);
            var log := LogMade(cfg, Inferred(e, cfg.hasLlm, c.answer), v.last, at, c.reply);
            var end := AloneView(cfg, p, v, c);
            if Resolved(e)
            then end == v.(pr := v.pr.(pc := Finished(None))) && out == Processed(e, list, v.last, v.calls)
            else EndsAs(p, v, end, out.event, out.last, out.calls, log, c) && out.list == list + [log] &&
                 out.event.info == e.info
  {
    hide AloneView, Concluded, LogMade, Grown, Written, Decide;
    var v1 := NextView(cfg, p, v, c);
    var f := Inferred(e, cfg.hasLlm, c.answer);
    OneTurn(cfg, p, v, c);
    if Resolved(e) {
      Ended(cfg, p, v1, c);
    } else if cfg.hasLlm {
      var v2 := NextView(cfg, p, v1, c);
      OneTurn(cfg, p, v1, c);
      JudgedAlone(cfg, p, f, list, v2, c);
    } else {
      JudgedAlone(cfg, p, f, list, v1, c);
    }
  }

  lemma SameLists(s: State, t: State)
    requires t.heap == s.heap && |t.procs| == |s.procs|
    ensures forall q :: 0 <= q < |s.procs| && t.procs[q].list == s.procs[q].list ==> List(t, q) == List(s, q)
  {}

  lemma ListsAfter(s: State, t: State, p: nat, log: Log, extra: nat)
    requires Fitting(s.heap, s.procs) && p < |s.procs| == |t.procs| && t.procs == s.procs[p := t.procs[p]]
    requires t.heap == Written(s.heap, s.procs[p].list, log, extra)
    requires t.procs[p].list == Grown(s.procs[p].list, |s.heap|, extra)
    ensures List(t, p) == List(s, p) + [log]
    ensures forall q :: 0 <= q < |s.procs| && q != p ==>
              List(t, q) == if Overlooks(s.procs[p].list, s.procs[q].list)
                            then Overwritten(List(s, q), s.procs[p].list.len, log) else List(s, q)
  {
    hide Grown, Written, Contents, Fits;
    assert s.procs[p] in s.procs;
    Appends(s.heap, s.procs[p].list, log, extra);
    forall q | 0 <= q < |s.procs| && q != p
      ensures List(t, q) == if Overlooks(s.procs[p].list, s.procs[q].list)
                            then Overwritten(List(s, q), s.procs[p].list.len, log) else List(s, q)
    {
      assert s.procs[q] in s.procs;
      OthersSee(s.heap, s.procs[p].list, log, extra, s.procs[q].list);
    }
  }

  /** What goroutine p alone computes from state s, by the handler's own specification. */
  function Undisturbed(cfg: Config, s: State, p: nat, c: Choices): Processed
    requires p < |s.procs|
  {
    var at := s.clock + c.early;
    ProcessedBy(cfg.table, cfg.dryRun, cfg.hasLlm, s.procs[p].event, List(s, p), s.last, CallsOf(s.calls), c.answer,
                at, at + c.late, c.reply)
  }

  /**
   The machine refines to the method: from any state with goroutine p about to process its event, p's own steps
   alone leave the event, the list, the cooldown map and the calls that the handler's ProcessEvent computes, and its
   store. Other objects keep their fields, and their lists up to the one cell that p's entry may replace.
   */
  lemma ProcessesAlone(cfg: Config, s: State, p: nat, c: Choices)
    requires WellFormed(s) && Fitting(s.heap, s.procs) && p < |s.procs| && s.procs[p].pc == Start
    ensures var e, t, out := s.procs[p].event, Alone(cfg, s, p, c), Undisturbed(cfg, s, p, c);
            |t.procs| == |s.procs| && t.procs == s.procs[p := t.procs[p]] &&
            t.procs[p].event == out.event && t.procs[p].pc.Finished? && List(t, p) == out.list &&
            t.last == out.last && CallsOf(t.calls) == out.calls &&
            (Resolved(e) ==> t.store == s.store && t.heap == s.heap && out.list == List(s, p)) &&
            (!Resolved(e) ==>
               t.store == s.store[e.info.id := p] && t.procs[p].list == Grown(s.procs[p].list, |s.heap|, c.extra) &&
               |out.list| == |List(s, p)| + 1 && t.procs[p].pc == Finished(Some(out.list[|List(s, p)|]))) &&
            forall q :: 0 <= q < |s.procs| && q != p ==>
              List(t, q) == if !Resolved(e) && Overlooks(s.procs[p].list, s.procs[q].list)
                            then Overwritten(List(s, q), s.procs[p].list.len, out.list[|List(s, p)|]) else List(s, q)
    ensures Reachable(cfg, s) ==> Reachable(cfg, Alone(cfg, s, p, c))
  {
    hide Alone, AloneView, ProcessedBy, Reachable, Grown, Written, List, LogMade, Fitting;
    var e, t := s.procs[p].event, Alone(cfg, s, p, c);
    AloneLooks(cfg, s, s, p, Here(s, p), c);
    StartedAlone(cfg, p, e, List(s, p), Here(s, p), c);
    if Resolved(e) {
      SameLists(s, t);
    } else {
      ListsAfter(s, t, p, LogMade(cfg, Inferred(e, cfg.hasLlm, c.answer), s.last, s.clock + c.early, c.reply), c.extra);
    }
    if Reachable(cfg, s) { AloneReachable(cfg, s, p, c); }
  }

  /** A delivery and its own store step, with none in between, are what the method Triage does. */
  lemma TriagesAlone(cfg: Config, s: State, a: Step, c: Choices)
    requires WellFormed(s) && a.Deliver? && Enabled(s, a)
    ensures var id, n := EventId(cfg.digest, a.payload), |s.procs|;
            var e := Triaged(cfg.digest, a.payload, a.burn5m, a.burn1h, s.clock, Existing(s, id));
            var l := ExistingList(s, id);
            var d := Apply(cfg, s, a);
            d.procs == s.procs + [Proc(e, l, Put)] && d.heap == s.heap &&
            var t := Turn(cfg, d, n, c);
            t.procs == s.procs + [Proc(e, l, Start)] && t.heap == s.heap && t.store == s.store[id := n] &&
            t.last == s.last && t.calls == s.calls && t.marks == s.marks && t.clock == s.clock
  {
    hide Triaged, NextMisses, EventId, Describes;
    var id, n := EventId(cfg.digest, a.payload), |s.procs|;
    var e := Triaged(cfg.digest, a.payload, a.burn5m, a.burn1h, s.clock, Existing(s, id));
    var d := Apply(cfg, s, a);
    var l := ExistingList(s, id);
    assert d.procs == s.procs + [Proc(e, l, Put)] && e.info.id == id by { Delivered(cfg, s, a); }
    assert d.procs[n := Proc(e, l, Start)] == s.procs + [Proc(e, l, Start)];
  }

  // ------------------------------------------------------- overlapping checks

  /** A goroutine that processes a firing event can be brought to its check while all others stand still. */
  lemma ToJudge(cfg: Config, s: State, p: nat, e: EventData, c: Choices) returns (u: State)
    requires Reachable(cfg, s) && WellFormed(s) && p < |s.procs| && s.procs[p].event == e && s.procs[p].pc == Start &&
             !Resolved(e)
    ensures Reachable(cfg, u) && WellFormed(u) &&
            u.procs == s.procs[p := Proc(Inferred(e, cfg.hasLlm, c.answer), s.procs[p].list, Judge)]
    ensures u.heap == s.heap && u.store == (if cfg.hasLlm then s.store[e.info.id := p] else s.store)
    ensures u.last == s.last && u.clock == s.clock && |u.marks| == |s.marks|
  {
    hide Reachable, Turn;
    var v := Here(s, p);
    u := Turn(cfg, s, p, c);
    TurnReachable(cfg, s, p, c);
    TurnView(cfg, s, s, p, v, c);
    if cfg.hasLlm {
      var v1 := NextView(cfg, p, v, c);
      TurnReachable(cfg, u, p, c);
      TurnView(cfg, s, u, p, v1, c);
      u := Turn(cfg, u, p, c);
    }
  }

  const WARM_PAGE := Payload("firing", "g", [Alert(map["alertname" := "OrdersvcHighErrorRatePage"], map[], "t")])

  function WarmEvent(cfg: Config): EventData { Triaged(cfg.digest, WARM_PAGE, Fin(20.0), Fin(20.0), 0, None) }

  lemma ArrivesUnknown(cfg: Config, s: State)
    requires WellFormed(s) && EventId(cfg.digest, WARM_PAGE) !in s.store && s.clock == 0
    ensures var a := Deliver(WARM_PAGE, Fin(20.0), Fin(20.0));
            Enabled(s, a) &&
            var t := Apply(cfg, s, a);
            t.procs == s.procs + [Proc(WarmEvent(cfg), NIL, Put)] && t.store == s.store && t.last == s.last &&
            t.clock == s.clock && t.marks == s.marks
  {
    hide Triaged, EventId, NextMisses;
  }

  lemma StoresNew(cfg: Config, s: State, p: nat, c: Choices)
    requires Reachable(cfg, s) && WellFormed(s) && p < |s.procs| && s.procs[p].pc == Put
    ensures var t := Turn(cfg, s, p, c);
            Reachable(cfg, t) && t.procs == s.procs[p := s.procs[p].(pc := Start)] && t.last == s.last &&
            t.clock == s.clock && |t.marks| == |s.marks|
  {
    hide Reachable, Turn;
    TurnReachable(cfg, s, p, c);
    TurnView(cfg, s, s, p, Here(s, p), c);
  }

  /** Two deliveries of one alert arrive before either is stored. */
  lemma TwoArrive(cfg: Config) returns (s: State)
    ensures Reachable(cfg, s) && WellFormed(s) &&
            s.procs == [Proc(WarmEvent(cfg), NIL, Start), Proc(WarmEvent(cfg), NIL, Start)]
    ensures s.last == map[] && s.clock == 0 && s.marks == []
  {
    var e, a := WarmEvent(cfg), Deliver(WARM_PAGE, Fin(20.0), Fin(20.0));
    var c := Choices(None, 0, 0, Reply.Done(""), 0);
    assert Exec(cfg, []) == Some(INIT);
    assert Reachable(cfg, INIT);
    hide Reachable, WarmEvent, EventId, Apply, Enabled, Turn;
    ArrivesUnknown(cfg, INIT);
    ReachNext(cfg, INIT, a);
    s := Apply(cfg, INIT, a);
    ArrivesUnknown(cfg, s);
    ReachNext(cfg, s, a);
    s := Apply(cfg, s, a);
    assert s.procs == [Proc(e, NIL, Put), Proc(e, NIL, Put)];
    StoresNew(cfg, s, 0, c);
    s := Turn(cfg, s, 0, c);
    assert s.procs == [Proc(e, NIL, Start), Proc(e, NIL, Put)];
    StoresNew(cfg, s, 1, c);
    s := Turn(cfg, s, 1, c);
  }

  lemma WarmVerdict(cfg: Config, f: EventData)
    requires cfg.table == RULES && f.info == WarmEvent(cfg).info
    ensures !Resolved(f) && Decide(cfg.table, cfg.dryRun, f, map[], 0) == Go(RULES[2])
  {
    hide Match, Classify, BudgetImpact, EventId;
    ShippedPageBands(Fin(20.0));
  }

  /**
   With the shipped table a run exists in which two goroutines mark one event and one rule at one instant, and so
   both act.
   */
  lemma OverlappingChecksActTogether(cfg: Config) returns (run: seq<Step>)
    requires cfg.table == RULES
    ensures Exec(cfg, run).Some?
    ensures var marks := Exec(cfg, run).value.marks;
            |marks| == 2 && SamePair(marks[0], marks[1].id, marks[1].rule) && marks[0].time == marks[1].time &&
            marks[0].proc != marks[1].proc && marks[1].rule.cooldownSec > 0
  {
    var c := Choices(None, 0, 0, Reply.Done(""), 0);
    var e := WarmEvent(cfg);
    var f := Inferred(e, cfg.hasLlm, c.answer);
    WarmVerdict(cfg, e);
    WarmVerdict(cfg, f);
    hide Triaged, Decide, Inferred, WarmEvent;
    var s := TwoArrive(cfg);
    s := ToJudge(cfg, s, 0, e, c);
    s := ToJudge(cfg, s, 1, e, c);
    assert s.procs == [Proc(f, NIL, Judge), Proc(f, NIL, Judge)];
    ChecksThenMarks(cfg, s, 0, 1);
    hide Apply;
    var s1 := Apply(cfg, s, At(0, Check));
    ReachNext(cfg, s, At(0, Check));
    var s2 := Apply(cfg, s1, At(1, Check));
    ReachNext(cfg, s1, At(1, Check));
    var s3 := Apply(cfg, s2, At(0, Mark));
    ReachNext(cfg, s2, At(0, Mark));
    ReachNext(cfg, s3, At(1, Mark));
    run :| Exec(cfg, run) == Some(Apply(cfg, s3, At(1, Mark)));
  }
}
