/**
 The remediator as an interleaved step system. Every delivery makes one event object and one goroutine;
 each step is one access to the state the goroutines share (store, cooldown map, cluster), and the
 LLM's answers, the burn samples, the executor's replies and the clock are the environment's choice.
 */
module Pipeline {
  import opened Samples
  import opened Slices
  import opened Strings
  import opened Triage
  import opened Remediate

  datatype Config = Config(digest: Digest, table: seq<RepairRule>, dryRun: bool, hasLlm: bool)

  /** What a goroutine does next. `seen` counts the marks made before its cooldown check. */
  datatype Pc =
    | Put
    | Start
    | PublishAnswer
    | Judge
    | MarkNext(rule: RepairRule, seen: nat, checkedAt: int)
    | Act(rule: RepairRule)
    | Append(log: Log)
    | PublishLog(log: Log)
    | Finished(outcome: Option<Log>)

  /** A goroutine and the event object it owns: the object's fields, and the header of its remediation list. */
  datatype Proc = Proc(event: EventData, list: Slice, pc: Pc)

  /** A cooldown mark, and how many marks preceded the check that allowed it. */
  datatype Marked = Marked(proc: nat, id: string, rule: RepairRule, time: int, seen: nat)

  datatype Performed = Performed(proc: nat, rule: RepairRule, call: Call)

  /** A delivery that found no stored event of its ID. */
  datatype Miss = Miss(id: string, time: int)

  /** `marks`, `calls` and `misses` are histories; the rest is what the program holds. */
  datatype State = State(procs: seq<Proc>, heap: Heap<Log>, store: map<string, nat>, last: map<string, int>, clock: int,
                         marks: seq<Marked>, calls: seq<Performed>, misses: seq<Miss>)

  /** `extra` is the capacity beyond the need that the runtime gives a new array. */
  datatype Op =
    | StoreNew
    | Begin(answer: Option<Llm>)
    | Publish
    | Check
    | Mark
    | Perform(reply: Reply)
    | Record(extra: nat)

  datatype Step =
    | Deliver(payload: Payload, burn5m: Float, burn1h: Float)
    | At(p: nat, op: Op)
    | Tick(d: nat)

  const INIT := State([], [], map[], map[], 0, [], [], [])

  predicate OpEnabled(pc: Pc, op: Op) {
    match op
    case StoreNew => pc.Put?
    case Begin(_) => pc.Start?
    case Publish => pc.PublishAnswer? || pc.PublishLog?
    case Check => pc.Judge?
    case Mark => pc.MarkNext?
    case Perform(_) => pc.Act?
    case Record(_) => pc.Append?
  }

  predicate Enabled(s: State, a: Step) {
    match a
    case Deliver(payload, _, _) => payload.alerts != []
    case At(p, op) => p < |s.procs| && OpEnabled(s.procs[p].pc, op)
    case Tick(_) => true
  }

  /** What a step reads of the shared state. */
  datatype Sight = Sight(last: map<string, int>, clock: int, marks: nat, arrays: nat)

  function Seen(s: State): Sight { Sight(s.last, s.clock, |s.marks|, |s.heap|) }

  /** The acting goroutine's own change. */
  function NextProc(cfg: Config, pr: Proc, op: Op, w: Sight): Proc
    requires OpEnabled(pr.pc, op)
  {
    match op
    case StoreNew => pr.(pc := Start)
    case Begin(answer) =>
      if Resolved(pr.event) then pr.(pc := Finished(None))
      else pr.(event := Inferred(pr.event, cfg.hasLlm, answer), pc := if cfg.hasLlm then PublishAnswer else Judge)
    case Publish => pr.(pc := if pr.pc.PublishAnswer? then Judge else Finished(Some(pr.pc.log)))
    case Check =>
      pr.(pc := match Decide(cfg.table, cfg.dryRun, pr.event, w.last, w.clock)
                case Stop(log) => Append(log)
                case Go(rule) => MarkNext(rule, w.marks, w.clock))
    case Mark => pr.(pc := Act(pr.pc.rule))
    case Perform(reply) => pr.(pc := Append(LogOf(pr.pc.rule, reply, pr.event.info.createdAt)))
    case Record(extra) => pr.(list := Grown(pr.list, w.arrays, extra), pc := PublishLog(pr.pc.log))
  }

  predicate WellFormed(s: State) { forall id :: id in s.store ==> s.store[id] < |s.procs| }

  function Existing(s: State, id: string): Option<EventData>
    requires WellFormed(s)
  {
    if id in s.store then Some(s.procs[s.store[id]].event) else None
  }

  /** The header that the object stored under an ID shows; triage copies it. */
  function ExistingList(s: State, id: string): Slice
    requires WellFormed(s)
  {
    if id in s.store then s.procs[s.store[id]].list else NIL
  }

  function NextProcs(cfg: Config, s: State, a: Step): seq<Proc>
    requires WellFormed(s) && Enabled(s, a)
  {
    match a
    case Deliver(payload, burn5m, burn1h) =>
      var id := EventId(cfg.digest, payload);
      s.procs + [Proc(Triaged(cfg.digest, payload, burn5m, burn1h, s.clock, Existing(s, id)), ExistingList(s, id), Put)]
    case At(p, op) => s.procs[p := NextProc(cfg, s.procs[p], op, Seen(s))]
    case Tick(_) => s.procs
  }

  function NextHeap(s: State, a: Step): Heap<Log>
    requires Enabled(s, a)
  {
    if a.At? && a.op.Record? then Written(s.heap, s.procs[a.p].list, s.procs[a.p].pc.log, a.op.extra) else s.heap
  }

  function NextStore(s: State, a: Step): map<string, nat>
    requires Enabled(s, a)
  {
    if a.At? && (a.op.StoreNew? || a.op.Publish?) then s.store[s.procs[a.p].event.info.id := a.p] else s.store
  }

  function NextLast(s: State, a: Step): map<string, int>
    requires Enabled(s, a)
  {
    if a.At? && a.op.Mark? then s.last[Key(s.procs[a.p].event.info.id, s.procs[a.p].pc.rule.id) := s.clock] else s.last
  }

  function NextMarks(s: State, a: Step): seq<Marked>
    requires Enabled(s, a)
  {
    if a.At? && a.op.Mark? then
      var pr := s.procs[a.p];
      s.marks + [Marked(a.p, pr.event.info.id, pr.pc.rule, s.clock, pr.pc.seen)]
    else s.marks
  }

  function NextCalls(s: State, a: Step): seq<Performed>
    requires Enabled(s, a)
  {
    if a.At? && a.op.Perform? then
      var rule := s.procs[a.p].pc.rule;
      s.calls + [Performed(a.p, rule, CallOf(rule))]
    else s.calls
  }

  function NextMisses(cfg: Config, s: State, a: Step): seq<Miss> {
    if a.Deliver? && EventId(cfg.digest, a.payload) !in s.store
    then s.misses + [Miss(EventId(cfg.digest, a.payload), s.clock)] else s.misses
  }

  function Apply(cfg: Config, s: State, a: Step): (s': State)
    requires WellFormed(s) && Enabled(s, a)
    ensures WellFormed(s')
  {
    State(NextProcs(cfg, s, a), NextHeap(s, a), NextStore(s, a), NextLast(s, a),
          if a.Tick? then s.clock + a.d else s.clock, NextMarks(s, a), NextCalls(s, a), NextMisses(cfg, s, a))
  }

  /** The state a run of enabled steps leads to; None when some step is not enabled. */
  function Exec(cfg: Config, run: seq<Step>): (s: Option<State>)
    ensures s.Some? ==> WellFormed(s.value)
  {
    if run == [] then Some(INIT)
    else
      var before := Exec(cfg, run[..|run| - 1]);
      if before.Some? && Enabled(before.value, run[|run| - 1])
      then Some(Apply(cfg, before.value, run[|run| - 1]))
      else None
  }

  function Id(s: State, p: nat): string
    requires p < |s.procs|
  {
    s.procs[p].event.info.id
  }

  // --------------------------------------------------------------- ownership

  /**
   Single ownership of an object's fields: a step changes at most its own goroutine's, never an identity, and no
   object vanishes. What the fields show of a shared array is another matter.
   */
  lemma SingleOwner(cfg: Config, s: State, a: Step, q: nat)
    requires WellFormed(s) && Enabled(s, a) && q < |s.procs|
    ensures var s' := Apply(cfg, s, a);
            q < |s'.procs| && s'.procs[q].event.info == s.procs[q].event.info &&
            (!(a.At? && a.p == q) ==> s'.procs[q] == s.procs[q])
  {
    hide NextStore, NextLast, NextMarks, NextCalls, NextMisses, Decide, Triaged;
  }

  /** What a delivery says of its event, and triage keeps. */
  predicate Describes(cfg: Config, a: Step, info: Info) {
    a.Deliver? && a.payload.alerts != [] &&
    var labels := a.payload.alerts[0].labels;
    info.id == EventId(cfg.digest, a.payload) && info.status == a.payload.status &&
    info.alertName == Get(labels, "alertname") && (info.isChaos <==> "chaos" in labels) &&
    info.tier == Classify(Get(labels, "severity"), a.burn1h, "chaos" in labels) &&
    info.burn5m == a.burn5m && info.burn1h == a.burn1h &&
    info.slo == Get(labels, "slo") && info.service == Get(labels, "service") &&
    info.severity == Get(labels, "severity") &&
    var notes := a.payload.alerts[0].annotations;
    info.runbookURL == Get(notes, "runbook_url") && info.dashboardURL == Get(notes, "dashboard_url") &&
    info.summary == Get(notes, "summary")
  }

  /** A delivery adds one object; it inherits what the store knew of its ID, sharing the array of its list. */
  lemma Delivered(cfg: Config, s: State, a: Step)
    requires WellFormed(s) && a.Deliver? && Enabled(s, a)
    ensures var id := EventId(cfg.digest, a.payload);
            var known := Existing(s, id);
            var newest := NextProcs(cfg, s, a)[|s.procs|];
            NextProcs(cfg, s, a) == s.procs + [newest] && newest.pc == Put && newest.event.info.id == id &&
            Describes(cfg, a, newest.event.info) &&
            newest.event.info.createdAt == (if known.Some? then known.value.info.createdAt else s.clock) &&
            newest.event.llm == (if known.Some? then known.value.llm else None) &&
            newest.event.info.resolvedAt ==
              (if known.Some? && a.payload.status == "resolved" then Some(s.clock) else None) &&
            newest.list == ExistingList(s, id)
  {}

  /** Every event object is described by the delivery that made it, for the whole run. */
  lemma {:induction false} Provenance(cfg: Config, run: seq<Step>, p: nat)
    requires Exec(cfg, run).Some? && p < |Exec(cfg, run).value.procs|
    ensures exists a :: a in run && Describes(cfg, a, Exec(cfg, run).value.procs[p].event.info)
  {
    hide Describes, Apply;
    if run != [] {
      var before, last := run[..|run| - 1], run[|run| - 1];
      var s := Exec(cfg, before).value;
      StepProcs(cfg, s, last);
      if p < |s.procs| {
        Provenance(cfg, before, p);
        SingleOwner(cfg, s, last, p);
        var a :| a in before && Describes(cfg, a, s.procs[p].event.info);
        assert a in run;
      }
    }
  }

  lemma StepProcs(cfg: Config, s: State, a: Step)
    requires WellFormed(s) && Enabled(s, a)
    ensures |Apply(cfg, s, a).procs| == |s.procs| + (if a.Deliver? then 1 else 0)
    ensures a.Deliver? ==> Describes(cfg, a, Apply(cfg, s, a).procs[|s.procs|].event.info)
  {
    if a.Deliver? { Delivered(cfg, s, a); }
  }

  /** IDs never leave the store. */
  lemma {:induction false} IdsPersist(cfg: Config, run: seq<Step>, n: nat)
    requires Exec(cfg, run).Some? && n <= |run|
    ensures Exec(cfg, run[..n]).Some?
    ensures Exec(cfg, run[..n]).value.store.Keys <= Exec(cfg, run).value.store.Keys
  {
    hide NextProcs, NextLast, NextMarks, NextCalls, NextMisses;
    if n == |run| {
      assert run[..n] == run;
    } else {
      assert run[..|run| - 1][..n] == run[..n];
      IdsPersist(cfg, run[..|run| - 1], n);
    }
  }

  // ----------------------------------------------------------- rollback safety

  /** The rule an unresolved, non-chaos event matches; if dangerous, confirmed by the LLM and not in dry run. */
  predicate Cleared(cfg: Config, e: EventData, rule: RepairRule) {
    !Resolved(e) && !e.info.isChaos && Match(cfg.table, e.info.alertName, e.info.burn5m) == Some(rule) &&
    (rule.isDangerous ==> Confirmed(e.llm) && !cfg.dryRun)
  }

  predicate Ended(pc: Pc) { pc.Append? || pc.PublishLog? || pc.Finished? }

  predicate SafeProc(cfg: Config, pr: Proc) {
    (pr.pc.Put? || pr.pc.Start? || pr.pc.Finished? || !Resolved(pr.event)) &&
    (pr.pc.MarkNext? || pr.pc.Act? ==> Cleared(cfg, pr.event, pr.pc.rule))
  }

  /** The guards let through only a cleared rule that is not cooling down. */
  lemma DecideClears(cfg: Config, e: EventData, last: map<string, int>, now: int)
    requires Decide(cfg.table, cfg.dryRun, e, last, now).Go?
    ensures var rule := Decide(cfg.table, cfg.dryRun, e, last, now).rule;
            (!Resolved(e) ==> Cleared(cfg, e, rule)) && !Cooling(last, e.info.id, rule, now)
  {}

  lemma SafeCheck(cfg: Config, pr: Proc, w: Sight)
    requires SafeProc(cfg, pr) && pr.pc.Judge?
    ensures var next := NextProc(cfg, pr, Check, w);
            SafeProc(cfg, next) && next.event == pr.event && !next.pc.Finished?
  {
    hide Decide, Cleared, Cooling;
    if Decide(cfg.table, cfg.dryRun, pr.event, w.last, w.clock).Go? { DecideClears(cfg, pr.event, w.last, w.clock); }
  }

  lemma SafeBegin(cfg: Config, pr: Proc, answer: Option<Llm>, w: Sight)
    requires SafeProc(cfg, pr) && pr.pc.Start?
    ensures var next := NextProc(cfg, pr, Begin(answer), w);
            SafeProc(cfg, next) && next.event.info == pr.event.info
  {
    hide Cleared;
  }

  lemma SafeProcStep(cfg: Config, pr: Proc, op: Op, w: Sight)
    requires SafeProc(cfg, pr) && OpEnabled(pr.pc, op)
    ensures var next := NextProc(cfg, pr, op, w);
            SafeProc(cfg, next) && next.event.info == pr.event.info && (Ended(pr.pc) ==> Ended(next.pc)) &&
            (Ended(pr.pc) || op.Perform? ==> next.event.llm == pr.event.llm && Ended(next.pc))
  {
    hide Decide, LogOf, Cleared;
    match op
    case Check => SafeCheck(cfg, pr, w);
    case Begin(answer) => SafeBegin(cfg, pr, answer, w);
    case _ => RestSafe(cfg, pr, op, w);
  }

  lemma RestSafe(cfg: Config, pr: Proc, op: Op, w: Sight)
    requires SafeProc(cfg, pr) && OpEnabled(pr.pc, op) && !op.Check? && !op.Begin?
    ensures var next := NextProc(cfg, pr, op, w);
            SafeProc(cfg, next) && next.event.info == pr.event.info && (Ended(pr.pc) ==> Ended(next.pc)) &&
            (Ended(pr.pc) || op.Perform? ==> next.event.llm == pr.event.llm && Ended(next.pc))
  {
    hide Match, LogOf, Confirmed;
  }

  /** Every performed call was cleared for the event object as it still stands. */
  predicate SafeCall(cfg: Config, procs: seq<Proc>, c: Performed) {
    c.proc < |procs| && Cleared(cfg, procs[c.proc].event, c.rule) && c.call == CallOf(c.rule) && Ended(procs[c.proc].pc)
  }

  predicate Safe(cfg: Config, s: State) {
    WellFormed(s) &&
    (forall p :: 0 <= p < |s.procs| ==> SafeProc(cfg, s.procs[p])) &&
    (forall c :: c in s.calls ==> SafeCall(cfg, s.procs, c))
  }

  lemma SafeStep(cfg: Config, s: State, a: Step)
    requires Safe(cfg, s) && Enabled(s, a)
    ensures Safe(cfg, Apply(cfg, s, a))
  {
    hide NextProc, SafeProc, Match, NextLast, NextMarks, NextMisses, NextStore, Triaged, CallOf;
    var s' := Apply(cfg, s, a);
    if a.At? { SafeProcStep(cfg, s.procs[a.p], a.op, Seen(s)); }
    if a.Deliver? { FreshSafe(cfg, s'.procs[|s.procs|]); }
    forall c | c in s'.calls ensures SafeCall(cfg, s'.procs, c) {
      if c in s.calls {
        assert SafeCall(cfg, s.procs, c);
      } else {
        PerformCleared(cfg, s.procs[a.p]);
      }
    }
  }

  lemma FreshSafe(cfg: Config, pr: Proc)
    requires pr.pc.Put?
    ensures SafeProc(cfg, pr)
  {}

  lemma PerformCleared(cfg: Config, pr: Proc)
    requires SafeProc(cfg, pr) && pr.pc.Act?
    ensures Cleared(cfg, pr.event, pr.pc.rule)
  {}

  lemma {:induction false} SafeRun(cfg: Config, run: seq<Step>)
    requires Exec(cfg, run).Some?
    ensures Safe(cfg, Exec(cfg, run).value)
  {
    if run != [] {
      hide Safe, Apply;
      SafeRun(cfg, run[..|run| - 1]);
      SafeStep(cfg, Exec(cfg, run[..|run| - 1]).value, run[|run| - 1]);
    } else {
      assert Safe(cfg, INIT);
    }
  }

  lemma {:induction false} MatchInTable(table: seq<RepairRule>, alertName: string, burn5m: Float)
    ensures var m := Match(table, alertName, burn5m);
            m.Some? ==> m.value in table && Applies(m.value, alertName, burn5m)
  {
    if table != [] && !Applies(table[0], alertName, burn5m) { MatchInTable(table[1..], alertName, burn5m); }
  }

  /** Rollback safety in every interleaving, for any table that marks its rollback rows dangerous. */
  lemma RollbackSafety(cfg: Config, run: seq<Step>, c: Performed)
    requires Exec(cfg, run).Some? && c in Exec(cfg, run).value.calls
    requires forall r :: r in cfg.table && r.action == RolloutUndo ==> r.isDangerous
    ensures var procs := Exec(cfg, run).value.procs;
            c.proc < |procs| &&
            var e := procs[c.proc].event;
            e.info.status != "resolved" && !e.info.isChaos &&
            (c.call == AbortRollout ==>
               !cfg.dryRun && e.llm.Some? && e.llm.value.recommendRollback && e.llm.value.confidence >= 0.7) &&
            (c.call.Scale? ==> c.call.replicas <= 20)
  {
    SafeRun(cfg, run);
    var e := Exec(cfg, run).value.procs[c.proc].event;
    MatchInTable(cfg.table, e.info.alertName, e.info.burn5m);
  }

  /**
   With the shipped table: rollback only for the Page alert at burn 50 or more, and at that burn nothing but rollback.
   */
  lemma ShippedRollback(cfg: Config, run: seq<Step>, c: Performed)
    requires Exec(cfg, run).Some? && c in Exec(cfg, run).value.calls && cfg.table == RULES
    ensures var procs := Exec(cfg, run).value.procs;
            c.proc < |procs| &&
            var e := procs[c.proc].event;
            var burn := e.info.burn5m;
            var extreme := e.info.alertName == "OrdersvcHighErrorRatePage" &&
                           (burn == PosInf || (burn.Fin? && burn.v >= 50.0));
            (c.call == AbortRollout <==> extreme) &&
            (extreme ==>
               !cfg.dryRun && e.llm.Some? && e.llm.value.recommendRollback && e.llm.value.confidence >= 0.7)
  {
    hide Exec;
    SafeRun(cfg, run);
    ClearedRollback(cfg, Exec(cfg, run).value.procs[c.proc].event, c.rule);
  }

  lemma ClearedRollback(cfg: Config, e: EventData, rule: RepairRule)
    requires cfg.table == RULES && Cleared(cfg, e, rule)
    ensures var burn := e.info.burn5m;
            var extreme := e.info.alertName == "OrdersvcHighErrorRatePage" &&
                           (burn == PosInf || (burn.Fin? && burn.v >= 50.0));
            (CallOf(rule) == AbortRollout <==> extreme) &&
            (extreme ==>
               !cfg.dryRun && e.llm.Some? && e.llm.value.recommendRollback && e.llm.value.confidence >= 0.7)
  {
    hide Match;
    MatchInTable(RULES, e.info.alertName, e.info.burn5m);
    ShippedTable(e.info.alertName);
    if e.info.alertName == "OrdersvcHighErrorRatePage" { ShippedPageBands(e.info.burn5m); }
  }

  /** So a rollback answers a delivered, unresolved Page alert outside any drill, sampled at burn 50 or more. */
  lemma RollbackProvenance(cfg: Config, run: seq<Step>, c: Performed)
    requires Exec(cfg, run).Some? && c in Exec(cfg, run).value.calls && cfg.table == RULES && c.call == AbortRollout
    ensures exists a :: a in run && a.Deliver? && a.payload.alerts != [] && a.payload.status != "resolved" &&
              (a.burn5m == PosInf || (a.burn5m.Fin? && a.burn5m.v >= 50.0)) && "chaos" !in a.payload.alerts[0].labels &&
              Get(a.payload.alerts[0].labels, "alertname") == "OrdersvcHighErrorRatePage"
  {
    hide Exec, EventId, Classify;
    ShippedTable("");
    RollbackSafety(cfg, run, c);
    ShippedRollback(cfg, run, c);
    Provenance(cfg, run, c.proc);
    var a :| a in run && Describes(cfg, a, Exec(cfg, run).value.procs[c.proc].event.info);
  }
}
