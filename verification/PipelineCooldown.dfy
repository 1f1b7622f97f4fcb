/** Cooldown separation over all interleavings, and what serial evaluation adds. */
module PipelineCooldown {
  import opened Samples
  import opened Strings
  import opened Triage
  import opened Remediate
  import opened Pipeline

  predicate SamePair(m: Marked, id: string, rule: RepairRule) { m.id == id && m.rule.id == rule.id }

  predicate Apart(from: int, to: int, rule: RepairRule) { to - from >= rule.cooldownSec * NANOS_PER_SECOND }

  /** The map holds, for every pair, the time of its latest mark and nothing else. */
  predicate LatestMarks(last: map<string, int>, marks: seq<Marked>) {
    (forall m :: m in marks ==> Key(m.id, m.rule.id) in last && m.time <= last[Key(m.id, m.rule.id)]) &&
    (forall k :: k in last ==> exists m :: m in marks && k == Key(m.id, m.rule.id) && m.time == last[k])
  }

  /** A goroutine about to mark was checked a full period after every mark it could see. */
  predicate Waited(marks: seq<Marked>, clock: int, pr: Proc) {
    pr.pc.MarkNext? ==>
      pr.pc.seen <= |marks| && pr.pc.checkedAt <= clock &&
      forall i :: 0 <= i < pr.pc.seen && SamePair(marks[i], pr.event.info.id, pr.pc.rule) ==>
        Apart(marks[i].time, pr.pc.checkedAt, pr.pc.rule)
  }

  predicate Separated(marks: seq<Marked>) {
    forall i, j :: 0 <= i < j < |marks| && marks[j].seen > i && SamePair(marks[i], marks[j].id, marks[j].rule) ==>
      Apart(marks[i].time, marks[j].time, marks[j].rule)
  }

  predicate Cool(s: State) {
    WellFormed(s) &&
    LatestMarks(s.last, s.marks) &&
    (forall m :: m in s.marks ==> m.time <= s.clock && |m.id| == 16) &&
    (forall pr :: pr in s.procs ==> |pr.event.info.id| == 16 && Waited(s.marks, s.clock, pr)) &&
    Separated(s.marks)
  }

  lemma CheckWaits(cfg: Config, pr: Proc, w: Sight, marks: seq<Marked>)
    requires pr.pc.Judge? && LatestMarks(w.last, marks) && w.marks == |marks|
    ensures Waited(marks, w.clock, NextProc(cfg, pr, Check, w))
  {
    hide Decide;
    var next := NextProc(cfg, pr, Check, w);
    if next.pc.MarkNext? {
      DecideClears(cfg, pr.event, w.last, w.clock);
      forall i | 0 <= i < |marks| && SamePair(marks[i], pr.event.info.id, next.pc.rule)
        ensures Apart(marks[i].time, w.clock, next.pc.rule)
      {
        assert marks[i] in marks;
      }
    }
  }

  lemma MarkKeeps(last: map<string, int>, marks: seq<Marked>, m: Marked)
    requires LatestMarks(last, marks) && forall n :: n in marks ==> n.time <= m.time
    ensures LatestMarks(last[Key(m.id, m.rule.id) := m.time], marks + [m])
  {
    var last' := last[Key(m.id, m.rule.id) := m.time];
    forall k | k in last' ensures exists n :: n in marks + [m] && k == Key(n.id, n.rule.id) && n.time == last'[k] {
      if k == Key(m.id, m.rule.id) {
        assert m in marks + [m];
      } else {
        var n :| n in marks && k == Key(n.id, n.rule.id) && n.time == last[k];
        assert n in marks + [m];
      }
    }
  }

  lemma MarkSeparates(marks: seq<Marked>, clock: int, pr: Proc, p: nat)
    requires Separated(marks) && pr.pc.MarkNext? && Waited(marks, clock, pr)
    ensures Separated(marks + [Marked(p, pr.event.info.id, pr.pc.rule, clock, pr.pc.seen)])
  {
    var m := Marked(p, pr.event.info.id, pr.pc.rule, clock, pr.pc.seen);
    var more := marks + [m];
    forall i, j | 0 <= i < j < |more| && more[j].seen > i && SamePair(more[i], more[j].id, more[j].rule)
      ensures Apart(more[i].time, more[j].time, more[j].rule)
    {
      if j < |marks| { assert more[i] == marks[i] && more[j] == marks[j]; }
    }
  }

  lemma WaitedLater(marks: seq<Marked>, clock: int, marks': seq<Marked>, clock': int, pr: Proc)
    requires Waited(marks, clock, pr) && marks <= marks' && clock <= clock'
    ensures Waited(marks', clock', pr)
  {}

  lemma OtherOpsWait(cfg: Config, pr: Proc, op: Op, w: Sight, clock: int, marks: seq<Marked>)
    requires OpEnabled(pr.pc, op) && !op.Check?
    ensures Waited(marks, clock, NextProc(cfg, pr, op, w))
  {}

  lemma ProcsCool(cfg: Config, s: State, a: Step)
    requires Cool(s) && Enabled(s, a)
    ensures forall pr :: pr in Apply(cfg, s, a).procs ==>
              |pr.event.info.id| == 16 && Waited(NextMarks(s, a), Apply(cfg, s, a).clock, pr)
  {
    hide NextProc, Waited, LatestMarks, Separated, NextStore, NextCalls, NextMisses, NextLast, Triaged;
    var s' := Apply(cfg, s, a);
    forall pr | pr in s'.procs ensures |pr.event.info.id| == 16 && Waited(s'.marks, s'.clock, pr) {
      if pr in s.procs {
        WaitedLater(s.marks, s.clock, s'.marks, s'.clock, pr);
      } else if a.At? {
        var old' := s.procs[a.p];
        assert pr == NextProc(cfg, old', a.op, Seen(s));
        SameInfo(cfg, old', a.op, Seen(s));
        if a.op.Check? { CheckWaits(cfg, old', Seen(s), s.marks); }
        else { OtherOpsWait(cfg, old', a.op, Seen(s), s'.clock, s'.marks); }
      } else {
        FreshWaits(cfg, s, a, s'.marks);
      }
    }
  }

  lemma SameInfo(cfg: Config, pr: Proc, op: Op, w: Sight)
    requires OpEnabled(pr.pc, op)
    ensures NextProc(cfg, pr, op, w).event.info == pr.event.info
  {
    hide Decide;
  }

  lemma FreshWaits(cfg: Config, s: State, a: Step, marks: seq<Marked>)
    requires WellFormed(s) && a.Deliver? && Enabled(s, a)
    ensures var procs := NextProcs(cfg, s, a);
            |procs| == |s.procs| + 1 && |procs[|s.procs|].event.info.id| == 16 && procs[|s.procs|].pc == Put &&
            Waited(marks, s.clock, procs[|s.procs|])
  {}

  lemma CoolStep(cfg: Config, s: State, a: Step)
    requires Cool(s) && Enabled(s, a)
    ensures Cool(Apply(cfg, s, a))
  {
    hide NextProc, Waited, LatestMarks, Separated, NextStore, NextCalls, NextMisses, Triaged;
    ProcsCool(cfg, s, a);
    if a.At? && a.op.Mark? {
      var pr := s.procs[a.p];
      assert pr in s.procs;
      var m := Marked(a.p, pr.event.info.id, pr.pc.rule, s.clock, pr.pc.seen);
      MarkKeeps(s.last, s.marks, m);
      MarkSeparates(s.marks, s.clock, pr, a.p);
    }
  }

  lemma {:induction false} CoolRun(cfg: Config, run: seq<Step>)
    requires Exec(cfg, run).Some?
    ensures Cool(Exec(cfg, run).value)
  {
    if run != [] {
      hide Cool, Apply;
      CoolRun(cfg, run[..|run| - 1]);
      CoolStep(cfg, Exec(cfg, run[..|run| - 1]).value, run[|run| - 1]);
    } else {
      assert Cool(INIT);
    }
  }

  /**
   In every interleaving, two marks of one event and rule are a cooldown apart, unless the second was checked
   before the first was made.
   */
  lemma CooldownSeparation(cfg: Config, run: seq<Step>, i: nat, j: nat)
    requires Exec(cfg, run).Some? && i < j < |Exec(cfg, run).value.marks|
    ensures var marks := Exec(cfg, run).value.marks;
            SamePair(marks[i], marks[j].id, marks[j].rule) && marks[j].seen > i ==>
            marks[j].time - marks[i].time >= marks[j].rule.cooldownSec * 1_000_000_000
  {
    CoolRun(cfg, run);
  }

  /**
   A check is refused exactly when this event and this rule, and no like-keyed other pair, was marked within the
   period.
   */
  lemma CooldownExact(cfg: Config, run: seq<Step>, id: string, rule: RepairRule)
    requires Exec(cfg, run).Some? && |id| == 16
    ensures var s := Exec(cfg, run).value;
            Cooling(s.last, id, rule, s.clock) <==>
            exists m :: m in s.marks && SamePair(m, id, rule) && s.clock - m.time < rule.cooldownSec * 1_000_000_000
  {
    CoolRun(cfg, run);
    var s := Exec(cfg, run).value;
    forall m | m in s.marks ensures Key(m.id, m.rule.id) == Key(id, rule.id) <==> SamePair(m, id, rule) {
      KeyInjective(m.id, m.rule.id, id, rule.id);
    }
    if Cooling(s.last, id, rule, s.clock) {
      var m :| m in s.marks && Key(id, rule.id) == Key(m.id, m.rule.id) && m.time == s.last[Key(id, rule.id)];
      assert SamePair(m, id, rule);
    }
  }

  // -------------------------------------------------- marks and actions agree

  predicate Acting(pc: Pc) {
    match pc
    case Act(_) => true
    case Append(log) => log.result in {Executed, Failed}
    case PublishLog(log) => log.result in {Executed, Failed}
    case Finished(log) => log.Some? && log.value.result in {Executed, Failed}
    case _ => false
  }

  /** Goroutine p has marked the cooldown exactly if it is acting or has acted. */
  predicate MarksMatch(s: State) {
    WellFormed(s) &&
    (forall m :: m in s.marks ==> m.proc < |s.procs|) &&
    forall p :: 0 <= p < |s.procs| ==> (Acting(s.procs[p].pc) <==> exists m :: m in s.marks && m.proc == p)
  }

  lemma ActingStep(cfg: Config, pr: Proc, op: Op, w: Sight)
    requires OpEnabled(pr.pc, op)
    ensures Acting(NextProc(cfg, pr, op, w).pc) <==> Acting(pr.pc) || op.Mark?
  {}

  lemma MarksMatchStep(cfg: Config, s: State, a: Step)
    requires MarksMatch(s) && Enabled(s, a)
    ensures MarksMatch(Apply(cfg, s, a))
  {
    hide NextProc, NextStore, NextLast, NextCalls, NextMisses, Triaged, Acting;
    var s' := Apply(cfg, s, a);
    if a.At? { ActingStep(cfg, s.procs[a.p], a.op, Seen(s)); }
    if a.Deliver? { FreshIdle(cfg, s, a); }
    forall p | 0 <= p < |s'.procs| ensures Acting(s'.procs[p].pc) <==> exists m :: m in s'.marks && m.proc == p {
      if p < |s.procs| {
        assert Acting(s.procs[p].pc) <==> exists m :: m in s.marks && m.proc == p;
        if a.At? && a.op.Mark? && a.p == p { assert s'.marks[|s.marks|] in s'.marks; }
        if m :| m in s.marks && m.proc == p { assert m in s'.marks; }
      }
    }
  }

  lemma FreshIdle(cfg: Config, s: State, a: Step)
    requires WellFormed(s) && a.Deliver? && Enabled(s, a)
    ensures !Acting(NextProcs(cfg, s, a)[|s.procs|].pc)
  {}

  /**
   The clock of a pair moves exactly for goroutines that perform their action: failures count, skips and dry runs do
   not.
   */
  lemma {:induction false} MarkIffActing(cfg: Config, run: seq<Step>)
    requires Exec(cfg, run).Some?
    ensures MarksMatch(Exec(cfg, run).value)
  {
    if run != [] {
      hide MarksMatch, Apply;
      MarkIffActing(cfg, run[..|run| - 1]);
      MarksMatchStep(cfg, Exec(cfg, run[..|run| - 1]).value, run[|run| - 1]);
    } else {
      assert MarksMatch(INIT);
    }
  }

  // ------------------------------------------------------------- serial runs

  predicate SerialStep(cfg: Config, s: State, a: Step) {
    a.Deliver? ==> forall pr :: pr in s.procs && pr.event.info.id == EventId(cfg.digest, a.payload) ==> pr.pc.Finished?
  }

  /** An event ID is delivered again only when its previous goroutine has finished. */
  predicate Serial(cfg: Config, run: seq<Step>) {
    run == [] ||
    (Serial(cfg, run[..|run| - 1]) &&
     (Exec(cfg, run[..|run| - 1]).Some? ==> SerialStep(cfg, Exec(cfg, run[..|run| - 1]).value, run[|run| - 1])))
  }

  /** Only the latest goroutine of an event can be unfinished. */
  predicate Exclusive(procs: seq<Proc>) {
    forall p, q :: 0 <= p < q < |procs| && procs[p].event.info.id == procs[q].event.info.id ==> procs[p].pc.Finished?
  }

  predicate SeenAll(marks: seq<Marked>, pr: Proc) {
    pr.pc.MarkNext? ==> forall i :: pr.pc.seen <= i < |marks| ==> marks[i].id != pr.event.info.id
  }

  predicate MarksSeeAll(marks: seq<Marked>) {
    forall i, j :: 0 <= i < j < |marks| && marks[i].id == marks[j].id ==> marks[j].seen > i
  }

  predicate OneAtATime(s: State) {
    WellFormed(s) && Exclusive(s.procs) && MarksSeeAll(s.marks) && forall pr :: pr in s.procs ==> SeenAll(s.marks, pr)
  }

  lemma ExclusiveUpdate(procs: seq<Proc>, p: nat, next: Proc)
    requires Exclusive(procs) && p < |procs| && !procs[p].pc.Finished? && next.event.info == procs[p].event.info
    ensures Exclusive(procs[p := next])
    ensures forall q :: 0 <= q < |procs| && q != p && procs[q].event.info.id == next.event.info.id ==>
            procs[q].pc.Finished?
  {}

  lemma NextSeesAll(cfg: Config, pr: Proc, op: Op, w: Sight, marks': seq<Marked>)
    requires OpEnabled(pr.pc, op) && (op.Check? ==> |marks'| == w.marks)
    ensures SeenAll(marks', NextProc(cfg, pr, op, w))
  {
    hide Decide;
  }

  lemma OneStepAt(cfg: Config, s: State, p: nat, op: Op)
    requires OneAtATime(s) && Enabled(s, At(p, op))
    ensures OneAtATime(Apply(cfg, s, At(p, op)))
  {
    hide NextStore, NextLast, NextCalls, NextMisses, NextProc, Exclusive;
    var pr := s.procs[p];
    var next := NextProc(cfg, pr, op, Seen(s));
    var marks' := NextMarks(s, At(p, op));
    SameInfo(cfg, pr, op, Seen(s));
    ExclusiveUpdate(s.procs, p, next);
    NextSeesAll(cfg, pr, op, Seen(s), marks');
    assert SeenAll(s.marks, pr) by { assert pr in s.procs; }
    forall q | 0 <= q < |s.procs| && q != p ensures SeenAll(marks', s.procs[q]) {
      assert s.procs[q] in s.procs;
    }
  }

  lemma SameProcs(cfg: Config, s: State, a: Step)
    requires WellFormed(s) && a.Tick? && Enabled(s, a)
    ensures NextProcs(cfg, s, a) == s.procs
  {}

  lemma ExclusiveAppend(procs: seq<Proc>, newest: Proc)
    requires Exclusive(procs)
    requires forall pr :: pr in procs && pr.event.info.id == newest.event.info.id ==> pr.pc.Finished?
    ensures Exclusive(procs + [newest])
  {
    var more := procs + [newest];
    forall p, q | 0 <= p < q < |more| && more[p].event.info.id == more[q].event.info.id ensures more[p].pc.Finished? {
      assert more[p] == procs[p] && procs[p] in procs;
    }
  }

  lemma OneStepDeliver(cfg: Config, s: State, a: Step)
    requires OneAtATime(s) && Enabled(s, a) && !a.At? && SerialStep(cfg, s, a)
    ensures OneAtATime(Apply(cfg, s, a))
  {
    hide NextStore, NextLast, NextCalls, NextMisses, MarksSeeAll, NextProcs, Exclusive;
    if a.Deliver? {
      Delivered(cfg, s, a);
      ExclusiveAppend(s.procs, NextProcs(cfg, s, a)[|s.procs|]);
    } else {
      SameProcs(cfg, s, a);
    }
  }

  lemma {:induction false} SerialRuns(cfg: Config, run: seq<Step>)
    requires Exec(cfg, run).Some? && Serial(cfg, run)
    ensures OneAtATime(Exec(cfg, run).value)
  {
    if run != [] {
      hide OneAtATime, Apply, SerialStep;
      var s, a := Exec(cfg, run[..|run| - 1]).value, run[|run| - 1];
      SerialRuns(cfg, run[..|run| - 1]);
      if a.At? { OneStepAt(cfg, s, a.p, a.op); } else { OneStepDeliver(cfg, s, a); }
    } else {
      assert OneAtATime(INIT);
    }
  }

  /** In serial runs all marks of one event and rule are a cooldown apart. */
  lemma SerialSeparation(cfg: Config, run: seq<Step>, i: nat, j: nat)
    requires Exec(cfg, run).Some? && Serial(cfg, run) && i < j < |Exec(cfg, run).value.marks|
    ensures var marks := Exec(cfg, run).value.marks;
            SamePair(marks[i], marks[j].id, marks[j].rule) ==>
            marks[j].time - marks[i].time >= marks[j].rule.cooldownSec * 1_000_000_000
  {
    SerialRuns(cfg, run);
    CooldownSeparation(cfg, run, i, j);
  }

  /** Two goroutines of one event that both check before either marks mark at one instant. */
  lemma ChecksThenMarks(cfg: Config, s: State, p: nat, q: nat)
    requires WellFormed(s) && p < |s.procs| && q < |s.procs| && p != q
    requires s.procs[p].pc.Judge? && s.procs[q].pc.Judge? && Id(s, p) == Id(s, q)
    requires Decide(cfg.table, cfg.dryRun, s.procs[p].event, s.last, s.clock).Go?
    requires Decide(cfg.table, cfg.dryRun, s.procs[q].event, s.last, s.clock)
          == Decide(cfg.table, cfg.dryRun, s.procs[p].event, s.last, s.clock)
    ensures Enabled(s, At(p, Check))
    ensures var s1 := Apply(cfg, s, At(p, Check));
            Enabled(s1, At(q, Check)) &&
            var s2 := Apply(cfg, s1, At(q, Check));
            Enabled(s2, At(p, Mark)) &&
            var s3 := Apply(cfg, s2, At(p, Mark));
            Enabled(s3, At(q, Mark)) &&
            var s4 := Apply(cfg, s3, At(q, Mark));
            var n := |s.marks|;
            var rule := Decide(cfg.table, cfg.dryRun, s.procs[p].event, s.last, s.clock).rule;
            |s4.marks| == n + 2 && s4.marks[n] == Marked(p, Id(s, p), rule, s.clock, n) &&
            s4.marks[n + 1] == Marked(q, Id(s, q), rule, s.clock, n)
  {
    hide Decide, NextStore, NextCalls, NextMisses;
  }
}
