/** New incidents: a group that fires again with a new start time gets an event of its own. */
module PipelineRecurrence {
  import opened Samples
  import opened Slices
  import opened Strings
  import opened Triage
  import opened Remediate
  import opened Pipeline
  import opened PipelineLists
  import opened PipelineCooldown
  import opened PipelineAlone
  import opened PipelineHistory

  /** A mark belongs to the event of the goroutine that made it. */
  predicate MarksOwned(s: State) {
    forall m :: m in s.marks ==> m.proc < |s.procs| && s.procs[m.proc].event.info.id == m.id
  }

  lemma MarksOwnedStep(cfg: Config, s: State, a: Step)
    requires WellFormed(s) && MarksOwned(s) && Enabled(s, a)
    ensures MarksOwned(Apply(cfg, s, a))
  {
    hide NextProcs, NextHeap, NextStore, NextLast, NextCalls, NextMisses, Describes;
    var s' := Apply(cfg, s, a);
    forall m | m in s'.marks ensures m.proc < |s'.procs| && s'.procs[m.proc].event.info.id == m.id {
      assert m.proc < |s.procs| && s.procs[m.proc].event.info.id == m.id;
      SingleOwner(cfg, s, a, m.proc);
    }
  }

  lemma {:induction false} MarksOwnedRun(cfg: Config, run: seq<Step>)
    requires Exec(cfg, run).Some?
    ensures MarksOwned(Exec(cfg, run).value)
  {
    if run != [] {
      hide MarksOwned, Apply;
      MarksOwnedRun(cfg, run[..|run| - 1]);
      MarksOwnedStep(cfg, Exec(cfg, run[..|run| - 1]).value, run[|run| - 1]);
    }
  }

  /** No delivery of the run spelled this group key and start time, and the digest tells it from those that came. */
  predicate Unheard(cfg: Config, run: seq<Step>, p: Payload) {
    forall b :: b in run && b.Deliver? ==>
      b.payload.groupKey + StartOf(b.payload) != p.groupKey + StartOf(p) &&
      (EventId(cfg.digest, b.payload) == EventId(cfg.digest, p) ==>
         b.payload.groupKey + StartOf(b.payload) == p.groupKey + StartOf(p))
  }

  lemma UnheardId(cfg: Config, run: seq<Step>, p: Payload, q: nat)
    requires Exec(cfg, run).Some? && Unheard(cfg, run, p) && q < |Exec(cfg, run).value.procs|
    ensures Id(Exec(cfg, run).value, q) != EventId(cfg.digest, p)
  {
    hide Exec, EventId, Classify, StartOf;
    Provenance(cfg, run, q);
    var b :| b in run && Describes(cfg, b, Exec(cfg, run).value.procs[q].event.info);
  }

  lemma UnheardIds(cfg: Config, run: seq<Step>, p: Payload)
    requires Exec(cfg, run).Some? && Unheard(cfg, run, p)
    ensures var s, id := Exec(cfg, run).value, EventId(cfg.digest, p);
            id !in s.store && forall q :: 0 <= q < |s.procs| ==> Id(s, q) != id
  {
    hide Exec, EventId, Unheard, Stored;
    var s, id := Exec(cfg, run).value, EventId(cfg.digest, p);
    forall q | 0 <= q < |s.procs| ensures Id(s, q) != id { UnheardId(cfg, run, p, q); }
    StoredRun(cfg, run);
    if id in s.store { StoredUnderId(s, id); }
  }

  lemma StoredUnderId(s: State, id: string)
    requires Stored(s) && id in s.store
    ensures s.store[id] < |s.procs| && Id(s, s.store[id]) == id
  {}

  lemma NotCooling(cfg: Config, run: seq<Step>, id: string, rule: RepairRule)
    requires Exec(cfg, run).Some? && |id| == 16
    requires forall q :: 0 <= q < |Exec(cfg, run).value.procs| ==> Id(Exec(cfg, run).value, q) != id
    ensures var s := Exec(cfg, run).value; !Cooling(s.last, id, rule, s.clock)
  {
    hide Exec, Cooling;
    var s := Exec(cfg, run).value;
    MarksOwnedRun(cfg, run);
    forall m | m in s.marks ensures !SamePair(m, id, rule) { assert Id(s, m.proc) == m.id; }
    hide SamePair, MarksOwned;
    CooldownExact(cfg, run, id, rule);
  }

  lemma OpensFresh(cfg: Config, s: State, a: Step)
    requires WellFormed(s) && a.Deliver? && a.payload.alerts != [] && EventId(cfg.digest, a.payload) !in s.store
    ensures var s' := Apply(cfg, s, a);
            |s'.procs| == |s.procs| + 1 && s'.last == s.last && s'.clock == s.clock &&
            var newest := s'.procs[|s.procs|];
            newest.event.info.id == EventId(cfg.digest, a.payload) && newest.event.info.createdAt == s.clock &&
            newest.event.llm == None && newest.list == NIL && newest.event.info.resolvedAt == None
  {
    hide EventId, Describes, NextProcs, NextHeap, NextStore, NextMarks, NextCalls, NextMisses;
    Delivered(cfg, s, a);
  }

  /**
   In every run a delivery with a source of its own opens a fresh event: created now, without inference, with an empty
   list, not resolved, and with no rule cooling down for it.
   */
  lemma NewIncident(cfg: Config, run: seq<Step>, a: Step, rule: RepairRule)
    requires Exec(cfg, run).Some? && a.Deliver? && a.payload.alerts != [] && Unheard(cfg, run, a.payload)
    ensures var s, id := Exec(cfg, run).value, EventId(cfg.digest, a.payload);
            WellFormed(s) &&
            var s' := Apply(cfg, s, a);
            |s'.procs| == |s.procs| + 1 &&
            var newest := s'.procs[|s.procs|];
            newest.event.info.id == id && newest.event.info.createdAt == s.clock && newest.event.llm == None &&
            newest.list == NIL && newest.event.info.resolvedAt == None && !Cooling(s'.last, id, rule, s'.clock) &&
            forall q :: 0 <= q < |s.procs| ==> Id(s, q) != id
  {
    hide Exec, EventId, Unheard, Cooling, Apply;
    UnheardIds(cfg, run, a.payload);
    OpensFresh(cfg, Exec(cfg, run).value, a);
    NotCooling(cfg, run, EventId(cfg.digest, a.payload), rule);
  }

  // ------------------------------------------------------------- one such run

  lemma ClockNotNegative(cfg: Config, s: State)
    requires Reachable(cfg, s)
    ensures s.clock >= 0 && Fitting(s.heap, s.procs)
  {
    var run :| Exec(cfg, run) == Some(s);
    ClockOfRun(cfg, run);
    FittingRun(cfg, run);
  }

  lemma {:induction false} ClockOfRun(cfg: Config, run: seq<Step>)
    requires Exec(cfg, run).Some?
    ensures Exec(cfg, run).value.clock >= 0
  {
    hide NextProcs, NextHeap, NextStore, NextLast, NextMarks, NextCalls, NextMisses, Enabled;
    if run != [] { ClockOfRun(cfg, run[..|run| - 1]); }
  }

  function Incident(status: string, start: string): Payload { Payload(status, "g", [Alert(map[], map[], start)]) }

  function Arrival(status: string, start: string): Step { Deliver(Incident(status, start), Fin(0.0), Fin(0.0)) }

  /** A delivery served to its end before anything else happens. */
  lemma ServedAlone(cfg: Config, s: State, status: string, start: string, c: Choices) returns (t: State)
    requires Reachable(cfg, s) && WellFormed(s)
    ensures Reachable(cfg, t) && WellFormed(t)
    ensures var id, n := EventId(cfg.digest, Incident(status, start)), |s.procs|;
            |t.procs| == n + 1 && t.procs[..n] == s.procs && t.procs[n].pc.Finished? && Id(t, n) == id &&
            t.store == s.store[id := n] && t.procs[n].event.info.status == status &&
            (id !in s.store ==> t.procs[n].event.info.createdAt == s.clock) &&
            |List(t, n)| == KnownLength(s, id) + if status == "resolved" then 0 else 1
  {
    hide Reachable, Turn, Alone, Undisturbed, EventId, Fitting, List, KnownLength, Apply;
    var n := |s.procs|;
    var u := ArrivesAlone(cfg, s, status, start, c);
    ProcessesAlone(cfg, u, n, c);
    t := Alone(cfg, u, n, c);
    AloneInfo(cfg, u, n, c);
    assert t.store == s.store[EventId(cfg.digest, Incident(status, start)) := n];
    assert t.procs[..n] == u.procs[..n];
  }

  lemma ArrivesAlone(cfg: Config, s: State, status: string, start: string, c: Choices) returns (u: State)
    requires Reachable(cfg, s) && WellFormed(s)
    ensures Reachable(cfg, u) && WellFormed(u) && Fitting(u.heap, u.procs)
    ensures var id, n := EventId(cfg.digest, Incident(status, start)), |s.procs|;
            |u.procs| == n + 1 && u.procs[..n] == s.procs && u.procs[n].pc == Start && Id(u, n) == id &&
            u.store == s.store[id := n] && u.procs[n].event.info.status == status &&
            (id !in s.store ==> u.procs[n].event.info.createdAt == s.clock) &&
            |List(u, n)| == KnownLength(s, id)
  {
    var a, n := Arrival(status, start), |s.procs|;
    IncidentFacts(cfg, status, start, s.clock, Existing(s, EventId(cfg.digest, Incident(status, start))));
    hide Reachable, Turn, EventId, Fitting, List, KnownLength, Triaged, ExistingList, Apply;
    TriagesAlone(cfg, s, a, c);
    ReachNext(cfg, s, a);
    TurnReachable(cfg, Apply(cfg, s, a), n, c);
    u := Turn(cfg, Apply(cfg, s, a), n, c);
    ClockNotNegative(cfg, u);
    Inherits(s, u, n, EventId(cfg.digest, Incident(status, start)));
  }

  /** How many entries the store shows for an ID. */
  function KnownLength(s: State, id: string): nat
    requires WellFormed(s)
  {
    if id in s.store then |List(s, s.store[id])| else 0
  }

  lemma Inherits(s: State, u: State, n: nat, id: string)
    requires WellFormed(s) && n < |u.procs| && u.heap == s.heap && u.procs[n].list == ExistingList(s, id)
    ensures |List(u, n)| == KnownLength(s, id)
  {}

  lemma AloneInfo(cfg: Config, u: State, n: nat, c: Choices)
    requires n < |u.procs|
    ensures Undisturbed(cfg, u, n, c).event.info == u.procs[n].event.info
  {
    hide Decide, LogOf, CallOf, Key;
  }

  lemma IncidentFacts(cfg: Config, status: string, start: string, now: int, existing: Option<EventData>)
    ensures var e := Triaged(cfg.digest, Incident(status, start), Fin(0.0), Fin(0.0), now, existing);
            e.info.id == EventId(cfg.digest, Incident(status, start)) && e.info.status == status &&
            (existing == None ==> e.info.createdAt == now && e.llm == None)
    ensures EventId(cfg.digest, Incident("resolved", start)) == EventId(cfg.digest, Incident("firing", start))
  {
    hide Classify, BudgetImpact;
    IdFollowsSource(cfg.digest, Incident("resolved", start), Incident("firing", start));
  }

  /**
   A group fires, resolves and fires again: the resolution continues the first event, the recurrence opens another.
   */
  lemma RecurrenceHappens(cfg: Config) returns (run: seq<Step>)
    requires EventId(cfg.digest, Incident("firing", "t1")) != EventId(cfg.digest, Incident("firing", "t2"))
    ensures Exec(cfg, run).Some?
    ensures var s := Exec(cfg, run).value;
            |s.procs| == 3 && Id(s, 0) == Id(s, 1) != Id(s, 2) &&
            s.procs[1].event.info.status == "resolved" && s.procs[2].event.info.status == "firing" &&
            s.procs[2].event.info.createdAt > s.procs[0].event.info.createdAt &&
            |List(s, 0)| == 1 && |List(s, 1)| == 1 && |List(s, 2)| == 1
  {
    hide Reachable, EventId, List, Apply, Incident, KnownLength, WellFormed;
    var s1, s2 := FiresAndResolves(cfg);
    Later(cfg, s2);
    ReachNext(cfg, s2, Tick(1));
    var late := Apply(cfg, s2, Tick(1));
    var s3 := ServedAlone(cfg, late, "firing", "t2", Choices(None, 0, 0, Reply.Done(""), 0));
    assert s3.procs[0] == s3.procs[..2][0] && s3.procs[1] == s3.procs[..2][1];
    SameLength(cfg, s1, s3, 0);
    SameLength(cfg, s2, s3, 1);
    NothingKnown(late, EventId(cfg.digest, Incident("firing", "t2")));
    run := RunTo(cfg, s3);
  }

  lemma NothingKnown(s: State, id: string)
    requires WellFormed(s) && id !in s.store
    ensures KnownLength(s, id) == 0
  {}

  lemma FiresFirst(cfg: Config) returns (s1: State)
    ensures Reachable(cfg, s1) && WellFormed(s1) && |s1.procs| == 1
    ensures var id := EventId(cfg.digest, Incident("firing", "t1"));
            Id(s1, 0) == id && s1.procs[0].event.info.createdAt == 0 && s1.store == map[id := 0] && |List(s1, 0)| == 1
  {
    var id := EventId(cfg.digest, Incident("firing", "t1"));
    NothingYet(cfg);
    hide Reachable, EventId, List, Incident, KnownLength;
    NothingKnown(INIT, id);
    s1 := ServedAlone(cfg, INIT, "firing", "t1", Choices(None, 0, 0, Reply.Done(""), 0));
    assert s1.store == map[id := 0];
  }

  lemma FiresAndResolves(cfg: Config) returns (s1: State, s2: State)
    ensures Reachable(cfg, s1) && Reachable(cfg, s2) && WellFormed(s2) && |s1.procs| == 1 && |s2.procs| == 2
    ensures s2.procs[0] == s1.procs[0] && s2.procs[0].event.info.createdAt == 0
    ensures var id := EventId(cfg.digest, Incident("firing", "t1"));
            Id(s2, 0) == id && Id(s2, 1) == id && s2.store == map[id := 1]
    ensures s2.procs[1].event.info.status == "resolved" && |List(s1, 0)| == 1 && |List(s2, 1)| == 1
  {
    var id := EventId(cfg.digest, Incident("firing", "t1"));
    hide Reachable, EventId, List, Incident, KnownLength, WellFormed, ExistingList;
    SameIncident(cfg);
    s1 := FiresFirst(cfg);
    OneKnown(s1, id);
    s2 := ServedAlone(cfg, s1, "resolved", "t1", Choices(None, 0, 0, Reply.Done(""), 0));
    assert s2.procs[0] == s2.procs[..1][0];
    assert s2.store == map[id := 1];
  }

  lemma SameIncident(cfg: Config)
    ensures EventId(cfg.digest, Incident("resolved", "t1")) == EventId(cfg.digest, Incident("firing", "t1"))
  {
    IdFollowsSource(cfg.digest, Incident("resolved", "t1"), Incident("firing", "t1"));
  }

  lemma OneKnown(s: State, id: string)
    requires WellFormed(s) && |s.procs| == 1 && s.store == map[id := 0]
    ensures KnownLength(s, id) == |List(s, 0)|
  {}

  lemma NothingYet(cfg: Config)
    ensures Reachable(cfg, INIT) && WellFormed(INIT)
  {
    assert Exec(cfg, []) == Some(INIT);
  }

  lemma RunTo(cfg: Config, s: State) returns (run: seq<Step>)
    requires Reachable(cfg, s)
    ensures Exec(cfg, run) == Some(s)
  {
    run :| Exec(cfg, run) == Some(s);
  }

  lemma Later(cfg: Config, s: State)
    requires Reachable(cfg, s) && WellFormed(s)
    ensures var t := Apply(cfg, s, Tick(1));
            t.procs == s.procs && t.heap == s.heap && t.store == s.store && t.clock == s.clock + 1 > 0
  {
    hide Reachable;
    ClockNotNegative(cfg, s);
  }

  /** An object keeps the length of its list while others are served. */
  lemma SameLength(cfg: Config, s: State, t: State, p: nat)
    requires Reachable(cfg, s) && Reachable(cfg, t) && p < |s.procs| && p < |t.procs| && t.procs[p] == s.procs[p]
    ensures |List(t, p)| == |List(s, p)|
  {
    hide Reachable, Fitting, List;
    ClockNotNegative(cfg, s);
    ClockNotNegative(cfg, t);
    OwnLength(s, p);
    OwnLength(t, p);
  }
}
