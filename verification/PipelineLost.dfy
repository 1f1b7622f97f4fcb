/** A recorded entry can be lost: two goroutines append to copies of one list. */
module PipelineLost {
  import opened Samples
  import opened Slices
  import opened Strings
  import opened Triage
  import opened Remediate
  import opened Pipeline
  import opened PipelineLists
  import opened PipelineAlone

  function PageId(cfg: Config): string { EventId(cfg.digest, WARM_PAGE) }

  function Page(burn: Float): Step { Deliver(WARM_PAGE, burn, burn) }

  /** A firing Page event as triage makes it, at a burn. */
  predicate PageAt(cfg: Config, e: EventData, burn: Float) {
    e.info.id == PageId(cfg) && e.info.alertName == "OrdersvcHighErrorRatePage" && !e.info.isChaos &&
    e.info.burn5m == burn && !Resolved(e)
  }

  lemma PageTriaged(cfg: Config, burn: Float, now: int, existing: Option<EventData>)
    ensures PageAt(cfg, Triaged(cfg.digest, WARM_PAGE, burn, burn, now, existing), burn)
  {
    hide Classify, BudgetImpact, EventId;
  }

  lemma PageVerdicts(cfg: Config, e: EventData, burn: Float, last: map<string, int>, now: int)
    requires cfg.table == RULES && PageAt(cfg, e, burn)
    ensures var verdict := Decide(cfg.table, cfg.dryRun, e, last, now);
            var key := Key(PageId(cfg), "R-A1");
            (burn == Fin(0.0) ==> verdict.Stop? && verdict.log.result == Skipped) &&
            (burn == Fin(20.0) && key !in last ==> verdict == Go(RULES[2])) &&
            (burn == Fin(20.0) && key in last && last[key] == now ==> verdict.Stop? && verdict.log.result == Skipped)
  {
    hide Match, EventId;
    ShippedPageBands(burn);
  }

  predicate AllSkipped(logs: seq<Log>) { forall log :: log in logs ==> log.result == Skipped }

  /** n deliveries of the page were served one after another, and none acted. */
  ghost predicate Calm(cfg: Config, s: State, n: nat) {
    Reachable(cfg, s) && WellFormed(s) && Fitting(s.heap, s.procs) && |s.procs| == n && s.last == map[] &&
    (forall pr :: pr in s.procs ==> pr.event.info.id == PageId(cfg) && pr.pc.Finished?) &&
    if n == 0 then s.store == map[] else s.store == map[PageId(cfg) := n - 1] && AllSkipped(List(s, n - 1))
  }

  lemma Fitted(cfg: Config, s: State)
    requires Reachable(cfg, s)
    ensures Fitting(s.heap, s.procs)
  {
    var run :| Exec(cfg, run) == Some(s);
    FittingRun(cfg, run);
  }

  /** A delivery of the page is triaged and stored. */
  lemma Arrives(cfg: Config, s: State, burn: Float, c: Choices) returns (t: State)
    requires Reachable(cfg, s) && WellFormed(s)
    ensures Reachable(cfg, t) && WellFormed(t) && Fitting(t.heap, t.procs)
    ensures t.heap == s.heap && t.last == s.last && t.store == s.store[PageId(cfg) := |s.procs|]
    ensures |t.procs| == |s.procs| + 1 && t.procs[..|s.procs|] == s.procs && t.procs[|s.procs|].pc == Start
    ensures t.procs[|s.procs|].list == ExistingList(s, PageId(cfg)) && PageAt(cfg, t.procs[|s.procs|].event, burn)
  {
    hide Reachable, Turn, PageAt, Apply, EventId;
    var a := Page(burn);
    PageTriaged(cfg, burn, s.clock, Existing(s, PageId(cfg)));
    TriagesAlone(cfg, s, a, c);
    ReachNext(cfg, s, a);
    TurnReachable(cfg, Apply(cfg, s, a), |s.procs|, c);
    t := Turn(cfg, Apply(cfg, s, a), |s.procs|, c);
    Fitted(cfg, t);
  }

  lemma Stopped(cfg: Config, s: State, p: nat, c: Choices, f: EventData)
    requires p < |s.procs| && !Resolved(s.procs[p].event) && f == Inferred(s.procs[p].event, cfg.hasLlm, c.answer)
    requires Decide(cfg.table, cfg.dryRun, f, s.last, s.clock + c.early).Stop?
    ensures Undisturbed(cfg, s, p, c) ==
              Processed(f, List(s, p) + [Decide(cfg.table, cfg.dryRun, f, s.last, s.clock + c.early).log],
                        s.last, CallsOf(s.calls))
  {
    hide Decide, List, CallsOf, Inferred, Resolved;
  }

  lemma PageIsFiring(cfg: Config, e: EventData, burn: Float)
    requires PageAt(cfg, e, burn)
    ensures !Resolved(e) && e.info.burn5m == burn && e.info.id == PageId(cfg)
    ensures forall answer :: PageAt(cfg, Inferred(e, cfg.hasLlm, answer), burn)
  {
    hide EventId;
  }

  lemma CalmList(cfg: Config, s: State, n: nat)
    requires Calm(cfg, s, n)
    ensures Reachable(cfg, s) && WellFormed(s) && |s.procs| == n && s.last == map[]
    ensures ExistingList(s, PageId(cfg)) == if n == 0 then NIL else s.procs[n - 1].list
    ensures s.store == if n == 0 then map[] else map[PageId(cfg) := n - 1]
    ensures forall i :: 0 <= i < n ==> s.procs[i].event.info.id == PageId(cfg) && s.procs[i].pc.Finished?
    ensures n > 0 ==> AllSkipped(List(s, n - 1))
  {
    hide Reachable, PageId, AllSkipped, List, Fitting;
    assert forall i :: 0 <= i < n ==> s.procs[i] in s.procs;
  }

  /** A quiet goroutine, served alone. */
  lemma QuietlyAlone(cfg: Config, u: State, n: nat, c: Choices) returns (t: State)
    requires cfg.table == RULES && Reachable(cfg, u) && WellFormed(u) && Fitting(u.heap, u.procs) && u.last == map[]
    requires n < |u.procs| && u.procs[n].pc == Start && PageAt(cfg, u.procs[n].event, Fin(0.0))
    ensures Reachable(cfg, t) && WellFormed(t) && Fitting(t.heap, t.procs)
    ensures |t.procs| == |u.procs| && t.procs == u.procs[n := t.procs[n]] && t.procs[n].pc.Finished?
    ensures t.last == map[] && t.store == u.store[PageId(cfg) := n] && t.procs[n].event.info.id == PageId(cfg)
    ensures t.procs[n].list == Grown(u.procs[n].list, |u.heap|, c.extra)
    ensures |List(t, n)| > 0 && List(t, n)[..|List(t, n)| - 1] == List(u, n) &&
            List(t, n)[|List(t, n)| - 1].result == Skipped
  {
    hide Reachable, PageAt, EventId, Decide, Undisturbed, Alone, Grown, List, Fitting, PageId, Inferred, CallsOf,
      Overlooks, Overwritten, Resolved;
    var e := u.procs[n].event;
    var f := Inferred(e, cfg.hasLlm, c.answer);
    PageIsFiring(cfg, e, Fin(0.0));
    PageVerdicts(cfg, f, Fin(0.0), u.last, u.clock + c.early);
    PageIsFiring(cfg, f, Fin(0.0));
    Stopped(cfg, u, n, c, f);
    ProcessesAlone(cfg, u, n, c);
    t := Alone(cfg, u, n, c);
    Fitted(cfg, t);
  }

  /** One more calm delivery, whose entry goes into room of the runtime's choice. */
  lemma Served(cfg: Config, s: State, n: nat, extra: nat) returns (t: State)
    requires cfg.table == RULES && Calm(cfg, s, n)
    ensures Calm(cfg, t, n + 1) && |t.procs| == n + 1 == |s.procs| + 1
    ensures t.procs[n].list == Grown(if n == 0 then NIL else s.procs[n - 1].list, |s.heap|, extra)
  {
    hide Reachable, Calm, PageAt, Grown, List, Fitting, PageId, ExistingList;
    var c := Choices(None, 0, 0, Reply.Done(""), extra);
    CalmList(cfg, s, n);
    var u := Arrives(cfg, s, Fin(0.0), c);
    t := QuietlyAlone(cfg, u, n, c);
    ServedCalm(cfg, s, u, t, n);
  }

  lemma ServedCalm(cfg: Config, s: State, u: State, t: State, n: nat)
    requires Calm(cfg, s, n) && Reachable(cfg, t) && WellFormed(t) && Fitting(t.heap, t.procs) && |u.procs| == n + 1
    requires u.procs[..n] == s.procs && u.heap == s.heap && u.procs[n].list == ExistingList(s, PageId(cfg))
    requires |t.procs| == n + 1 && t.procs == u.procs[n := t.procs[n]] && t.procs[n].pc.Finished?
    requires t.procs[n].event.info.id == PageId(cfg) && t.last == map[]
    requires t.store == s.store[PageId(cfg) := n][PageId(cfg) := n]
    requires |List(t, n)| > 0 && List(t, n)[..|List(t, n)| - 1] == List(u, n) &&
             List(t, n)[|List(t, n)| - 1].result == Skipped
    ensures Calm(cfg, t, n + 1)
  {
    hide Reachable, Fitting, PageId, ExistingList, List, AllSkipped;
    CalmList(cfg, s, n);
    SameList(cfg, s, u, n);
    OneMoreSkipped(List(t, n));
    forall pr | pr in t.procs ensures pr.event.info.id == PageId(cfg) && pr.pc.Finished? {
      var i :| 0 <= i < |t.procs| && t.procs[i] == pr;
      assert i < n ==> pr == u.procs[..n][i];
    }
    assert t.store == map[PageId(cfg) := n];
  }

  lemma SameList(cfg: Config, s: State, u: State, n: nat)
    requires Calm(cfg, s, n) && |u.procs| == n + 1 && u.heap == s.heap
    requires u.procs[n].list == ExistingList(s, PageId(cfg))
    ensures AllSkipped(List(u, n))
  {
    hide Calm, PageId, ExistingList;
    CalmList(cfg, s, n);
  }

  lemma OneMoreSkipped(logs: seq<Log>)
    requires |logs| > 0 && AllSkipped(logs[..|logs| - 1]) && logs[|logs| - 1].result == Skipped
    ensures AllSkipped(logs)
  {}

  /** After three calm deliveries the array has grown to four cells, as Go doubles it, and three are taken. */
  lemma ThreeServed(cfg: Config) returns (s: State)
    requires cfg.table == RULES
    ensures Calm(cfg, s, 3) && Spare(s.procs[2].list) && |List(s, 2)| == 3 == s.procs[2].list.len
  {
    hide Reachable, Calm, List;
    NoneServed(cfg);
    s := Served(cfg, INIT, 0, 0);
    s := Served(cfg, s, 1, 0);
    s := Served(cfg, s, 2, 1);
    CalmLength(cfg, s, 3);
  }

  lemma NoneServed(cfg: Config)
    ensures Calm(cfg, INIT, 0)
  {
    assert Exec(cfg, []) == Some(INIT);
    assert Reachable(cfg, INIT);
    hide Reachable;
  }

  lemma CalmLength(cfg: Config, s: State, n: nat)
    requires Calm(cfg, s, n) && n > 0
    ensures |s.procs| == n && |List(s, n - 1)| == s.procs[n - 1].list.len
  {
    OwnLength(s, n - 1);
  }

  lemma TurnOn(cfg: Config, s: State, t: State, p: nat, v: View, c: Choices) returns (u: State)
    requires Looks(s, t, p, v) && Reachable(cfg, t) && !v.pr.pc.Finished?
    ensures Reachable(cfg, u) && Looks(s, u, p, NextView(cfg, p, v, c))
  {
    hide Reachable, NextView, Turn;
    TurnView(cfg, s, t, p, v, c);
    TurnReachable(cfg, t, p, c);
    u := Turn(cfg, t, p, c);
  }

  /** From a check that clears a rule to the recorded outcome, at one instant. */
  lemma Acts(cfg: Config, s: State, p: nat, rule: RepairRule, c: Choices) returns (t: State)
    requires Reachable(cfg, s) && WellFormed(s) && p < |s.procs| && s.procs[p].pc == Judge && c.early == c.late == 0
    requires Decide(cfg.table, cfg.dryRun, s.procs[p].event, s.last, s.clock) == Go(rule)
    ensures Reachable(cfg, t) && WellFormed(t) && t.store == s.store && t.clock == s.clock
    ensures var e := s.procs[p].event;
            var log := LogOf(rule, c.reply, e.info.createdAt);
            t.procs == s.procs[p := Proc(e, Grown(s.procs[p].list, |s.heap|, c.extra), PublishLog(log))] &&
            t.heap == Written(s.heap, s.procs[p].list, log, c.extra) &&
            t.last == s.last[Key(e.info.id, rule.id) := s.clock]
  {
    hide Reachable, Decide, LogOf, CallOf, Key, Grown, Written, Turn;
    var v := Here(s, p);
    t := TurnOn(cfg, s, s, p, v, c);
    v := NextView(cfg, p, v, c);
    t := TurnOn(cfg, s, t, p, v, c);
    v := NextView(cfg, p, v, c);
    t := TurnOn(cfg, s, t, p, v, c);
    v := NextView(cfg, p, v, c);
    t := TurnOn(cfg, s, t, p, v, c);
  }

  /** Two more deliveries at a higher burn are both triaged before either records: they share one list with room. */
  ghost predicate Together(cfg: Config, s: State, logs: seq<Log>) {
    Reachable(cfg, s) && WellFormed(s) && Fitting(s.heap, s.procs) && |s.procs| == 5 && s.last == map[] &&
    (forall p :: 0 <= p < 3 ==> s.procs[p].event.info.id == PageId(cfg) && s.procs[p].pc.Finished?) &&
    (forall p :: 3 <= p < 5 ==> PageAt(cfg, s.procs[p].event, Fin(20.0)) && s.procs[p].pc == Start) &&
    s.procs[4].list == s.procs[3].list && Spare(s.procs[3].list) && s.procs[3].list.len == 3 &&
    s.store == map[PageId(cfg) := 4] && |logs| == 3 && AllSkipped(logs) && List(s, 3) == logs && List(s, 4) == logs
  }

  lemma Overlapping(cfg: Config, s: State, c: Choices) returns (t: State)
    requires Calm(cfg, s, 3) && Spare(s.procs[2].list) && |List(s, 2)| == 3 == s.procs[2].list.len
    ensures Together(cfg, t, List(s, 2))
  {
    hide Reachable, Calm, PageId, PageAt, AllSkipped, List, Fitting;
    CalmList(cfg, s, 3);
    t := Arrives(cfg, s, Fin(20.0), c);
    var u := t;
    t := Arrives(cfg, u, Fin(20.0), c);
    assert u.procs[..3] == s.procs && t.procs[..4] == u.procs;
    assert t.procs[3] == u.procs[3] && forall p :: 0 <= p < 3 ==> t.procs[p] == s.procs[p];
    assert t.store == map[PageId(cfg) := 4];
    SameHeader(s, 2, t, 3);
    SameHeader(s, 2, t, 4);
  }

  lemma SameHeader(s: State, p: nat, t: State, q: nat)
    requires p < |s.procs| && q < |t.procs| && t.heap == s.heap && t.procs[q].list == s.procs[p].list
    ensures List(t, q) == List(s, p)
  {}

  /** The first of them acts and records its action... */
  lemma FirstActs(cfg: Config, s: State, logs: seq<Log>, c: Choices) returns (t: State)
    requires cfg.table == RULES && Reachable(cfg, s) && WellFormed(s) && Fitting(s.heap, s.procs) && |s.procs| == 5
    requires PageAt(cfg, s.procs[3].event, Fin(20.0)) && s.procs[3].pc == Start && s.last == map[]
    requires Spare(s.procs[3].list) && s.procs[3].list.len == 3 && List(s, 3) == logs
    requires s.store.Keys == {PageId(cfg)} && c.early == c.late == 0 && c.reply.Done?
    ensures Reachable(cfg, t) && WellFormed(t) && Fitting(t.heap, t.procs) && |t.procs| == 5
    ensures t.procs == s.procs[3 := t.procs[3]] && PageId(cfg) in t.store && t.store.Keys == {PageId(cfg)}
    ensures var key := Key(PageId(cfg), "R-A1"); key in t.last && t.last[key] == t.clock
    ensures t.procs[3].pc.PublishLog? && t.procs[3].pc.log.result == Executed && t.procs[3].event.info.id == PageId(cfg)
    ensures t.procs[3].list == s.procs[3].list.(len := 4) && List(t, 3) == logs + [t.procs[3].pc.log]
  {
    hide Reachable, PageId, PageAt, AllSkipped, List, Fitting, Decide, Written, Key, Inferred, Resolved, Fits;
    var e := s.procs[3].event;
    var f := Inferred(e, cfg.hasLlm, c.answer);
    PageIsFiring(cfg, e, Fin(20.0));
    PageIsFiring(cfg, f, Fin(20.0));
    PageVerdicts(cfg, f, Fin(20.0), s.last, s.clock);
    var u := ToJudge(cfg, s, 3, e, c);
    t := Acts(cfg, u, 3, RULES[2], c);
    Fitted(cfg, t);
    assert t.procs == s.procs[3 := t.procs[3]];
    ListsAfter(s, t, 3, t.procs[3].pc.log, c.extra);
  }

  /** ...and the other, which is cooling down, replaces that entry in the array they share. */
  lemma SecondSkips(cfg: Config, s: State, logs: seq<Log>, c: Choices) returns (t: State)
    requires cfg.table == RULES && c.early == c.late == 0 && |logs| == 3 && AllSkipped(logs)
    requires Reachable(cfg, s) && WellFormed(s) && Fitting(s.heap, s.procs) && |s.procs| == 5
    requires s.store.Keys == {PageId(cfg)}
    requires var key := Key(PageId(cfg), "R-A1"); key in s.last && s.last[key] == s.clock
    requires PageAt(cfg, s.procs[4].event, Fin(20.0)) && s.procs[4].pc == Start && Spare(s.procs[4].list)
    requires s.procs[4].list.len == 3 && s.procs[3].list == s.procs[4].list.(len := 4)
    requires |List(s, 3)| == 4 && List(s, 3)[..3] == logs
    ensures Reachable(cfg, t) && WellFormed(t) && |t.procs| == 5 && t.procs == s.procs[4 := t.procs[4]]
    ensures t.procs[4].pc.Finished? && t.procs[4].event.info.id == PageId(cfg)
    ensures t.store.Keys == {PageId(cfg)}
    ensures |List(t, 3)| == 4 && AllSkipped(List(t, 3))
  {
    hide Reachable, PageId, PageAt, Fitting, Decide, Written, Key, Alone, List, Undisturbed, Inferred, Resolved,
      CallsOf;
    var e := s.procs[4].event;
    var f := Inferred(e, cfg.hasLlm, c.answer);
    PageIsFiring(cfg, e, Fin(20.0));
    PageIsFiring(cfg, f, Fin(20.0));
    PageVerdicts(cfg, f, Fin(20.0), s.last, s.clock);
    Stopped(cfg, s, 4, c, f);
    ProcessesAlone(cfg, s, 4, c);
    t := Alone(cfg, s, 4, c);
  }

  /**
   An executed action can vanish from the history. Five deliveries of one page and the capacities 1, 2 and 4: when all
   goroutines have finished, the stored object is the one whose goroutine acted, and its list names no executed action.
   */
  lemma EntryLost(cfg: Config) returns (run: seq<Step>)
    requires cfg.table == RULES
    ensures Exec(cfg, run).Some?
    ensures var s, id := Exec(cfg, run).value, PageId(cfg);
            |s.procs| == 5 && (forall pr :: pr in s.procs ==> pr.event.info.id == id && pr.pc.Finished?) &&
            id in s.store && s.store[id] == 3 && s.procs[3].pc.outcome.Some? &&
            s.procs[3].pc.outcome.value.result == Executed &&
            |List(s, 3)| == 4 && forall log :: log in List(s, 3) ==> log.result == Skipped
  {
    var c := Choices(None, 0, 0, Reply.Done("reset"), 0);
    hide Reachable, PageId, PageAt, AllSkipped, Calm, Fitting, Contents, Key, Turn;
    var s := ThreeServed(cfg);
    var logs := List(s, 2);
    s := Overlapping(cfg, s, c);
    s := FirstActs(cfg, s, logs, c);
    s := SecondSkips(cfg, s, logs, c);
    run := LastPublishes(cfg, s, c);
  }

  lemma LastPublishes(cfg: Config, s: State, c: Choices) returns (run: seq<Step>)
    requires Reachable(cfg, s) && WellFormed(s) && |s.procs| == 5 && s.procs[3].pc.PublishLog?
    requires forall p :: 0 <= p < 5 ==> s.procs[p].event.info.id == PageId(cfg) && (p != 3 ==> s.procs[p].pc.Finished?)
    ensures Exec(cfg, run).Some?
    ensures var t := Exec(cfg, run).value;
            |t.procs| == 5 && (forall pr :: pr in t.procs ==> pr.event.info.id == PageId(cfg) && pr.pc.Finished?) &&
            PageId(cfg) in t.store && t.store[PageId(cfg)] == 3 && t.procs[3].pc.outcome == Some(s.procs[3].pc.log) &&
            List(t, 3) == List(s, 3)
  {
    hide PageId, Contents, NextLast, NextMarks, NextCalls, NextMisses;
    ReachNext(cfg, s, At(3, Publish));
    run :| Exec(cfg, run) == Some(Apply(cfg, s, At(3, Publish)));
  }
}
