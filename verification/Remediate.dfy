/** The remediation engine: rule table, cooldown and guarded execution. */
module Remediate {
  import opened Samples
  import opened Strings
  import opened Triage

  datatype RepairRule = RepairRule(id: string, alertName: string, burnThreshold: real, isDangerous: bool,
                                   action: ActionType, cooldownSec: nat, scaleTo: int)

  const RULES: seq<RepairRule> := [
    RepairRule("R-D1", "OrdersvcHighErrorRatePage", 50.0, true, RolloutUndo, 1800, 0),
    RepairRule("R-B1", "OrdersvcHighErrorRatePage", 30.0, false, ScaleUp, 600, 6),
    RepairRule("R-A1", "OrdersvcHighErrorRatePage", 14.4, false, FaultReset, 300, 0),
    RepairRule("R-C1", "OrdersvcHighLatencyP99Ticket", 0.0, false, ScaleUp, 600, 8)
  ]

  const MAX_SCALE_REPLICAS := 20
  const NANOS_PER_SECOND := 1_000_000_000

  // ----------------------------------------------------------------- matching

  predicate Named(r: RepairRule, alertName: string) { r.alertName == "" || r.alertName == alertName }

  predicate Applies(r: RepairRule, alertName: string, burn5m: Float) {
    Named(r, alertName) && Reaches(burn5m, Fin(r.burnThreshold))
  }

  function Match(table: seq<RepairRule>, alertName: string, burn5m: Float): Option<RepairRule> {
    if table == [] then None
    else if Applies(table[0], alertName, burn5m) then Some(table[0])
    else Match(table[1..], alertName, burn5m)
  }

  method FindRule(table: seq<RepairRule>, alertName: string, burn5m: Float) returns (rule: Option<RepairRule>)
    ensures rule == Match(table, alertName, burn5m)
  {
    for i := 0 to |table|
      invariant Match(table, alertName, burn5m) == Match(table[i..], alertName, burn5m)
    {
      var r := table[i];
      assert table[i..][1..] == table[i + 1..];
      if r.alertName != "" && r.alertName != alertName { continue; }
      if Reaches(burn5m, Fin(r.burnThreshold)) { return Some(r); }
    }
    rule := None;
  }

  /** The rows for one alert name are listed by descending threshold. */
  predicate Descending(table: seq<RepairRule>, alertName: string) {
    forall i, j :: 0 <= i < j < |table| && Named(table[i], alertName) && Named(table[j], alertName) ==>
      table[i].burnThreshold >= table[j].burnThreshold
  }

  /** First match is best match: nothing applicable has a greater threshold, and None means nothing applies. */
  lemma {:induction false} FirstIsBest(table: seq<RepairRule>, alertName: string, burn5m: Float)
    requires Descending(table, alertName)
    ensures var m := Match(table, alertName, burn5m);
            (m == None <==> forall r :: r in table ==> !Applies(r, alertName, burn5m)) &&
            (m.Some? ==>
               (m.value in table && Applies(m.value, alertName, burn5m) &&
                forall r :: r in table && Applies(r, alertName, burn5m) ==> r.burnThreshold <= m.value.burnThreshold))
  {
    if table != [] {
      var rest := table[1..];
      assert forall r :: r in table <==> r == table[0] || r in rest;
      if Applies(table[0], alertName, burn5m) {
        assert forall r :: r in rest ==> exists j :: 0 < j < |table| && table[j] == r;
      } else {
        FirstIsBest(rest, alertName, burn5m);
      }
    }
  }

  /** A higher burn never selects a milder rule. */
  lemma MatchMonotone(table: seq<RepairRule>, alertName: string, low: Float, high: Float)
    requires Descending(table, alertName) && Reaches(high, low) && Match(table, alertName, low).Some?
    ensures Match(table, alertName, high).Some?
    ensures Match(table, alertName, low).value.burnThreshold <= Match(table, alertName, high).value.burnThreshold
  {
    FirstIsBest(table, alertName, low);
    FirstIsBest(table, alertName, high);
    assert Applies(Match(table, alertName, low).value, alertName, high);
  }

  lemma ShippedTable(alertName: string)
    ensures Descending(RULES, alertName)
    ensures forall r :: r in RULES && r.action == RolloutUndo ==>
              r.isDangerous && r.burnThreshold == 50.0 && r.alertName == "OrdersvcHighErrorRatePage"
  {}

  /** The bands of the shipped table for the Page alert. */
  lemma ShippedPageBands(burn5m: Float)
    ensures var m := Match(RULES, "OrdersvcHighErrorRatePage", burn5m);
            if Reaches(burn5m, Fin(50.0)) then m == Some(RULES[0])
            else if Reaches(burn5m, Fin(30.0)) then m == Some(RULES[1])
            else if Reaches(burn5m, Fin(14.4)) then m == Some(RULES[2])
            else m == None
  {
    assert RULES[1..][0] == RULES[1] && RULES[1..][1..][0] == RULES[2];
    var tail := RULES[1..][1..][1..];
    assert tail == [RULES[3]] && tail[1..] == [];
    assert Match(tail, "OrdersvcHighErrorRatePage", burn5m) == None;
    assert Match(RULES[1..][1..], "OrdersvcHighErrorRatePage", burn5m) ==
           if Reaches(burn5m, Fin(14.4)) then Some(RULES[2]) else None;
  }

  /** Every page above a threshold finds a rule, exactly when the threshold is at least the lowest row's 14.4. */
  lemma PageCoverage(thr: real)
    ensures (forall burn5m: Float :: Above(burn5m, Fin(thr)) ==>
               Match(RULES, "OrdersvcHighErrorRatePage", burn5m).Some?) <==> thr >= 14.4
  {
    forall burn5m: Float
      ensures Match(RULES, "OrdersvcHighErrorRatePage", burn5m).Some? <==> Reaches(burn5m, Fin(14.4))
    {
      ShippedPageBands(burn5m);
    }
    if thr < 14.4 {
      var between := Fin((thr + 14.4) / 2.0);
      assert Above(between, Fin(thr)) && !Reaches(between, Fin(14.4));
      assert Match(RULES, "OrdersvcHighErrorRatePage", between).None?;
    }
  }

  // ----------------------------------------------------------------- cooldown

  function Key(eventID: string, ruleID: string): string { eventID + ":" + ruleID }

  /** IDs have one length, so the concatenated key tells (event, rule) pairs apart. */
  lemma KeyInjective(id1: string, rule1: string, id2: string, rule2: string)
    requires |id1| == |id2|
    ensures Key(id1, rule1) == Key(id2, rule2) <==> id1 == id2 && rule1 == rule2
  {
    if Key(id1, rule1) == Key(id2, rule2) {
      assert id1 == Key(id1, rule1)[..|id1|] && id2 == Key(id2, rule2)[..|id2|];
      CancelPrefix(id1 + ":", rule1, rule2);
    }
  }

  predicate Cooling(last: map<string, int>, eventID: string, rule: RepairRule, now: int) {
    var key := Key(eventID, rule.id);
    key in last && now - last[key] < rule.cooldownSec * NANOS_PER_SECOND
  }

  class Cooldown {
    var last: map<string, int>

    constructor ()
      ensures last == map[]
    {
      last := map[];
    }

    method InCooldown(eventID: string, rule: RepairRule, now: int) returns (cooling: bool)
      ensures cooling == Cooling(last, eventID, rule, now)
    {
      var key := Key(eventID, rule.id);
      if key !in last { return false; }
      cooling := now - last[key] < rule.cooldownSec * NANOS_PER_SECOND;
    }

    method Mark(eventID: string, rule: RepairRule, now: int)
      modifies this
      ensures last == old(last)[Key(eventID, rule.id) := now]
    {
      last := last[Key(eventID, rule.id) := now];
    }
  }

  // --------------------------------------------------------------- evaluation

  datatype Call = ResetFault | Scale(replicas: int) | AbortRollout

  datatype Reply = Done(msg: string) | Error(msg: string)

  datatype Verdict = Stop(log: Log) | Go(rule: RepairRule)

  predicate Confirmed(llm: Option<Llm>) { llm.Some? && llm.value.recommendRollback && llm.value.confidence >= 0.7 }

  /**
   The guards in the engine's order: chaos, rule, cooldown, and for dangerous rules the LLM and the dry-run switch.
   */
  function Decide(table: seq<RepairRule>, dryRun: bool, e: EventData, last: map<string, int>, now: int): Verdict {
    var at := e.info.createdAt;
    if e.info.isChaos then Stop(Log(None, Skipped, ChaosDrill, at))
    else
      match Match(table, e.info.alertName, e.info.burn5m)
      case None => Stop(Log(None, Skipped, NoRule, at))
      case Some(rule) =>
        if Cooling(last, e.info.id, rule, now) then Stop(Log(Some(rule.action), Skipped, CoolingDown, at))
        else if rule.isDangerous && e.llm.None? then Stop(Log(Some(rule.action), Skipped, NoInference, at))
        else if rule.isDangerous && !Confirmed(e.llm) then Stop(Log(Some(rule.action), Skipped, Unconfirmed, at))
        else if rule.isDangerous && dryRun then Stop(Log(Some(rule.action), DryRun, DryRunOnly, at))
        else Go(rule)
  }

  lemma {:induction false} NoRowApplies(table: seq<RepairRule>, alertName: string, burn5m: Float)
    ensures Match(table, alertName, burn5m) == None <==> forall r :: r in table ==> !Applies(r, alertName, burn5m)
    ensures Match(table, alertName, burn5m).Some? ==> Match(table, alertName, burn5m).value in table
  {
    if table != [] {
      NoRowApplies(table[1..], alertName, burn5m);
      assert forall r :: r in table <==> r == table[0] || r in table[1..];
    }
  }

  /** What can be read off a verdict without action: the first guard that failed, and that all earlier ones passed. */
  lemma SkipTells(table: seq<RepairRule>, dryRun: bool, e: EventData, last: map<string, int>, now: int)
    requires Decide(table, dryRun, e, last, now).Stop?
    ensures var log, m := Decide(table, dryRun, e, last, now).log, Match(table, e.info.alertName, e.info.burn5m);
            log.timestamp == e.info.createdAt && !log.reason.Message? &&
            log.result == (if log.reason == DryRunOnly then DryRun else Skipped) &&
            (log.reason == ChaosDrill <==> e.info.isChaos) &&
            (log.reason == NoRule <==>
               !e.info.isChaos && forall r :: r in table ==>
                 !((r.alertName == "" || r.alertName == e.info.alertName) &&
                   (e.info.burn5m == PosInf || (e.info.burn5m.Fin? && e.info.burn5m.v >= r.burnThreshold)))) &&
            (if log.reason in {ChaosDrill, NoRule} then log.action == None
             else
               m.Some? && m.value in table && log.action == Some(m.value.action) &&
               var key := e.info.id + ":" + m.value.id;
               var cools := key in last && now - last[key] < m.value.cooldownSec * 1_000_000_000;
               (log.reason == CoolingDown <==> cools) &&
               (log.reason != CoolingDown ==>
                  m.value.isDangerous &&
                  (log.reason == NoInference <==> e.llm == None) &&
                  (log.reason == DryRunOnly <==>
                     e.llm.Some? && e.llm.value.recommendRollback && e.llm.value.confidence >= 0.7)))
  {
    NoRowApplies(table, e.info.alertName, e.info.burn5m);
    hide Match;
  }

  function CallOf(rule: RepairRule): Call {
    match rule.action
    case FaultReset => ResetFault
    case ScaleUp => Scale(if rule.scaleTo > MAX_SCALE_REPLICAS then MAX_SCALE_REPLICAS else rule.scaleTo)
    case RolloutUndo => AbortRollout
  }

  function LogOf(rule: RepairRule, reply: Reply, at: int): Log {
    match reply
    case Done(msg) => Log(Some(rule.action), Executed, Message(msg), at)
    case Error(msg) => Log(Some(rule.action), Failed, Message(msg), at)
  }

  /** The cluster side of the actions; the reply is whatever the outside world answers. */
  class Executor {
    var calls: seq<Call>

    constructor ()
      ensures calls == []
    {
      calls := [];
    }

    method Perform(call: Call, reply: Reply) returns (r: Reply)
      modifies this
      ensures calls == old(calls) + [call] && r == reply
    {
      calls := calls + [call];
      r := reply;
    }
  }

  class Engine {
    const table: seq<RepairRule>
    const cooldown: Cooldown
    const executor: Executor
    const dryRun: bool

    constructor (table: seq<RepairRule>, cooldown: Cooldown, executor: Executor, dryRun: bool)
      ensures this.table == table && this.cooldown == cooldown && this.executor == executor && this.dryRun == dryRun
    {
      this.table, this.cooldown, this.executor, this.dryRun := table, cooldown, executor, dryRun;
    }

    /** The engine never touches the event; the cooldown moves exactly when an action is performed. */
    method Evaluate(event: Event, checkedAt: int, markedAt: int, reply: Reply) returns (log: Log)
      modifies cooldown, executor
      ensures match Decide(table, dryRun, event.View(), old(cooldown.last), checkedAt)
              case Stop(l) => log == l && cooldown.last == old(cooldown.last) && executor.calls == old(executor.calls)
              case Go(rule) =>
                log == LogOf(rule, reply, event.info.createdAt) &&
                cooldown.last == old(cooldown.last)[Key(event.info.id, rule.id) := markedAt] &&
                executor.calls == old(executor.calls) + [CallOf(rule)]
      ensures match Decide(table, dryRun, event.View(), old(cooldown.last), checkedAt)
              case Stop(_) => true
              case Go(rule) =>
                !event.info.isChaos &&
                (rule.isDangerous ==>
                   !dryRun && event.llm.Some? && event.llm.value.recommendRollback && event.llm.value.confidence >= 0.7)
    {
      var at := event.info.createdAt;
      if event.info.isChaos { return Log(None, Skipped, ChaosDrill, at); }
      var found := FindRule(table, event.info.alertName, event.info.burn5m);
      if found.None? { return Log(None, Skipped, NoRule, at); }
      var rule := found.value;
      var cooling := cooldown.InCooldown(event.info.id, rule, checkedAt);
      if cooling { return Log(Some(rule.action), Skipped, CoolingDown, at); }
      if rule.isDangerous {
        if event.llm.None? { return Log(Some(rule.action), Skipped, NoInference, at); }
        if !event.llm.value.recommendRollback || event.llm.value.confidence < 0.7 {
          return Log(Some(rule.action), Skipped, Unconfirmed, at);
        }
        if dryRun { return Log(Some(rule.action), DryRun, DryRunOnly, at); }
      }
      cooldown.Mark(event.info.id, rule, markedAt);
      var replicas := rule.scaleTo;
      if replicas > MAX_SCALE_REPLICAS { replicas := MAX_SCALE_REPLICAS; }
      var r;
      match rule.action {
        case FaultReset => r := executor.Perform(ResetFault, reply);
        case ScaleUp => r := executor.Perform(Scale(replicas), reply);
        case RolloutUndo => r := executor.Perform(AbortRollout, reply);
      }
      match r {
        case Error(msg) => log := Log(Some(rule.action), Failed, Message(msg), at);
        case Done(msg) => log := Log(Some(rule.action), Executed, Message(msg), at);
      }
    }
  }

  // ------------------------------------------------------------ the event handler

  /** What one goroutine makes of its event and its list when nobody interferes. */
  datatype Processed = Processed(event: EventData, list: seq<Log>, last: map<string, int>, calls: seq<Call>)

  predicate Resolved(e: EventData) { e.info.status == "resolved" }

  function Inferred(e: EventData, hasLlm: bool, answer: Option<Llm>): EventData {
    if hasLlm then e.(llm := answer) else e
  }

  /** The verdict carried out. */
  function Concluded(table: seq<RepairRule>, dryRun: bool, e: EventData, list: seq<Log>, last: map<string, int>,
                     calls: seq<Call>, checkedAt: int, markedAt: int, reply: Reply): Processed {
    match Decide(table, dryRun, e, last, checkedAt)
    case Stop(log) => Processed(e, list + [log], last, calls)
    case Go(rule) =>
      Processed(e, list + [LogOf(rule, reply, e.info.createdAt)], last[Key(e.info.id, rule.id) := markedAt],
                calls + [CallOf(rule)])
  }

  function ProcessedBy(table: seq<RepairRule>, dryRun: bool, hasLlm: bool, e: EventData, list: seq<Log>,
                       last: map<string, int>, calls: seq<Call>, answer: Option<Llm>, checkedAt: int, markedAt: int,
                       reply: Reply): Processed {
    if Resolved(e) then Processed(e, list, last, calls)
    else Concluded(table, dryRun, Inferred(e, hasLlm, answer), list, last, calls, checkedAt, markedAt, reply)
  }

  class Handler {
    const store: Store
    const engine: Engine
    const hasLlm: bool

    constructor (store: Store, engine: Engine, hasLlm: bool)
      ensures this.store == store && this.engine == engine && this.hasLlm == hasLlm
    {
      this.store, this.engine, this.hasLlm := store, engine, hasLlm;
    }

    /**
     One goroutine, undisturbed: of all event objects it writes only its own. Its entry goes into the backing array
     where that has room, and there it replaces what an event with a longer list of the same array shows.
     */
    method ProcessEvent(event: Event, answer: Option<Llm>, checkedAt: int, markedAt: int, reply: Reply, extra: nat)
      requires event.Valid()
      modifies event, if event.backing == null then {} else {event.backing}
      modifies store, engine.cooldown, engine.executor
      ensures event.Valid()
      ensures Processed(event.View(), event.List(), engine.cooldown.last, engine.executor.calls)
           == ProcessedBy(engine.table, engine.dryRun, hasLlm, old(event.View()), old(event.List()),
                          old(engine.cooldown.last), old(engine.executor.calls), answer, checkedAt, markedAt, reply)
      ensures event.info.status != "resolved" && hasLlm ==> event.llm == answer
      ensures event.info.status == "resolved" || !hasLlm ==> event.llm == old(event.llm)
      ensures store.events == if Resolved(old(event.View())) then old(store.events)
                              else old(store.events)[event.info.id := event]
      ensures !Resolved(old(event.View())) && old(event.Spare()) ==>
        event.backing == old(event.backing) &&
        event.backing[..] == old(event.backing[..])[old(event.len) := event.List()[old(event.len)]]
      ensures (Resolved(old(event.View())) || !old(event.Spare())) && old(event.backing) != null ==>
        old(event.backing)[..] == old(event.backing[..])
      ensures !Resolved(old(event.View())) && !old(event.Spare()) ==> fresh(event.backing)
    {
      hide Decide, LogOf, CallOf, Key;
      if event.info.status == "resolved" { return; }
      if hasLlm {
        event.llm := answer;
        store.Upsert(event);
      }
      var log := engine.Evaluate(event, checkedAt, markedAt, reply);
      event.Append(log, extra);
      store.Upsert(event);
    }
  }
}
