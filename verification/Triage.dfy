/** Alert triage: idempotent event identity, tiering, budget impact, and the shared event store. */
module Triage {
  import opened Samples
  import opened Strings

  datatype Alert = Alert(labels: map<string, string>, annotations: map<string, string>, startsAt: string)

  datatype Payload = Payload(status: string, groupKey: string, alerts: seq<Alert>)

  datatype Tier = P0 | P1 | P2 | P3

  datatype Llm = Llm(recommendRollback: bool, confidence: real)

  datatype ActionType = FaultReset | ScaleUp | RolloutUndo

  datatype Outcome = Executed | Skipped | Failed | DryRun

  datatype Reason = ChaosDrill | NoRule | CoolingDown | NoInference | Unconfirmed | DryRunOnly | Message(text: string)

  datatype Log = Log(action: Option<ActionType>, result: Outcome, reason: Reason, timestamp: int)

  /** The fields of an event that triage fixes once and for all. */
  datatype Info = Info(id: string, tier: Tier, status: string, alertName: string, slo: string, service: string,
                       severity: string, isChaos: bool, runbookURL: string, dashboardURL: string, summary: string,
                       burn5m: Float, burn1h: Float, budgetImpact: Option<Float>, createdAt: int,
                       resolvedAt: Option<int>)

  /** The fields of an event object at one moment, apart from its remediation list. */
  datatype EventData = EventData(info: Info, llm: Option<Llm>)

  /** The hex form of SHA-256, left uninterpreted: 64 characters. */
  type Digest = f: string -> string | forall s :: |f(s)| == 64
    ghost witness (s: string) => seq(64, i => '0')

  function EventId(digest: Digest, payload: Payload): (id: string)
    ensures |id| == 16
  {
    digest(IdSource(payload))[..16]
  }

  /** What the ID is a digest of. */
  function IdSource(payload: Payload): string {
    payload.groupKey + if |payload.alerts| > 0 then payload.alerts[0].startsAt else ""
  }

  /** The ID follows group key and first start time alone: status, labels and further alerts do not matter. */
  lemma IdFollowsSource(digest: Digest, p: Payload, q: Payload)
    requires p.groupKey == q.groupKey && (p.alerts == [] <==> q.alerts == [])
    requires p.alerts != [] ==> p.alerts[0].startsAt == q.alerts[0].startsAt
    ensures EventId(digest, p) == EventId(digest, q)
  {
    assert IdSource(p) == IdSource(q);
  }

  /** The start time that triage reads: the first alert's, if there is one. */
  function StartOf(p: Payload): string { if p.alerts == [] then "" else p.alerts[0].startsAt }

  /** A digest that tells one text from all others. */
  function Spotting(text: string): Digest { (s: string) => seq(64, i => if s == text then '1' else '0') }

  lemma SpottingTells(text: string, p: Payload)
    ensures EventId(Spotting(text), p)[0] == if p.groupKey + StartOf(p) == text then '1' else '0'
  {
    assert IdSource(p) == p.groupKey + StartOf(p);
  }

  /** Two deliveries share their ID under every digest exactly if group key and start time spell the same text. */
  lemma IdSeparates(p: Payload, q: Payload)
    ensures (forall digest: Digest :: EventId(digest, p) == EventId(digest, q)) <==>
            p.groupKey + StartOf(p) == q.groupKey + StartOf(q)
  {
    if p.groupKey + StartOf(p) == q.groupKey + StartOf(q) {
      SameSource(p, q);
    } else {
      SomeTells(p, q);
      hide EventId;
    }
  }

  predicate Tells(digest: Digest, p: Payload, q: Payload) { EventId(digest, p) != EventId(digest, q) }

  lemma SpottingSeparates(p: Payload, q: Payload)
    requires p.groupKey + StartOf(p) != q.groupKey + StartOf(q)
    ensures Tells(Spotting(p.groupKey + StartOf(p)), p, q)
  {
    hide EventId, Spotting, StartOf;
    SpottingTells(p.groupKey + StartOf(p), p);
    SpottingTells(p.groupKey + StartOf(p), q);
  }

  lemma SomeTells(p: Payload, q: Payload)
    requires p.groupKey + StartOf(p) != q.groupKey + StartOf(q)
    ensures exists digest: Digest :: EventId(digest, p) != EventId(digest, q)
  {
    hide EventId, Spotting, StartOf;
    SpottingSeparates(p, q);
    assert exists digest: Digest :: Tells(digest, p, q);
  }

  lemma SameSource(p: Payload, q: Payload)
    requires p.groupKey + StartOf(p) == q.groupKey + StartOf(q)
    ensures IdSource(p) == IdSource(q)
  {}

  /** Within a group the start time decides: a resolution keeps the ID, a recurrence does not. */
  lemma StartSeparates(p: Payload, q: Payload)
    requires p.groupKey == q.groupKey
    ensures (forall digest: Digest :: EventId(digest, p) == EventId(digest, q)) <==> StartOf(p) == StartOf(q)
  {
    hide EventId, StartOf;
    IdSeparates(p, q);
    if p.groupKey + StartOf(p) == q.groupKey + StartOf(q) { CancelPrefix(p.groupKey, StartOf(p), StartOf(q)); }
  }

  function Get(m: map<string, string>, k: string): string { if k in m then m[k] else "" }

  function Classify(severity: string, burn1h: Float, isChaos: bool): Tier {
    if isChaos then P3
    else if severity == "page" then P0
    else if severity == "ticket" && Above(burn1h, Fin(6.0)) then P1
    else if severity == "ticket" then P2
    else P3
  }

  function Urgency(t: Tier): nat {
    match t case P0 => 3 case P1 => 2 case P2 => 1 case P3 => 0
  }

  /** A drill is never urgent; otherwise a hotter hour is never less urgent, and heat alone matters for tickets only. */
  lemma HotterIsNoLessUrgent(severity: string, low: Float, high: Float, isChaos: bool)
    requires Reaches(high, low)
    ensures Urgency(Classify(severity, low, isChaos)) <= Urgency(Classify(severity, high, isChaos))
    ensures Classify(severity, low, isChaos) != Classify(severity, high, isChaos) <==>
            !isChaos && severity == "ticket" && !Above(low, Fin(6.0)) && Above(high, Fin(6.0))
    ensures Classify(severity, low, isChaos) == P0 <==> severity == "page" && !isChaos
    ensures Classify(severity, low, isChaos) == P3 <==> isChaos || (severity != "page" && severity != "ticket")
  {}

  /** Percent of the month's budget that one hour at this burn consumes; None stands for "no data". */
  function BudgetImpact(burn1h: Float): Option<Float> {
    if Reaches(Fin(0.0), burn1h) then None else Some(if burn1h.Fin? then Fin(burn1h.v / 720.0 * 100.0) else burn1h)
  }

  /** What a delivery makes of the event that was stored under its ID, if any. */
  function Triaged(digest: Digest, p: Payload, burn5m: Float, burn1h: Float, now: int,
                   existing: Option<EventData>): EventData
    requires p.alerts != []
  {
    var first := p.alerts[0];
    var isChaos := "chaos" in first.labels;
    EventData(
      Info(EventId(digest, p), Classify(Get(first.labels, "severity"), burn1h, isChaos), p.status,
           Get(first.labels, "alertname"), Get(first.labels, "slo"), Get(first.labels, "service"),
           Get(first.labels, "severity"), isChaos, Get(first.annotations, "runbook_url"),
           Get(first.annotations, "dashboard_url"), Get(first.annotations, "summary"), burn5m, burn1h,
           BudgetImpact(burn1h),
           if existing.Some? then existing.value.info.createdAt else now,
           if existing.Some? && p.status == "resolved" then Some(now) else None),
      if existing.Some? then existing.value.llm else None)
  }

  /** An event object. Its remediation list is a Go slice: a length over a backing array that other events may share. */
  class Event {
    const info: Info
    var llm: Option<Llm>
    var backing: array?<Log>
    var len: nat

    constructor (data: EventData, backing: array?<Log>, len: nat)
      ensures View() == data && this.backing == backing && this.len == len
    {
      info, llm, this.backing, this.len := data.info, data.llm, backing, len;
    }

    function View(): EventData
      reads this
    {
      EventData(info, llm)
    }

    predicate Valid()
      reads this
    {
      if backing == null then len == 0 else len <= backing.Length
    }

    function List(): seq<Log>
      reads this, backing
      requires Valid()
    {
      if backing == null then [] else backing[..len]
    }

    predicate Spare()
      reads this
    {
      backing != null && len < backing.Length
    }

    /**
     append: with spare capacity the entry goes into the shared array behind this list's own length, whatever is
     there; without, into a new array, whose size beyond the need is the runtime's choice.
     */
    method Append(log: Log, extra: nat)
      requires Valid()
      modifies this`backing, this`len, if backing == null then {} else {backing}
      ensures Valid() && len == old(len) + 1 && List() == old(List()) + [log]
      ensures old(Spare()) ==> backing == old(backing) && backing[..] == old(backing[..])[old(len) := log]
      ensures !old(Spare()) ==> fresh(backing) && backing.Length == old(len) + 1 + extra
      ensures !old(Spare()) && old(backing) != null ==> old(backing)[..] == old(backing[..])
    {
      if backing != null && len < backing.Length {
        backing[len] := log;
      } else {
        var cells, size := List(), len + 1 + extra;
        backing := new Log[size](i requires 0 <= i < size => if i < |cells| then cells[i] else log);
      }
      len := len + 1;
    }
  }

  class Store {
    var events: map<string, Event>

    constructor ()
      ensures events == map[]
    {
      events := map[];
    }

    method Lookup(id: string) returns (event: Event?)
      ensures id in events ==> event == events[id]
      ensures id !in events ==> event == null
    {
      event := if id in events then events[id] else null;
    }

    method Upsert(event: Event)
      modifies this
      ensures events == old(events)[event.info.id := event]
    {
      events := events[event.info.id := event];
    }
  }

  /**
   One delivery. Only the store changes: every older event object keeps its fields, the new one is fresh, and it
   shares the backing array of the event it replaces.
   */
  method Triage(digest: Digest, payload: Payload, burn5m: Float, burn1h: Float, store: Store, now: int)
    returns (event: Event?)
    modifies store
    ensures payload.alerts == [] ==> event == null && store.events == old(store.events)
    ensures payload.alerts != [] ==>
      var id := EventId(digest, payload);
      event != null && fresh(event) && store.events == old(store.events)[id := event] &&
      (id in old(store.events) ==>
         var existing := old(store.events[id]);
         event.View() == Triaged(digest, payload, burn5m, burn1h, now, Some(old(existing.View()))) &&
         event.backing == old(existing.backing) && event.len == old(existing.len)) &&
      (id !in old(store.events) ==>
         event.View() == Triaged(digest, payload, burn5m, burn1h, now, None) && event.backing == null && event.len == 0)
  {
    if |payload.alerts| == 0 { return null; }
    var id := EventId(digest, payload);
    var existing := store.Lookup(id);
    if existing == null {
      event := new Event(Triaged(digest, payload, burn5m, burn1h, now, None), null, 0);
    } else {
      event := new Event(Triaged(digest, payload, burn5m, burn1h, now, Some(existing.View())), existing.backing,
                         existing.len);
    }
    store.Upsert(event);
  }
}
