/** The SLO controller: one spec, two sinks (PrometheusRule and ConfigMap), and a status that only accumulates. */
module Reconciler {
  import opened Strings
  import opened PromQL
  import opened SloApi
  import opened RuleGenerator

  // -------------------------------------------------- the rule file as a YAML tree

  datatype Yaml = Null | Str(s: string) | List(items: seq<Yaml>) | Obj(fields: map<string, Yaml>)

  datatype Group = Group(name: string, interval: string, rules: seq<Rule>)

  function StrMap(m: map<string, string>): Yaml { Obj(map k | k in m :: Str(m[k])) }

  function Put(m: map<string, Yaml>, present: bool, k: string, v: Yaml): map<string, Yaml> {
    if present then m[k := v] else m
  }

  /** One rule: optional keys are present exactly when their field is set. */
  function RuleNode(r: Rule): Yaml {
    var m0: map<string, Yaml> := map["expr" := Str(r.expr)];
    var m1 := Put(m0, r.record != "", "record", Str(r.record));
    var m2 := Put(m1, r.alert != "", "alert", Str(r.alert));
    var m3 := Put(m2, r.forDur.Some?, "for", Str(if r.forDur.Some? then r.forDur.value else ""));
    var m4 := Put(m3, |r.labels| > 0, "labels", StrMap(r.labels));
    Obj(Put(m4, |r.annotations| > 0, "annotations", StrMap(r.annotations)))
  }

  function RuleNodes(rules: seq<Rule>): seq<Yaml> { seq(|rules|, i requires 0 <= i < |rules| => RuleNode(rules[i])) }

  /** A nil slice marshals as null. */
  function RulesNode(rules: seq<Rule>): Yaml { if rules == [] then Null else List(RuleNodes(rules)) }

  function GroupNode(g: Group): Yaml {
    Obj(map["name" := Str(g.name), "interval" := Str(g.interval), "rules" := RulesNode(g.rules)])
  }

  function DocNode(a: Group, b: Group): Yaml { Obj(map["groups" := List([GroupNode(a), GroupNode(b)])]) }

  /** One rule map, filled key by key. */
  method RuleMap(r: Rule) returns (node: Yaml)
    ensures node == RuleNode(r)
  {
    hide StrMap;
    var m: map<string, Yaml> := map["expr" := Str(r.expr)];
    if r.record != "" { m := m["record" := Str(r.record)]; }
    if r.alert != "" { m := m["alert" := Str(r.alert)]; }
    if r.forDur.Some? { m := m["for" := Str(r.forDur.value)]; }
    if |r.labels| > 0 { m := m["labels" := StrMap(r.labels)]; }
    if |r.annotations| > 0 { m := m["annotations" := StrMap(r.annotations)]; }
    node := Obj(m);
  }

  method RuleList(rules: seq<Rule>) returns (out: seq<Yaml>)
    ensures out == RuleNodes(rules)
  {
    hide RuleNode;
    out := [];
    for i := 0 to |rules|
      invariant out == RuleNodes(rules[..i])
    {
      var node := RuleMap(rules[i]);
      out := out + [node];
    }
    assert rules[..|rules|] == rules;
  }

  // ---------------------------------------------------------------- reading it back

  function TextField(m: map<string, Yaml>, k: string): string { if k in m && m[k].Str? then m[k].s else "" }

  function MapField(m: map<string, Yaml>, k: string): map<string, string> {
    if k in m && m[k].Obj? then (map key | key in m[k].fields && m[k].fields[key].Str? :: m[k].fields[key].s) else map[]
  }

  /** How Prometheus reads a rule: absent keys are empty. */
  function ReadRule(y: Yaml): Rule {
    if y.Obj? then
      var m := y.fields;
      Rule(TextField(m, "record"), TextField(m, "alert"), TextField(m, "expr"),
           if "for" in m then Some(TextField(m, "for")) else None, MapField(m, "labels"), MapField(m, "annotations"))
    else Rule("", "", "", None, map[], map[])
  }

  function ReadRules(ys: seq<Yaml>): seq<Rule> { seq(|ys|, i requires 0 <= i < |ys| => ReadRule(ys[i])) }

  function ReadGroup(y: Yaml): Group {
    if y.Obj? then
      Group(TextField(y.fields, "name"), TextField(y.fields, "interval"),
            if "rules" in y.fields && y.fields["rules"].List? then ReadRules(y.fields["rules"].items) else [])
    else Group("", "", [])
  }

  function ReadDoc(y: Yaml): seq<Group> {
    if y.Obj? && "groups" in y.fields && y.fields["groups"].List? then
      var gs := y.fields["groups"].items;
      seq(|gs|, i requires 0 <= i < |gs| => ReadGroup(gs[i]))
    else []
  }

  lemma EmptyIsEmpty(m: map<string, string>)
    ensures |m| == 0 ==> m == map[]
  {}

  predicate Holds(m: map<string, Yaml>, present: bool, k: string, v: Yaml) {
    (k in m <==> present) && (present ==> m[k] == v)
  }

  lemma FivePuts(e: string, x: Yaml, k1: string, p1: bool, v1: Yaml, k2: string, p2: bool, v2: Yaml,
                 k3: string, p3: bool, v3: Yaml, k4: string, p4: bool, v4: Yaml, k5: string, p5: bool, v5: Yaml)
    requires e !in {k1, k2, k3, k4, k5} && k1 !in {k2, k3, k4, k5} && k2 !in {k3, k4, k5} && k3 !in {k4, k5} && k4 != k5
    ensures var m := Put(Put(Put(Put(Put(map[e := x], p1, k1, v1), p2, k2, v2), p3, k3, v3), p4, k4, v4), p5, k5, v5);
            e in m && m[e] == x && Holds(m, p1, k1, v1) && Holds(m, p2, k2, v2) && Holds(m, p3, k3, v3) &&
            Holds(m, p4, k4, v4) && Holds(m, p5, k5, v5)
  {}

  lemma KeysDiffer()
    ensures "expr" !in {"record", "alert", "for", "labels", "annotations"}
    ensures "record" !in {"alert", "for", "labels", "annotations"}
    ensures "alert" !in {"for", "labels", "annotations"} && "for" !in {"labels", "annotations"} &&
            "labels" != "annotations"
  {
    assert |"expr"| == 4 && |"record"| == 6 && |"alert"| == 5 && |"for"| == 3 && |"labels"| == 6 &&
           |"annotations"| == 11;
    assert "record"[0] != "labels"[0];
  }

  lemma NodeKeys(r: Rule)
    ensures var m := RuleNode(r).fields;
            RuleNode(r).Obj? && "expr" in m && m["expr"] == Str(r.expr) &&
            Holds(m, r.record != "", "record", Str(r.record)) && Holds(m, r.alert != "", "alert", Str(r.alert)) &&
            Holds(m, r.forDur.Some?, "for", Str(if r.forDur.Some? then r.forDur.value else "")) &&
            Holds(m, |r.labels| > 0, "labels", StrMap(r.labels)) &&
            Holds(m, |r.annotations| > 0, "annotations", StrMap(r.annotations))
  {
    KeysDiffer();
    hide StrMap, Put, Holds;
    FivePuts("expr", Str(r.expr), "record", r.record != "", Str(r.record), "alert", r.alert != "", Str(r.alert),
             "for", r.forDur.Some?, Str(if r.forDur.Some? then r.forDur.value else ""),
             "labels", |r.labels| > 0, StrMap(r.labels), "annotations", |r.annotations| > 0, StrMap(r.annotations));
  }

  /** Every rule survives the rule file, field by field. */
  lemma RuleRoundTrip(r: Rule)
    ensures ReadRule(RuleNode(r)) == r
  {
    hide RuleNode, StrMap, MapField;
    NodeKeys(r);
    EmptyIsEmpty(r.labels);
    EmptyIsEmpty(r.annotations);
    var m := RuleNode(r).fields;
    ReadLabels(m, r.labels, "labels");
    ReadLabels(m, r.annotations, "annotations");
  }

  lemma ReadLabels(m: map<string, Yaml>, labels: map<string, string>, k: string)
    requires Holds(m, |labels| > 0, k, StrMap(labels))
    ensures MapField(m, k) == labels
  {
    EmptyIsEmpty(labels);
  }

  lemma RulesRoundTrip(rules: seq<Rule>)
    ensures ReadRules(RuleNodes(rules)) == rules
  {
    forall i | 0 <= i < |rules| ensures ReadRule(RuleNode(rules[i])) == rules[i] { RuleRoundTrip(rules[i]); }
  }

  lemma GroupRoundTrip(g: Group)
    ensures ReadGroup(GroupNode(g)) == g
  {
    RulesRoundTrip(g.rules);
    assert |"name"| == 4 && |"interval"| == 8 && |"rules"| == 5;
  }

  /** The rule file decodes to the groups it was written from. */
  lemma DocRoundTrip(a: Group, b: Group)
    ensures ReadDoc(DocNode(a, b)) == [a, b]
  {
    GroupRoundTrip(a);
    GroupRoundTrip(b);
  }

  // ------------------------------------------------------------------ the sinks

  function Groups(format: Format, spec: SLOSpec): seq<Group> {
    [Group(spec.service + ".sli.recording", "30s", RecordingRules(format, spec.service, spec.slos)),
     Group(spec.service + ".slo.alerts", "30s", AlertRules(format, spec, spec.slos))]
  }

  datatype PrometheusRule = PrometheusRule(labels: map<string, string>, groups: seq<Group>)

  datatype ConfigMap = ConfigMap(labels: map<string, string>, data: map<string, Yaml>)

  datatype Condition = Condition(kind: string, holds: bool, reason: string)

  datatype Status = Status(prometheusRuleName: string, configMapName: string, generatedRules: seq<string>,
                           conditions: seq<Condition>, lastReconcileAt: Option<int>)

  /** A name within a namespace. */
  datatype Ref = Ref(namespace: string, name: string)

  /** What fails in a pass: setting the owner, reading or writing either sink, patching the status. */
  datatype Faults = Faults(owner: bool, prGet: bool, prWrite: bool, cmGet: bool, cmWrite: bool, status: bool)

  /** One reconcile of the resource `ref` as it is now; None when it is gone. */
  datatype Pass = Pass(ref: Ref, spec: Option<SLOSpec>, faults: Faults, at: int)

  datatype Cluster = Cluster(prs: map<Ref, PrometheusRule>, configMap: Option<ConfigMap>, statuses: map<Ref, Status>)

  predicate PrOk(f: Faults) { !f.owner && !f.prGet && !f.prWrite }

  predicate CmOk(f: Faults) { !f.cmGet && !f.cmWrite }

  function PrRef(p: Pass): Ref
    requires p.spec.Some?
  {
    Ref(p.ref.namespace, p.spec.value.service + "-slo")
  }

  function SetCondition(cs: seq<Condition>, c: Condition): seq<Condition> {
    if cs == [] then [c]
    else if cs[0].kind == c.kind then [c] + cs[1..]
    else [cs[0]] + SetCondition(cs[1..], c)
  }

  function PassConditions(cs: seq<Condition>, f: Faults): seq<Condition> {
    var cs1 := SetCondition(cs, if PrOk(f) then Condition("RulesGenerated", true, "Reconciled")
                                else Condition("PrometheusRuleSyncFailed", true, "CRDMissing"));
    if CmOk(f) then cs1 else SetCondition(cs1, Condition("ConfigMapSyncFailed", true, "ConfigMapError"))
  }

  const NO_STATUS := Status("", "", [], [], None)

  function StatusOf(c: Cluster, ref: Ref): Status { if ref in c.statuses then c.statuses[ref] else NO_STATUS }

  function Rendered(format: Format, spec: SLOSpec): ConfigMap {
    var gs := Groups(format, spec);
    ConfigMap(spec.labels, map["slo.yml" := DocNode(gs[0], gs[1])])
  }

  /** One pass, as a function of the cluster: each sink is replaced whole or left alone. */
  function Reconciled(format: Format, c: Cluster, p: Pass): Cluster {
    match p.spec
    case None => c
    case Some(spec) =>
      var names := RecordNames(RecordingRules(format, spec.service, spec.slos)) +
        AlertNames(AlertRules(format, spec, spec.slos));
      Cluster(if PrOk(p.faults) then c.prs[PrRef(p) := PrometheusRule(spec.labels, Groups(format, spec))] else c.prs,
              if CmOk(p.faults) then Some(Rendered(format, spec)) else c.configMap,
              if p.faults.status then c.statuses
              else c.statuses[p.ref := Status(spec.service + "-slo", "observability/prometheus-rules", names,
                                              PassConditions(StatusOf(c, p.ref).conditions, p.faults), Some(p.at))])
  }

  class Controller {
    const format: Format
    var prs: map<Ref, PrometheusRule>
    var configMap: Option<ConfigMap>
    var statuses: map<Ref, Status>

    constructor (format: Format)
      ensures this.format == format && View() == Cluster(map[], None, map[])
    {
      this.format, prs, configMap, statuses := format, map[], None, map[];
    }

    function View(): Cluster
      reads this
    {
      Cluster(prs, configMap, statuses)
    }

    method UpsertPrometheusRule(ref: Ref, spec: SLOSpec, rec: seq<Rule>, alert: seq<Rule>, f: Faults) returns (ok: bool)
      modifies this`prs
      ensures ok == PrOk(f)
      ensures prs == if ok then old(prs)[ref := PrometheusRule(spec.labels,
                       [Group(spec.service + ".sli.recording", "30s", rec),
                        Group(spec.service + ".slo.alerts", "30s", alert)])]
                     else old(prs)
    {
      var pr := PrometheusRule(spec.labels, [Group(spec.service + ".sli.recording", "30s", rec),
                                             Group(spec.service + ".slo.alerts", "30s", alert)]);
      if f.owner || f.prGet { return false; }
      if f.prWrite { return false; }
      if ref !in prs {
        prs := prs[ref := pr];
      } else {
        var existing := prs[ref];
        existing := existing.(groups := pr.groups);
        existing := existing.(labels := pr.labels);
        prs := prs[ref := existing];
      }
      ok := true;
    }

    method BuildRulesYaml(spec: SLOSpec, rec: seq<Rule>, alert: seq<Rule>) returns (doc: Yaml)
      ensures doc == DocNode(Group(spec.service + ".sli.recording", "30s", rec),
                             Group(spec.service + ".slo.alerts", "30s", alert))
    {
      var recNodes := RuleList(rec);
      var alertNodes := RuleList(alert);
      var first := Obj(map["name" := Str(spec.service + ".sli.recording"), "interval" := Str("30s"),
                           "rules" := if |recNodes| == 0 then Null else List(recNodes)]);
      var second := Obj(map["name" := Str(spec.service + ".slo.alerts"), "interval" := Str("30s"),
                            "rules" := if |alertNodes| == 0 then Null else List(alertNodes)]);
      doc := Obj(map["groups" := List([first, second])]);
    }

    method UpsertConfigMap(spec: SLOSpec, rec: seq<Rule>, alert: seq<Rule>, f: Faults) returns (ok: bool)
      modifies this`configMap
      ensures ok == CmOk(f)
      ensures configMap == if ok then Some(ConfigMap(spec.labels, map["slo.yml" := DocNode(
                             Group(spec.service + ".sli.recording", "30s", rec),
                             Group(spec.service + ".slo.alerts", "30s", alert))]))
                           else old(configMap)
    {
      var doc := BuildRulesYaml(spec, rec, alert);
      var cm := ConfigMap(spec.labels, map["slo.yml" := doc]);
      if f.cmGet { return false; }
      if f.cmWrite { return false; }
      if configMap.None? {
        configMap := Some(cm);
      } else {
        var existing := configMap.value;
        existing := existing.(data := cm.data);
        existing := existing.(labels := cm.labels);
        configMap := Some(existing);
      }
      ok := true;
    }

    /** A pass never fails as a whole: failures of either sink only become conditions. */
    method Reconcile(p: Pass)
      modifies this
      ensures View() == Reconciled(format, old(View()), p)
    {
      hide RecordingRules, AlertRules, RecordNames, AlertNames, DocNode, SetCondition;
      if p.spec.None? { return; }
      var spec := p.spec.value;
      var recRules := BuildRecordingRules(format, spec);
      var alertRules := BuildAlertRules(format, spec);
      var prOk := UpsertPrometheusRule(Ref(p.ref.namespace, spec.service + "-slo"), spec, recRules, alertRules,
                                       p.faults);
      var cmOk := UpsertConfigMap(spec, recRules, alertRules, p.faults);
      var status := if p.ref in statuses then statuses[p.ref] else NO_STATUS;
      var names := CollectRuleNames(recRules, alertRules);
      var conditions := status.conditions;
      if !prOk {
        conditions := SetCondition(conditions, Condition("PrometheusRuleSyncFailed", true, "CRDMissing"));
      } else {
        conditions := SetCondition(conditions, Condition("RulesGenerated", true, "Reconciled"));
      }
      if !cmOk {
        conditions := SetCondition(conditions, Condition("ConfigMapSyncFailed", true, "ConfigMapError"));
      }
      if !p.faults.status {
        status := Status(spec.service + "-slo", "observability/prometheus-rules", names, conditions, Some(p.at));
        statuses := statuses[p.ref := status];
      }
    }
  }

  // --------------------------------------------------------------------- runs

  function Run(format: Format, c: Cluster, passes: seq<Pass>): Cluster {
    if passes == [] then c
    else Reconciled(format, Run(format, c, passes[..|passes| - 1]), passes[|passes| - 1])
  }

  predicate WritesCm(p: Pass) { p.spec.Some? && CmOk(p.faults) }

  predicate WritesPr(p: Pass, ref: Ref) { p.spec.Some? && PrOk(p.faults) && PrRef(p) == ref }

  /** What Prometheus loads: the decoded rule file of the shared ConfigMap. */
  function Loaded(c: Cluster): seq<Group> {
    if c.configMap.Some? && "slo.yml" in c.configMap.value.data then ReadDoc(c.configMap.value.data["slo.yml"]) else []
  }

  lemma RenderedLoads(format: Format, spec: SLOSpec, c: Cluster)
    requires c.configMap == Some(Rendered(format, spec))
    ensures Loaded(c) == Groups(format, spec)
  {
    hide RecordingRules, AlertRules, DocNode, ReadDoc;
    var gs := Groups(format, spec);
    DocRoundTrip(gs[0], gs[1]);
  }

  /** The ConfigMap carries exactly the rules of the last resource whose ConfigMap write succeeded. */
  lemma {:induction false} ConfigMapIsLastWrite(format: Format, c: Cluster, passes: seq<Pass>, i: nat)
    requires i < |passes| && WritesCm(passes[i])
    requires forall j :: i < j < |passes| ==> !WritesCm(passes[j])
    ensures Run(format, c, passes).configMap == Some(Rendered(format, passes[i].spec.value))
    ensures Loaded(Run(format, c, passes)) == Groups(format, passes[i].spec.value)
    ensures var gs, spec := Loaded(Run(format, c, passes)), passes[i].spec.value;
            |gs| == 2 && gs[0].interval == "30s" && gs[1].interval == "30s" &&
            gs[0].name == spec.service + ".sli.recording" && gs[1].name == spec.service + ".slo.alerts" &&
            gs[0].rules == RecordingRules(format, spec.service, spec.slos) &&
            gs[1].rules == AlertRules(format, spec, spec.slos)
  {
    GroupsAre(format, passes[i].spec.value);
    hide Rendered, Loaded, Groups, RecordNames, AlertNames, PassConditions;
    if i < |passes| - 1 { ConfigMapIsLastWrite(format, c, passes[..|passes| - 1], i); }
    RenderedLoads(format, passes[i].spec.value, Run(format, c, passes));
  }

  /** Without a successful write the ConfigMap is what it was. */
  lemma {:induction false} ConfigMapUntouched(format: Format, c: Cluster, passes: seq<Pass>)
    requires forall p :: p in passes ==> !WritesCm(p)
    ensures Run(format, c, passes).configMap == c.configMap
  {
    hide Rendered, Groups, RecordNames, AlertNames, PassConditions;
    if passes != [] {
      assert passes[|passes| - 1] in passes && forall p :: p in passes[..|passes| - 1] ==> p in passes;
      ConfigMapUntouched(format, c, passes[..|passes| - 1]);
    }
  }

  /** Each PrometheusRule carries the rules of the last resource that wrote it. */
  lemma {:induction false} PrometheusRuleIsLastWrite(format: Format, c: Cluster, passes: seq<Pass>, ref: Ref, i: nat)
    requires i < |passes| && WritesPr(passes[i], ref)
    requires forall j :: i < j < |passes| ==> !WritesPr(passes[j], ref)
    ensures var prs := Run(format, c, passes).prs;
            ref in prs && prs[ref] == PrometheusRule(passes[i].spec.value.labels, Groups(format, passes[i].spec.value))
  {
    hide Rendered, Groups, RecordNames, AlertNames, PassConditions;
    if i < |passes| - 1 { PrometheusRuleIsLastWrite(format, c, passes[..|passes| - 1], ref, i); }
  }

  /**
   After any run the two sinks of a resource agree exactly when the last ConfigMap writer generated the same groups.
   */
  lemma SinksAgree(format: Format, c: Cluster, passes: seq<Pass>, ref: Ref, i: nat, k: nat)
    requires i < |passes| && WritesPr(passes[i], ref) && forall j :: i < j < |passes| ==> !WritesPr(passes[j], ref)
    requires k < |passes| && WritesCm(passes[k]) && forall j :: k < j < |passes| ==> !WritesCm(passes[j])
    ensures var end := Run(format, c, passes);
            ref in end.prs &&
            (Loaded(end) == end.prs[ref].groups <==>
             Groups(format, passes[k].spec.value) == Groups(format, passes[i].spec.value))
  {
    PrometheusRuleIsLastWrite(format, c, passes, ref, i);
    ConfigMapIsLastWrite(format, c, passes, k);
  }

  /**
   A pass that wrote both sinks leaves the same groups in both, and repeating it, however it fails, changes neither.
   */
  lemma RepeatChangesNothing(format: Format, c: Cluster, p: Pass, again: Pass)
    requires p.spec.Some? && PrOk(p.faults) && CmOk(p.faults)
    requires again.ref == p.ref && again.spec == p.spec
    ensures var once := Reconciled(format, c, p);
            var twice := Reconciled(format, once, again);
            PrRef(p) in once.prs && Loaded(once) == once.prs[PrRef(p)].groups &&
            twice.prs == once.prs && twice.configMap == once.configMap
  {
    hide Rendered, Loaded, Groups, RecordNames, AlertNames, PassConditions;
    RenderedLoads(format, p.spec.value, Reconciled(format, c, p));
  }

  /** Which write a pass makes: nothing when the resource is gone, and each sink unless one of its own calls fails. */
  lemma PassWrites(format: Format, c: Cluster, p: Pass, ref: Ref)
    ensures var d := Reconciled(format, c, p);
            (p.spec == None ==> d == c) &&
            (p.spec.Some? ==>
               var spec := p.spec.value;
               var own := Ref(p.ref.namespace, spec.service + "-slo");
               (if p.faults.owner || p.faults.prGet || p.faults.prWrite then d.prs == c.prs
                else
                  ref in d.prs <==> ref in c.prs || ref == own) &&
               (ref in c.prs && ref != own ==> d.prs[ref] == c.prs[ref]) &&
               (if p.faults.cmGet || p.faults.cmWrite then d.configMap == c.configMap
                else d.configMap.Some? && d.configMap.value.labels == spec.labels &&
                     d.configMap.value.data.Keys == {"slo.yml"}))
  {
    hide DocNode, RecordingRules, AlertRules, RecordNames, AlertNames, SetCondition;
  }

  /** The groups that a resource loads: both are evaluated every half minute, recordings first. */
  lemma GroupsAre(format: Format, spec: SLOSpec)
    ensures var gs := Groups(format, spec);
            |gs| == 2 && gs[0].interval == "30s" && gs[1].interval == "30s" &&
            gs[0].name == spec.service + ".sli.recording" && gs[1].name == spec.service + ".slo.alerts" &&
            gs[0].rules == RecordingRules(format, spec.service, spec.slos) &&
            gs[1].rules == AlertRules(format, spec, spec.slos)
  {}

  predicate SavesStatus(p: Pass, ref: Ref) { p.ref == ref && p.spec.Some? && !p.faults.status }

  /**
   A resource's status tells where its rules are, which they are, and when, as of its last pass that could save it.
   */
  lemma {:induction false} StatusIsLastSaved(format: Format, c: Cluster, passes: seq<Pass>, ref: Ref, i: nat)
    requires i < |passes| && SavesStatus(passes[i], ref)
    requires forall j :: i < j < |passes| ==> !SavesStatus(passes[j], ref)
    ensures var st, spec := StatusOf(Run(format, c, passes), ref), passes[i].spec.value;
            st.prometheusRuleName == spec.service + "-slo" && st.configMapName == "observability/prometheus-rules" &&
            st.lastReconcileAt == Some(passes[i].at) &&
            st.generatedRules == RecordNames(RecordingRules(format, spec.service, spec.slos)) +
                                 AlertNames(AlertRules(format, spec, spec.slos))
  {
    hide Rendered, Groups, RecordNames, AlertNames, PassConditions, RecordingRules, AlertRules;
    if i < |passes| - 1 { StatusIsLastSaved(format, c, passes[..|passes| - 1], ref, i); }
  }

  // --------------------------------------------------------------- conditions

  predicate HasKind(cs: seq<Condition>, kind: string) { exists c :: c in cs && c.kind == kind }

  predicate UniqueTrue(cs: seq<Condition>) {
    (forall i, j :: 0 <= i < j < |cs| ==> cs[i].kind != cs[j].kind) && forall c :: c in cs ==> c.holds
  }

  lemma {:induction false} SetKeeps(cs: seq<Condition>, c: Condition, kind: string)
    requires c.holds
    ensures HasKind(SetCondition(cs, c), kind) <==> HasKind(cs, kind) || kind == c.kind
    ensures forall d :: d in cs && d.kind != c.kind ==> d in SetCondition(cs, c)
    ensures c in SetCondition(cs, c)
    ensures forall d :: d in SetCondition(cs, c) ==> d == c || d in cs
    ensures UniqueTrue(cs) ==> UniqueTrue(SetCondition(cs, c))
  {
    if cs == [] {
      assert c in [c];
    } else if cs[0].kind == c.kind {
      assert forall d :: d in cs <==> d == cs[0] || d in cs[1..];
    } else {
      SetKeeps(cs[1..], c, kind);
      assert forall d :: d in cs <==> d == cs[0] || d in cs[1..];
      assert UniqueTrue(cs) ==> UniqueTrue(cs[1..]);
      var out := SetCondition(cs, c);
      assert out[1..] == SetCondition(cs[1..], c);
      forall j | UniqueTrue(cs) && 0 < j < |out| ensures out[0].kind != out[j].kind {
        assert out[j] in out[1..];
      }
    }
  }

  /** Condition types stay unique and true, and no condition once set is ever cleared, not even by success. */
  lemma {:induction false} ConditionsAccumulate(format: Format, c: Cluster, passes: seq<Pass>, ref: Ref, kind: string)
    requires UniqueTrue(StatusOf(c, ref).conditions)
    ensures UniqueTrue(StatusOf(Run(format, c, passes), ref).conditions)
    ensures HasKind(StatusOf(c, ref).conditions, kind) ==>
            HasKind(StatusOf(Run(format, c, passes), ref).conditions, kind)
  {
    if passes != [] {
      hide Rendered, Groups, RecordNames, AlertNames, UniqueTrue, HasKind, SetCondition;
      var n := |passes| - 1;
      var before := StatusOf(Run(format, c, passes[..n]), ref).conditions;
      ConditionsAccumulate(format, c, passes[..n], ref, kind);
      PassKeeps(before, passes[n].faults, kind);
    }
  }

  lemma PassKeeps(cs: seq<Condition>, f: Faults, kind: string)
    ensures UniqueTrue(cs) ==> UniqueTrue(PassConditions(cs, f))
    ensures HasKind(PassConditions(cs, f), kind) <==>
            HasKind(cs, kind) || (kind == "RulesGenerated" && PrOk(f)) ||
            (kind == "PrometheusRuleSyncFailed" && !PrOk(f)) ||
            (kind == "ConfigMapSyncFailed" && !CmOk(f))
  {
    hide UniqueTrue, HasKind, SetCondition;
    var first := if PrOk(f) then Condition("RulesGenerated", true, "Reconciled")
                 else Condition("PrometheusRuleSyncFailed", true, "CRDMissing");
    SetKeeps(cs, first, kind);
    SetKeeps(SetCondition(cs, first), Condition("ConfigMapSyncFailed", true, "ConfigMapError"), kind);
  }

  /** The pass saves a status that carries this kind of condition for the resource. */
  predicate Leaves(p: Pass, ref: Ref, kind: string) {
    p.ref == ref && p.spec.Some? && !p.faults.status &&
    ((kind == "RulesGenerated" && PrOk(p.faults)) || (kind == "PrometheusRuleSyncFailed" && !PrOk(p.faults)) ||
     (kind == "ConfigMapSyncFailed" && !CmOk(p.faults)))
  }

  lemma OnePassLeaves(format: Format, c: Cluster, p: Pass, ref: Ref, kind: string)
    ensures HasKind(StatusOf(Reconciled(format, c, p), ref).conditions, kind) <==>
            HasKind(StatusOf(c, ref).conditions, kind) || Leaves(p, ref, kind)
  {
    hide Rendered, Groups, RecordNames, AlertNames, HasKind, SetCondition, PassConditions, PrOk, CmOk;
    PassKeeps(StatusOf(c, ref).conditions, p.faults, kind);
  }

  /** A condition's reason follows from its type. */
  predicate Reasoned(cs: seq<Condition>) {
    forall c :: c in cs ==>
      c.reason == (if c.kind == "RulesGenerated" then "Reconciled"
                   else if c.kind == "PrometheusRuleSyncFailed" then "CRDMissing" else "ConfigMapError")
  }

  lemma {:induction false} ReasonsFollow(format: Format, passes: seq<Pass>, ref: Ref)
    ensures Reasoned(StatusOf(Run(format, Cluster(map[], None, map[]), passes), ref).conditions)
  {
    if passes != [] {
      hide Rendered, Groups, RecordNames, AlertNames, SetCondition, Reasoned, PrOk, CmOk;
      var n := |passes| - 1;
      ReasonsFollow(format, passes[..n], ref);
      PassReasons(StatusOf(Run(format, Cluster(map[], None, map[]), passes[..n]), ref).conditions, passes[n].faults);
    } else {
      assert Reasoned([]);
    }
  }

  lemma PassReasons(cs: seq<Condition>, f: Faults)
    requires Reasoned(cs)
    ensures Reasoned(PassConditions(cs, f))
  {
    hide SetCondition;
    var first := if PrOk(f) then Condition("RulesGenerated", true, "Reconciled")
                 else Condition("PrometheusRuleSyncFailed", true, "CRDMissing");
    SetKeeps(cs, first, "");
    SetKeeps(SetCondition(cs, first), Condition("ConfigMapSyncFailed", true, "ConfigMapError"), "");
  }

  /** Exactly which condition types a resource has accumulated: one for each kind of outcome whose status was saved. */
  lemma {:induction false} ConditionsExactly(format: Format, passes: seq<Pass>, ref: Ref, kind: string)
    ensures HasKind(StatusOf(Run(format, Cluster(map[], None, map[]), passes), ref).conditions, kind) <==>
            exists p :: p in passes && Leaves(p, ref, kind)
  {
    hide Reconciled, Leaves;
    var c := Cluster(map[], None, map[]);
    if passes != [] {
      hide HasKind, StatusOf;
      var n := |passes| - 1;
      ConditionsExactly(format, passes[..n], ref, kind);
      OnePassLeaves(format, Run(format, c, passes[..n]), passes[n], ref, kind);
      assert forall p :: p in passes <==> p in passes[..n] || p == passes[n];
    }
  }
}
