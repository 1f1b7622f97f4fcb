/**
 The compiler's output in the fields of the resource: which rules there are, what they are called, what they carry,
 and the numbers they compare with. Defaults are spelled out.
 */
module RuleFields {
  import opened Samples
  import opened Strings
  import opened PromQL
  import opened SloApi
  import opened RuleGenerator
  import opened RuleNames
  import opened RuleMeaning
  import opened RuleLimits

  // ------------------------------------------------------------ what is recorded

  /** The series an item records over a window, by their names. */
  predicate Spelled(svc: string, item: SLOItem, w: string, n: string) {
    (item.events.Some? &&
     (n == svc + ":request_rate" + w || n == svc + ":error_rate" + w || n == svc + ":error_ratio" + w ||
      n == svc + ":burn_rate" + w)) ||
    (item.raw.Some? &&
     (n == svc + ":error_ratio_" + Sanitize(item.name) + w || n == svc + ":burn_rate_" + Sanitize(item.name) + w))
  }

  /** A raw query over a histogram quantile gets the P99 series besides. */
  predicate HasQuantile(item: SLOItem) {
    item.raw.Some? && Contains(item.raw.value.errorRatioQuery, "histogram_quantile")
  }

  lemma SpelledIsSeries(svc: string, item: SLOItem, w: string, n: string)
    ensures Spelled(svc, item, w, n) <==> exists s :: s in SeriesOf(item) && n == SeriesName(svc, item, s, w)
  {
    Names(svc, item, w);
    hide SeriesName, Sanitize;
    var ss := SeriesOf(item);
    assert item.events.Some? ==> ss[0] == RequestRate && ss[1] == ErrorRate && ss[2] == ErrorRatio && ss[3] == BurnRate;
    assert item.raw.Some? ==> ss[|ss| - 2] == RawRatio && ss[|ss| - 1] == RawBurn;
  }

  const FIVE_WINDOWS: set<string> := {"5m", "30m", "1h", "6h", "1d"}

  lemma FiveWindows(w: string)
    ensures Windowed(w) <==> w in FIVE_WINDOWS
  {}

  /** Exactly which names the recording group records: five windows of each item's series, and the P99 series. */
  lemma RecordsSpelled(format: Format, svc: string, items: seq<SLOItem>, n: string)
    ensures n in Records(RecordingRules(format, svc, items)) <==>
            exists item :: item in items &&
              ((HasQuantile(item) && n == svc + ":latency_p99_5m") ||
               exists w :: w in FIVE_WINDOWS && Spelled(svc, item, w, n))
  {
    hide Spelled, SeriesName, RecordingRules;
    RecordsAreGenerated(format, svc, items, n);
    forall item | item in items
      ensures Recorded(svc, item, n) <==>
              (HasQuantile(item) && n == svc + ":latency_p99_5m") ||
              exists w :: w in FIVE_WINDOWS && Spelled(svc, item, w, n)
    {
      RecordedSpelled(svc, item, n);
    }
  }

  lemma RecordedSpelled(svc: string, item: SLOItem, n: string)
    ensures Recorded(svc, item, n) <==>
            (HasQuantile(item) && n == svc + ":latency_p99_5m") ||
            exists w :: w in FIVE_WINDOWS && Spelled(svc, item, w, n)
  {
    hide Spelled, SeriesName, SeriesOf;
    forall w ensures Spelled(svc, item, w, n) <==> exists s :: s in SeriesOf(item) && n == SeriesName(svc, item, s, w) {
      SpelledIsSeries(svc, item, w, n);
    }
    forall w ensures Windowed(w) <==> w in FIVE_WINDOWS { FiveWindows(w); }
  }

  // ------------------------------------------------------------ which alerts there are

  predicate Active(t: Option<AlertTier>) { t.Some? && !t.value.disable }

  /** The item generates an alert of this name: one per tier that is given and not disabled, one for the budget. */
  predicate Raises(item: SLOItem, n: string) {
    (Active(item.alerting.page) && n == item.alerting.name + "Page") ||
    (Active(item.alerting.ticket) && n == item.alerting.name + "Ticket") ||
    (item.events.Some? && n == "OrdersvcErrorBudgetExhausting")
  }

  function AlertFor(format: Format, spec: SLOSpec, item: SLOItem, tier: Tier): Rule
    requires if tier == Budget then item.events.Some? else Enabled(item, tier)
  {
    if tier == Budget then BudgetRule(format, spec, item) else TierRule(format, spec, item, tier)
  }

  lemma NameOfAlert(format: Format, spec: SLOSpec, item: SLOItem, tier: Tier)
    requires if tier == Budget then item.events.Some? else Enabled(item, tier)
    ensures AlertFor(format, spec, item, tier).alert ==
              match tier
              case Page => item.alerting.name + "Page"
              case Ticket => item.alerting.name + "Ticket"
              case Budget => "OrdersvcErrorBudgetExhausting"
  {
    hide BurnText, MergedLabels, Annotations, Print;
  }

  lemma Generates(format: Format, spec: SLOSpec, item: SLOItem, tier: Tier)
    requires item in spec.slos && if tier == Budget then item.events.Some? else Enabled(item, tier)
    ensures AlertFor(format, spec, item, tier) in AlertRules(format, spec, spec.slos)
  {
    hide TierRule, BudgetRule, AlertRules;
    AlertMembers(format, spec, spec.slos, AlertFor(format, spec, item, tier));
    assert AlertOf(format, spec, item, tier, AlertFor(format, spec, item, tier));
  }

  /** Exactly which alert names the group holds. */
  lemma AlertsNamed(format: Format, spec: SLOSpec, n: string)
    ensures (exists r :: r in AlertRules(format, spec, spec.slos) && r.alert == n) <==>
            exists item :: item in spec.slos && Raises(item, n)
  {
    hide AlertRules, TierRule, BudgetRule;
    if r :| r in AlertRules(format, spec, spec.slos) && r.alert == n {
      AlertMembers(format, spec, spec.slos, r);
      var item, tier :| item in spec.slos && AlertOf(format, spec, item, tier, r);
      NameOfAlert(format, spec, item, tier);
      assert Raises(item, n);
    }
    if item :| item in spec.slos && Raises(item, n) {
      var tier := if Active(item.alerting.page) && n == item.alerting.name + "Page" then Page
                  else if Active(item.alerting.ticket) && n == item.alerting.name + "Ticket" then Ticket
                  else Budget;
      NameOfAlert(format, spec, item, tier);
      Generates(format, spec, item, tier);
    }
  }

  // ------------------------------------------------------------- what an alert says

  /** The item's settings for a tier, in its own fields. */
  predicate Set(item: SLOItem, tier: Tier, t: AlertTier) {
    !t.disable &&
    match tier
    case Page => item.alerting.page == Some(t)
    case Ticket => item.alerting.ticket == Some(t)
    case Budget => false
  }

  /**
   Given thresholds and windows count as given; without them a page means 14.4 over 5m and 1h, a ticket 6 over 30m and
   6h.
   */
  predicate Means(tier: Tier, t: AlertTier, thr: real, ws: seq<string>) {
    (match t.burnThreshold
     case Some(x) => thr == x
     case None => thr == if tier == Page then 14.4 else 6.0) &&
    ws == (if |t.windows| > 0 then t.windows else if tier == Page then ["5m", "1h"] else ["30m", "6h"])
  }

  /**
   A Page or Ticket rule fires iff the burn exceeds the item's own threshold, or the tier's default, in each window.
   */
  lemma ThresholdMeant(format: Format, world: World, spec: SLOSpec, item: SLOItem, tier: Tier, t: AlertTier, thr: real,
                       ws: seq<string>)
    requires Compilable(format, world, spec.service, spec.slos) && item in spec.slos
    requires (item.events.Some? || item.raw.Some?) && Set(item, tier, t) && Means(tier, t, thr, ws)
    requires Exact(format, world, thr) && forall w :: w in ws ==> w in FIVE_WINDOWS
    ensures exists r :: r in AlertRules(format, spec, spec.slos) && AlertOf(format, spec, item, tier, r)
    ensures forall r :: AlertOf(format, spec, item, tier, r) ==>
              (Fires(r, Recordings(format, world, spec.service, spec.slos), world) <==>
               forall w :: w in ws ==> Above(SpecBurn(item, w, world), Fin(thr)))
  {
    hide Recordings, SpecBurn, Fires, TierRule, Compilable, AlertRules, Exact, Above;
    assert Enabled(item, tier) && TierSpec(item, tier) == Some(t);
    assert ChosenThreshold(t, tier) == thr && ChosenWindows(t, tier) == ws;
    forall w | w in ws ensures Windowed(w) { FiveWindows(w); }
    Generates(format, spec, item, tier);
    TierMeaning(format, world, spec, item, tier);
  }

  function WithThreshold(item: SLOItem, tier: Tier, x: real): SLOItem
    requires tier != Budget
  {
    var t := AlertTier(false, map[], Some(x), [], "");
    if tier == Page then item.(alerting := item.alerting.(page := Some(t)))
    else item.(alerting := item.alerting.(ticket := Some(t)))
  }

  /** A burn at the given level in every series of the database. */
  function Burning(world: World, burn: real): World { World(n => Fin(burn), world.query, world.number) }

  lemma FiresAt(format: Format, world: World, spec: SLOSpec, item: SLOItem, tier: Tier, x: real, burn: real)
    requires tier != Budget && LegalItem(spec.service, item) && (item.events.Some? || item.raw.Some?)
    requires Exact(format, world, x)
    ensures Enabled(WithThreshold(item, tier, x), tier)
    ensures Fires(TierRule(format, spec, WithThreshold(item, tier, x), tier), map[], Burning(world, burn)) <==> burn > x
  {
    hide SeriesName, Print, Fires, TierRule;
    var it := WithThreshold(item, tier, x);
    var ws := ChosenWindows(TierSpec(it, tier).value, tier);
    forall w | w in ws ensures NameChars(w) { WindowFacts(w); }
    assert ws[0] in ws;
    AlertReads(format, Burning(world, burn), spec, it, tier, map[]);
  }

  /** Two items that differ in a threshold alone fire apart over some database. */
  lemma ThresholdsApart(format: Format, world: World, spec: SLOSpec, item: SLOItem, tier: Tier, x: real, y: real)
    requires tier != Budget && LegalItem(spec.service, item) && (item.events.Some? || item.raw.Some?)
    requires Exact(format, world, x) && Exact(format, world, y)
    ensures Enabled(WithThreshold(item, tier, x), tier) && Enabled(WithThreshold(item, tier, y), tier)
    ensures x != y <==>
            exists burn ::
              (Fires(TierRule(format, spec, WithThreshold(item, tier, x), tier), map[], Burning(world, burn)) <==>
               !Fires(TierRule(format, spec, WithThreshold(item, tier, y), tier), map[], Burning(world, burn)))
  {
    hide Fires, TierRule, LegalItem, Exact;
    var between := (x + y) / 2.0;
    FiresAt(format, world, spec, item, tier, x, between);
    FiresAt(format, world, spec, item, tier, y, between);
  }

  /** How long the condition must hold: as given, else two minutes for a page and fifteen for a ticket. */
  lemma HoldsFor(format: Format, spec: SLOSpec, item: SLOItem, tier: Tier, t: AlertTier, r: Rule)
    requires Set(item, tier, t) && AlertOf(format, spec, item, tier, r)
    ensures r.forDur == Some(if t.forDur != "" then t.forDur else if tier == Page then "2m" else "15m")
    ensures r.record == "" && r.alert == item.alerting.name + if tier == Page then "Page" else "Ticket"
  {
    hide BurnText, MergedLabels, Annotations, Print;
  }

  /** Where a label of an alert comes from: origin first, then the tier, the item and the resource. */
  lemma LabelSources(format: Format, spec: SLOSpec, item: SLOItem, tier: Tier, t: AlertTier, r: Rule, k: string)
    requires Set(item, tier, t) && AlertOf(format, spec, item, tier, r)
    ensures k in r.labels <==>
            k == "service" || k == "slo" || k in t.labels || k in item.alerting.labels || k in spec.labels
    ensures k in r.labels ==>
            r.labels[k] ==
              if k == "service" then spec.service
              else if k == "slo" then item.name
              else if k in t.labels then t.labels[k]
              else if k in item.alerting.labels then item.alerting.labels[k]
              else spec.labels[k]
  {
    hide BurnText, Annotations, Print;
    FourSources(spec.labels, item.alerting.labels, t.labels, map["service" := spec.service, "slo" := item.name]);
  }

  lemma FourSources(a: map<string, string>, b: map<string, string>, c: map<string, string>, d: map<string, string>)
    ensures MergedLabels([a, b, c, d]) == a + b + c + d
  {
    var all := [a, b, c, d];
    assert all[..3] == [a, b, c] && all[..3][..2] == [a, b] && all[..3][..2][..1] == [a];
    assert MergedLabels([a]) == MergedLabels([a][..0]) + a;
    assert MergedLabels([a, b]) == MergedLabels([a]) + b;
    assert MergedLabels([a, b, c]) == MergedLabels([a, b]) + c;
  }

  /** The budget alert is a ticket that holds for half an hour, whatever the labels of the resource say. */
  lemma BudgetFields(format: Format, spec: SLOSpec, item: SLOItem, r: Rule, k: string)
    requires AlertOf(format, spec, item, Budget, r)
    ensures r.alert == "OrdersvcErrorBudgetExhausting" && r.record == "" && r.forDur == Some("30m")
    ensures k in r.labels <==>
            k == "service" || k == "slo" || k == "severity" || k in item.alerting.labels || k in spec.labels
    ensures k in r.labels ==>
            r.labels[k] ==
              if k == "service" then spec.service
              else if k == "slo" then item.name
              else if k == "severity" then "ticket"
              else if k in item.alerting.labels then item.alerting.labels[k]
              else spec.labels[k]
  {
    hide Annotations, Print;
    FourSources(spec.labels, item.alerting.labels, map["severity" := "ticket"],
                map["service" := spec.service, "slo" := item.name]);
  }

  /** What triage reads of an alert's annotations: where to look, and a summary that names the tier's concern. */
  lemma AnnotationFields(format: Format, spec: SLOSpec, item: SLOItem, tier: Tier, r: Rule)
    requires AlertOf(format, spec, item, tier, r)
    ensures r.annotations.Keys == {"runbook_url", "dashboard_url", "summary"}
    ensures r.annotations["runbook_url"] ==
              "https://raw.githubusercontent.com/gyt-golang/sre-platform-ksce/main/docs/runbook/" +
              "ordersvc-high-error-rate.md"
    ensures r.annotations["dashboard_url"] == "http://10.0.0.182:30300/d/ordersvc-sre-slo/ordersvc-sre-slo"
    ensures tier == Page ==> r.annotations["summary"] == spec.service + " 可用性急剧恶化，错误预算高速燃烧"
    ensures tier == Ticket ==>
            r.annotations["summary"] == spec.service + " " + item.name + " SLO 异常，错误预算燃烧"
    ensures tier == Budget ==>
            r.annotations["summary"] == spec.service + " 错误预算 1d 燃烧率 >1，按当前速率将耗尽月预算"
  {
    hide BurnText, MergedLabels, Print;
  }

  // ------------------------------------------------------------- the status list

  lemma {:induction false} RecordNamesInOrder(rules: seq<Rule>)
    requires forall r :: r in rules ==> r.record != ""
    ensures |RecordNames(rules)| == |rules|
    ensures forall i :: 0 <= i < |rules| ==> RecordNames(rules)[i] == rules[i].record
  {
    if rules != [] { RecordNamesInOrder(rules[..|rules| - 1]); }
  }

  lemma {:induction false} AlertNamesInOrder(rules: seq<Rule>)
    requires forall r :: r in rules ==> r.alert != ""
    ensures |AlertNames(rules)| == |rules|
    ensures forall i :: 0 <= i < |rules| ==> AlertNames(rules)[i] == rules[i].alert
  {
    if rules != [] { AlertNamesInOrder(rules[..|rules| - 1]); }
  }

  lemma GeneratedNamed(format: Format, spec: SLOSpec)
    ensures forall r :: r in RecordingRules(format, spec.service, spec.slos) ==> r.record != ""
    ensures forall r :: r in AlertRules(format, spec, spec.slos) ==> r.alert != ""
  {
    hide RecordingRules, AlertRules, TierRule, BudgetRule, Spelled;
    forall r | r in RecordingRules(format, spec.service, spec.slos) ensures r.record != "" {
      assert r.record in Records(RecordingRules(format, spec.service, spec.slos));
      RecordsSpelled(format, spec.service, spec.slos, r.record);
      if r.record == "" { SomeName(format, spec); }
    }
    forall r | r in AlertRules(format, spec, spec.slos) ensures r.alert != "" {
      AlertMembers(format, spec, spec.slos, r);
      var item, tier :| item in spec.slos && AlertOf(format, spec, item, tier, r);
      NameOfAlert(format, spec, item, tier);
    }
  }

  lemma SomeName(format: Format, spec: SLOSpec)
    ensures !exists item, w :: Spelled(spec.service, item, w, "")
  {
    hide Sanitize;
  }

  /** The status lists the names of all generated rules, one each, recordings first, in the order of the groups. */
  lemma StatusNames(format: Format, spec: SLOSpec, i: nat)
    ensures var rec, alert := RecordingRules(format, spec.service, spec.slos), AlertRules(format, spec, spec.slos);
            var names := RecordNames(rec) + AlertNames(alert);
            |names| == |rec| + |alert| &&
            (i < |rec| ==> names[i] == rec[i].record) && (i < |alert| ==> names[|rec| + i] == alert[i].alert)
  {
    hide RecordingRules, AlertRules;
    GeneratedNamed(format, spec);
    RecordNamesInOrder(RecordingRules(format, spec.service, spec.slos));
    AlertNamesInOrder(AlertRules(format, spec, spec.slos));
  }

  // --------------------------------------------------------- the shipped resource

  /** The shipped ticket alert fires iff the burn exceeds 6 over half an hour and over six hours. */
  lemma ShippedTicketMeaning(format: Format, world: World, r: Rule)
    requires Exact(format, world, AllowedErrorRatio(AVAILABILITY)) && Exact(format, world, 6.0)
    requires AlertOf(format, SHIPPED, AVAILABILITY, Ticket, r)
    ensures Fires(r, Recordings(format, world, "ordersvc", SHIPPED.slos), world) <==>
            Above(SpecBurn(AVAILABILITY, "30m", world), Fin(6.0)) &&
            Above(SpecBurn(AVAILABILITY, "6h", world), Fin(6.0))
  {
    hide Fires, TierRule, Recordings, SpecBurn, Compilable, Above, Exact;
    ShippedCompiles(format, world);
    var t, ws := AVAILABILITY.alerting.ticket.value, ["30m", "6h"];
    assert AVAILABILITY in SHIPPED.slos && Means(Ticket, t, 6.0, ws) && "30m" in ws && "6h" in ws;
    ThresholdMeant(format, world, SHIPPED, AVAILABILITY, Ticket, t, 6.0, ws);
  }

  /** The shipped latency alert has its own threshold: it fires iff the burn over five minutes exceeds 0.01. */
  lemma ShippedLatencyMeaning(format: Format, world: World, r: Rule)
    requires Exact(format, world, AllowedErrorRatio(AVAILABILITY)) && Exact(format, world, 0.01)
    requires AlertOf(format, SHIPPED, LATENCY, Ticket, r)
    ensures Fires(r, Recordings(format, world, "ordersvc", SHIPPED.slos), world) <==>
            Above(SpecBurn(LATENCY, "5m", world), Fin(0.01))
  {
    hide Fires, TierRule, Recordings, SpecBurn, Compilable, Above, Exact;
    ShippedCompiles(format, world);
    var t, ws := LATENCY.alerting.ticket.value, ["5m"];
    assert LATENCY in SHIPPED.slos && Means(Ticket, t, 0.01, ws) && "5m" in ws;
    ThresholdMeant(format, world, SHIPPED, LATENCY, Ticket, t, 0.01, ws);
  }

  /** The shipped resource raises these four alerts. */
  lemma ShippedAlerts(format: Format, n: string)
    ensures (exists r :: r in AlertRules(format, SHIPPED, SHIPPED.slos) && r.alert == n) <==>
            n in {"OrdersvcHighErrorRatePage", "OrdersvcHighErrorRateTicket", "OrdersvcErrorBudgetExhausting",
                  "OrdersvcHighLatencyTicket"}
  {
    hide AlertRules, Raises;
    AlertsNamed(format, SHIPPED, n);
    ShippedRaises(n);
    assert SHIPPED.slos[0] == AVAILABILITY && SHIPPED.slos[1] == LATENCY;
    assert forall item :: item in SHIPPED.slos ==> item == AVAILABILITY || item == LATENCY;
  }

  lemma ShippedRaises(n: string)
    ensures Raises(AVAILABILITY, n) <==>
            n in {"OrdersvcHighErrorRatePage", "OrdersvcHighErrorRateTicket", "OrdersvcErrorBudgetExhausting"}
    ensures Raises(LATENCY, n) <==> n == "OrdersvcHighLatencyTicket"
  {
    assert "OrdersvcHighErrorRate" + "Page" == "OrdersvcHighErrorRatePage";
    assert "OrdersvcHighErrorRate" + "Ticket" == "OrdersvcHighErrorRateTicket";
    assert "OrdersvcHighLatency" + "Ticket" == "OrdersvcHighLatencyTicket";
  }

  /** The shipped latency query uses no quantile, so no P99 series is recorded for it. */
  lemma ShippedRecordsNoQuantile(format: Format)
    ensures "ordersvc:latency_p99_5m" !in Records(RecordingRules(format, "ordersvc", SHIPPED.slos))
  {
    var n := "ordersvc:latency_p99_5m";
    assert n == "ordersvc" + ":latency_p99_5m";
    hide Contains, Sanitize, RecordingRules, HasQuantile, Spelled;
    NoQuantile();
    RecordsSpelled(format, "ordersvc", SHIPPED.slos, n);
    assert forall item :: item in SHIPPED.slos ==> item == AVAILABILITY || item == LATENCY;
    forall item, w | item in SHIPPED.slos && w in FIVE_WINDOWS ensures !Spelled("ordersvc", item, w, n) {
      NotSpelledLatency("ordersvc", item, w);
    }
  }

  lemma NoQuantile()
    ensures !HasQuantile(AVAILABILITY) && !HasQuantile(LATENCY)
  {
    hide Contains;
    LatencyLacksG();
    if Contains(LATENCY.raw.value.errorRatioQuery, "histogram_quantile") {
      assert "histogram_quantile"[5] == 'g';
      ContainsChars(LATENCY.raw.value.errorRatioQuery, "histogram_quantile", 'g');
    }
  }

  lemma NotSpelledLatency(svc: string, item: SLOItem, w: string)
    ensures !Spelled(svc, item, w, svc + ":latency_p99_5m")
  {
    hide SeriesName, Spelled;
    SpelledIsSeries(svc, item, w, svc + ":latency_p99_5m");
    forall s ensures SeriesName(svc, item, s, w) != svc + ":latency_p99_5m" { LatencyApart(svc, item, s, w); }
  }

  lemma LatencyLacksG()
    ensures 'g' !in LATENCY.raw.value.errorRatioQuery
  {
    assert 'g' !in "sum(rate(" && 'g' !in "ordersvc_http_request" && 'g' !in "_duration_seconds_" && 'g' !in RATE_END;
    assert 'g' !in DURATION;
    assert 'g' !in "bucket{path=\"/order\",le=\"0.5\"" && 'g' !in "count{path=\"/order\"";
    assert 'g' !in "1 - (\n  " && 'g' !in "  / " && 'g' !in ")\n";
    var a, b := "bucket{path=\"/order\",le=\"0.5\"", "count{path=\"/order\"";
    JoinedLacks("1 - (\n  ", DURATION, a, RATE_END, "  / ", 'g');
    JoinedLacks("1 - (\n  " + DURATION + a + RATE_END + "  / ", DURATION, b, RATE_END, ")\n", 'g');
  }

  /** Each reaches triage with the severity of its tier, and with the item's name although its labels say another. */
  lemma ShippedLabels(format: Format, item: SLOItem, tier: Tier, r: Rule)
    requires item in SHIPPED.slos && AlertOf(format, SHIPPED, item, tier, r)
    ensures "severity" in r.labels && r.labels["severity"] == if tier == Page then "page" else "ticket"
    ensures "slo" in r.labels && r.labels["slo"] == item.name
    ensures "service" in r.labels && r.labels["service"] == "ordersvc"
  {
    hide TierRule, BudgetRule;
    forall k | k in {"severity", "slo", "service"} ensures k in r.labels && r.labels[k] == ShippedLabel(item, tier, k) {
      if tier == Budget {
        BudgetFields(format, SHIPPED, item, r, k);
      } else {
        LabelSources(format, SHIPPED, item, tier, TierSpec(item, tier).value, r, k);
      }
    }
  }

  function ShippedLabel(item: SLOItem, tier: Tier, k: string): string {
    if k == "slo" then item.name else if k == "service" then "ordersvc" else if tier == Page then "page" else "ticket"
  }
}
