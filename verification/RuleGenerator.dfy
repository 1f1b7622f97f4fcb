/** The SLO compiler: recording rules, burn-rate alerts, label merging and the rule-name list. */
module RuleGenerator {
  import opened Strings
  import opened PromQL
  import opened SloApi

  const RECORDING_WINDOWS: seq<string> := ["5m", "30m", "1h", "6h", "1d"]
  const DEFAULT_PAGE_THRESHOLD := 14.4
  const DEFAULT_TICKET_THRESHOLD := 6.0
  const BUDGET_THRESHOLD := 1.0
  const ALERT_NAME_BUDGET := "OrdersvcErrorBudgetExhausting"

  /** strconv.FormatFloat(x, 'g', -1, 64), which is not spelled out here. */
  type Format = real -> string

  // -------------------------------------------------------- recording rules

  datatype Series = RequestRate | ErrorRate | ErrorRatio | BurnRate | RawRatio | RawBurn

  predicate IsRaw(s: Series) { s == RawRatio || s == RawBurn }

  function Family(s: Series): string {
    match s
    case RequestRate => ":request_rate"
    case ErrorRate => ":error_rate"
    case ErrorRatio => ":error_ratio"
    case BurnRate => ":burn_rate"
    case RawRatio => ":error_ratio_"
    case RawBurn => ":burn_rate_"
  }

  function SanitizeChar(c: char): char { if c == '.' || c == '-' || c == ' ' then '_' else c }

  function Sanitize(s: string): string { seq(|s|, i requires 0 <= i < |s| => SanitizeChar(s[i])) }

  function SeriesName(svc: string, item: SLOItem, s: Series, w: string): string {
    svc + Family(s) + ((if IsRaw(s) then Sanitize(item.name) else "") + w)
  }

  /** Which series the item records in each window. */
  function SeriesOf(item: SLOItem): seq<Series> {
    (if item.events.Some? then [RequestRate, ErrorRate, ErrorRatio, BurnRate] else []) +
    (if item.raw.Some? then [RawRatio, RawBurn] else [])
  }

  function AllowedErrorRatio(item: SLOItem): real { 1.0 - item.objective / 100.0 }

  /** The tree each derived series is meant to compute. */
  function DerivedExpr(format: Format, svc: string, item: SLOItem, s: Series, w: string): Expr
    requires s in {ErrorRatio, BurnRate, RawBurn}
  {
    match s
    case ErrorRatio => Bin(DivOp, Name(SeriesName(svc, item, ErrorRate, w)),
                           Name(SeriesName(svc, item, RequestRate, w)))
    case BurnRate => Bin(DivOp, Name(SeriesName(svc, item, ErrorRatio, w)), Num(format(AllowedErrorRatio(item))))
    case RawBurn => Bin(DivOp, Name(SeriesName(svc, item, RawRatio, w)), Num(format(AllowedErrorRatio(item))))
  }

  function SeriesText(format: Format, svc: string, item: SLOItem, s: Series, w: string): string
    requires s in SeriesOf(item)
  {
    match s
    case RequestRate => RenderQuery(item.events.value.totalQuery, w)
    case ErrorRate => RenderQuery(item.events.value.errorQuery, w)
    case RawRatio => RenderQuery(item.raw.value.errorRatioQuery, w)
    case _ => Print(DerivedExpr(format, svc, item, s, w))
  }

  function SeriesRule(format: Format, svc: string, item: SLOItem, s: Series, w: string): Rule
    requires s in SeriesOf(item)
  {
    Recording(SeriesName(svc, item, s, w), SeriesText(format, svc, item, s, w))
  }

  function WindowRules(format: Format, svc: string, item: SLOItem, w: string): seq<Rule> {
    var ss := SeriesOf(item);
    seq(|ss|, k requires 0 <= k < |ss| => SeriesRule(format, svc, item, ss[k], w))
  }

  function ItemWindows(format: Format, svc: string, item: SLOItem, ws: seq<string>): seq<Rule> {
    if ws == [] then []
    else ItemWindows(format, svc, item, ws[..|ws| - 1]) + WindowRules(format, svc, item, ws[|ws| - 1])
  }

  const LATENCY_QUERY :=
    "histogram_quantile" + "(" +
      ("0.99,\n  sum by (path, le) (rate(" + ("ordersvc_http_request_duration" + "_seconds_bucket[5m])))"))

  predicate IsLatency(item: SLOItem) {
    item.raw.Some? && Contains(item.raw.value.errorRatioQuery, "histogram_quantile")
  }

  function LatencyRule(svc: string): Rule { Recording(svc + ":latency_p99_5m", LATENCY_QUERY) }

  function ItemRules(format: Format, svc: string, item: SLOItem): seq<Rule> {
    ItemWindows(format, svc, item, RECORDING_WINDOWS) + (if IsLatency(item) then [LatencyRule(svc)] else [])
  }

  function RecordingRules(format: Format, svc: string, items: seq<SLOItem>): seq<Rule> {
    if items == [] then []
    else RecordingRules(format, svc, items[..|items| - 1]) + ItemRules(format, svc, items[|items| - 1])
  }

  lemma Texts(format: Format, svc: string, item: SLOItem, w: string)
    ensures svc + ":error_rate" + w + " / " + svc + ":request_rate" + w ==
            Print(DerivedExpr(format, svc, item, ErrorRatio, w))
    ensures svc + ":error_ratio" + w + " / " + format(AllowedErrorRatio(item))
         == Print(DerivedExpr(format, svc, item, BurnRate, w))
    ensures svc + ":error_ratio_" + Sanitize(item.name) + w + " / " + format(AllowedErrorRatio(item))
         == Print(DerivedExpr(format, svc, item, RawBurn, w))
    ensures svc + ":request_rate" + w == SeriesName(svc, item, RequestRate, w)
    ensures svc + ":error_rate" + w == SeriesName(svc, item, ErrorRate, w)
    ensures svc + ":error_ratio" + w == SeriesName(svc, item, ErrorRatio, w)
    ensures svc + ":burn_rate" + w == SeriesName(svc, item, BurnRate, w)
    ensures svc + ":error_ratio_" + Sanitize(item.name) + w == SeriesName(svc, item, RawRatio, w)
    ensures svc + ":burn_rate_" + Sanitize(item.name) + w == SeriesName(svc, item, RawBurn, w)
  {
    Names(svc, item, w);
    PrintDiv(svc + ":error_rate" + w, svc, ":request_rate", w);
    PrintDiv(svc + ":error_ratio" + w, "", "", format(AllowedErrorRatio(item)));
    PrintDiv(svc + ":error_ratio_" + Sanitize(item.name) + w, "", "", format(AllowedErrorRatio(item)));
  }

  lemma Names(svc: string, item: SLOItem, w: string)
    ensures svc + ":request_rate" + w == SeriesName(svc, item, RequestRate, w)
    ensures svc + ":error_rate" + w == SeriesName(svc, item, ErrorRate, w)
    ensures svc + ":error_ratio" + w == SeriesName(svc, item, ErrorRatio, w)
    ensures svc + ":burn_rate" + w == SeriesName(svc, item, BurnRate, w)
    ensures svc + ":error_ratio_" + Sanitize(item.name) + w == SeriesName(svc, item, RawRatio, w)
    ensures svc + ":burn_rate_" + Sanitize(item.name) + w == SeriesName(svc, item, RawBurn, w)
  {
    assert "" + w == w;
    Assoc(svc + ":error_ratio_", Sanitize(item.name), w);
    Assoc(svc + ":burn_rate_", Sanitize(item.name), w);
  }

  lemma Assoc(a: string, b: string, c: string)
    ensures (a + b) + c == a + (b + c)
  {}

  lemma PrintDiv(a: string, b: string, c: string, d: string)
    ensures a + " / " + b + c + d == a + " " + "/" + " " + (b + c + d)
    ensures b == "" && c == "" ==> a + " / " + d == a + " " + "/" + " " + d
  {
    assert " / " == " " + "/" + " ";
  }

  /** One turn of the window loop: the event rules, then the raw rules, in the generator's order and format. */
  method AppendWindow(format: Format, svc: string, item: SLOItem, allowed: string, w: string, rules: seq<Rule>)
    returns (out: seq<Rule>)
    requires allowed == format(AllowedErrorRatio(item))
    ensures out == rules + WindowRules(format, svc, item, w)
  {
    hide Print, RenderQuery, Sanitize, AllowedErrorRatio;
    out := rules;
    Texts(format, svc, item, w);
    ghost var ss := SeriesOf(item);
    if item.events.Some? {
      var errQ := RenderQuery(item.events.value.errorQuery, w);
      var totalQ := RenderQuery(item.events.value.totalQuery, w);
      assert ss[0] == RequestRate && ss[1] == ErrorRate && ss[2] == ErrorRatio && ss[3] == BurnRate;
      out := out + [Recording(svc + ":request_rate" + w, totalQ)];
      out := out + [Recording(svc + ":error_rate" + w, errQ)];
      out := out + [Recording(svc + ":error_ratio" + w, svc + ":error_rate" + w + " / " + svc + ":request_rate" + w)];
      out := out + [Recording(svc + ":burn_rate" + w, svc + ":error_ratio" + w + " / " + allowed)];
    }
    if item.raw.Some? {
      var rq := RenderQuery(item.raw.value.errorRatioQuery, w);
      assert ss[|ss| - 2] == RawRatio && ss[|ss| - 1] == RawBurn;
      out := out + [Recording(svc + ":error_ratio_" + Sanitize(item.name) + w, rq)];
      out := out + [Recording(svc + ":burn_rate_" + Sanitize(item.name) + w,
                              svc + ":error_ratio_" + Sanitize(item.name) + w + " / " + allowed)];
    }
  }

  /** Four rules per window for event SLIs, two for raw ones, and the latency quantile. */
  method BuildRecordingRules(format: Format, spec: SLOSpec) returns (rules: seq<Rule>)
    ensures rules == RecordingRules(format, spec.service, spec.slos)
  {
    hide WindowRules, SeriesText, AllowedErrorRatio;
    rules := [];
    var svc := spec.service;
    for i := 0 to |spec.slos|
      invariant rules == RecordingRules(format, svc, spec.slos[..i])
    {
      var item := spec.slos[i];
      var allowed := format(AllowedErrorRatio(item));
      ghost var before := rules;
      for k := 0 to |RECORDING_WINDOWS|
        invariant rules == before + ItemWindows(format, svc, item, RECORDING_WINDOWS[..k])
      {
        rules := AppendWindow(format, svc, item, allowed, RECORDING_WINDOWS[k], rules);
        assert RECORDING_WINDOWS[..k + 1][..k] == RECORDING_WINDOWS[..k];
      }
      assert RECORDING_WINDOWS[..|RECORDING_WINDOWS|] == RECORDING_WINDOWS;
      if item.raw.Some? && Contains(item.raw.value.errorRatioQuery, "histogram_quantile") {
        rules := rules + [LatencyRule(svc)];
      }
      assert spec.slos[..i + 1][..i] == spec.slos[..i];
      assert rules == before + ItemRules(format, svc, item);
    }
    assert spec.slos[..|spec.slos|] == spec.slos;
  }

  // ------------------------------------------------------------ alert rules

  function BurnSeries(item: SLOItem): Series { if item.events.Some? then BurnRate else RawBurn }

  function Condition(format: Format, svc: string, item: SLOItem, w: string, thr: real): Expr {
    Bin(GtOp, Name(SeriesName(svc, item, BurnSeries(item), w)), Num(format(thr)))
  }

  /** "burn over the first window > t and ... and burn over the last window > t". */
  function BurnExpr(format: Format, svc: string, item: SLOItem, ws: seq<string>, thr: real): Expr
    requires ws != []
  {
    var last := Condition(format, svc, item, ws[|ws| - 1], thr);
    if |ws| == 1 then last else Bin(AndOp, BurnExpr(format, svc, item, ws[..|ws| - 1], thr), last)
  }

  function BurnText(format: Format, svc: string, item: SLOItem, ws: seq<string>, thr: real): string {
    if ws == [] then "" else Print(BurnExpr(format, svc, item, ws, thr))
  }

  lemma {:induction false} JoinIsPrint(format: Format, svc: string, item: SLOItem, ws: seq<string>, thr: real,
                                       parts: seq<string>)
    requires |parts| == |ws|
    requires forall k :: 0 <= k < |ws| ==> parts[k] == Print(Condition(format, svc, item, ws[k], thr))
    ensures Join(parts, "\nand ") == BurnText(format, svc, item, ws, thr)
  {
    if |ws| > 1 {
      var n := |ws| - 1;
      JoinIsPrint(format, svc, item, ws[..n], thr, parts[..n]);
      assert "\nand " == "\n" + "and" + " ";
      var a := Print(BurnExpr(format, svc, item, ws[..n], thr));
      assert a + "\nand " == a + "\n" + "and" + " ";
    }
  }

  method BuildMultiWindowBurnExpr(format: Format, svc: string, item: SLOItem, windows: seq<string>, thr: real)
    returns (text: string)
    ensures text == BurnText(format, svc, item, windows, thr)
  {
    var thrStr := format(thr);
    var parts: seq<string> := [];
    for k := 0 to |windows|
      invariant |parts| == k
      invariant forall j :: 0 <= j < k ==> parts[j] == Print(Condition(format, svc, item, windows[j], thr))
    {
      var w := windows[k];
      var metric;
      Names(svc, item, w);
      if item.events.Some? {
        metric := svc + ":burn_rate" + w;
      } else {
        metric := svc + ":burn_rate_" + Sanitize(item.name) + w;
      }
      assert " > " == " " + ">" + " ";
      assert metric + " > " == metric + " " + ">" + " ";
      parts := parts + [metric + " > " + thrStr];
    }
    JoinIsPrint(format, svc, item, windows, thr, parts);
    text := Join(parts, "\nand ");
  }

  /** Right-biased union: a later source overrides an earlier one. */
  function MergedLabels(sources: seq<map<string, string>>): map<string, string> {
    if sources == [] then map[] else MergedLabels(sources[..|sources| - 1]) + sources[|sources| - 1]
  }

  /** Go iterates a map in any order; the result does not depend on it. */
  method MergeInto(before: map<string, string>, src: map<string, string>) returns (out: map<string, string>)
    ensures out == before + src
  {
    out := before;
    var todo := src.Keys;
    while todo != {}
      invariant todo <= src.Keys && out.Keys == before.Keys + (src.Keys - todo)
      invariant forall k :: k in out ==> out[k] == if k in src && k !in todo then src[k] else before[k]
      decreases |todo|
    {
      var k :| k in todo;
      out := out[k := src[k]];
      todo := todo - {k};
    }
  }

  method MergeLabels(sources: seq<map<string, string>>) returns (out: map<string, string>)
    ensures out == MergedLabels(sources)
  {
    out := map[];
    for i := 0 to |sources|
      invariant out == MergedLabels(sources[..i])
    {
      out := MergeInto(out, sources[i]);
      assert sources[..i + 1][..i] == sources[..i];
    }
    assert sources[..|sources|] == sources;
  }

  datatype Tier = Page | Ticket | Budget

  const RUNBOOKS := "https://raw.githubusercontent.com/gyt-golang/sre-platform-ksce/main/docs/runbook/"

  function Annotations(item: SLOItem, tier: Tier, svc: string): map<string, string> {
    map["runbook_url" := RUNBOOKS + "ordersvc-high-error-rate.md",
        "dashboard_url" := "http://10.0.0.182:30300/d/ordersvc-sre-slo/ordersvc-sre-slo",
        "summary" := match tier
                     case Page => svc + " 可用性急剧恶化，错误预算高速燃烧"
                     case Budget => svc + " 错误预算 1d 燃烧率 >1，按当前速率将耗尽月预算"
                     case Ticket => svc + " " + item.name + " SLO 异常，错误预算燃烧"]
  }

  function Duration(s: string): Option<string> { if s == "" then None else Some(s) }

  function TierSpec(item: SLOItem, tier: Tier): Option<AlertTier>
    requires tier != Budget
  {
    if tier == Page then item.alerting.page else item.alerting.ticket
  }

  predicate Enabled(item: SLOItem, tier: Tier)
    requires tier != Budget
  {
    TierSpec(item, tier).Some? && !TierSpec(item, tier).value.disable
  }

  function ChosenThreshold(t: AlertTier, tier: Tier): real {
    if t.burnThreshold.Some? then t.burnThreshold.value
    else if tier == Page then DEFAULT_PAGE_THRESHOLD else DEFAULT_TICKET_THRESHOLD
  }

  function ChosenWindows(t: AlertTier, tier: Tier): (ws: seq<string>)
    ensures ws != []
  {
    if |t.windows| > 0 then t.windows else if tier == Page then ["5m", "1h"] else ["30m", "6h"]
  }

  function ChosenFor(t: AlertTier, tier: Tier): string {
    if t.forDur != "" then t.forDur else if tier == Page then "2m" else "15m"
  }

  function TierRule(format: Format, spec: SLOSpec, item: SLOItem, tier: Tier): Rule
    requires tier != Budget && Enabled(item, tier)
  {
    var t := TierSpec(item, tier).value;
    Rule("", item.alerting.name + (if tier == Page then "Page" else "Ticket"),
         BurnText(format, spec.service, item, ChosenWindows(t, tier), ChosenThreshold(t, tier)),
         Duration(ChosenFor(t, tier)),
         MergedLabels([spec.labels, item.alerting.labels, t.labels,
                       map["service" := spec.service, "slo" := item.name]]),
         Annotations(item, tier, spec.service))
  }

  function BudgetExpr(format: Format, svc: string): Expr {
    Bin(GtOp, Name(svc + ":burn_rate1d"), Num(format(BUDGET_THRESHOLD)))
  }

  function BudgetRule(format: Format, spec: SLOSpec, item: SLOItem): Rule {
    Rule("", ALERT_NAME_BUDGET, Print(BudgetExpr(format, spec.service)), Duration("30m"),
         MergedLabels([spec.labels, item.alerting.labels, map["severity" := "ticket"],
                       map["service" := spec.service, "slo" := item.name]]),
         Annotations(item, Budget, spec.service))
  }

  function ItemAlerts(format: Format, spec: SLOSpec, item: SLOItem): seq<Rule> {
    (if Enabled(item, Page) then [TierRule(format, spec, item, Page)] else []) +
    (if Enabled(item, Ticket) then [TierRule(format, spec, item, Ticket)] else []) +
    (if item.events.Some? then [BudgetRule(format, spec, item)] else [])
  }

  function AlertRules(format: Format, spec: SLOSpec, items: seq<SLOItem>): seq<Rule> {
    if items == [] then []
    else AlertRules(format, spec, items[..|items| - 1]) + ItemAlerts(format, spec, items[|items| - 1])
  }

  method AppendTier(format: Format, spec: SLOSpec, item: SLOItem, tier: Tier, rules: seq<Rule>) returns (out: seq<Rule>)
    requires tier != Budget
    ensures out == rules + if Enabled(item, tier) then [TierRule(format, spec, item, tier)] else []
  {
    out := rules;
    if TierSpec(item, tier).Some? && !TierSpec(item, tier).value.disable {
      var t := TierSpec(item, tier).value;
      var text := BuildMultiWindowBurnExpr(format, spec.service, item, ChosenWindows(t, tier),
                                           ChosenThreshold(t, tier));
      var labels := MergeLabels([spec.labels, item.alerting.labels, t.labels,
                                 map["service" := spec.service, "slo" := item.name]]);
      out := out + [Rule("", item.alerting.name + (if tier == Page then "Page" else "Ticket"), text,
                         Duration(ChosenFor(t, tier)), labels, Annotations(item, tier, spec.service))];
    }
  }

  method AppendBudget(format: Format, spec: SLOSpec, item: SLOItem, rules: seq<Rule>) returns (out: seq<Rule>)
    ensures out == rules + if item.events.Some? then [BudgetRule(format, spec, item)] else []
  {
    out := rules;
    if item.events.Some? {
      var labels := MergeLabels([spec.labels, item.alerting.labels, map["severity" := "ticket"],
                                 map["service" := spec.service, "slo" := item.name]]);
      BudgetText(format, spec.service);
      out := out + [Rule("", ALERT_NAME_BUDGET, spec.service + ":burn_rate1d > " + format(BUDGET_THRESHOLD),
                         Duration("30m"), labels, Annotations(item, Budget, spec.service))];
    }
  }

  method AppendItem(format: Format, spec: SLOSpec, item: SLOItem, rules: seq<Rule>) returns (out: seq<Rule>)
    ensures out == rules + ItemAlerts(format, spec, item)
  {
    hide TierRule, BudgetRule;
    var page := AppendTier(format, spec, item, Page, []);
    var ticket := AppendTier(format, spec, item, Ticket, []);
    var budget := AppendBudget(format, spec, item, []);
    out := rules + (page + ticket + budget);
  }

  method BuildAlertRules(format: Format, spec: SLOSpec) returns (rules: seq<Rule>)
    ensures rules == AlertRules(format, spec, spec.slos)
  {
    hide ItemAlerts;
    rules := [];
    for i := 0 to |spec.slos|
      invariant rules == AlertRules(format, spec, spec.slos[..i])
    {
      rules := AppendItem(format, spec, spec.slos[i], rules);
      assert spec.slos[..i + 1][..i] == spec.slos[..i];
    }
    assert spec.slos[..|spec.slos|] == spec.slos;
  }

  lemma BudgetText(format: Format, svc: string)
    ensures svc + ":burn_rate1d > " + format(BUDGET_THRESHOLD) == Print(BudgetExpr(format, svc))
  {
    assert ":burn_rate1d > " == ":burn_rate1d" + " " + ">" + " ";
    assert svc + ":burn_rate1d > " == svc + ":burn_rate1d" + " " + ">" + " ";
  }

  lemma LastSourceWins(a: map<string, string>, b: map<string, string>, c: map<string, string>, own: map<string, string>)
    ensures forall k :: k in own ==> k in MergedLabels([a, b, c, own]) && MergedLabels([a, b, c, own])[k] == own[k]
  {
    assert MergedLabels([a, b, c, own]) == MergedLabels([a, b, c, own][..3]) + own;
  }

  lemma TierAlertOrigin(format: Format, spec: SLOSpec, item: SLOItem, tier: Tier)
    requires tier != Budget && Enabled(item, tier)
    ensures Origin(TierRule(format, spec, item, tier), spec.service, item.name)
  {
    LastSourceWins(spec.labels, item.alerting.labels, TierSpec(item, tier).value.labels,
                   map["service" := spec.service, "slo" := item.name]);
  }

  lemma BudgetAlertOrigin(format: Format, spec: SLOSpec, item: SLOItem)
    ensures Origin(BudgetRule(format, spec, item), spec.service, item.name)
  {
    LastSourceWins(spec.labels, item.alerting.labels, map["severity" := "ticket"],
                   map["service" := spec.service, "slo" := item.name]);
  }

  predicate Origin(r: Rule, svc: string, slo: string) {
    "service" in r.labels && r.labels["service"] == svc && "slo" in r.labels && r.labels["slo"] == slo
  }

  /** The alert that an item generates for a tier. */
  predicate AlertOf(format: Format, spec: SLOSpec, item: SLOItem, tier: Tier, r: Rule) {
    if tier == Budget then item.events.Some? && r == BudgetRule(format, spec, item)
    else Enabled(item, tier) && r == TierRule(format, spec, item, tier)
  }

  lemma ItemAlertsMembers(format: Format, spec: SLOSpec, item: SLOItem, r: Rule)
    ensures r in ItemAlerts(format, spec, item) <==> exists tier :: AlertOf(format, spec, item, tier, r)
  {
    hide TierRule, BudgetRule;
    if r in ItemAlerts(format, spec, item) {
      assert AlertOf(format, spec, item, Page, r) || AlertOf(format, spec, item, Ticket, r) ||
             AlertOf(format, spec, item, Budget, r);
    }
  }

  /** The alert group holds exactly the alerts that some item generates for some tier. */
  lemma {:induction false} AlertMembers(format: Format, spec: SLOSpec, items: seq<SLOItem>, r: Rule)
    ensures r in AlertRules(format, spec, items) <==>
            exists item, tier :: item in items && AlertOf(format, spec, item, tier, r)
  {
    hide ItemAlerts, AlertOf;
    if items != [] {
      var n := |items| - 1;
      AlertMembers(format, spec, items[..n], r);
      ItemAlertsMembers(format, spec, items[n], r);
      assert forall item :: item in items <==> item in items[..n] || item == items[n];
    }
  }

  /** Whatever the user's labels say, an alert carries its service and the name of the item that generated it. */
  lemma AlertsCarryOrigin(format: Format, spec: SLOSpec, items: seq<SLOItem>, r: Rule)
    requires r in AlertRules(format, spec, items)
    ensures exists item, tier :: item in items && AlertOf(format, spec, item, tier, r)
    ensures forall item, tier :: AlertOf(format, spec, item, tier, r) ==> Origin(r, spec.service, item.name)
  {
    hide TierRule, BudgetRule, Origin, AlertRules;
    AlertMembers(format, spec, items, r);
    forall item, tier | AlertOf(format, spec, item, tier, r) ensures Origin(r, spec.service, item.name) {
      if tier == Budget { BudgetAlertOrigin(format, spec, item); } else { TierAlertOrigin(format, spec, item, tier); }
    }
  }

  // ------------------------------------------------------------- rule names

  function RecordNames(rules: seq<Rule>): seq<string> {
    if rules == [] then []
    else
      var last := rules[|rules| - 1].record;
      RecordNames(rules[..|rules| - 1]) + if last != "" then [last] else []
  }

  function AlertNames(rules: seq<Rule>): seq<string> {
    if rules == [] then []
    else AlertNames(rules[..|rules| - 1]) + (if rules[|rules| - 1].alert != "" then [rules[|rules| - 1].alert] else [])
  }

  method CollectRuleNames(rec: seq<Rule>, alert: seq<Rule>) returns (names: seq<string>)
    ensures names == RecordNames(rec) + AlertNames(alert)
  {
    names := [];
    for i := 0 to |rec|
      invariant names == RecordNames(rec[..i])
    {
      if rec[i].record != "" { names := names + [rec[i].record]; }
      assert rec[..i + 1][..i] == rec[..i];
    }
    assert rec[..|rec|] == rec;
    for i := 0 to |alert|
      invariant names == RecordNames(rec) + AlertNames(alert[..i])
    {
      if alert[i].alert != "" { names := names + [alert[i].alert]; }
      assert alert[..i + 1][..i] == alert[..i];
    }
    assert alert[..|alert|] == alert;
  }
}
