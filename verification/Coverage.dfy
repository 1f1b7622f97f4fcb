/** From the compiler's Page alert to the remediation table: a page on the shipped alert finds a rule. */
module Coverage {
  import opened Samples
  import opened Strings
  import opened PromQL
  import opened SloApi
  import opened RuleGenerator
  import opened RuleNames
  import opened RuleMeaning
  import opened RuleLimits
  import opened Remediate
  import BudgetPolicy

  /** The burn the remediator reads: what querying the service's five-minute series returns. */
  function SampledBurn(format: Format, world: World, spec: SLOSpec, item: SLOItem): Float {
    var series := SeriesName(spec.service, item, BurnRate, "5m");
    Queried(Lookup(series, Recordings(format, world, spec.service, spec.slos), world))
  }

  /**
   When the generated Page alert fires, its windows include 5m and its threshold is 14.4 or more, the rule table
   has a rule for the same sample, infinite or not.
   */
  lemma FiredPageFindsRule(format: Format, world: World, spec: SLOSpec, item: SLOItem)
    requires Compilable(format, world, spec.service, spec.slos) && item in spec.slos && item.events.Some?
    requires Enabled(item, Page) && item.alerting.name == "OrdersvcHighErrorRate"
    requires var t := item.alerting.page.value;
             Exact(format, world, ChosenThreshold(t, Page)) && ChosenThreshold(t, Page) >= 14.4 &&
             "5m" in ChosenWindows(t, Page) && forall w :: w in ChosenWindows(t, Page) ==> Windowed(w)
    requires Fires(TierRule(format, spec, item, Page), Recordings(format, world, spec.service, spec.slos), world)
    ensures Match(RULES, TierRule(format, spec, item, Page).alert, SampledBurn(format, world, spec, item)).Some?
  {
    hide Recordings, Fires, SpecBurn, Compilable, TierRule, SeriesName, UserValue, RenderQuery, Match;
    TierMeaning(format, world, spec, item, Page);
    EventMeaning(format, world, spec.service, spec.slos, item, "5m");
    PageName(format, spec, item);
    ShippedPageBands(SampledBurn(format, world, spec, item));
  }

  /** What the freeze controller's query of the one-day burn series gets. */
  function DayBurn(format: Format, world: World, spec: SLOSpec): BudgetPolicy.Reply {
    var sample := Lookup(spec.service + ":burn_rate1d", Recordings(format, world, spec.service, spec.slos), world);
    if sample == Absent then BudgetPolicy.NoSeries else BudgetPolicy.Series(sample)
  }

  /** The controller freezes on exactly the samples on which the generated Budget alert fires. */
  lemma FreezesWithBudgetAlert(format: Format, world: World, spec: SLOSpec, item: SLOItem, s: BudgetPolicy.State,
                               r: Rule)
    requires Compilable(format, world, spec.service, spec.slos) && item in spec.slos && Exact(format, world, 1.0)
    requires AlertOf(format, spec, item, Budget, r) && !s.lastFrozen
    ensures BudgetPolicy.Next(s, BudgetPolicy.Tick(DayBurn(format, world, spec), true)).lastFrozen <==>
            Fires(r, Recordings(format, world, spec.service, spec.slos), world)
  {
    hide Recordings, Fires, Compilable, BudgetRule, SeriesName, LegalItem;
    assert LegalItem(spec.service, item) by { Legal(format, world, spec, item); }
    BudgetReads(format, world, spec, item, Recordings(format, world, spec.service, spec.slos));
    BudgetSeries(spec.service, item);
  }

  lemma Legal(format: Format, world: World, spec: SLOSpec, item: SLOItem)
    requires Compilable(format, world, spec.service, spec.slos) && item in spec.slos
    ensures LegalItem(spec.service, item)
  {}

  lemma PageName(format: Format, spec: SLOSpec, item: SLOItem)
    requires Enabled(item, Page) && item.alerting.name == "OrdersvcHighErrorRate"
    ensures TierRule(format, spec, item, Page).alert == "OrdersvcHighErrorRatePage"
  {
    hide BurnText, MergedLabels, Annotations, ChosenFor, Duration;
    assert "OrdersvcHighErrorRate" + "Page" == "OrdersvcHighErrorRatePage";
  }

  lemma LatencyAlertName(format: Format)
    ensures Enabled(LATENCY, Ticket) && TierRule(format, SHIPPED, LATENCY, Ticket).alert == "OrdersvcHighLatencyTicket"
  {
    hide BurnText, MergedLabels, Annotations, ChosenFor, Duration;
    assert "OrdersvcHighLatency" + "Ticket" == "OrdersvcHighLatencyTicket";
  }

  lemma OtherNames(burn5m: Float)
    ensures "OrdersvcHighLatencyTicket" != RULES[3].alertName &&
            Match(RULES, "OrdersvcHighLatencyTicket", burn5m) == None
  {
    var name := "OrdersvcHighLatencyTicket";
    assert |name| == 25 && |RULES[3].alertName| == 28;
    FirstIsBest(RULES, name, burn5m) by {
      ShippedTable(name);
    }
  }

  /**
   The alert that the shipped latency item generates is not the one rule R-C1 waits for, and no other rule takes it.
   */
  lemma LatencyRuleNeverMatches(format: Format, burn5m: Float)
    ensures Enabled(LATENCY, Ticket)
    ensures var alert := TierRule(format, SHIPPED, LATENCY, Ticket).alert;
            alert != RULES[3].alertName && Match(RULES, alert, burn5m) == None
  {
    LatencyAlertName(format);
    OtherNames(burn5m);
    hide *;
  }
}
