/**
 What a burn rate says about requests: burns over windows compose as request-weighted means, a firing alert
 points at a hot slice, and summing an hour's budget impact is counting errors against the month's allowance.
 */
module BurnBudget {
  import opened Samples
  import opened Strings
  import opened PromQL
  import opened SloApi
  import opened RuleGenerator
  import opened RuleNames
  import opened RuleMeaning
  import Triage

  /** The requests of a stretch of time. */
  datatype Slice = Slice(errors: real, total: real)

  predicate Traffic(ss: seq<Slice>) { forall s :: s in ss ==> 0.0 <= s.errors <= s.total }

  function Errors(ss: seq<Slice>): real { if ss == [] then 0.0 else ss[0].errors + Errors(ss[1..]) }

  function Total(ss: seq<Slice>): real { if ss == [] then 0.0 else ss[0].total + Total(ss[1..]) }

  /** The burn rate over a window made of these slices. */
  function Burn(ss: seq<Slice>, allowed: real): real
    requires Total(ss) != 0.0 && allowed != 0.0
  {
    Errors(ss) / Total(ss) / allowed
  }

  function Flatten<T>(parts: seq<seq<T>>): seq<T> { if parts == [] then [] else parts[0] + Flatten(parts[1..]) }

  lemma {:induction false} SumsConcat(a: seq<Slice>, b: seq<Slice>)
    ensures Errors(a + b) == Errors(a) + Errors(b) && Total(a + b) == Total(a) + Total(b)
  {
    if a == [] {
      assert a + b == b;
    } else {
      assert (a + b)[1..] == a[1..] + b;
      SumsConcat(a[1..], b);
    }
  }

  lemma {:induction false} TrafficSums(ss: seq<Slice>)
    requires Traffic(ss)
    ensures 0.0 <= Errors(ss) <= Total(ss)
  {
    if ss != [] { TrafficSums(ss[1..]); }
  }

  lemma Cancel(x: real, y: real)
    requires y != 0.0
    ensures x / y * y == x && y * (x / y) == x
  {}

  /** Requests times burn: errors measured in allowances. */
  lemma TimesBurn(ss: seq<Slice>, allowed: real)
    requires Total(ss) != 0.0 && allowed != 0.0
    ensures Total(ss) * Burn(ss, allowed) == Errors(ss) / allowed
  {
    var e, t := Errors(ss), Total(ss);
    Cancel(e, t);
    calc {
      t * (e / t / allowed);
      t * (e / t) / allowed;
      e / allowed;
    }
  }

  lemma AddFractions(x: real, y: real, d: real)
    requires d != 0.0
    ensures (x + y) / d == x / d + y / d
  {}

  // ------------------------------------------------------------ windows compose

  lemma TrafficParts(parts: seq<seq<Slice>>)
    requires parts != [] && Traffic(Flatten(parts))
    ensures Traffic(parts[0]) && Traffic(Flatten(parts[1..]))
  {
    assert forall s :: s in parts[0] || s in Flatten(parts[1..]) ==> s in Flatten(parts);
  }

  /** A part's burn weighted by its requests. */
  function Weighted(p: seq<Slice>, allowed: real): real
    requires allowed != 0.0
  {
    if Total(p) == 0.0 then 0.0 else Total(p) * Burn(p, allowed)
  }

  function WeightedBurn(parts: seq<seq<Slice>>, allowed: real): real
    requires allowed != 0.0
  {
    if parts == [] then 0.0 else Weighted(parts[0], allowed) + WeightedBurn(parts[1..], allowed)
  }

  lemma WeightedPart(p: seq<Slice>, allowed: real)
    requires Traffic(p) && allowed != 0.0
    ensures Weighted(p, allowed) == Errors(p) / allowed
  {
    hide Burn;
    TrafficSums(p);
    if Total(p) != 0.0 { TimesBurn(p, allowed); }
  }

  lemma {:induction false} WeightedErrors(parts: seq<seq<Slice>>, allowed: real)
    requires Traffic(Flatten(parts)) && allowed != 0.0
    ensures WeightedBurn(parts, allowed) == Errors(Flatten(parts)) / allowed
  {
    hide Weighted, Total;
    if parts == [] {
      assert 0.0 / allowed == 0.0;
    } else {
      TrafficParts(parts);
      SumsConcat(parts[0], Flatten(parts[1..]));
      WeightedPart(parts[0], allowed);
      WeightedErrors(parts[1..], allowed);
      AddFractions(Errors(parts[0]), Errors(Flatten(parts[1..])), allowed);
    }
  }

  /** The burn of a window is the request-weighted mean of the burns of its parts. */
  lemma WindowMean(parts: seq<seq<Slice>>, allowed: real)
    requires Traffic(Flatten(parts)) && allowed != 0.0 && Total(Flatten(parts)) != 0.0
    ensures Burn(Flatten(parts), allowed) == WeightedBurn(parts, allowed) / Total(Flatten(parts))
  {
    hide Burn;
    WeightedErrors(parts, allowed);
    TimesBurn(Flatten(parts), allowed);
    Quotient(Total(Flatten(parts)), Burn(Flatten(parts), allowed), WeightedBurn(parts, allowed));
  }

  lemma Quotient(x: real, y: real, z: real)
    requires x != 0.0 && x * y == z
    ensures y == z / x
  {}

  predicate Hot(ss: seq<Slice>, allowed: real, thr: real)
    requires allowed != 0.0
  {
    Total(ss) != 0.0 && Burn(ss, allowed) > thr
  }

  lemma ColdPart(p: seq<Slice>, allowed: real, thr: real)
    requires Traffic(p) && allowed != 0.0 && !Hot(p, allowed, thr)
    ensures Weighted(p, allowed) <= thr * Total(p)
  {
    hide Burn;
    TrafficSums(p);
    if Total(p) != 0.0 { Scale(Burn(p, allowed), thr, Total(p)); }
  }

  lemma {:induction false} ColdParts(parts: seq<seq<Slice>>, allowed: real, thr: real)
    requires Traffic(Flatten(parts)) && allowed != 0.0
    requires forall p :: p in parts ==> !Hot(p, allowed, thr)
    ensures WeightedBurn(parts, allowed) <= thr * Total(Flatten(parts))
  {
    hide Hot, Weighted, Total, Errors, Traffic;
    if parts == [] {
      NoRequests();
    } else {
      var p, rest := parts[0], Flatten(parts[1..]);
      TrafficParts(parts);
      SumsConcat(p, rest);
      ColdPart(p, allowed, thr);
      ColdParts(parts[1..], allowed, thr);
      AddBounds(thr, Total(p), Total(rest), Weighted(p, allowed), WeightedBurn(parts[1..], allowed));
    }
  }

  lemma AddBounds(k: real, x: real, y: real, u: real, v: real)
    requires u <= k * x && v <= k * y
    ensures u + v <= k * (x + y)
  {}

  lemma NoRequests()
    ensures Total([]) == 0.0 && Errors([]) == 0.0
  {}

  lemma Scale(x: real, y: real, k: real)
    requires x <= y && k > 0.0
    ensures k * x <= y * k
  {}

  lemma Unscale(x: real, y: real, k: real, w: real)
    requires k * x == w && w <= y * k && k > 0.0
    ensures x <= y
  {}

  lemma HotExceeds(ss: seq<Slice>, allowed: real, thr: real)
    requires Traffic(ss) && allowed != 0.0 && Hot(ss, allowed, thr)
    ensures Errors(ss) / allowed > thr * Total(ss)
  {
    hide Burn;
    TrafficSums(ss);
    TimesBurn(ss, allowed);
    if Errors(ss) / allowed <= thr * Total(ss) { Unscale(Burn(ss, allowed), thr, Total(ss), Errors(ss) / allowed); }
  }

  lemma HotWeighted(parts: seq<seq<Slice>>, allowed: real, thr: real)
    requires Traffic(Flatten(parts)) && allowed != 0.0 && Hot(Flatten(parts), allowed, thr)
    ensures WeightedBurn(parts, allowed) > thr * Total(Flatten(parts))
  {
    hide *;
    WeightedErrors(parts, allowed);
    HotExceeds(Flatten(parts), allowed, thr);
  }

  /** A hot window has a hot part, however it is cut: no hour burns above a threshold that all its slices keep to. */
  lemma HotPart(parts: seq<seq<Slice>>, allowed: real, thr: real)
    requires Traffic(Flatten(parts)) && allowed != 0.0 && Hot(Flatten(parts), allowed, thr)
    ensures exists p :: p in parts && Hot(p, allowed, thr)
  {
    if forall p :: p in parts ==> !Hot(p, allowed, thr) {
      hide *;
      ColdParts(parts, allowed, thr);
      HotWeighted(parts, allowed, thr);
      assert false;
    }
  }

  // -------------------------------------------------- alerts, in terms of requests

  /** The item's two queries over w return these slices' sums, at a common scale (a per-second rate, say). */
  ghost predicate Measures(item: SLOItem, world: World, w: string, ss: seq<Slice>, scale: real) {
    item.events.Some? && scale > 0.0 && Traffic(ss) &&
    UserValue(RenderQuery(item.events.value.errorQuery, w), world) == Fin(scale * Errors(ss)) &&
    UserValue(RenderQuery(item.events.value.totalQuery, w), world) == Fin(scale * Total(ss))
  }

  lemma ScaledRatio(e: real, t: real, k: real)
    requires k != 0.0 && t != 0.0
    ensures k * t != 0.0 && (k * e) / (k * t) == e / t
  {
    Cancel(e, t);
    assert k * e == (e / t) * (k * t);
    assert (e / t) * (k * t) / (k * t) == e / t;
  }

  /** The burn the spec means is above a threshold exactly when there was traffic and it burned that hot. */
  lemma MeasuredBurn(item: SLOItem, world: World, w: string, ss: seq<Slice>, scale: real, thr: real)
    requires Measures(item, world, w, ss, scale) && item.objective < 100.0
    ensures AllowedErrorRatio(item) > 0.0
    ensures Above(SpecBurn(item, w, world), Fin(thr)) <==> Hot(ss, AllowedErrorRatio(item), thr)
  {
    hide UserValue, RenderQuery, Traffic, Total, Errors, Div;
    TrafficSums(ss);
    assert AllowedErrorRatio(item) > 0.0;
    Quotients(scale * Errors(ss), scale * Total(ss), AllowedErrorRatio(item));
    if Total(ss) == 0.0 {
      assert Errors(ss) == 0.0 && scale * Total(ss) == 0.0 && scale * Errors(ss) == 0.0;
    } else {
      ScaledRatio(Errors(ss), Total(ss), scale);
    }
  }

  lemma Quotients(x: real, y: real, a: real)
    requires a > 0.0
    ensures y != 0.0 ==> Div(Div(Fin(x), Fin(y)), Fin(a)) == Fin(x / y / a)
    ensures x == 0.0 && y == 0.0 ==> Div(Div(Fin(x), Fin(y)), Fin(a)) == NaN
  {}

  /**
   A Page or Ticket alert that fires proves, for each of its windows and however it is cut, a slice hotter than
   the threshold; a window without traffic has none, so it keeps the alert from firing.
   */
  lemma FiringHasHotSlice(format: Format, world: World, spec: SLOSpec, item: SLOItem, tier: Tier, w: string,
                          parts: seq<seq<Slice>>, scale: real)
    requires Compilable(format, world, spec.service, spec.slos) && item in spec.slos && item.objective < 100.0
    requires tier != Budget && Enabled(item, tier)
    requires Exact(format, world, ChosenThreshold(TierSpec(item, tier).value, tier))
    requires forall v :: v in ChosenWindows(TierSpec(item, tier).value, tier) ==> Windowed(v)
    requires w in ChosenWindows(TierSpec(item, tier).value, tier) && Measures(item, world, w, Flatten(parts), scale)
    requires Fires(TierRule(format, spec, item, tier), Recordings(format, world, spec.service, spec.slos), world)
    ensures AllowedErrorRatio(item) > 0.0
    ensures exists p :: p in parts && Hot(p, AllowedErrorRatio(item), ChosenThreshold(TierSpec(item, tier).value, tier))
  {
    hide Recordings, TierRule, Fires, SpecBurn, Compilable;
    var thr := ChosenThreshold(TierSpec(item, tier).value, tier);
    TierMeaning(format, world, spec, item, tier);
    MeasuredBurn(item, world, w, Flatten(parts), scale, thr);
    HotPart(parts, AllowedErrorRatio(item), thr);
  }

  // ------------------------------------------------------------ the month's budget

  const HOURS_PER_MONTH := 720.0

  /** What triage reports for an hour, in percent of the month's budget; "no data" counts as nothing. */
  function Impact(hour: seq<Slice>, allowed: real): real
    requires allowed != 0.0 && Total(hour) != 0.0
  {
    var reported := Triage.BudgetImpact(Fin(Burn(hour, allowed)));
    if reported.None? then 0.0 else reported.value.v
  }

  /** Errors as a percentage of those a month with this many requests allows. */
  function Share(errors: real, allowed: real, month: real): real
    requires allowed * month != 0.0
  {
    errors / (allowed * month) * 100.0
  }

  lemma ImpactIsBurn(hour: seq<Slice>, allowed: real)
    requires Traffic(hour) && allowed > 0.0 && Total(hour) > 0.0
    ensures Burn(hour, allowed) >= 0.0 && Impact(hour, allowed) == Burn(hour, allowed) / HOURS_PER_MONTH * 100.0
  {
    TrafficSums(hour);
    assert Errors(hour) / Total(hour) >= 0.0;
  }

  lemma ShareOfHour(e: real, t: real, allowed: real)
    requires t > 0.0 && allowed > 0.0
    ensures e / t / allowed / HOURS_PER_MONTH * 100.0 == e / (allowed * (HOURS_PER_MONTH * t)) * 100.0
  {
    var d := allowed * (HOURS_PER_MONTH * t);
    var x := e / t / allowed / HOURS_PER_MONTH;
    Cancel(e / t / allowed, HOURS_PER_MONTH);
    Cancel(e / t, allowed);
    Cancel(e, t);
    calc {
      x * d;
      (x * HOURS_PER_MONTH) * allowed * t;
      (e / t / allowed) * allowed * t;
      (e / t) * t;
      e;
    }
    assert d > 0.0;
    assert x * d / d == x;
  }

  lemma ImpactIsShare(hour: seq<Slice>, allowed: real)
    requires Traffic(hour) && allowed > 0.0 && Total(hour) > 0.0
    ensures allowed * (HOURS_PER_MONTH * Total(hour)) > 0.0
    ensures Impact(hour, allowed) == Share(Errors(hour), allowed, HOURS_PER_MONTH * Total(hour))
  {
    var e, t := Errors(hour), Total(hour);
    ImpactIsBurn(hour, allowed);
    ShareOfHour(e, t, allowed);
    assert Burn(hour, allowed) == e / t / allowed;
    Positive(allowed, t);
    assert Share(e, allowed, HOURS_PER_MONTH * t) == e / (allowed * (HOURS_PER_MONTH * t)) * 100.0;
  }

  lemma Positive(x: real, y: real)
    requires x > 0.0 && y > 0.0
    ensures x * (HOURS_PER_MONTH * y) > 0.0
  {}

  lemma ShareAdds(x: real, y: real, allowed: real, month: real)
    requires allowed > 0.0 && month > 0.0
    ensures allowed * month > 0.0 && Share(0.0, allowed, month) == 0.0
    ensures Share(x + y, allowed, month) == Share(x, allowed, month) + Share(y, allowed, month)
  {
    AddFractions(x, y, allowed * month);
  }

  lemma DivisorsDiffer(e: real, c: real, d: real)
    requires e > 0.0 && c > 0.0 && d > 0.0
    ensures e / c == e / d <==> c == d
  {
    Cancel(e, c);
    Cancel(e, d);
  }

  /**
   For an hour with errors the reported impact is the true share of the month's allowance exactly when the hour
   carries 1/720 of the month's requests; an hour without errors is reported as no data.
   */
  lemma ImpactExact(hour: seq<Slice>, allowed: real, month: real)
    requires Traffic(hour) && allowed > 0.0 && Total(hour) > 0.0 && month > 0.0
    ensures Triage.BudgetImpact(Fin(Burn(hour, allowed))).None? <==> Errors(hour) == 0.0
    ensures Errors(hour) > 0.0 ==>
              (Impact(hour, allowed) == Share(Errors(hour), allowed, month) <==> HOURS_PER_MONTH * Total(hour) == month)
  {
    TrafficSums(hour);
    var e, t := Errors(hour), Total(hour);
    ImpactIsBurn(hour, allowed);
    ShareOfHour(e, t, allowed);
    if e > 0.0 {
      assert e / t > 0.0;
      DivisorsDiffer(e, allowed * (HOURS_PER_MONTH * t), allowed * month);
      assert allowed * (HOURS_PER_MONTH * t) == allowed * month <==> HOURS_PER_MONTH * t == month;
    }
  }

  predicate Steady(hours: seq<seq<Slice>>, q: real) {
    q > 0.0 && forall h :: h in hours ==> Traffic(h) && Total(h) == q
  }

  function Spent(hours: seq<seq<Slice>>, q: real, allowed: real): real
    requires Steady(hours, q) && allowed > 0.0
  {
    if hours == [] then 0.0 else Impact(hours[0], allowed) + Spent(hours[1..], q, allowed)
  }

  /** With constant traffic the reported impacts add up to the errors made, as a share of the month's allowance. */
  lemma {:induction false} SpentIsShare(hours: seq<seq<Slice>>, q: real, allowed: real)
    requires Steady(hours, q) && allowed > 0.0
    ensures allowed * (HOURS_PER_MONTH * q) > 0.0
    ensures Spent(hours, q, allowed) == Share(Errors(Flatten(hours)), allowed, HOURS_PER_MONTH * q)
  {
    hide Impact, Share;
    ShareAdds(0.0, 0.0, allowed, HOURS_PER_MONTH * q);
    if hours != [] {
      var h, rest := hours[0], Flatten(hours[1..]);
      SpentIsShare(hours[1..], q, allowed);
      ImpactIsShare(h, allowed);
      SumsConcat(h, rest);
      ShareAdds(Errors(h), Errors(rest), allowed, HOURS_PER_MONTH * q);
    }
  }

  lemma {:induction false} SteadyTraffic(hours: seq<seq<Slice>>, q: real)
    requires Steady(hours, q)
    ensures Traffic(Flatten(hours))
  {
    hide Total;
    if hours != [] {
      SteadyTraffic(hours[1..], q);
      assert Traffic(hours[0]);
    }
  }

  lemma {:induction false} SteadyTotal(hours: seq<seq<Slice>>, q: real)
    requires Steady(hours, q)
    ensures Total(Flatten(hours)) == |hours| as real * q
  {
    hide Total, Errors, Traffic;
    if hours == [] {
      NoRequests();
    } else {
      SumsConcat(hours[0], Flatten(hours[1..]));
      SteadyTotal(hours[1..], q);
      OneMore(|hours| as real, |hours[1..]| as real, q, Total(Flatten(hours[1..])));
    }
  }

  lemma OneMore(n: real, m: real, q: real, t: real)
    requires n == m + 1.0 && t == m * q
    ensures q + t == n * q
  {}

  /** With constant traffic, n hours at burn b spend n * b / 7.2 percent of the month's budget. */
  lemma SteadySpending(hours: seq<seq<Slice>>, q: real, allowed: real)
    requires Steady(hours, q) && allowed > 0.0 && hours != []
    ensures Total(Flatten(hours)) > 0.0
    ensures Spent(hours, q, allowed) == Burn(Flatten(hours), allowed) * |hours| as real / 7.2
  {
    hide Burn, Share, Spent;
    var all, n := Flatten(hours), |hours| as real;
    SteadyTotal(hours, q);
    SteadyTraffic(hours, q);
    SpentIsShare(hours, q, allowed);
    TimesBurn(all, allowed);
    SpreadShare(Errors(all), n, q, allowed, Burn(all, allowed));
  }

  lemma SpreadShare(e: real, n: real, q: real, allowed: real, b: real)
    requires n > 0.0 && q > 0.0 && allowed > 0.0 && (n * q) * b == e / allowed
    ensures n * q > 0.0 && allowed * (HOURS_PER_MONTH * q) > 0.0
    ensures Share(e, allowed, HOURS_PER_MONTH * q) == b * n / 7.2
  {
    var d := allowed * (HOURS_PER_MONTH * q);
    Cancel(e, allowed);
    calc {
      e;
      (n * q) * b * allowed;
      (b * n / HOURS_PER_MONTH) * d;
    }
    Quotient(d, b * n / HOURS_PER_MONTH, e);
  }

  /** The documented meaning of the defaults: 14.4 over an hour is 2 % of the month, 6 over six hours is 5 %. */
  lemma DefaultThresholds(hours: seq<seq<Slice>>, q: real, allowed: real)
    requires Steady(hours, q) && allowed > 0.0 && hours != []
    ensures Total(Flatten(hours)) > 0.0
    ensures |hours| == 1 ==>
            (Burn(Flatten(hours), allowed) > DEFAULT_PAGE_THRESHOLD <==> Spent(hours, q, allowed) > 2.0)
    ensures |hours| == 6 ==>
            (Burn(Flatten(hours), allowed) > DEFAULT_TICKET_THRESHOLD <==> Spent(hours, q, allowed) > 5.0)
  {
    SteadySpending(hours, q, allowed);
  }

  /** End to end: a default Page alert that fires means this hour alone used more than 2 % of the month's budget. */
  lemma PageMeansTwoPercent(format: Format, world: World, spec: SLOSpec, item: SLOItem, hour: seq<Slice>, scale: real)
    requires Compilable(format, world, spec.service, spec.slos) && item in spec.slos && item.objective < 100.0
    requires Enabled(item, Page) && Exact(format, world, DEFAULT_PAGE_THRESHOLD)
    requires item.alerting.page.value.burnThreshold.None? && item.alerting.page.value.windows == []
    requires Measures(item, world, "1h", hour, scale)
    requires Fires(TierRule(format, spec, item, Page), Recordings(format, world, spec.service, spec.slos), world)
    ensures AllowedErrorRatio(item) > 0.0 && Total(hour) > 0.0
    ensures Share(Errors(hour), AllowedErrorRatio(item), HOURS_PER_MONTH * Total(hour)) > 2.0
  {
    hide Recordings, TierRule, Fires, SpecBurn, Compilable;
    TierMeaning(format, world, spec, item, Page);
    MeasuredBurn(item, world, "1h", hour, scale, DEFAULT_PAGE_THRESHOLD);
    TrafficSums(hour);
    assert Flatten([hour]) == hour;
    DefaultThresholds([hour], Total(hour), AllowedErrorRatio(item));
    SpentIsShare([hour], Total(hour), AllowedErrorRatio(item));
  }
}
