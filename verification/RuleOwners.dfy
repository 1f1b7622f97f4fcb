/**
 Which item owns a series when several items compete for it. A series takes one sample per evaluation and later
 ones are discarded, so the first item with a sample wins; the four event series can then mix items.
 */
module RuleOwners {
  import opened Samples
  import opened Strings
  import opened PromQL
  import opened SloApi
  import opened RuleGenerator
  import opened RuleNames
  import opened RuleMeaning
  import opened RuleLimits

  /** The sample a name has got so far in this evaluation. */
  function Slot(env: Env, n: string): Sample { if n in env then env[n] else Absent }

  function OrElse(a: Sample, b: Sample): Sample { if a != Absent then a else b }

  /** The first sample that an event item's error query has over w. */
  function FirstErrors(items: seq<SLOItem>, w: string, world: World): Sample {
    if items == [] then Absent
    else
      var last := items[|items| - 1];
      OrElse(FirstErrors(items[..|items| - 1], w, world),
             if last.events.Some? then UserValue(RenderQuery(last.events.value.errorQuery, w), world) else Absent)
  }

  function FirstTotals(items: seq<SLOItem>, w: string, world: World): Sample {
    if items == [] then Absent
    else
      var last := items[|items| - 1];
      OrElse(FirstTotals(items[..|items| - 1], w, world),
             if last.events.Some? then UserValue(RenderQuery(last.events.value.totalQuery, w), world) else Absent)
  }

  function FirstRatio(items: seq<SLOItem>, w: string, world: World): Sample {
    Div(FirstErrors(items, w, world), FirstTotals(items, w, world))
  }

  /** The burn is written by the item that completes the ratio, with that item's allowance. */
  function FirstBurn(items: seq<SLOItem>, w: string, world: World): Sample {
    if items == [] then Absent
    else
      var last := items[|items| - 1];
      OrElse(FirstBurn(items[..|items| - 1], w, world),
             if last.events.Some? then Div(FirstRatio(items, w, world), Fin(AllowedErrorRatio(last))) else Absent)
  }

  function EventName(svc: string, s: Series, w: string): string { svc + Family(s) + ("" + w) }

  /** The four event series over w hold what the items so far have given them. */
  predicate Holds(svc: string, items: seq<SLOItem>, w: string, env: Env, world: World) {
    Slot(env, EventName(svc, ErrorRate, w)) == FirstErrors(items, w, world) &&
    Slot(env, EventName(svc, RequestRate, w)) == FirstTotals(items, w, world) &&
    Slot(env, EventName(svc, ErrorRatio, w)) == FirstRatio(items, w, world) &&
    Slot(env, EventName(svc, BurnRate, w)) == FirstBurn(items, w, world)
  }

  ghost predicate OwnNames(svc: string, items: seq<SLOItem>, env: Env) {
    forall n :: n in env ==> Generated(svc, items, n)
  }

  lemma Stored(env: Env, n: string, v: Sample, m: string)
    ensures n in Store(env, n, v) && Slot(Store(env, n, v), n) == OrElse(Slot(env, n), v)
    ensures m != n ==> Slot(Store(env, n, v), m) == Slot(env, m) && (m in Store(env, n, v) <==> m in env)
  {}

  lemma UserInEnv(svc: string, items: seq<SLOItem>, text: string, env: Env, world: World)
    requires IndependentQuery(svc, items, text) && OwnNames(svc, items, env)
    ensures EvalText(text, env, world) == UserValue(text, world)
  {
    EvalTextFrame(text, env, map[], world);
  }

  /** Rules that do not record a name leave its sample alone. */
  lemma SlotFrame(rules: seq<Rule>, env: Env, world: World, n: string)
    requires n !in Records(rules)
    ensures Slot(EvalGroup(rules, env, world), n) == Slot(env, n)
  {
    GroupFrame(rules, env, world, n);
  }

  lemma EventNamesDiffer(svc: string, w: string)
    requires Windowed(w)
    ensures forall s, t :: s in EventSeries() && t in EventSeries() && s != t ==>
            EventName(svc, s, w) != EventName(svc, t, w)
  {
    forall s, t | s in EventSeries() && t in EventSeries() && s != t
      ensures EventName(svc, s, w) != EventName(svc, t, w)
    {
      var item := SmallItem("", "");
      NameInjective(svc, item, s, w, item, t, w);
    }
  }

  function EventSeries(): set<Series> { {RequestRate, ErrorRate, ErrorRatio, BurnRate} }

  /** The four rules of one event item and window, evaluated in a row. */
  function EvalFour(format: Format, svc: string, item: SLOItem, w: string, env: Env, world: World): Env
    requires item.events.Some?
  {
    var e1 := Store(env, EventName(svc, RequestRate, w),
                    EvalText(SeriesText(format, svc, item, RequestRate, w), env, world));
    var e2 := Store(e1, EventName(svc, ErrorRate, w), EvalText(SeriesText(format, svc, item, ErrorRate, w), e1, world));
    var e3 := Store(e2, EventName(svc, ErrorRatio, w),
                    EvalText(SeriesText(format, svc, item, ErrorRatio, w), e2, world));
    Store(e3, EventName(svc, BurnRate, w), EvalText(SeriesText(format, svc, item, BurnRate, w), e3, world))
  }

  /** What the text of an event rule evaluates to when only generated names have been written. */
  lemma EventTexts(format: Format, world: World, svc: string, items: seq<SLOItem>, item: SLOItem, w: string, env: Env)
    requires Readable(format, world, svc, items) && item in items && item.events.Some? && Windowed(w)
    requires OwnNames(svc, items, env)
    ensures EvalText(SeriesText(format, svc, item, RequestRate, w), env, world)
         == UserValue(RenderQuery(item.events.value.totalQuery, w), world)
    ensures EvalText(SeriesText(format, svc, item, ErrorRate, w), env, world)
         == UserValue(RenderQuery(item.events.value.errorQuery, w), world)
    ensures EvalText(SeriesText(format, svc, item, ErrorRatio, w), env, world)
         == Div(Lookup(EventName(svc, ErrorRate, w), env, world), Lookup(EventName(svc, RequestRate, w), env, world))
    ensures EvalText(SeriesText(format, svc, item, BurnRate, w), env, world)
         == Div(Lookup(EventName(svc, ErrorRatio, w), env, world), Fin(AllowedErrorRatio(item)))
  {
    hide RenderQuery, UserValue, Parse, Print, IndependentQuery;
    assert IndependentItem(svc, items, item) && LegalItem(svc, item);
    UserInEnv(svc, items, RenderQuery(item.events.value.totalQuery, w), env, world);
    UserInEnv(svc, items, RenderQuery(item.events.value.errorQuery, w), env, world);
    DerivedParses(format, world, svc, item, ErrorRatio, w);
    DerivedParses(format, world, svc, item, BurnRate, w);
    var err, req := Name(EventName(svc, ErrorRate, w)), Name(EventName(svc, RequestRate, w));
    var ratio := Name(EventName(svc, ErrorRatio, w));
    assert DerivedExpr(format, svc, item, ErrorRatio, w) == Bin(DivOp, err, req);
    assert Eval(Bin(DivOp, err, req), env, world) == Div(Eval(err, env, world), Eval(req, env, world));
    var allowed := Num(format(AllowedErrorRatio(item)));
    assert DerivedExpr(format, svc, item, BurnRate, w) == Bin(DivOp, ratio, allowed);
    assert Eval(Bin(DivOp, ratio, allowed), env, world) == Div(Eval(ratio, env, world), Eval(allowed, env, world));
  }

  lemma OwnStored(svc: string, items: seq<SLOItem>, item: SLOItem, s: Series, w: string, env: Env, v: Sample)
    requires item in items && item.events.Some? && s in EventSeries() && Windowed(w) && OwnNames(svc, items, env)
    ensures OwnNames(svc, items, Store(env, EventName(svc, s, w), v))
  {
    assert EventName(svc, s, w) == SeriesName(svc, item, s, w);
    assert s in SeriesOf(item);
    assert Recorded(svc, item, EventName(svc, s, w));
  }

  /** Four different names stored in a row. */
  lemma FourSlots(env: Env, n1: string, v1: Sample, n2: string, v2: Sample, n3: string, v3: Sample, n4: string,
                  v4: Sample, world: World)
    requires n1 != n2 && n1 != n3 && n1 != n4 && n2 != n3 && n2 != n4 && n3 != n4
    ensures var e1 := Store(env, n1, v1);
            var e2 := Store(e1, n2, v2);
            var e3 := Store(e2, n3, v3);
            var e4 := Store(e3, n4, v4);
            Lookup(n1, e2, world) == Slot(e4, n1) == OrElse(Slot(env, n1), v1) &&
            Lookup(n2, e2, world) == Slot(e4, n2) == OrElse(Slot(env, n2), v2) &&
            Lookup(n3, e3, world) == Slot(e4, n3) == OrElse(Slot(env, n3), v3) &&
            Slot(e4, n4) == OrElse(Slot(env, n4), v4)
  {
    hide Store, Slot, OrElse, Lookup;
    var e1 := Store(env, n1, v1);
    var e2 := Store(e1, n2, v2);
    var e3 := Store(e2, n3, v3);
    Stored(env, n1, v1, n2);
    Stored(env, n1, v1, n3);
    Stored(env, n1, v1, n4);
    Stored(e1, n2, v2, n1);
    Stored(e1, n2, v2, n3);
    Stored(e1, n2, v2, n4);
    Stored(e2, n3, v3, n1);
    Stored(e2, n3, v3, n2);
    Stored(e2, n3, v3, n4);
    Stored(e3, n4, v4, n1);
    Stored(e3, n4, v4, n2);
    Stored(e3, n4, v4, n3);
    Present(e2, n1, world);
    Present(e2, n2, world);
    Present(e3, n3, world);
  }

  lemma Present(env: Env, n: string, world: World)
    requires n in env
    ensures Lookup(n, env, world) == Slot(env, n)
  {}

  lemma Extended(before: seq<SLOItem>, item: SLOItem, w: string, world: World)
    requires item.events.Some?
    ensures var all := before + [item];
            FirstErrors(all, w, world)
              == OrElse(FirstErrors(before, w, world),
                        UserValue(RenderQuery(item.events.value.errorQuery, w), world)) &&
            FirstTotals(all, w, world)
              == OrElse(FirstTotals(before, w, world),
                        UserValue(RenderQuery(item.events.value.totalQuery, w), world)) &&
            FirstBurn(all, w, world)
              == OrElse(FirstBurn(before, w, world), Div(FirstRatio(all, w, world), Fin(AllowedErrorRatio(item))))
  {
    hide UserValue, RenderQuery, OrElse, Div, AllowedErrorRatio, FirstRatio;
    assert (before + [item])[..|before|] == before;
  }

  /** The ratio stays the quotient of the two rates. */
  lemma RatioKept(e: Sample, r: Sample, er: Sample, tot: Sample)
    ensures OrElse(Div(e, r), Div(OrElse(e, er), OrElse(r, tot))) == Div(OrElse(e, er), OrElse(r, tot))
  {}

  /** The four rules hand the series on: what has a sample keeps it, what has none takes this item's. */
  lemma FourRules(format: Format, world: World, svc: string, items: seq<SLOItem>, before: seq<SLOItem>, item: SLOItem,
                  w: string, env: Env)
    requires Readable(format, world, svc, items) && item in items && item.events.Some? && Windowed(w)
    requires OwnNames(svc, items, env) && Holds(svc, before, w, env, world)
    ensures Holds(svc, before + [item], w, EvalFour(format, svc, item, w, env, world), world)
  {
    EventNamesDiffer(svc, w);
    var req, err, ratio, burn :=
      EventName(svc, RequestRate, w), EventName(svc, ErrorRate, w), EventName(svc, ErrorRatio, w),
      EventName(svc, BurnRate, w);
    assert req != err && req != ratio && req != burn && err != ratio && err != burn && ratio != burn;
    hide Readable, SeriesText, EventName, UserValue, RenderQuery, Store, Slot, Div, OwnNames, AllowedErrorRatio,
      OrElse, Lookup, FirstErrors, FirstTotals, FirstBurn;
    var v1 := EvalText(SeriesText(format, svc, item, RequestRate, w), env, world);
    var e1 := Store(env, req, v1);
    var v2 := EvalText(SeriesText(format, svc, item, ErrorRate, w), e1, world);
    var e2 := Store(e1, err, v2);
    var v3 := EvalText(SeriesText(format, svc, item, ErrorRatio, w), e2, world);
    var e3 := Store(e2, ratio, v3);
    var v4 := EvalText(SeriesText(format, svc, item, BurnRate, w), e3, world);
    OwnStored(svc, items, item, RequestRate, w, env, v1);
    OwnStored(svc, items, item, ErrorRate, w, e1, v2);
    OwnStored(svc, items, item, ErrorRatio, w, e2, v3);
    EventTexts(format, world, svc, items, item, w, env);
    EventTexts(format, world, svc, items, item, w, e1);
    EventTexts(format, world, svc, items, item, w, e2);
    EventTexts(format, world, svc, items, item, w, e3);
    FourSlots(env, req, v1, err, v2, ratio, v3, burn, v4, world);
    Extended(before, item, w, world);
    RatioKept(FirstErrors(before, w, world), FirstTotals(before, w, world), v2, v1);
  }

  // ------------------------------------------------------------- whole items

  /** Other rules of the group leave the four series of the window alone. */
  predicate Elsewhere(svc: string, w: string, rules: seq<Rule>) {
    forall s :: s in EventSeries() ==> EventName(svc, s, w) !in Records(rules)
  }

  lemma ElsewhereKeeps(svc: string, items: seq<SLOItem>, w: string, rules: seq<Rule>, env: Env, world: World)
    requires Elsewhere(svc, w, rules) && Holds(svc, items, w, env, world)
    ensures Holds(svc, items, w, EvalGroup(rules, env, world), world)
  {
    assert RequestRate in EventSeries() && ErrorRate in EventSeries() && ErrorRatio in EventSeries() &&
           BurnRate in EventSeries();
    forall s | s in EventSeries()
      ensures Slot(EvalGroup(rules, env, world), EventName(svc, s, w)) == Slot(env, EventName(svc, s, w))
    {
      SlotFrame(rules, env, world, EventName(svc, s, w));
    }
  }

  lemma {:induction false} OwnKept(svc: string, items: seq<SLOItem>, rules: seq<Rule>, env: Env, world: World)
    requires OwnNames(svc, items, env) && forall r :: r in rules ==> Generated(svc, items, r.record)
    ensures OwnNames(svc, items, EvalGroup(rules, env, world))
  {
    if rules != [] {
      assert rules[0] in rules;
      OwnKept(svc, items, rules[1..], Store(env, rules[0].record, EvalText(rules[0].expr, env, world)), world);
    }
  }

  /** Raw series and series of other windows have other names. */
  lemma OtherSeries(svc: string, item: SLOItem, s: Series, v: string, w: string)
    requires Windowed(v) && Windowed(w) && (IsRaw(s) || v != w)
    ensures forall t :: t in EventSeries() ==> EventName(svc, t, w) != SeriesName(svc, item, s, v)
  {
    forall t | t in EventSeries() ensures EventName(svc, t, w) != SeriesName(svc, item, s, v) {
      NameInjective(svc, item, t, w, item, s, v);
      assert EventName(svc, t, w) == SeriesName(svc, item, t, w);
    }
  }

  lemma OtherWindow(format: Format, svc: string, item: SLOItem, v: string, w: string)
    requires Windowed(v) && Windowed(w) && v != w
    ensures Elsewhere(svc, w, WindowRules(format, svc, item, v))
  {
    hide SeriesName, SeriesText, EventName, EventSeries;
    var ss, rules := SeriesOf(item), WindowRules(format, svc, item, v);
    forall s | s in EventSeries() ensures EventName(svc, s, w) !in Records(rules) {
      forall k | 0 <= k < |ss| ensures rules[k].record != EventName(svc, s, w) { OtherSeries(svc, item, ss[k], v, w); }
    }
  }

  /** The rules of the window itself: the event part hands on, the raw part stays away. */
  lemma SameWindow(format: Format, world: World, svc: string, items: seq<SLOItem>, before: seq<SLOItem>, item: SLOItem,
                   w: string, env: Env)
    requires Readable(format, world, svc, items) && item in items && Windowed(w)
    requires OwnNames(svc, items, env) && Holds(svc, before, w, env, world)
    ensures Holds(svc, before + [item], w, EvalGroup(WindowRules(format, svc, item, w), env, world), world)
  {
    hide Readable, WindowRules, EventRules, RawRules, OwnNames, Holds, Elsewhere, EvalGroup, EvalFour;
    var four := EventRules(format, svc, item, w);
    var raw := RawRules(format, svc, item, w);
    WindowSplits(format, svc, item, w);
    EvalConcat(four, raw, env, world);
    var env1 := EvalGroup(four, env, world);
    if item.events.None? {
      NoEventRules(format, svc, item, w, env, world);
      NoEvents(svc, before, item, w, env, world);
    } else {
      FourIsGroup(format, svc, item, w, env, world);
      FourRules(format, world, svc, items, before, item, w, env);
    }
    RawElsewhere(format, svc, item, w);
    ElsewhereKeeps(svc, before + [item], w, raw, env1, world);
  }

  lemma WindowSplits(format: Format, svc: string, item: SLOItem, w: string)
    ensures WindowRules(format, svc, item, w) == EventRules(format, svc, item, w) + RawRules(format, svc, item, w)
  {
    hide SeriesRule;
  }

  lemma NoEventRules(format: Format, svc: string, item: SLOItem, w: string, env: Env, world: World)
    requires item.events.None?
    ensures EvalGroup(EventRules(format, svc, item, w), env, world) == env
  {}

  function EventRules(format: Format, svc: string, item: SLOItem, w: string): seq<Rule> {
    if item.events.None? then []
    else [SeriesRule(format, svc, item, RequestRate, w), SeriesRule(format, svc, item, ErrorRate, w),
          SeriesRule(format, svc, item, ErrorRatio, w), SeriesRule(format, svc, item, BurnRate, w)]
  }

  function RawRules(format: Format, svc: string, item: SLOItem, w: string): seq<Rule> {
    if item.raw.None? then []
    else [SeriesRule(format, svc, item, RawRatio, w), SeriesRule(format, svc, item, RawBurn, w)]
  }

  lemma FourIsGroup(format: Format, svc: string, item: SLOItem, w: string, env: Env, world: World)
    requires item.events.Some?
    ensures EvalGroup(EventRules(format, svc, item, w), env, world) == EvalFour(format, svc, item, w, env, world)
  {
    hide SeriesText, EvalText, Store;
    var r := EventRules(format, svc, item, w);
    assert r[1..] == [r[1], r[2], r[3]] && r[1..][1..] == [r[2], r[3]] && r[1..][1..][1..] == [r[3]];
    var e1 := Store(env, r[0].record, EvalText(r[0].expr, env, world));
    var e2 := Store(e1, r[1].record, EvalText(r[1].expr, e1, world));
    var e3 := Store(e2, r[2].record, EvalText(r[2].expr, e2, world));
    var e4 := Store(e3, r[3].record, EvalText(r[3].expr, e3, world));
    assert EvalGroup([r[3]], e3, world) == EvalGroup([], e4, world) == e4;
    assert EvalGroup([r[2], r[3]], e2, world) == EvalGroup([r[3]], e3, world);
    assert EvalGroup([r[1], r[2], r[3]], e1, world) == EvalGroup([r[2], r[3]], e2, world);
  }

  lemma NoEvents(svc: string, before: seq<SLOItem>, item: SLOItem, w: string, env: Env, world: World)
    requires item.events.None? && Holds(svc, before, w, env, world)
    ensures Holds(svc, before + [item], w, env, world)
  {
    hide EventName, UserValue, RenderQuery, Slot, Div;
    assert (before + [item])[..|before|] == before;
  }

  lemma RawElsewhere(format: Format, svc: string, item: SLOItem, w: string)
    requires Windowed(w)
    ensures Elsewhere(svc, w, RawRules(format, svc, item, w))
  {
    hide SeriesName, SeriesText, EventName, EventSeries;
    OtherSeries(svc, item, RawRatio, w, w);
    OtherSeries(svc, item, RawBurn, w, w);
  }

  lemma WindowGenerated(format: Format, svc: string, items: seq<SLOItem>, item: SLOItem, w: string)
    requires item in items && Windowed(w)
    ensures forall r :: r in WindowRules(format, svc, item, w) ==> Generated(svc, items, r.record)
  {
    hide SeriesName, SeriesText;
    forall r | r in WindowRules(format, svc, item, w) ensures Generated(svc, items, r.record) {
      WindowRulesMembers(format, svc, item, w, r);
      var s :| s in SeriesOf(item) && r == SeriesRule(format, svc, item, s, w);
      assert Recorded(svc, item, r.record);
    }
  }

  /** All windows of an item: the turn of w hands its series on, the other turns leave them alone. */
  lemma {:induction false} WindowsHold(format: Format, world: World, svc: string, items: seq<SLOItem>,
                                       before: seq<SLOItem>, item: SLOItem, ws: seq<string>, w: string, env: Env)
    requires Readable(format, world, svc, items) && item in items && Windowed(w)
    requires forall v :: v in ws ==> Windowed(v)
    requires forall i, j :: 0 <= i < j < |ws| ==> ws[i] != ws[j]
    requires OwnNames(svc, items, env) && Holds(svc, before, w, env, world)
    ensures var after := EvalGroup(ItemWindows(format, svc, item, ws), env, world);
            OwnNames(svc, items, after) && Holds(svc, if w in ws then before + [item] else before, w, after, world)
  {
    hide Readable, WindowRules, OwnNames, Holds, Elsewhere;
    if ws != [] {
      var n := |ws| - 1;
      var a, b := ItemWindows(format, svc, item, ws[..n]), WindowRules(format, svc, item, ws[n]);
      var mid := EvalGroup(a, env, world);
      WindowsHold(format, world, svc, items, before, item, ws[..n], w, env);
      EvalConcat(a, b, env, world);
      WindowGenerated(format, svc, items, item, ws[n]);
      OwnKept(svc, items, b, mid, world);
      SplitLast(ws);
      if w == ws[n] {
        SameWindow(format, world, svc, items, before, item, w, mid);
      } else {
        OtherWindow(format, svc, item, ws[n], w);
        ElsewhereKeeps(svc, if w in ws[..n] then before + [item] else before, w, b, mid, world);
      }
    }
  }

  lemma ItemHolds(format: Format, world: World, svc: string, items: seq<SLOItem>, before: seq<SLOItem>, item: SLOItem,
                  w: string, env: Env)
    requires Readable(format, world, svc, items) && item in items && Windowed(w)
    requires OwnNames(svc, items, env) && Holds(svc, before, w, env, world)
    ensures var after := EvalGroup(ItemRules(format, svc, item), env, world);
            OwnNames(svc, items, after) && Holds(svc, before + [item], w, after, world)
  {
    var a := ItemWindows(format, svc, item, RECORDING_WINDOWS);
    var b := if IsLatency(item) then [LatencyRule(svc)] else [];
    hide Readable, ItemWindows, OwnNames, Holds, Elsewhere, EvalGroup, IsLatency;
    WindowsHold(format, world, svc, items, before, item, RECORDING_WINDOWS, w, env);
    EvalConcat(a, b, env, world);
    LatencyElsewhere(svc, items, item, w, b);
    OwnKept(svc, items, b, EvalGroup(a, env, world), world);
    ElsewhereKeeps(svc, before + [item], w, b, EvalGroup(a, env, world), world);
  }

  lemma LatencyElsewhere(svc: string, items: seq<SLOItem>, item: SLOItem, w: string, rules: seq<Rule>)
    requires item in items && rules == if IsLatency(item) then [LatencyRule(svc)] else []
    ensures Elsewhere(svc, w, rules) && forall r :: r in rules ==> Generated(svc, items, r.record)
  {
    forall s | s in EventSeries() ensures EventName(svc, s, w) != LatencyName(svc) {
      LatencyApart(svc, item, s, w);
      assert EventName(svc, s, w) == SeriesName(svc, item, s, w);
    }
    if IsLatency(item) { assert Recorded(svc, item, LatencyName(svc)); }
  }

  lemma {:induction false} GroupHolds(format: Format, world: World, svc: string, items: seq<SLOItem>, k: nat, w: string)
    requires Readable(format, world, svc, items) && Windowed(w) && k <= |items|
    ensures var env := Recordings(format, world, svc, items[..k]);
            OwnNames(svc, items, env) && Holds(svc, items[..k], w, env, world)
  {
    if k > 0 {
      hide Readable, OwnNames, Holds, ItemRules;
      var n := k - 1;
      assert items[..k][..n] == items[..n] && items[..k] == items[..n] + [items[n]];
      GroupHolds(format, world, svc, items, n, w);
      EvalConcat(RecordingRules(format, svc, items[..n]), ItemRules(format, svc, items[n]), map[], world);
      ItemHolds(format, world, svc, items, items[..n], items[n], w, Recordings(format, world, svc, items[..n]));
    } else {
      assert items[..0] == [];
    }
  }

  // ------------------------------------------------------------- who owns what

  /**
   For any list of items, competing or not: each of an event item's series over a window holds the first sample that
   an event item gives it; the ratio is the quotient of those, and the burn is the ratio over the allowance of the
   item that completes it.
   */
  lemma EventOwners(format: Format, world: World, svc: string, items: seq<SLOItem>, item: SLOItem, w: string)
    requires Readable(format, world, svc, items) && item in items && item.events.Some? && Windowed(w)
    ensures var env := Recordings(format, world, svc, items);
            Lookup(SeriesName(svc, item, ErrorRate, w), env, world) == FirstErrors(items, w, world) &&
            Lookup(SeriesName(svc, item, RequestRate, w), env, world) == FirstTotals(items, w, world) &&
            Lookup(SeriesName(svc, item, ErrorRatio, w), env, world) == FirstRatio(items, w, world) &&
            Lookup(SeriesName(svc, item, BurnRate, w), env, world) == FirstBurn(items, w, world)
  {
    hide Readable, Recordings, SeriesName, EventName, SeriesOf, Slot, Lookup, FirstErrors, FirstTotals, FirstRatio,
      FirstBurn;
    GroupHolds(format, world, svc, items, |items|, w);
    assert items[..|items|] == items;
    EventSeriesRecorded(item);
    WrittenSeries(format, world, svc, items, item, ErrorRate, w);
    EventNameIs(svc, item, ErrorRate, w);
    WrittenSeries(format, world, svc, items, item, RequestRate, w);
    EventNameIs(svc, item, RequestRate, w);
    WrittenSeries(format, world, svc, items, item, ErrorRatio, w);
    EventNameIs(svc, item, ErrorRatio, w);
    WrittenSeries(format, world, svc, items, item, BurnRate, w);
    EventNameIs(svc, item, BurnRate, w);
  }

  lemma EventSeriesRecorded(item: SLOItem)
    requires item.events.Some?
    ensures RequestRate in SeriesOf(item) && ErrorRate in SeriesOf(item)
    ensures ErrorRatio in SeriesOf(item) && BurnRate in SeriesOf(item)
  {
    var ss := SeriesOf(item);
    assert ss[0] == RequestRate && ss[1] == ErrorRate && ss[2] == ErrorRatio && ss[3] == BurnRate;
  }

  lemma WrittenSeries(format: Format, world: World, svc: string, items: seq<SLOItem>, item: SLOItem, s: Series,
                      w: string)
    requires item in items && s in SeriesOf(item) && Windowed(w)
    ensures var env, n := Recordings(format, world, svc, items), SeriesName(svc, item, s, w);
            Lookup(n, env, world) == Slot(env, n)
  {
    var r := SeriesRule(format, svc, item, s, w);
    hide SeriesName, SeriesText;
    assert RuleOfItem(format, svc, item, r);
    RecordingMembers(format, svc, items, r);
    RecordedIsWritten(RecordingRules(format, svc, items), map[], world, r);
  }

  lemma EventNameIs(svc: string, item: SLOItem, s: Series, w: string)
    requires !IsRaw(s)
    ensures EventName(svc, s, w) == SeriesName(svc, item, s, w)
  {}

  lemma {:induction false} RecordedIsWritten(rules: seq<Rule>, env: Env, world: World, r: Rule)
    requires r in rules || r.record in env
    ensures r.record in EvalGroup(rules, env, world)
  {
    if rules != [] {
      RecordedIsWritten(rules[1..], Store(env, rules[0].record, EvalText(rules[0].expr, env, world)), world, r);
    }
  }

  /** The burn belongs to the first item by which both rates have a sample. */
  lemma {:induction false} BurnOwner(items: seq<SLOItem>, w: string, world: World, k: nat)
    requires k < |items| && FirstRatio(items[..k], w, world) == Absent && FirstRatio(items[..k + 1], w, world) != Absent
    ensures items[k].events.Some?
    ensures FirstRatio(items, w, world) == FirstRatio(items[..k + 1], w, world)
    ensures FirstBurn(items, w, world) == Div(FirstRatio(items, w, world), Fin(AllowedErrorRatio(items[k])))
  {
    hide UserValue, RenderQuery;
    var n := |items| - 1;
    if k == n {
      assert items[..k + 1] == items;
      NoBurnYet(items[..k], w, world);
    } else {
      assert items[..n][..k] == items[..k] && items[..n][..k + 1] == items[..k + 1];
      BurnOwner(items[..n], w, world, k);
    }
  }

  lemma {:induction false} NoBurnYet(items: seq<SLOItem>, w: string, world: World)
    requires FirstRatio(items, w, world) == Absent
    ensures FirstBurn(items, w, world) == Absent
  {
    hide UserValue, RenderQuery;
    if items != [] { NoBurnYet(items[..|items| - 1], w, world); }
  }

  /** If the first event item has both samples, it owns all four series: every event item's alerts read its burn. */
  lemma FirstItemOwns(format: Format, world: World, svc: string, items: seq<SLOItem>, item: SLOItem, w: string, k: nat)
    requires Readable(format, world, svc, items) && item in items && item.events.Some? && Windowed(w)
    requires k < |items| && items[k].events.Some? && forall i :: 0 <= i < k ==> items[i].events.None?
    requires SpecRatio(items[k], w, world) != Absent
    ensures Lookup(SeriesName(svc, item, BurnSeries(item), w), Recordings(format, world, svc, items), world)
         == SpecBurn(items[k], w, world)
  {
    EventOwners(format, world, svc, items, item, w);
    hide UserValue, RenderQuery, Recordings, SeriesName, Readable;
    NoneBefore(items[..k], w, world);
    assert items[..k + 1][..k] == items[..k] && items[..k + 1][k] == items[k];
    assert FirstRatio(items[..k + 1], w, world) == SpecRatio(items[k], w, world);
    BurnOwner(items, w, world, k);
  }

  lemma {:induction false} NoneBefore(items: seq<SLOItem>, w: string, world: World)
    requires forall i :: 0 <= i < |items| ==> items[i].events.None?
    ensures FirstErrors(items, w, world) == FirstTotals(items, w, world) == Absent
  {
    if items != [] { NoneBefore(items[..|items| - 1], w, world); }
  }

  // ------------------------------------------------------------- which alerts fire

  /** When a tier's alert is due by the burn that the event items share: one burn, each item's own threshold. */
  predicate SharedDue(items: seq<SLOItem>, item: SLOItem, tier: Tier, world: World)
    requires tier != Budget ==> Enabled(item, tier)
  {
    if tier == Budget then Above(FirstBurn(items, "1d", world), Fin(BUDGET_THRESHOLD))
    else
      var t := TierSpec(item, tier).value;
      forall w :: w in ChosenWindows(t, tier) ==> Above(FirstBurn(items, w, world), Fin(ChosenThreshold(t, tier)))
  }

  lemma CompetingTier(format: Format, world: World, spec: SLOSpec, item: SLOItem, tier: Tier)
    requires Readable(format, world, spec.service, spec.slos) && item in spec.slos && item.events.Some?
    requires AlertsSound(format, world, item) && tier != Budget && Enabled(item, tier)
    ensures Fires(TierRule(format, spec, item, tier), Recordings(format, world, spec.service, spec.slos), world) <==>
            SharedDue(spec.slos, item, tier, world)
  {
    var env := Recordings(format, world, spec.service, spec.slos);
    assert LegalItem(spec.service, item);
    hide Readable, Recordings, FirstBurn, FirstErrors, FirstTotals, FirstRatio, SeriesName, Fires, TierRule, Exact,
      LegalItem;
    forall w | w in ChosenWindows(TierSpec(item, tier).value, tier)
      ensures NameChars(w)
      ensures Lookup(SeriesName(spec.service, item, BurnSeries(item), w), env, world) == FirstBurn(spec.slos, w, world)
    {
      WindowFacts(w);
      EventOwners(format, world, spec.service, spec.slos, item, w);
    }
    AlertReads(format, world, spec, item, tier, env);
  }

  lemma CompetingBudget(format: Format, world: World, spec: SLOSpec, item: SLOItem)
    requires Readable(format, world, spec.service, spec.slos) && item in spec.slos && item.events.Some?
    requires Exact(format, world, BUDGET_THRESHOLD)
    ensures Fires(BudgetRule(format, spec, item), Recordings(format, world, spec.service, spec.slos), world) <==>
            SharedDue(spec.slos, item, Budget, world)
  {
    var env := Recordings(format, world, spec.service, spec.slos);
    assert LegalItem(spec.service, item);
    hide Readable, Recordings, FirstBurn, FirstErrors, FirstTotals, FirstRatio, SeriesName, Fires, BudgetRule, Exact,
      LegalItem;
    EventOwners(format, world, spec.service, spec.slos, item, "1d");
    BudgetReads(format, world, spec, item, env);
  }

  /** The alert theorem for any list of items: an event item's rules fire iff they are due by the shared burn. */
  lemma CompetingAlertFires(format: Format, world: World, spec: SLOSpec, item: SLOItem, tier: Tier, r: Rule)
    requires Readable(format, world, spec.service, spec.slos) && item in spec.slos && item.events.Some?
    requires AlertsSound(format, world, item) && AlertOf(format, spec, item, tier, r)
    ensures Fires(r, Recordings(format, world, spec.service, spec.slos), world) <==>
            SharedDue(spec.slos, item, tier, world)
  {
    hide Readable, Recordings, Fires, TierRule, BudgetRule, SharedDue, Exact;
    if tier == Budget { CompetingBudget(format, world, spec, item); }
    else { CompetingTier(format, world, spec, item, tier); }
  }

  /** The windows that a tier's alert looks at. */
  function WindowsOf(item: SLOItem, tier: Tier): seq<string>
    requires tier != Budget ==> Enabled(item, tier)
  {
    if tier == Budget then ["1d"] else ChosenWindows(TierSpec(item, tier).value, tier)
  }

  function ThresholdOf(item: SLOItem, tier: Tier): real
    requires tier != Budget ==> Enabled(item, tier)
  {
    if tier == Budget then BUDGET_THRESHOLD else ChosenThreshold(TierSpec(item, tier).value, tier)
  }

  /** Where the first event item has samples, every event item's alerts follow the first one's burn, not their own. */
  lemma FirstItemDecides(format: Format, world: World, spec: SLOSpec, item: SLOItem, tier: Tier, r: Rule, k: nat)
    requires Readable(format, world, spec.service, spec.slos) && item in spec.slos && item.events.Some?
    requires AlertsSound(format, world, item) && AlertOf(format, spec, item, tier, r)
    requires k < |spec.slos| && spec.slos[k].events.Some? && forall i :: 0 <= i < k ==> spec.slos[i].events.None?
    requires forall w :: w in WindowsOf(item, tier) ==> SpecRatio(spec.slos[k], w, world) != Absent
    ensures Fires(r, Recordings(format, world, spec.service, spec.slos), world) <==>
            forall w :: w in WindowsOf(item, tier) ==>
              Above(SpecBurn(spec.slos[k], w, world), Fin(ThresholdOf(item, tier)))
  {
    hide Readable, Recordings, Fires, TierRule, BudgetRule, FirstBurn, SpecBurn, SpecRatio, SeriesName, Exact;
    CompetingAlertFires(format, world, spec, item, tier, r);
    forall w | w in WindowsOf(item, tier) ensures FirstBurn(spec.slos, w, world) == SpecBurn(spec.slos[k], w, world) {
      assert Windowed(w);
      EventOwners(format, world, spec.service, spec.slos, item, w);
      FirstItemOwns(format, world, spec.service, spec.slos, item, w, k);
    }
    assert "1d" in ["1d"];
  }

  // ------------------------------------------------------------------ raw items

  function RawName(svc: string, s: Series, z: string, w: string): string { svc + Family(s) + (z + w) }

  predicate Spells(item: SLOItem, z: string) { item.raw.Some? && Sanitize(item.name) == z }

  function RawValue(item: SLOItem, w: string, world: World): Sample
    requires item.raw.Some?
  {
    UserValue(RenderQuery(item.raw.value.errorRatioQuery, w), world)
  }

  /** The first sample that a raw item of this sanitized name has over w. */
  function FirstRaw(items: seq<SLOItem>, z: string, w: string, world: World): Sample {
    if items == [] then Absent
    else
      var last := items[|items| - 1];
      OrElse(FirstRaw(items[..|items| - 1], z, w, world), if Spells(last, z) then RawValue(last, w, world) else Absent)
  }

  function FirstRawBurn(items: seq<SLOItem>, z: string, w: string, world: World): Sample {
    if items == [] then Absent
    else
      var last := items[|items| - 1];
      OrElse(FirstRawBurn(items[..|items| - 1], z, w, world),
             if Spells(last, z) then Div(RawValue(last, w, world), Fin(AllowedErrorRatio(last))) else Absent)
  }

  lemma {:induction false} RawTogether(items: seq<SLOItem>, z: string, w: string, world: World)
    ensures FirstRawBurn(items, z, w, world) == Absent <==> FirstRaw(items, z, w, world) == Absent
  {
    if items != [] {
      RawTogether(items[..|items| - 1], z, w, world);
    }
  }

  predicate HoldsRaw(svc: string, items: seq<SLOItem>, z: string, w: string, env: Env, world: World) {
    Slot(env, RawName(svc, RawRatio, z, w)) == FirstRaw(items, z, w, world) &&
    Slot(env, RawName(svc, RawBurn, z, w)) == FirstRawBurn(items, z, w, world)
  }

  predicate RawElsewhereFor(svc: string, z: string, w: string, rules: seq<Rule>) {
    RawName(svc, RawRatio, z, w) !in Records(rules) && RawName(svc, RawBurn, z, w) !in Records(rules)
  }

  lemma RawKept(svc: string, items: seq<SLOItem>, z: string, w: string, rules: seq<Rule>, env: Env, world: World)
    requires RawElsewhereFor(svc, z, w, rules) && HoldsRaw(svc, items, z, w, env, world)
    ensures HoldsRaw(svc, items, z, w, EvalGroup(rules, env, world), world)
  {
    hide RawName, Slot, EvalGroup;
    SlotFrame(rules, env, world, RawName(svc, RawRatio, z, w));
    SlotFrame(rules, env, world, RawName(svc, RawBurn, z, w));
  }

  /** A record has the raw name of an item over w only if it is that raw series of an item that sanitizes alike. */
  lemma RawNameOf(svc: string, item: SLOItem, s: Series, v: string, key: SLOItem, w: string, t: Series)
    requires Windowed(v) && Windowed(w) && IsRaw(t) &&
             RawName(svc, t, Sanitize(key.name), w) == SeriesName(svc, item, s, v)
    ensures s == t && v == w && Sanitize(item.name) == Sanitize(key.name)
  {
    assert RawName(svc, t, Sanitize(key.name), w) == SeriesName(svc, key, t, w);
    NameInjective(svc, key, t, w, item, s, v);
  }

  lemma RawTexts(format: Format, world: World, svc: string, items: seq<SLOItem>, item: SLOItem, w: string, env: Env)
    requires Readable(format, world, svc, items) && item in items && item.raw.Some? && Windowed(w) &&
             OwnNames(svc, items, env)
    ensures EvalText(SeriesText(format, svc, item, RawRatio, w), env, world) == RawValue(item, w, world)
    ensures EvalText(SeriesText(format, svc, item, RawBurn, w), env, world)
         == Div(Lookup(SeriesName(svc, item, RawRatio, w), env, world), Fin(AllowedErrorRatio(item)))
  {
    hide RenderQuery, UserValue, Parse, Print, IndependentQuery, SeriesName;
    assert IndependentItem(svc, items, item) && LegalItem(svc, item);
    UserInEnv(svc, items, RenderQuery(item.raw.value.errorRatioQuery, w), env, world);
    DerivedParses(format, world, svc, item, RawBurn, w);
    var ratio, allowed := Name(SeriesName(svc, item, RawRatio, w)), Num(format(AllowedErrorRatio(item)));
    assert Eval(Bin(DivOp, ratio, allowed), env, world) == Div(Eval(ratio, env, world), Eval(allowed, env, world));
  }

  /** The two rules of one raw item and window, evaluated in a row. */
  function EvalTwo(format: Format, svc: string, item: SLOItem, w: string, env: Env, world: World): Env
    requires item.raw.Some?
  {
    var e1 := Store(env, SeriesName(svc, item, RawRatio, w),
                    EvalText(SeriesText(format, svc, item, RawRatio, w), env, world));
    Store(e1, SeriesName(svc, item, RawBurn, w), EvalText(SeriesText(format, svc, item, RawBurn, w), e1, world))
  }

  lemma TwoIsGroup(format: Format, svc: string, item: SLOItem, w: string, env: Env, world: World)
    requires item.raw.Some?
    ensures EvalGroup(RawRules(format, svc, item, w), env, world) == EvalTwo(format, svc, item, w, env, world)
  {
    hide SeriesText, EvalText, Store, SeriesName;
    var r := RawRules(format, svc, item, w);
    var e1 := Store(env, r[0].record, EvalText(r[0].expr, env, world));
    assert r[1..] == [r[1]] && [r[1]][1..] == [];
    assert EvalGroup([r[1]], e1, world) == EvalGroup([], Store(e1, r[1].record, EvalText(r[1].expr, e1, world)), world);
  }

  lemma TwoSlots(env: Env, n1: string, v1: Sample, n2: string, v2: Sample, world: World)
    requires n1 != n2
    ensures var e1 := Store(env, n1, v1);
            var e2 := Store(e1, n2, v2);
            Lookup(n1, e1, world) == Slot(e2, n1) == OrElse(Slot(env, n1), v1) &&
            Slot(e2, n2) == OrElse(Slot(env, n2), v2)
  {}

  lemma TwoRules(format: Format, world: World, svc: string, items: seq<SLOItem>, before: seq<SLOItem>, item: SLOItem,
                 z: string, w: string, env: Env)
    requires Readable(format, world, svc, items) && item in items && Spells(item, z) && Windowed(w)
    requires OwnNames(svc, items, env) && HoldsRaw(svc, before, z, w, env, world)
    ensures HoldsRaw(svc, before + [item], z, w, EvalTwo(format, svc, item, w, env, world), world)
  {
    var n1, n2 := SeriesName(svc, item, RawRatio, w), SeriesName(svc, item, RawBurn, w);
    assert n1 == RawName(svc, RawRatio, z, w) && n2 == RawName(svc, RawBurn, z, w);
    NameInjective(svc, item, RawRatio, w, item, RawBurn, w);
    RawTogether(before, z, w, world);
    assert (before + [item])[..|before|] == before;
    EventTwoStored(svc, items, item, w, env, EvalText(SeriesText(format, svc, item, RawRatio, w), env, world));
    hide Readable, SeriesText, SeriesName, RawName, RawValue, Store, Slot, OwnNames, AllowedErrorRatio, Lookup;
    RawTexts(format, world, svc, items, item, w, env);
    var v1 := EvalText(SeriesText(format, svc, item, RawRatio, w), env, world);
    var e1 := Store(env, n1, v1);
    RawTexts(format, world, svc, items, item, w, e1);
    TwoSlots(env, n1, v1, n2, EvalText(SeriesText(format, svc, item, RawBurn, w), e1, world), world);
  }

  lemma EventTwoStored(svc: string, items: seq<SLOItem>, item: SLOItem, w: string, env: Env, v: Sample)
    requires item in items && item.raw.Some? && Windowed(w) && OwnNames(svc, items, env)
    ensures OwnNames(svc, items, Store(env, SeriesName(svc, item, RawRatio, w), v))
  {
    assert RawRatio in SeriesOf(item) by { RawSeriesRecorded(item); }
    assert Recorded(svc, item, SeriesName(svc, item, RawRatio, w));
  }

  lemma RawSeriesRecorded(item: SLOItem)
    requires item.raw.Some?
    ensures RawRatio in SeriesOf(item) && RawBurn in SeriesOf(item)
  {
    var ss := SeriesOf(item);
    assert ss[|ss| - 2] == RawRatio && ss[|ss| - 1] == RawBurn;
  }

  predicate RawRival(item: SLOItem, v: string, key: SLOItem, w: string) {
    v == w && Sanitize(item.name) == Sanitize(key.name)
  }

  lemma RawOtherRules(format: Format, svc: string, key: SLOItem, w: string, item: SLOItem, v: string, rules: seq<Rule>)
    requires Windowed(v) && Windowed(w)
    requires forall r :: r in rules ==>
      exists s :: s in SeriesOf(item) && r == SeriesRule(format, svc, item, s, v) &&
        (IsRaw(s) ==> !RawRival(item, v, key, w))
    ensures RawElsewhereFor(svc, Sanitize(key.name), w, rules)
  {
    hide SeriesName, SeriesText, RawName, Sanitize;
    forall r, t | r in rules && t in {RawRatio, RawBurn} ensures r.record != RawName(svc, t, Sanitize(key.name), w) {
      var s :| s in SeriesOf(item) && r == SeriesRule(format, svc, item, s, v) &&
               (IsRaw(s) ==> !RawRival(item, v, key, w));
      if r.record == RawName(svc, t, Sanitize(key.name), w) { RawNameOf(svc, item, s, v, key, w, t); }
    }
    assert RawRatio in {RawRatio, RawBurn} && RawBurn in {RawRatio, RawBurn};
  }

  /** The turn of one window of one item. */
  lemma RawWindow(format: Format, world: World, svc: string, items: seq<SLOItem>, before: seq<SLOItem>, item: SLOItem,
                  key: SLOItem, v: string, w: string, env: Env)
    requires Readable(format, world, svc, items) && item in items && Windowed(v) && Windowed(w)
    requires OwnNames(svc, items, env) && HoldsRaw(svc, before, Sanitize(key.name), w, env, world)
    ensures HoldsRaw(svc, if v == w then before + [item] else before, Sanitize(key.name), w,
                     EvalGroup(WindowRules(format, svc, item, v), env, world), world)
  {
    var z := Sanitize(key.name);
    hide Readable, OwnNames, HoldsRaw, RawElsewhereFor, EvalGroup, Sanitize, SeriesName, SeriesText, EvalTwo;
    if v == w && Spells(item, z) {
      var four, raw := EventRules(format, svc, item, v), RawRules(format, svc, item, v);
      WindowSplits(format, svc, item, v);
      EvalConcat(four, raw, env, world);
      EventRulesAre(format, svc, item, v);
      RawOtherRules(format, svc, key, w, item, v, four);
      RawKept(svc, before, z, w, four, env, world);
      EventsGenerated(format, svc, items, item, v);
      OwnKept(svc, items, four, env, world);
      TwoIsGroup(format, svc, item, v, EvalGroup(four, env, world), world);
      TwoRules(format, world, svc, items, before, item, z, w, EvalGroup(four, env, world));
    } else {
      WindowRulesAre(format, svc, item, v);
      RawOtherRules(format, svc, key, w, item, v, WindowRules(format, svc, item, v));
      RawKept(svc, before, z, w, WindowRules(format, svc, item, v), env, world);
      if v == w {
        NotSpelled(svc, before, item, z, w, EvalGroup(WindowRules(format, svc, item, v), env, world), world);
      }
    }
  }

  lemma NotSpelled(svc: string, before: seq<SLOItem>, item: SLOItem, z: string, w: string, env: Env, world: World)
    requires !Spells(item, z) && HoldsRaw(svc, before, z, w, env, world)
    ensures HoldsRaw(svc, before + [item], z, w, env, world)
  {
    hide RawName, RawValue, Slot, Div;
    assert (before + [item])[..|before|] == before;
  }

  lemma EventRulesAre(format: Format, svc: string, item: SLOItem, v: string)
    ensures forall r :: r in EventRules(format, svc, item, v) ==>
              exists s :: s in SeriesOf(item) && r == SeriesRule(format, svc, item, s, v) && !IsRaw(s)
  {
    hide SeriesRule;
    if item.events.Some? { EventSeriesRecorded(item); }
  }

  lemma WindowRulesAre(format: Format, svc: string, item: SLOItem, v: string)
    ensures forall r :: r in WindowRules(format, svc, item, v) ==>
              exists s :: s in SeriesOf(item) && r == SeriesRule(format, svc, item, s, v) &&
                (IsRaw(s) ==> item.raw.Some?)
  {
    hide SeriesRule;
    forall r | r in WindowRules(format, svc, item, v)
      ensures exists s ::
                s in SeriesOf(item) && r == SeriesRule(format, svc, item, s, v) && (IsRaw(s) ==> item.raw.Some?)
    {
      WindowRulesMembers(format, svc, item, v, r);
    }
  }

  lemma EventsGenerated(format: Format, svc: string, items: seq<SLOItem>, item: SLOItem, v: string)
    requires item in items && Windowed(v)
    ensures forall r :: r in EventRules(format, svc, item, v) ==> Generated(svc, items, r.record)
  {
    hide SeriesName, SeriesText;
    WindowSplits(format, svc, item, v);
    WindowGenerated(format, svc, items, item, v);
    assert forall r :: r in EventRules(format, svc, item, v) ==> r in WindowRules(format, svc, item, v);
  }

  lemma {:induction false} RawWindowsHold(format: Format, world: World, svc: string, items: seq<SLOItem>,
                                          before: seq<SLOItem>, item: SLOItem, key: SLOItem, ws: seq<string>,
                                          w: string, env: Env)
    requires Readable(format, world, svc, items) && item in items && Windowed(w)
    requires forall v :: v in ws ==> Windowed(v)
    requires forall i, j :: 0 <= i < j < |ws| ==> ws[i] != ws[j]
    requires OwnNames(svc, items, env) && HoldsRaw(svc, before, Sanitize(key.name), w, env, world)
    ensures var after := EvalGroup(ItemWindows(format, svc, item, ws), env, world);
            OwnNames(svc, items, after) &&
            HoldsRaw(svc, if w in ws then before + [item] else before, Sanitize(key.name), w, after, world)
  {
    hide Readable, WindowRules, OwnNames, HoldsRaw, Sanitize;
    if ws != [] {
      var n := |ws| - 1;
      var a, b := ItemWindows(format, svc, item, ws[..n]), WindowRules(format, svc, item, ws[n]);
      var mid := EvalGroup(a, env, world);
      RawWindowsHold(format, world, svc, items, before, item, key, ws[..n], w, env);
      EvalConcat(a, b, env, world);
      WindowGenerated(format, svc, items, item, ws[n]);
      OwnKept(svc, items, b, mid, world);
      SplitLast(ws);
      RawWindow(format, world, svc, items, if w in ws[..n] then before + [item] else before, item, key, ws[n], w, mid);
    }
  }

  lemma RawItemHolds(format: Format, world: World, svc: string, items: seq<SLOItem>, before: seq<SLOItem>,
                     item: SLOItem, key: SLOItem, w: string, env: Env)
    requires Readable(format, world, svc, items) && item in items && Windowed(w)
    requires OwnNames(svc, items, env) && HoldsRaw(svc, before, Sanitize(key.name), w, env, world)
    ensures var after := EvalGroup(ItemRules(format, svc, item), env, world);
            OwnNames(svc, items, after) && HoldsRaw(svc, before + [item], Sanitize(key.name), w, after, world)
  {
    var a := ItemWindows(format, svc, item, RECORDING_WINDOWS);
    var b := if IsLatency(item) then [LatencyRule(svc)] else [];
    hide Readable, ItemWindows, OwnNames, HoldsRaw, Elsewhere, RawElsewhereFor, EvalGroup, IsLatency, Sanitize;
    RawWindowsHold(format, world, svc, items, before, item, key, RECORDING_WINDOWS, w, env);
    EvalConcat(a, b, env, world);
    LatencyElsewhere(svc, items, item, w, b);
    LatencyNotRaw(svc, key, w, b);
    OwnKept(svc, items, b, EvalGroup(a, env, world), world);
    RawKept(svc, before + [item], Sanitize(key.name), w, b, EvalGroup(a, env, world), world);
  }

  lemma LatencyNotRaw(svc: string, key: SLOItem, w: string, rules: seq<Rule>)
    requires forall r :: r in rules ==> r == LatencyRule(svc)
    ensures RawElsewhereFor(svc, Sanitize(key.name), w, rules)
  {
    hide SeriesName;
    LatencyApart(svc, key, RawRatio, w);
    LatencyApart(svc, key, RawBurn, w);
    RawNames(svc, key, w);
  }

  lemma RawNames(svc: string, key: SLOItem, w: string)
    ensures RawName(svc, RawRatio, Sanitize(key.name), w) == SeriesName(svc, key, RawRatio, w)
    ensures RawName(svc, RawBurn, Sanitize(key.name), w) == SeriesName(svc, key, RawBurn, w)
  {}

  lemma {:induction false} RawGroupHolds(format: Format, world: World, svc: string, items: seq<SLOItem>, k: nat,
                                         key: SLOItem, w: string)
    requires Readable(format, world, svc, items) && Windowed(w) && k <= |items|
    ensures var env := Recordings(format, world, svc, items[..k]);
            OwnNames(svc, items, env) && HoldsRaw(svc, items[..k], Sanitize(key.name), w, env, world)
  {
    if k > 0 {
      hide Readable, OwnNames, HoldsRaw, ItemRules, Sanitize;
      var n := k - 1;
      assert items[..k][..n] == items[..n] && items[..k] == items[..n] + [items[n]];
      RawGroupHolds(format, world, svc, items, n, key, w);
      EvalConcat(RecordingRules(format, svc, items[..n]), ItemRules(format, svc, items[n]), map[], world);
      RawItemHolds(format, world, svc, items, items[..n], items[n], key, w, Recordings(format, world, svc, items[..n]));
    } else {
      assert items[..0] == [];
    }
  }

  /**
   For any list of items: the raw items that sanitize alike share two series, and both hold what the first of them
   with a sample gives.
   */
  lemma RawOwners(format: Format, world: World, svc: string, items: seq<SLOItem>, item: SLOItem, w: string)
    requires Readable(format, world, svc, items) && item in items && item.raw.Some? && Windowed(w)
    ensures var env, z := Recordings(format, world, svc, items), Sanitize(item.name);
            Lookup(SeriesName(svc, item, RawRatio, w), env, world) == FirstRaw(items, z, w, world) &&
            Lookup(SeriesName(svc, item, RawBurn, w), env, world) == FirstRawBurn(items, z, w, world)
  {
    hide Readable, Recordings, SeriesName, RawName, SeriesOf, Slot, Lookup, FirstRaw, FirstRawBurn, Sanitize;
    RawGroupHolds(format, world, svc, items, |items|, item, w);
    assert items[..|items|] == items;
    RawSeriesRecorded(item);
    RawNames(svc, item, w);
    WrittenSeries(format, world, svc, items, item, RawRatio, w);
    WrittenSeries(format, world, svc, items, item, RawBurn, w);
  }
}
