/** What admission does not guarantee: each hypothesis of the compiler theorems, and exactly what happens without it. */
module RuleLimits {
  import opened Samples
  import opened Strings
  import opened PromQL
  import opened SloApi
  import opened RuleGenerator
  import opened RuleNames
  import opened RuleMeaning

  // ------------------------------------------------ the usual specs compile

  lemma {:induction false} LexOccurs(s: string, t: string)
    requires t in Lex(s)
    ensures Contains(s, t)
    decreases |s|
  {
    if Blank(s[0]) {
      LexOccurs(s[1..], t);
    } else {
      var n := WordLength(s);
      if t != s[..n] {
        LexOccurs(s[n..], t);
        ContainsLater(s, n, t);
      }
    }
  }

  lemma {:induction false} NamesAreTokens(e: Expr, n: string)
    requires n in NamesOf(e)
    ensures n in Tokens(e)
  {
    if e.Bin? {
      if n in NamesOf(e.l) { NamesAreTokens(e.l, n); } else { NamesAreTokens(e.r, n); }
    }
  }

  /** What a text reads occurs in it. */
  lemma ReadOccurs(text: string, n: string)
    requires n in Refs(text)
    ensures Contains(text, n)
  {
    if Parse(text).Some? {
      ParsedTokens(Lex(text), 0);
      NamesAreTokens(Parse(text).value, n);
      LexOccurs(text, n);
    } else {
      MentionedOccurs(text, n);
    }
  }

  /** A query in which the service's own prefix does not occur reads no generated series. */
  lemma ForeignIsIndependent(svc: string, items: seq<SLOItem>, text: string)
    requires !Contains(text, svc + ":")
    ensures IndependentQuery(svc, items, text)
  {
    forall n | n in Refs(text) ensures !Generated(svc, items, n) {
      if Generated(svc, items, n) {
        ReadOccurs(text, n);
        var item :| item in items && Recorded(svc, item, n);
        GeneratedPrefix(svc, item, n);
        ContainsPrefix(text, svc + ":", n);
      }
    }
  }

  lemma FamilyStart(s: Series)
    ensures Family(s) != "" && Family(s) == ":" + Family(s)[1..]
  {}

  lemma StartsWith(svc: string, colon: string, a: string, b: string)
    ensures svc + colon <= svc + ((colon + a) + b)
  {
    assert svc + ((colon + a) + b) == (svc + colon) + (a + b);
  }

  lemma GeneratedPrefix(svc: string, item: SLOItem, n: string)
    requires Recorded(svc, item, n)
    ensures svc + ":" <= n
  {
    if IsLatency(item) && n == LatencyName(svc) {
      assert n[..|svc| + 1] == svc + ":";
    } else {
      var s, w :| s in SeriesOf(item) && Windowed(w) && n == SeriesName(svc, item, s, w);
      FamilyStart(s);
      SpellName(svc, item, s, w);
      hide *;
      StartsWith(svc, ":", Family(s)[1..], Suffix(item, s, w));
    }
  }

  lemma {:induction false} ContainsPrefix(s: string, p: string, q: string)
    requires Contains(s, q) && p <= q
    ensures Contains(s, p)
  {
    if !(q <= s) { ContainsPrefix(s[1..], p, q); }
  }

  /** No rendered query of the item has the service's prefix in it. */
  predicate Foreign(svc: string, item: SLOItem) {
    forall w :: w in RECORDING_WINDOWS ==>
      (item.events.Some? ==> !Contains(RenderQuery(item.events.value.errorQuery, w), svc + ":") &&
                             !Contains(RenderQuery(item.events.value.totalQuery, w), svc + ":")) &&
      (item.raw.Some? ==> !Contains(RenderQuery(item.raw.value.errorRatioQuery, w), svc + ":"))
  }

  /** Non-competing items with legal names whose queries do not read the service's own rules meet the hypotheses. */
  lemma UsualSpecsCompile(format: Format, world: World, svc: string, items: seq<SLOItem>)
    requires DistinctSources(items)
    requires forall item :: item in items ==>
               LegalItem(svc, item) && Exact(format, world, AllowedErrorRatio(item)) && Foreign(svc, item)
    ensures Compilable(format, world, svc, items)
  {
    forall item | item in items ensures IndependentItem(svc, items, item) {
      forall w | Windowed(w)
        ensures item.events.Some? ==> IndependentQuery(svc, items, RenderQuery(item.events.value.errorQuery, w)) &&
                                      IndependentQuery(svc, items, RenderQuery(item.events.value.totalQuery, w))
        ensures item.raw.Some? ==> IndependentQuery(svc, items, RenderQuery(item.raw.value.errorRatioQuery, w))
      {
        assert Foreign(svc, item);
        if item.events.Some? {
          ForeignIsIndependent(svc, items, RenderQuery(item.events.value.errorQuery, w));
          ForeignIsIndependent(svc, items, RenderQuery(item.events.value.totalQuery, w));
        }
        if item.raw.Some? { ForeignIsIndependent(svc, items, RenderQuery(item.raw.value.errorRatioQuery, w)); }
      }
    }
  }

  /** A query that selects a generated series by name, inside whatever call, is not independent. */
  lemma SelfReadingExcluded(svc: string, items: seq<SLOItem>, item: SLOItem, s: Series, w: string, front: string,
                            back: string)
    requires item in items && s in SeriesOf(item) && Windowed(w) && NameChars(SeriesName(svc, item, s, w))
    requires '(' in front && !NameChar(front[|front| - 1]) && (back == "" || !NameChar(back[0]))
    ensures !IndependentQuery(svc, items, front + SeriesName(svc, item, s, w) + back)
  {
    hide SeriesName;
    var n := SeriesName(svc, item, s, w);
    var text := front + n + back;
    assert text[..|front|] == front;
    Opaque(text, '(');
    NameHasColon(svc, item, s, w);
    AloneIsMentioned(front, n, back);
    assert Recorded(svc, item, n);
  }

  // ---------------------------------------------------------- service names

  lemma LegalServiceOnly(svc: string, item: SLOItem, s: Series, w: string)
    requires MetricName(SeriesName(svc, item, s, w))
    ensures MetricName(svc + ":")
  {
    var n := SeriesName(svc, item, s, w);
    FamilyShape(s);
    assert Family(s)[0] == ':';
    assert (svc + ":")[0] == n[0];
    forall c | c in svc + ":" ensures Letter(c) || Digit(c) {
      if c in svc { assert c in n; }
    }
    assert ':' in svc + ":";
  }

  /**
   The ratio text means a quotient exactly when the service is a legal metric prefix, which admission never checks.
   */
  lemma RatioTextParsesExactly(format: Format, svc: string, item: SLOItem, w: string)
    requires item.events.Some? && Windowed(w)
    ensures Parse(SeriesText(format, svc, item, ErrorRatio, w)) == Some(DerivedExpr(format, svc, item, ErrorRatio, w))
            <==> MetricName(svc + ":")
  {
    hide Print, SeriesName;
    var e := DerivedExpr(format, svc, item, ErrorRatio, w);
    if MetricName(svc + ":") {
      WindowFacts(w);
      LegalEventName(svc, item, ErrorRate, w);
      LegalEventName(svc, item, RequestRate, w);
      RoundTrip(e);
    } else if Parse(SeriesText(format, svc, item, ErrorRatio, w)) == Some(e) {
      ParseExact(SeriesText(format, svc, item, ErrorRatio, w), e);
      LegalServiceOnly(svc, item, ErrorRate, w);
    }
  }

  lemma LegalEventName(svc: string, item: SLOItem, s: Series, w: string)
    requires MetricName(svc + ":") && NameChars(w) && !IsRaw(s)
    ensures MetricName(SeriesName(svc, item, s, w))
  {
    LegalName(svc, item.(raw := None), s, w);
    assert SeriesName(svc, item, s, w) == SeriesName(svc, item.(raw := None), s, w);
  }

  function SmallItem(errorQuery: string, totalQuery: string): SLOItem {
    SLOItem("orders", 99.0, Some(EventsSLI(errorQuery, totalQuery)), None, AlertingSpec("Orders", map[], None, None))
  }

  const WINDOWED_QUERY := "q({{.window}})"

  lemma WindowedQuery()
    ensures Contains(WINDOWED_QUERY, PLACEHOLDER) && !Contains(WINDOWED_QUERY, "status=")
  {
    assert PLACEHOLDER <= WINDOWED_QUERY[2..];
    ContainsLater(WINDOWED_QUERY, 2, PLACEHOLDER);
    assert "status="[6] == '=';
    if Contains(WINDOWED_QUERY, "status=") { ContainsChars(WINDOWED_QUERY, "status=", '='); }
  }

  /** A hyphenated service is admitted, and its ratio rules are not quotients. */
  lemma HyphenatedService(format: Format) returns (spec: SLOSpec)
    ensures Admitted(spec) && |spec.slos| == 1 && spec.slos[0].events.Some?
    ensures Parse(SeriesText(format, spec.service, spec.slos[0], ErrorRatio, "5m"))
         != Some(DerivedExpr(format, spec.service, spec.slos[0], ErrorRatio, "5m"))
  {
    var item := SmallItem(WINDOWED_QUERY, WINDOWED_QUERY);
    spec := SLOSpec("order-svc", map[], [item]);
    WindowedQuery();
    hide Contains;
    RatioTextParsesExactly(format, spec.service, item, "5m");
    assert "order-svc:"[5] == '-' && "order-svc:"[5] in "order-svc:";
    assert spec.service + ":" == "order-svc:";
  }

  /**
   The type documents a placeholder in the total query too, but nothing asks for it: totals of all windows may be one
   query.
   */
  lemma FixedTotalQuery() returns (spec: SLOSpec)
    ensures Admitted(spec) && |spec.slos| == 1 && spec.slos[0].events.Some?
    ensures var total := spec.slos[0].events.value.totalQuery;
            forall v, w :: RenderQuery(total, v) == RenderQuery(total, w)
  {
    hide Contains, RenderQuery;
    spec := SLOSpec("ordersvc", map[], [SmallItem(WINDOWED_QUERY, "t")]);
    WindowedQuery();
    PlainQuery();
    forall v, w ensures RenderQuery("t", v) == RenderQuery("t", w) {
      if v != w { PlaceholderSeparatesWindows("t", v, w); }
    }
  }

  lemma PlainQuery()
    ensures !Contains("t", "status=") && !Contains("t", PLACEHOLDER)
  {
    assert "status="[6] == '=' && PLACEHOLDER[0] == '{';
    if Contains("t", "status=") { ContainsChars("t", "status=", '='); }
    if Contains("t", PLACEHOLDER) { ContainsChars("t", PLACEHOLDER, '{'); }
  }

  // ------------------------------------------------------ earlier evaluations

  lemma {:induction false} EvalWorlds(e: Expr, env: Env, world: World, world': World)
    requires world.number == world'.number
    requires forall n :: n in NamesOf(e) ==> Lookup(n, env, world) == Lookup(n, env, world')
    ensures Eval(e, env, world) == Eval(e, env, world')
  {
    if e.Bin? {
      EvalWorlds(e.l, env, world, world');
      EvalWorlds(e.r, env, world, world');
    }
  }

  /** A pass over an ordered group does not depend on what the group's own series held at earlier evaluations. */
  lemma {:induction false} PassForgetsThePast(rules: seq<Rule>, env: Env, world: World, world': World)
    requires Ordered(rules) && world.query == world'.query && world.number == world'.number
    requires forall m :: m !in env && m !in Records(rules) ==> world.series(m) == world'.series(m)
    ensures EvalGroup(rules, env, world) == EvalGroup(rules, env, world')
  {
    if rules != [] {
      var r, rest := rules[0], rules[1..];
      assert rules == [r] + rest && r in rules;
      assert forall n :: n in Refs(r.expr) ==> Lookup(n, env, world) == Lookup(n, env, world');
      if Parse(r.expr).Some? {
        EvalWorlds(Parse(r.expr).value, env, world, world');
      } else {
        assert Seen(r.expr, env, world) == Seen(r.expr, env, world');
      }
      var env1 := Store(env, r.record, EvalText(r.expr, env, world));
      forall m | m !in env1 && m !in Records(rest) ensures world.series(m) == world'.series(m) {
        assert m !in Records(rules);
      }
      PassForgetsThePast(rest, env1, world, world');
    }
  }

  // ------------------------------------------------------- aliased windows

  function RawItem(name: string): SLOItem {
    SLOItem(name, 99.0, None, Some(RawSLI(WINDOWED_QUERY)),
            AlertingSpec(name, map[], None, Some(AlertTier(false, map[], None, ["15m"], ""))))
  }

  function LatItems(): seq<SLOItem> { [RawItem("lat"), RawItem("lat1")] }

  lemma LatNames()
    ensures Sanitize("lat") == "lat" && Sanitize("lat1") == "lat1" && !Compete(RawItem("lat"), RawItem("lat1"))
    ensures !Windowed("15m") && Windowed("5m")
  {
    assert |Sanitize("lat")| != |Sanitize("lat1")|;
  }

  lemma LatAdmitted(svc: string)
    requires svc != ""
    ensures Admitted(SLOSpec(svc, map[], LatItems()))
  {
    WindowedQuery();
    hide Contains;
  }

  /** An unrecorded window can hit another item's series: the alert of "lat" over 15m reads the 5m burn of "lat1". */
  lemma AliasedWindow(svc: string)
    ensures SeriesName(svc, RawItem("lat"), RawBurn, "15m") == SeriesName(svc, RawItem("lat1"), RawBurn, "5m")
    ensures Generated(svc, LatItems(), SeriesName(svc, RawItem("lat"), RawBurn, "15m"))
    ensures DistinctSources(LatItems()) && !Windowed("15m")
    ensures svc != "" ==> Admitted(SLOSpec(svc, map[], LatItems()))
  {
    LatNames();
    if svc != "" { LatAdmitted(svc); }
    hide Admitted, Sanitize, Compete, IsLatency;
    assert "lat" + "15m" == "lat1" + "5m";
    var items := LatItems();
    assert SeriesOf(items[1]) == [RawRatio, RawBurn] && SeriesOf(items[1])[1] == RawBurn;
    assert Recorded(svc, items[1], SeriesName(svc, items[1], RawBurn, "5m"));
    assert items[1] in items;
  }

  /** What the series read by a raw item's alert over w holds is the burn that the item means over w. */
  ghost predicate ReadsOwn(format: Format, world: World, svc: string, items: seq<SLOItem>, item: SLOItem, w: string) {
    Lookup(SeriesName(svc, item, RawBurn, w), Recordings(format, world, svc, items), world) == SpecBurn(item, w, world)
  }

  function RawText(item: SLOItem, w: string): string
    requires item.raw.Some?
  {
    RenderQuery(item.raw.value.errorRatioQuery, w)
  }

  /** Another item's burn over v has the name of this item's burn over w. */
  predicate Aliases(item: SLOItem, w: string, other: SLOItem, v: string) {
    other.raw.Some? && v in RECORDING_WINDOWS && Sanitize(other.name) + v == Sanitize(item.name) + w
  }

  /** It is then the same burn: the queries render to one text, and the objectives allow the same errors. */
  predicate Twins(item: SLOItem, w: string, other: SLOItem, v: string) {
    item.raw.Some? && Aliases(item, w, other, v) && RawText(other, v) == RawText(item, w) &&
    AllowedErrorRatio(other) == AllowedErrorRatio(item)
  }

  /** Twins are admitted: "lat" over 15m and "lat1" over 5m, where the one query puts a 1 before its window. */
  lemma TwinsHappen(svc: string) returns (spec: SLOSpec)
    requires svc != ""
    ensures Admitted(spec) && |spec.slos| == 2 && !Windowed("15m")
    ensures Twins(spec.slos[0], "15m", spec.slos[1], "5m")
  {
    LatNames();
    LaterWindowedQuery();
    WindowedQuery();
    spec := SLOSpec(svc, map[], [RawItem("lat"), LaterItem()]);
    hide Contains, RenderQuery, Sanitize;
    assert "lat" + "15m" == "lat1" + "5m";
  }

  function LaterItem(): SLOItem { RawItem("lat1").(raw := Some(RawSLI("q(1" + PLACEHOLDER + ")"))) }

  function Windowing(front: string): string { front + PLACEHOLDER + ")" }

  lemma LaterWindowedQuery()
    ensures Contains(LaterItem().raw.value.errorRatioQuery, PLACEHOLDER)
    ensures RawText(LaterItem(), "5m") == RawText(RawItem("lat"), "15m")
  {
    hide RenderQuery, Contains;
    Rendered("q(1", "5m");
    Rendered("q(", "15m");
    assert LaterItem().raw.value.errorRatioQuery == Windowing("q(1");
    assert WINDOWED_QUERY == Windowing("q(");
    assert "q(" + "15m" + ")" == "q(1" + "5m" + ")";
  }

  lemma Rendered(front: string, w: string)
    requires '{' !in front
    ensures RenderQuery(Windowing(front), w) == front + w + ")" && Contains(Windowing(front), PLACEHOLDER)
  {
    NoBrace(front);
    NoBrace(")");
    RenderSubstitutes(front, ")", w);
    assert PLACEHOLDER <= Windowing(front)[|front|..];
    ContainsLater(Windowing(front), |front|, PLACEHOLDER);
  }

  lemma NoBrace(s: string)
    requires '{' !in s
    ensures !Contains(s, PLACEHOLDER)
  {
    assert PLACEHOLDER[0] == '{';
    if Contains(s, PLACEHOLDER) { ContainsChars(s, PLACEHOLDER, '{'); }
  }

  lemma AliasName(svc: string, item: SLOItem, w: string, other: SLOItem, v: string)
    ensures Sanitize(other.name) + v == Sanitize(item.name) + w <==>
            SeriesName(svc, other, RawBurn, v) == SeriesName(svc, item, RawBurn, w)
  {
    hide Sanitize;
    SpellBurn(svc, item, w);
    SpellBurn(svc, other, v);
    var a, b := Sanitize(item.name) + w, Sanitize(other.name) + v;
    if SeriesName(svc, other, RawBurn, v) == SeriesName(svc, item, RawBurn, w) {
      CancelPrefix(svc, ":burn_rate" + ("_" + b), ":burn_rate" + ("_" + a));
      CancelPrefix(":burn_rate", "_" + b, "_" + a);
      CancelPrefix("_", b, a);
    }
  }

  /** An aliased series holds the other item's burn. */
  lemma AliasHolds(format: Format, world: World, svc: string, items: seq<SLOItem>, item: SLOItem, w: string,
                   other: SLOItem, v: string)
    requires Compilable(format, world, svc, items) && other in items && Aliases(item, w, other, v)
    ensures Lookup(SeriesName(svc, item, RawBurn, w), Recordings(format, world, svc, items), world)
         == Div(UserValue(RawText(other, v), world), Fin(AllowedErrorRatio(other)))
  {
    hide Compilable, Recordings, SeriesName, UserValue, RenderQuery, Sanitize;
    AliasName(svc, item, w, other, v);
    RawMeaning(format, world, svc, items, other, v);
  }

  /** A world that knows one query's value and nothing else. */
  function Knowing(text: string, x: Sample, number: string -> real): World {
    World(n => Absent, (t: string, seen: map<string, Sample>) => if t == text then x else Absent, number)
  }

  lemma KnownText(text: string, x: Sample, number: string -> real)
    requires Parse(text).None?
    ensures UserValue(text, Knowing(text, x, number)) == x
  {}

  lemma OtherText(text: string, x: Sample, y: Sample, number: string -> real, other: string)
    requires other != text
    ensures UserValue(other, Knowing(text, x, number)) == UserValue(other, Knowing(text, y, number))
  {
    if Parse(other).Some? {
      EvalWorlds(Parse(other).value, map[], Knowing(text, x, number), Knowing(text, y, number));
    }
  }

  lemma MeansKnown(item: SLOItem, w: string, x: Sample, number: string -> real)
    requires item.events.None? && item.raw.Some? && Parse(RawText(item, w)).None?
    ensures SpecBurn(item, w, Knowing(RawText(item, w), x, number)) == Div(x, Fin(AllowedErrorRatio(item)))
  {
    KnownText(RawText(item, w), x, number);
  }

  /** Two burns that are not of one text and one allowance come apart in some world. */
  lemma BurnsDiffer(text: string, known: string, a: real, b: real, number: string -> real) returns (x: Sample)
    requires Parse(text).None? && (known != text || a != b)
    ensures Div(UserValue(known, Knowing(text, x, number)), Fin(b)) != Div(x, Fin(a))
  {
    hide UserValue, Knowing;
    if known == text {
      x := Fin(1.0);
      KnownText(text, x, number);
      QuotientsDiffer(a, b);
    } else {
      OtherText(text, Absent, NaN, number, known);
      x := if Div(UserValue(known, Knowing(text, Absent, number)), Fin(b)) == Absent then NaN else Absent;
    }
  }

  lemma QuotientsDiffer(a: real, b: real)
    requires a != b
    ensures Div(Fin(1.0), Fin(b)) != Div(Fin(1.0), Fin(a))
  {
    assert a != 0.0 ==> a * (1.0 / a) == 1.0;
    assert b != 0.0 ==> b * (1.0 / b) == 1.0;
  }

  /** A world in which an aliased series shows another burn than the item means, unless the two are twins. */
  lemma AliasShows(format: Format, world: World, svc: string, items: seq<SLOItem>, item: SLOItem, w: string,
                   other: SLOItem, v: string) returns (x: Sample)
    requires Compilable(format, world, svc, items) && item.events.None? && item.raw.Some? &&
             Parse(RawText(item, w)).None?
    requires other in items && other.raw.Some? && Aliases(item, w, other, v) && !Twins(item, w, other, v)
    ensures !ReadsOwn(format, Knowing(RawText(item, w), x, world.number), svc, items, item, w)
  {
    hide Recordings, SeriesName, UserValue, RenderQuery, Knowing, SpecBurn, Aliases, AllowedErrorRatio, RawText,
      Compilable, Div;
    x := BurnsDiffer(RawText(item, w), RawText(other, v), AllowedErrorRatio(item), AllowedErrorRatio(other),
                     world.number);
    SameNumbers(format, world, RawText(item, w), x, svc, items);
    AliasHolds(format, Knowing(RawText(item, w), x, world.number), svc, items, item, w, other, v);
    MeansKnown(item, w, x, world.number);
  }

  lemma SameNumbers(format: Format, world: World, text: string, y: Sample, svc: string, items: seq<SLOItem>)
    requires Compilable(format, world, svc, items)
    ensures Compilable(format, Knowing(text, y, world.number), svc, items)
  {
    hide LegalItem, IndependentItem, DistinctSources, AllowedErrorRatio;
  }

  lemma NobodyWrites(format: Format, svc: string, items: seq<SLOItem>, item: SLOItem, w: string, number: string -> real)
    requires item.events.None? && item.raw.Some? && Parse(RawText(item, w)).None?
    requires !Generated(svc, items, SeriesName(svc, item, RawBurn, w))
    ensures !ReadsOwn(format, Knowing(RawText(item, w), NaN, number), svc, items, item, w)
  {
    var world, n := Knowing(RawText(item, w), NaN, number), SeriesName(svc, item, RawBurn, w);
    hide SeriesName, SpecBurn, RecordingRules, EvalGroup;
    RecordsAreGenerated(format, svc, items, n);
    GroupFrame(RecordingRules(format, svc, items), map[], world, n);
    MeansKnown(item, w, NaN, number);
  }

  lemma FindAlias(svc: string, items: seq<SLOItem>, item: SLOItem, w: string) returns (other: SLOItem, v: string)
    requires item in items && item.events.None? && item.raw.Some? &&
             Generated(svc, items, SeriesName(svc, item, RawBurn, w))
    ensures other in items && other.raw.Some? && v in RECORDING_WINDOWS && Aliases(item, w, other, v)
  {
    hide SeriesName, Sanitize;
    AlertSeriesResolves(svc, items, item, w);
    other, v :| other in items && v in RECORDING_WINDOWS && other.raw.Some? &&
                AlertTail(item, w) == "_" + (Sanitize(other.name) + v);
    assert ("_" + Sanitize(item.name)) + w == "_" + (Sanitize(item.name) + w);
    CancelPrefix("_", Sanitize(other.name) + v, Sanitize(item.name) + w);
  }

  /**
   A raw item's alert reads the item's own burn over a window, whatever the queries return, exactly if the window is
   recorded, or a recorded burn of the same name is the same burn.
   */
  lemma RawAlertReadsOwn(format: Format, world: World, svc: string, items: seq<SLOItem>, item: SLOItem, w: string)
    requires Compilable(format, world, svc, items) && item in items && item.events.None? && item.raw.Some?
    requires Parse(RawText(item, w)).None?
    ensures (forall any: World :: any.number == world.number ==> ReadsOwn(format, any, svc, items, item, w)) <==>
            Windowed(w) || exists other, v :: other in items && v in RECORDING_WINDOWS && Twins(item, w, other, v)
  {
    hide SeriesName, SpecBurn, Twins, Aliases, RawText, LegalItem, IndependentItem, DistinctSources, AllowedErrorRatio,
      Recordings, ReadsOwn;
    forall any: World | any.number == world.number ensures Compilable(format, any, svc, items) {}
    hide Compilable;
    if Windowed(w) {
      forall any: World | any.number == world.number ensures ReadsOwn(format, any, svc, items, item, w) {
        OwnWindow(format, any, svc, items, item, w);
      }
    } else if other, v :| other in items && v in RECORDING_WINDOWS && Twins(item, w, other, v) {
      forall any: World | any.number == world.number ensures ReadsOwn(format, any, svc, items, item, w) {
        TwinHolds(format, any, svc, items, item, w, other, v);
      }
    } else {
      var x := NaN;
      if Generated(svc, items, SeriesName(svc, item, RawBurn, w)) {
        var other, v := FindAlias(svc, items, item, w);
        x := AliasShows(format, world, svc, items, item, w, other, v);
      } else {
        NobodyWrites(format, svc, items, item, w, world.number);
      }
      assert Knowing(RawText(item, w), x, world.number).number == world.number;
    }
  }

  lemma OwnWindow(format: Format, world: World, svc: string, items: seq<SLOItem>, item: SLOItem, w: string)
    requires Compilable(format, world, svc, items) && item in items && item.events.None? && item.raw.Some? &&
             Windowed(w)
    ensures ReadsOwn(format, world, svc, items, item, w)
  {
    hide Compilable, SeriesName, Recordings, UserValue, RenderQuery;
    RawMeaning(format, world, svc, items, item, w);
  }

  lemma TwinHolds(format: Format, world: World, svc: string, items: seq<SLOItem>, item: SLOItem, w: string,
                  other: SLOItem, v: string)
    requires Compilable(format, world, svc, items) && item.events.None? && other in items && Twins(item, w, other, v)
    ensures ReadsOwn(format, world, svc, items, item, w)
  {
    hide Compilable, SeriesName, Recordings, UserValue, RenderQuery, Sanitize, AllowedErrorRatio;
    AliasHolds(format, world, svc, items, item, w, other, v);
  }

  // --------------------------------------------------- the shipped resource

  const AVAILABILITY := SLOItem("availability-99.9", 99.9,
    Some(EventsSLI(ORDERS + ",code=~\"5..\"" + RATE_END, ORDERS + RATE_END)), None,
    AlertingSpec("OrdersvcHighErrorRate", map["slo" := "availability-99.9", "team" := "sre"],
                 Some(AlertTier(false, map["severity" := "page"], Some(14.4), ["5m", "1h"], "2m")),
                 Some(AlertTier(false, map["severity" := "ticket"], Some(6.0), ["30m", "6h"], "15m"))))

  const ORDERS := "sum(rate(" + ("ordersvc_http_requests_total" + "{path=\"/order\"")
  const RATE_END := "}[{{.window}}]))\n"
  const DURATION := "sum(rate(" + ("ordersvc_http_request" + "_duration_seconds_")

  const LATENCY := SLOItem("latency-p99-500ms", 99.9, None,
    Some(RawSLI("1 - (\n  " + DURATION + "bucket{path=\"/order\",le=\"0.5\"" + RATE_END + "  / " +
                DURATION + "count{path=\"/order\"" + RATE_END + ")\n")),
    AlertingSpec("OrdersvcHighLatency", map["slo" := "latency-500ms", "team" := "sre"], None,
                 Some(AlertTier(false, map["severity" := "ticket"], Some(0.01), ["5m"], "5m"))))

  const SHIPPED := SLOSpec("ordersvc", map["cluster" := "ksce", "team" := "sre"], [AVAILABILITY, LATENCY])

  lemma {:induction false} RenderAdds(tmpl: string, w: string, c: char)
    requires c !in tmpl && c !in w
    ensures c !in RenderQuery(tmpl, w)
  {
    if PLACEHOLDER <= tmpl {
      RenderAdds(tmpl[|PLACEHOLDER|..], w, c);
    } else if tmpl != "" {
      RenderAdds(tmpl[1..], w, c);
    }
  }

  /** Without a colon a query cannot name a rule of any service. */
  lemma NoColonIsForeign(svc: string, tmpl: string, w: string)
    requires ':' !in tmpl && Windowed(w)
    ensures !Contains(RenderQuery(tmpl, w), svc + ":")
  {
    RenderAdds(tmpl, w, ':');
    assert (svc + ":")[|svc|] == ':';
    if Contains(RenderQuery(tmpl, w), svc + ":") { ContainsChars(RenderQuery(tmpl, w), svc + ":", ':'); }
  }

  lemma ShippedHasNoColon()
    ensures ':' !in AVAILABILITY.events.value.errorQuery && ':' !in AVAILABILITY.events.value.totalQuery
    ensures ':' !in LATENCY.raw.value.errorRatioQuery
  {
    OrdersHasNoColon();
    DurationHasNoColon();
    LastPiecesHaveNoColon();
    JoinedLacks(ORDERS, ",code=~\"5..\"", RATE_END, "", "", ':');
    JoinedLacks(ORDERS, RATE_END, "", "", "", ':');
    var a, b := "bucket{path=\"/order\",le=\"0.5\"", "count{path=\"/order\"";
    JoinedLacks("1 - (\n  ", DURATION, a, RATE_END, "  / ", ':');
    JoinedLacks("1 - (\n  " + DURATION + a + RATE_END + "  / ", DURATION, b, RATE_END, ")\n", ':');
  }

  lemma JoinedLacks(a: string, b: string, c: string, d: string, e: string, x: char)
    requires x !in a && x !in b && x !in c && x !in d && x !in e
    ensures x !in a + b && x !in a + b + c && x !in a + b + c + d && x !in a + b + c + d + e
  {}

  lemma OrdersHasNoColon()
    ensures ':' !in ORDERS && ':' !in RATE_END && ':' !in ",code=~\"5..\""
  {
    assert ':' !in "sum(rate(" && ':' !in "ordersvc_http_requests_total" && ':' !in "{path=\"/order\"";
  }

  lemma DurationHasNoColon()
    ensures ':' !in DURATION
  {
    assert ':' !in "sum(rate(" && ':' !in "ordersvc_http_request" && ':' !in "_duration_seconds_";
  }

  lemma LastPiecesHaveNoColon()
    ensures ':' !in "bucket{path=\"/order\",le=\"0.5\"" && ':' !in "count{path=\"/order\""
    ensures ':' !in "1 - (\n  " && ':' !in "  / " && ':' !in ")\n"
  {}

  /** The resource in the repository meets every hypothesis of the compiler theorems. */
  lemma ShippedCompiles(format: Format, world: World)
    requires Exact(format, world, AllowedErrorRatio(AVAILABILITY))
    ensures Compilable(format, world, SHIPPED.service, SHIPPED.slos)
  {
    var svc := SHIPPED.service;
    ShippedHasNoColon();
    hide RenderQuery, Contains;
    forall w | w in RECORDING_WINDOWS
      ensures !Contains(RenderQuery(AVAILABILITY.events.value.errorQuery, w), svc + ":")
      ensures !Contains(RenderQuery(AVAILABILITY.events.value.totalQuery, w), svc + ":")
      ensures !Contains(RenderQuery(LATENCY.raw.value.errorRatioQuery, w), svc + ":")
    {
      NoColonIsForeign(svc, AVAILABILITY.events.value.errorQuery, w);
      NoColonIsForeign(svc, AVAILABILITY.events.value.totalQuery, w);
      NoColonIsForeign(svc, LATENCY.raw.value.errorRatioQuery, w);
    }
    assert MetricName(svc + ":");
    assert Sanitize(LATENCY.name) == "latency_p99_500ms";
    UsualSpecsCompile(format, world, svc, SHIPPED.slos);
  }

  /** Its Page alert fires iff the five-minute and the one-hour error ratio both exceed 14.4 times the allowed one. */
  lemma ShippedPageMeaning(format: Format, world: World)
    requires Exact(format, world, AllowedErrorRatio(AVAILABILITY)) && Exact(format, world, 14.4)
    ensures Fires(TierRule(format, SHIPPED, AVAILABILITY, Page), Recordings(format, world, "ordersvc", SHIPPED.slos),
                  world) <==>
            Above(SpecBurn(AVAILABILITY, "5m", world), Fin(14.4)) &&
            Above(SpecBurn(AVAILABILITY, "1h", world), Fin(14.4))
  {
    hide Fires, TierRule, Recordings, SpecBurn, Compilable, Above, Exact;
    ShippedCompiles(format, world);
    assert AVAILABILITY in SHIPPED.slos;
    var t := TierSpec(AVAILABILITY, Page).value;
    assert ChosenWindows(t, Page) == ["5m", "1h"] && ChosenThreshold(t, Page) == 14.4;
    TierMeaning(format, world, SHIPPED, AVAILABILITY, Page);
  }
}
