/** Compiler correctness: one evaluation of the generated rules yields the burn rates and alerts the spec means. */
module RuleMeaning {
  import opened Samples
  import opened Strings
  import opened PromQL
  import opened SloApi
  import opened RuleGenerator
  import opened RuleNames

  // ------------------------------------------------- what the code relies on

  /** FormatFloat round-trips: it prints a numeral that reads back as the same number. */
  predicate Exact(format: Format, world: World, x: real) {
    Numeral(format(x)) && world.number(format(x)) == x
  }

  /** The service and the raw item names make legal metric names. */
  predicate LegalItem(svc: string, item: SLOItem) {
    MetricName(svc + ":") && (item.raw.Some? ==> NameChars(Sanitize(item.name)))
  }

  function UserSeries(): set<Series> { {RequestRate, ErrorRate, RawRatio} }

  /** The user's query for a series reads no generated series. */
  ghost predicate IndependentQuery(svc: string, items: seq<SLOItem>, text: string) {
    forall n :: n in Refs(text) ==> !Generated(svc, items, n)
  }

  ghost predicate IndependentItem(svc: string, items: seq<SLOItem>, item: SLOItem) {
    (item.events.Some? ==> forall w :: Windowed(w) ==>
       IndependentQuery(svc, items, RenderQuery(item.events.value.errorQuery, w)) &&
       IndependentQuery(svc, items, RenderQuery(item.events.value.totalQuery, w))) &&
    (item.raw.Some? ==> forall w :: Windowed(w) ==>
       IndependentQuery(svc, items, RenderQuery(item.raw.value.errorRatioQuery, w)))
  }

  ghost predicate Compilable(format: Format, world: World, svc: string, items: seq<SLOItem>) {
    DistinctSources(items) && Readable(format, world, svc, items)
  }

  ghost predicate Readable(format: Format, world: World, svc: string, items: seq<SLOItem>) {
    forall item :: item in items ==>
      LegalItem(svc, item) && Exact(format, world, AllowedErrorRatio(item)) && IndependentItem(svc, items, item)
  }

  // --------------------------------------------------------- what rules read

  lemma LegalName(svc: string, item: SLOItem, s: Series, w: string)
    requires LegalItem(svc, item) && NameChars(w) && (IsRaw(s) ==> item.raw.Some?)
    ensures MetricName(SeriesName(svc, item, s, w))
  {
    var n := SeriesName(svc, item, s, w);
    assert (svc + ":")[0] == n[0] by { FamilyShape(s); assert Family(s)[0] == ':'; }
    forall c | c in n ensures Letter(c) || Digit(c) {
      if c in svc { assert c in svc + ":"; }
      else if c in Family(s) { FamilyChars(s); }
    }
    FamilyShape(s);
  }

  lemma FamilyChars(s: Series)
    ensures NameChars(Family(s))
  {}

  function ReadSeries(s: Series): set<Series> {
    match s
    case ErrorRatio => {ErrorRate, RequestRate}
    case BurnRate => {ErrorRatio}
    case RawBurn => {RawRatio}
    case _ => {}
  }

  lemma DerivedCanonical(format: Format, world: World, svc: string, item: SLOItem, s: Series, w: string)
    requires s in SeriesOf(item) && s !in UserSeries() && NameChars(w)
    requires LegalItem(svc, item) && Exact(format, world, AllowedErrorRatio(item))
    ensures Canonical(DerivedExpr(format, svc, item, s, w), 0)
  {
    forall d | d in ReadSeries(s) ensures MetricName(SeriesName(svc, item, d, w)) {
      LegalName(svc, item, d, w);
    }
  }

  lemma DerivedNames(format: Format, svc: string, item: SLOItem, s: Series, w: string, n: string)
    requires s in SeriesOf(item) && s !in UserSeries() && n in NamesOf(DerivedExpr(format, svc, item, s, w))
    ensures exists d :: d in ReadSeries(s) && d in SeriesOf(item) && n == SeriesName(svc, item, d, w)
  {}

  lemma DerivedParses(format: Format, world: World, svc: string, item: SLOItem, s: Series, w: string)
    requires s in SeriesOf(item) && s !in UserSeries() && Windowed(w)
    requires LegalItem(svc, item) && Exact(format, world, AllowedErrorRatio(item))
    ensures Parse(SeriesText(format, svc, item, s, w)) == Some(DerivedExpr(format, svc, item, s, w))
    ensures forall n :: n in Refs(SeriesText(format, svc, item, s, w)) ==>
              exists d :: d in ReadSeries(s) && d in SeriesOf(item) && n == SeriesName(svc, item, d, w)
  {
    hide Parse, Print, DerivedExpr, SeriesName, Canonical;
    WindowFacts(w);
    DerivedCanonical(format, world, svc, item, s, w);
    RoundTrip(DerivedExpr(format, svc, item, s, w));
    forall n | n in Refs(SeriesText(format, svc, item, s, w))
      ensures exists d :: d in ReadSeries(s) && d in SeriesOf(item) && n == SeriesName(svc, item, d, w)
    {
      DerivedNames(format, svc, item, s, w, n);
    }
  }

  /** The latency query mentions no name with a colon in it, and all generated names have one. */
  lemma LatencyReadsNoRule(n: string)
    requires ':' in n
    ensures n !in Refs(LATENCY_QUERY)
  {
    assert '(' in LATENCY_QUERY;
    Opaque(LATENCY_QUERY, '(');
    if n in Mentions(LATENCY_QUERY) {
      MentionedOccurs(LATENCY_QUERY, n);
      ContainsChars(LATENCY_QUERY, n, ':');
      LatencyHasNoColon();
    }
  }

  lemma LatencyHasNoColon()
    ensures ':' !in LATENCY_QUERY
  {
    assert ':' !in "histogram_quantile";
    assert ':' !in "0.99,\n  sum by (path, le) (rate(";
    assert ':' !in "ordersvc_http_request_duration";
    assert ':' !in "_seconds_bucket[5m])))";
  }

  lemma NameHasColon(svc: string, item: SLOItem, s: Series, w: string)
    ensures ':' in SeriesName(svc, item, s, w) && ':' in LatencyName(svc)
  {
    assert SeriesName(svc, item, s, w)[|svc|] == ':' && LatencyName(svc)[|svc|] == ':';
  }

  /** A rule reads only series of its own item and window, or series that no rule records. */
  lemma Reads(format: Format, world: World, svc: string, items: seq<SLOItem>, item: SLOItem, s: Series, w: string,
              n: string)
    requires Compilable(format, world, svc, items) && item in items && s in SeriesOf(item) && Windowed(w)
    requires n in Refs(SeriesText(format, svc, item, s, w))
    ensures !Generated(svc, items, n) ||
            exists d :: d in ReadSeries(s) && d in SeriesOf(item) && n == SeriesName(svc, item, d, w)
  {
    hide SeriesName, RenderQuery, Refs, Exact, LegalItem, Generated;
    if s !in UserSeries() { DerivedParses(format, world, svc, item, s, w); }
  }

  // ------------------------------------------------------------- ordering

  /** The record of one rule, from another window or item, is not read (or rivalled) by this rule. */
  lemma RulesApart(format: Format, world: World, svc: string, items: seq<SLOItem>,
                   a: SLOItem, s: Series, w: string, b: SLOItem, t: Series, v: string)
    requires Compilable(format, world, svc, items) && a in items && b in items
    requires s in SeriesOf(a) && t in SeriesOf(b) && Windowed(w) && Windowed(v)
    requires (a == b && w != v) || !Compete(a, b)
    ensures SeriesName(svc, b, t, v) !in Refs(SeriesText(format, svc, a, s, w))
    ensures SeriesName(svc, b, t, v) != SeriesName(svc, a, s, w)
  {
    hide SeriesText, SeriesName, Refs, Compilable, RenderQuery;
    var n := SeriesName(svc, b, t, v);
    NameInjective(svc, a, s, w, b, t, v);
    if n in Refs(SeriesText(format, svc, a, s, w)) {
      assert Recorded(svc, b, n);
      Reads(format, world, svc, items, a, s, w, n);
      var d :| d in ReadSeries(s) && d in SeriesOf(a) && n == SeriesName(svc, a, d, w);
      NameInjective(svc, a, d, w, b, t, v);
    }
  }

  lemma {:induction false} OrderedByIndex(rules: seq<Rule>)
    requires forall i, j :: 0 <= i <= j < |rules| ==> rules[j].record !in Refs(rules[i].expr)
    requires UniqueRecords(rules)
    ensures Ordered(rules)
  {
    if rules != [] {
      var rest := rules[1..];
      OrderedByIndex(rest);
      assert forall r :: r in rules ==> exists j :: 0 <= j < |rules| && rules[j] == r;
    }
  }

  lemma NotReadLater(format: Format, world: World, svc: string, items: seq<SLOItem>, item: SLOItem, w: string, i: nat,
                     j: nat)
    requires Compilable(format, world, svc, items) && item in items && Windowed(w)
    requires i <= j < |SeriesOf(item)|
    ensures SeriesName(svc, item, SeriesOf(item)[j], w) !in Refs(SeriesText(format, svc, item, SeriesOf(item)[i], w))
  {
    hide SeriesText, SeriesName, Refs, Compilable, RenderQuery;
    var s, t := SeriesOf(item)[i], SeriesOf(item)[j];
    var n := SeriesName(svc, item, t, w);
    if n in Refs(SeriesText(format, svc, item, s, w)) {
      assert Recorded(svc, item, n);
      Reads(format, world, svc, items, item, s, w, n);
      var d :| d in ReadSeries(s) && d in SeriesOf(item) && n == SeriesName(svc, item, d, w);
      NameInjective(svc, item, d, w, item, t, w);
      assert false;
    }
  }

  lemma WindowOrdered(format: Format, world: World, svc: string, items: seq<SLOItem>, item: SLOItem, w: string)
    requires Compilable(format, world, svc, items) && item in items && Windowed(w)
    ensures Ordered(WindowRules(format, svc, item, w))
  {
    hide SeriesText, SeriesName, Refs, Compilable;
    var ss, rules := SeriesOf(item), WindowRules(format, svc, item, w);
    forall i, j | 0 <= i <= j < |ss| ensures rules[j].record !in Refs(rules[i].expr) {
      NotReadLater(format, world, svc, items, item, w, i, j);
    }
    WindowUnique(format, svc, item, w);
    OrderedByIndex(rules);
  }

  lemma {:induction false} ItemWindowsOrdered(format: Format, world: World, svc: string, items: seq<SLOItem>,
                                              item: SLOItem, ws: seq<string>)
    requires Compilable(format, world, svc, items) && item in items
    requires forall w :: w in ws ==> Windowed(w)
    requires forall i, j :: 0 <= i < j < |ws| ==> ws[i] != ws[j]
    ensures Ordered(ItemWindows(format, svc, item, ws))
  {
    if ws != [] {
      hide Compilable, WindowRules, Ordered, Refs, SeriesName, SeriesText;
      var n := |ws| - 1;
      var a, b := ItemWindows(format, svc, item, ws[..n]), WindowRules(format, svc, item, ws[n]);
      ItemWindowsOrdered(format, world, svc, items, item, ws[..n]);
      WindowOrdered(format, world, svc, items, item, ws[n]);
      forall r, q | r in a && q in b ensures q.record !in Refs(r.expr) && q.record != r.record {
        ItemWindowsMembers(format, svc, item, ws[..n], r);
        WindowRulesMembers(format, svc, item, ws[n], q);
        var w :| w in ws[..n] && FromWindow(format, svc, item, w, r);
        var s :| s in SeriesOf(item) && r == SeriesRule(format, svc, item, s, w);
        var t :| t in SeriesOf(item) && q == SeriesRule(format, svc, item, t, ws[n]);
        RulesApart(format, world, svc, items, item, s, w, item, t, ws[n]);
      }
      OrderedConcat(a, b);
    }
  }

  lemma LatencyUnread(format: Format, world: World, svc: string, items: seq<SLOItem>, a: SLOItem, r: Rule, b: SLOItem)
    requires Compilable(format, world, svc, items) && a in items && b in items && IsLatency(b)
    requires RuleOfItem(format, svc, a, r)
    ensures LatencyName(svc) !in Refs(r.expr) && (r.record == LatencyName(svc) ==> r.expr == LATENCY_QUERY)
  {
    NameHasColon(svc, a, BurnRate, "5m");
    LatencyReadsNoRule(LatencyName(svc));
    if r != LatencyRule(svc) {
      var s, w :| s in SeriesOf(a) && Windowed(w) && r == SeriesRule(format, svc, a, s, w);
      LatencyApart(svc, a, s, w);
      if LatencyName(svc) in Refs(r.expr) {
        assert Recorded(svc, b, LatencyName(svc));
        Reads(format, world, svc, items, a, s, w, LatencyName(svc));
        var d :| d in ReadSeries(s) && d in SeriesOf(a) && LatencyName(svc) == SeriesName(svc, a, d, w);
        LatencyApart(svc, a, d, w);
        assert false;
      }
    }
  }

  lemma ItemOrdered(format: Format, world: World, svc: string, items: seq<SLOItem>, item: SLOItem)
    requires Compilable(format, world, svc, items) && item in items
    ensures Ordered(ItemRules(format, svc, item))
  {
    var a := ItemWindows(format, svc, item, RECORDING_WINDOWS);
    var b := if IsLatency(item) then [LatencyRule(svc)] else [];
    ItemWindowsOrdered(format, world, svc, items, item, RECORDING_WINDOWS);
    NameHasColon(svc, item, BurnRate, "5m");
    LatencyReadsNoRule(LatencyName(svc));
    if IsLatency(item) {
      OrderedByIndex(b);
      forall r, q | r in a && q in b ensures q.record !in Refs(r.expr) && (q.record == r.record ==> q.expr == r.expr) {
        assert r in ItemRules(format, svc, item);
        ItemRulesMembers(format, svc, item, r);
        LatencyUnread(format, world, svc, items, item, r, item);
      }
    }
    OrderedConcat(a, b);
  }

  lemma ItemsApart(format: Format, world: World, svc: string, items: seq<SLOItem>, a: SLOItem, r: Rule, b: SLOItem,
                   q: Rule)
    requires Compilable(format, world, svc, items) && a in items && b in items && !Compete(a, b)
    requires RuleOfItem(format, svc, a, r) && RuleOfItem(format, svc, b, q)
    ensures q.record !in Refs(r.expr) && (q.record == r.record ==> q.expr == r.expr)
  {
    if IsLatency(b) && q == LatencyRule(svc) {
      LatencyUnread(format, world, svc, items, a, r, b);
    } else {
      var t, v :| t in SeriesOf(b) && Windowed(v) && q == SeriesRule(format, svc, b, t, v);
      if IsLatency(a) && r == LatencyRule(svc) {
        NameHasColon(svc, b, t, v);
        LatencyReadsNoRule(q.record);
        LatencyApart(svc, b, t, v);
      } else {
        var s, w :| s in SeriesOf(a) && Windowed(w) && r == SeriesRule(format, svc, a, s, w);
        RulesApart(format, world, svc, items, a, s, w, b, t, v);
      }
    }
  }

  lemma NeverCompete(format: Format, world: World, svc: string, items: seq<SLOItem>, i: nat, j: nat)
    requires Compilable(format, world, svc, items) && i < j < |items|
    ensures !Compete(items[i], items[j])
  {
    hide Readable, Compete;
  }

  lemma EarlierApart(format: Format, world: World, svc: string, items: seq<SLOItem>, n: nat, r: Rule, q: Rule)
    requires Compilable(format, world, svc, items) && n < |items|
    requires r in RecordingRules(format, svc, items[..n]) && q in ItemRules(format, svc, items[n])
    ensures q.record !in Refs(r.expr) && (q.record == r.record ==> q.expr == r.expr)
  {
    hide Compilable, ItemRules, RuleOfItem, Refs, Compete;
    RecordingMembers(format, svc, items[..n], r);
    ItemRulesMembers(format, svc, items[n], q);
    var item :| item in items[..n] && RuleOfItem(format, svc, item, r);
    var i :| 0 <= i < n && items[i] == item;
    NeverCompete(format, world, svc, items, i, n);
    ItemsApart(format, world, svc, items, items[i], r, items[n], q);
  }

  /** The recording group is ordered: every generated series a rule reads is recorded by an earlier rule only. */
  lemma {:induction false} RecordingOrdered(format: Format, world: World, svc: string, items: seq<SLOItem>, k: nat)
    requires Compilable(format, world, svc, items) && k <= |items|
    ensures Ordered(RecordingRules(format, svc, items[..k]))
  {
    if k > 0 {
      hide Compilable, ItemRules, RuleOfItem, Ordered, Refs, Compete;
      var n := k - 1;
      assert items[..k][..n] == items[..n];
      var a, b := RecordingRules(format, svc, items[..n]), ItemRules(format, svc, items[n]);
      RecordingOrdered(format, world, svc, items, n);
      ItemOrdered(format, world, svc, items, items[n]);
      forall r, q | r in a && q in b ensures q.record !in Refs(r.expr) && (q.record == r.record ==> q.expr == r.expr) {
        EarlierApart(format, world, svc, items, n, r, q);
      }
      OrderedConcat(a, b);
    }
  }

  /** Reference closure: what a rule reads is recorded in the group, or is not a generated name at all. */
  lemma RecordingClosed(format: Format, world: World, svc: string, items: seq<SLOItem>, r: Rule, n: string)
    requires Compilable(format, world, svc, items) && r in RecordingRules(format, svc, items) && n in Refs(r.expr)
    ensures Generated(svc, items, n) <==> n in Records(RecordingRules(format, svc, items))
    ensures forall item, s, w | item in items && s in SeriesOf(item) && s !in UserSeries() && Windowed(w) ::
              r == SeriesRule(format, svc, item, s, w) ==> Generated(svc, items, n)
  {
    RecordsAreGenerated(format, svc, items, n);
    forall item, s, w | item in items && s in SeriesOf(item) && s !in UserSeries() && Windowed(w) &&
                        r == SeriesRule(format, svc, item, s, w)
      ensures Generated(svc, items, n)
    {
      DerivedParses(format, world, svc, item, s, w);
      var d :| d in ReadSeries(s) && d in SeriesOf(item) && n == SeriesName(svc, item, d, w);
      assert Recorded(svc, item, n);
    }
  }

  // ------------------------------------------------------ meaning of recordings

  function Recordings(format: Format, world: World, svc: string, items: seq<SLOItem>): Env {
    EvalGroup(RecordingRules(format, svc, items), map[], world)
  }

  /** The value of a user query against the database alone. */
  function UserValue(text: string, world: World): Sample { EvalText(text, map[], world) }

  /** The error ratio the spec means over a window. */
  function SpecRatio(item: SLOItem, w: string, world: World): Sample {
    if item.events.Some? then
      Div(UserValue(RenderQuery(item.events.value.errorQuery, w), world),
          UserValue(RenderQuery(item.events.value.totalQuery, w), world))
    else if item.raw.Some? then UserValue(RenderQuery(item.raw.value.errorRatioQuery, w), world)
    else Absent
  }

  function SpecBurn(item: SLOItem, w: string, world: World): Sample {
    Div(SpecRatio(item, w, world), Fin(AllowedErrorRatio(item)))
  }

  lemma UserQueryMeaning(format: Format, world: World, svc: string, items: seq<SLOItem>, text: string)
    requires IndependentQuery(svc, items, text)
    ensures EvalText(text, Recordings(format, world, svc, items), world) == UserValue(text, world)
  {
    var final := Recordings(format, world, svc, items);
    forall n | n in Refs(text) ensures Lookup(n, final, world) == Lookup(n, map[], world) {
      RecordsAreGenerated(format, svc, items, n);
      GroupFrame(RecordingRules(format, svc, items), map[], world, n);
    }
    EvalTextFrame(text, final, map[], world);
  }

  /** Every generated rule holds as an equation after one pass. */
  lemma SeriesEquation(format: Format, world: World, svc: string, items: seq<SLOItem>, item: SLOItem, s: Series,
                       w: string)
    requires Compilable(format, world, svc, items) && item in items && s in SeriesOf(item) && Windowed(w)
    ensures var final := Recordings(format, world, svc, items);
            var n := SeriesName(svc, item, s, w);
            n in final && final[n] == EvalText(SeriesText(format, svc, item, s, w), final, world)
  {
    var rules := RecordingRules(format, svc, items);
    assert items[..|items|] == items;
    RecordingOrdered(format, world, svc, items, |items|);
    OnePassSolves(rules, map[], world);
    assert RuleOfItem(format, svc, item, SeriesRule(format, svc, item, s, w));
    RecordingMembers(format, svc, items, SeriesRule(format, svc, item, s, w));
  }

  lemma DerivedEquation(format: Format, world: World, svc: string, items: seq<SLOItem>, item: SLOItem, s: Series,
                        w: string)
    requires Compilable(format, world, svc, items) && item in items && s in SeriesOf(item) && Windowed(w) &&
             s !in UserSeries()
    ensures var final := Recordings(format, world, svc, items);
            var n := SeriesName(svc, item, s, w);
            n in final && final[n] == Eval(DerivedExpr(format, svc, item, s, w), final, world)
  {
    SeriesEquation(format, world, svc, items, item, s, w);
    DerivedParses(format, world, svc, item, s, w);
  }

  /** Meaning preservation for event SLIs. */
  lemma EventMeaning(format: Format, world: World, svc: string, items: seq<SLOItem>, item: SLOItem, w: string)
    requires Compilable(format, world, svc, items) && item in items && Windowed(w) && item.events.Some?
    ensures var final := Recordings(format, world, svc, items);
            Lookup(SeriesName(svc, item, RequestRate, w), final, world)
              == UserValue(RenderQuery(item.events.value.totalQuery, w), world) &&
            Lookup(SeriesName(svc, item, ErrorRatio, w), final, world) == SpecRatio(item, w, world) &&
            Lookup(SeriesName(svc, item, BurnRate, w), final, world) == SpecBurn(item, w, world)
  {
    hide RecordingRules, EvalGroup, RenderQuery, SeriesName, UserValue, Print;
    UserQueryMeaning(format, world, svc, items, RenderQuery(item.events.value.totalQuery, w));
    UserQueryMeaning(format, world, svc, items, RenderQuery(item.events.value.errorQuery, w));
    SeriesEquation(format, world, svc, items, item, RequestRate, w);
    SeriesEquation(format, world, svc, items, item, ErrorRate, w);
    DerivedEquation(format, world, svc, items, item, ErrorRatio, w);
    DerivedEquation(format, world, svc, items, item, BurnRate, w);
  }

  /** Meaning preservation for raw SLIs. */
  lemma RawMeaning(format: Format, world: World, svc: string, items: seq<SLOItem>, item: SLOItem, w: string)
    requires Compilable(format, world, svc, items) && item in items && Windowed(w) && item.raw.Some?
    ensures var final := Recordings(format, world, svc, items);
            var ratio := UserValue(RenderQuery(item.raw.value.errorRatioQuery, w), world);
            Lookup(SeriesName(svc, item, RawRatio, w), final, world) == ratio &&
            Lookup(SeriesName(svc, item, RawBurn, w), final, world) == Div(ratio, Fin(AllowedErrorRatio(item)))
  {
    UserQueryMeaning(format, world, svc, items, RenderQuery(item.raw.value.errorRatioQuery, w));
    SeriesEquation(format, world, svc, items, item, RawRatio, w);
    DerivedEquation(format, world, svc, items, item, RawBurn, w);
  }

  /** Meaning preservation, for the burn series that an item's alerts read. */
  lemma BurnMeaning(format: Format, world: World, svc: string, items: seq<SLOItem>, item: SLOItem, w: string)
    requires Compilable(format, world, svc, items) && item in items && Windowed(w) &&
             (item.events.Some? || item.raw.Some?)
    ensures Lookup(SeriesName(svc, item, BurnSeries(item), w), Recordings(format, world, svc, items), world)
         == SpecBurn(item, w, world)
  {
    if item.events.Some? { EventMeaning(format, world, svc, items, item, w); }
    else { RawMeaning(format, world, svc, items, item, w); }
  }

  /** With traffic and an objective below 100 the burn rate is the plain quotient of the documentation. */
  lemma BurnIsQuotient(item: SLOItem, w: string, world: World, errors: real, total: real)
    requires item.events.Some? && item.objective < 100.0 && total != 0.0
    requires UserValue(RenderQuery(item.events.value.errorQuery, w), world) == Fin(errors)
    requires UserValue(RenderQuery(item.events.value.totalQuery, w), world) == Fin(total)
    ensures SpecBurn(item, w, world) == Fin((errors / total) / (1.0 - item.objective / 100.0))
  {
    assert item.objective / 100.0 < 1.0;
  }

  /** The admitted objective of 100 turns every threshold into zero: any error at all is an infinite burn. */
  lemma FullObjectiveBurn(item: SLOItem, w: string, world: World, thr: real)
    requires item.objective == 100.0
    ensures Above(SpecBurn(item, w, world), Fin(thr)) <==> Above(SpecRatio(item, w, world), Fin(0.0))
  {
    assert AllowedErrorRatio(item) == 0.0;
  }

  // ----------------------------------------------------------- meaning of alerts

  predicate Fires(r: Rule, env: Env, world: World) { EvalText(r.expr, env, world) != Absent }

  lemma ComparisonFires(n: string, tok: string, env: Env, world: World)
    ensures Eval(Bin(GtOp, Name(n), Num(tok)), env, world) != Absent <==>
            Above(Lookup(n, env, world), Fin(world.number(tok)))
  {
    assert Eval(Num(tok), env, world) == Fin(world.number(tok));
  }

  lemma {:induction false} BurnExprFires(format: Format, world: World, svc: string, item: SLOItem, ws: seq<string>,
                                         thr: real, env: Env)
    requires ws != [] && Exact(format, world, thr)
    ensures Eval(BurnExpr(format, svc, item, ws, thr), env, world) != Absent <==>
            forall w :: w in ws ==> Above(Lookup(SeriesName(svc, item, BurnSeries(item), w), env, world), Fin(thr))
  {
    var n := |ws| - 1;
    SplitLast(ws);
    ComparisonFires(SeriesName(svc, item, BurnSeries(item), ws[n]), format(thr), env, world);
    if n > 0 { BurnExprFires(format, world, svc, item, ws[..n], thr, env); }
  }

  lemma {:induction false} BurnExprCanonical(format: Format, world: World, svc: string, item: SLOItem, ws: seq<string>,
                                             thr: real)
    requires ws != [] && Exact(format, world, thr) && LegalItem(svc, item) && (item.events.Some? || item.raw.Some?)
    requires forall w :: w in ws ==> NameChars(w)
    ensures Canonical(BurnExpr(format, svc, item, ws, thr), 0)
    ensures |ws| == 1 ==> Canonical(BurnExpr(format, svc, item, ws, thr), 1)
  {
    var n := |ws| - 1;
    LegalName(svc, item, BurnSeries(item), ws[n]);
    if n > 0 { BurnExprCanonical(format, world, svc, item, ws[..n], thr); }
  }

  /** An alert with legal windows fires iff each series it reads is above the threshold, whatever those series are. */
  lemma AlertReads(format: Format, world: World, spec: SLOSpec, item: SLOItem, tier: Tier, env: Env)
    requires tier != Budget && Enabled(item, tier) && LegalItem(spec.service, item) &&
             (item.events.Some? || item.raw.Some?)
    requires forall w :: w in ChosenWindows(TierSpec(item, tier).value, tier) ==> NameChars(w)
    requires Exact(format, world, ChosenThreshold(TierSpec(item, tier).value, tier))
    ensures var t := TierSpec(item, tier).value;
            Fires(TierRule(format, spec, item, tier), env, world) <==>
            forall w :: w in ChosenWindows(t, tier) ==>
              Above(Lookup(SeriesName(spec.service, item, BurnSeries(item), w), env, world),
                    Fin(ChosenThreshold(t, tier)))
  {
    var t := TierSpec(item, tier).value;
    var ws, thr := ChosenWindows(t, tier), ChosenThreshold(t, tier);
    BurnExprCanonical(format, world, spec.service, item, ws, thr);
    RoundTrip(BurnExpr(format, spec.service, item, ws, thr));
    BurnExprFires(format, world, spec.service, item, ws, thr, env);
  }

  /** A Page or Ticket rule fires iff the burn exceeds the given or the default threshold in each chosen window. */
  lemma TierMeaning(format: Format, world: World, spec: SLOSpec, item: SLOItem, tier: Tier)
    requires Compilable(format, world, spec.service, spec.slos) && item in spec.slos
    requires item.events.Some? || item.raw.Some?
    requires tier != Budget && Enabled(item, tier)
    requires Exact(format, world, ChosenThreshold(TierSpec(item, tier).value, tier))
    requires forall w :: w in ChosenWindows(TierSpec(item, tier).value, tier) ==> Windowed(w)
    ensures var t := TierSpec(item, tier).value;
            var thr := match t.burnThreshold case Some(x) => x case None => if tier == Page then 14.4 else 6.0;
            Fires(TierRule(format, spec, item, tier), Recordings(format, world, spec.service, spec.slos), world) <==>
            forall w :: w in ChosenWindows(t, tier) ==> Above(SpecBurn(item, w, world), Fin(thr))
  {
    var ws := ChosenWindows(TierSpec(item, tier).value, tier);
    forall w | w in ws
      ensures NameChars(w)
      ensures var series := SeriesName(spec.service, item, BurnSeries(item), w);
              Lookup(series, Recordings(format, world, spec.service, spec.slos), world) == SpecBurn(item, w, world)
    {
      WindowFacts(w);
      BurnMeaning(format, world, spec.service, spec.slos, item, w);
    }
    AlertReads(format, world, spec, item, tier, Recordings(format, world, spec.service, spec.slos));
  }

  lemma BudgetSeries(svc: string, item: SLOItem)
    ensures svc + ":burn_rate1d" == SeriesName(svc, item, BurnRate, "1d")
  {
    Names(svc, item, "1d");
    assert ":burn_rate" + "1d" == ":burn_rate1d";
    assert svc + (":burn_rate" + "1d") == svc + ":burn_rate" + "1d";
  }

  /** The Budget alert fires iff the one-day burn series is above 1, whatever that series is. */
  lemma BudgetReads(format: Format, world: World, spec: SLOSpec, item: SLOItem, env: Env)
    requires LegalItem(spec.service, item) && Exact(format, world, BUDGET_THRESHOLD)
    ensures Fires(BudgetRule(format, spec, item), env, world) <==>
            Above(Lookup(SeriesName(spec.service, item, BurnRate, "1d"), env, world), Fin(1.0))
  {
    hide SeriesName, Print, Annotations, MergedLabels, Parse;
    BudgetSeries(spec.service, item);
    ComparisonFires(SeriesName(spec.service, item, BurnRate, "1d"), format(BUDGET_THRESHOLD), env, world);
    WindowFacts("1d");
    LegalName(spec.service, item, BurnRate, "1d");
    RoundTrip(BudgetExpr(format, spec.service));
  }

  /** The Budget alert fires iff the one-day burn exceeds 1. */
  lemma BudgetMeaning(format: Format, world: World, spec: SLOSpec, item: SLOItem)
    requires Compilable(format, world, spec.service, spec.slos) && item in spec.slos && item.events.Some?
    requires Exact(format, world, BUDGET_THRESHOLD)
    ensures Fires(BudgetRule(format, spec, item), Recordings(format, world, spec.service, spec.slos), world) <==>
            Above(SpecBurn(item, "1d", world), Fin(1.0))
  {
    hide Recordings, SpecBurn, SeriesName, Fires, BudgetRule;
    WindowFacts("1d");
    BudgetReads(format, world, spec, item, Recordings(format, world, spec.service, spec.slos));
    EventMeaning(format, world, spec.service, spec.slos, item, "1d");
  }

  /** When an item's alert for a tier is meant to fire. */
  predicate Due(item: SLOItem, tier: Tier, world: World)
    requires tier != Budget ==> Enabled(item, tier)
  {
    if tier == Budget then Above(SpecBurn(item, "1d", world), Fin(BUDGET_THRESHOLD))
    else
      var t := TierSpec(item, tier).value;
      forall w :: w in ChosenWindows(t, tier) ==> Above(SpecBurn(item, w, world), Fin(ChosenThreshold(t, tier)))
  }

  /** The numbers of an item's alerts print exactly, and its windows are recorded. */
  predicate AlertsSound(format: Format, world: World, item: SLOItem) {
    (item.events.Some? || item.raw.Some?) && Exact(format, world, BUDGET_THRESHOLD) &&
    forall tier :: tier != Budget && Enabled(item, tier) ==>
      Exact(format, world, ChosenThreshold(TierSpec(item, tier).value, tier)) &&
      forall w :: w in ChosenWindows(TierSpec(item, tier).value, tier) ==> Windowed(w)
  }

  /** The alert theorem: a rule of the alert group fires iff the alert it was generated for is due. */
  lemma AlertMeaning(format: Format, world: World, spec: SLOSpec, r: Rule)
    requires Compilable(format, world, spec.service, spec.slos)
    requires forall item :: item in spec.slos ==> AlertsSound(format, world, item)
    requires r in AlertRules(format, spec, spec.slos)
    ensures exists item, tier :: item in spec.slos && AlertOf(format, spec, item, tier, r)
    ensures forall item, tier :: item in spec.slos && AlertOf(format, spec, item, tier, r) ==>
              (Fires(r, Recordings(format, world, spec.service, spec.slos), world) <==> Due(item, tier, world))
  {
    hide Compilable, Fires, Recordings, TierRule, BudgetRule, AlertRules, SpecBurn, Exact, Above;
    AlertMembers(format, spec, spec.slos, r);
    forall item, tier | item in spec.slos && AlertOf(format, spec, item, tier, r)
      ensures Fires(r, Recordings(format, world, spec.service, spec.slos), world) <==> Due(item, tier, world)
    {
      assert AlertsSound(format, world, item);
      if tier == Budget {
        BudgetMeaning(format, world, spec, item);
      } else {
        TierMeaning(format, world, spec, item, tier);
      }
    }
  }

  // ------------------------------------------------ when alert references resolve

  /** What follows the family name in the burn series that an alert reads over w. */
  function AlertTail(item: SLOItem, w: string): string {
    (if item.events.Some? then "" else "_" + Sanitize(item.name)) + w
  }

  /** Some raw item's burn series spells the same tail. */
  predicate SpelledByRaw(items: seq<SLOItem>, tail: string) {
    exists other, v :: other in items && v in RECORDING_WINDOWS && other.raw.Some? &&
      tail == "_" + (Sanitize(other.name) + v)
  }

  lemma SpellBurn(svc: string, item: SLOItem, w: string)
    ensures SeriesName(svc, item, BurnSeries(item), w) == svc + (":burn_rate" + AlertTail(item, w))
    ensures SeriesName(svc, item, BurnRate, w) == svc + (":burn_rate" + w)
    ensures SeriesName(svc, item, RawBurn, w) == svc + (":burn_rate" + ("_" + (Sanitize(item.name) + w)))
  {
    hide Sanitize;
    var raw := Sanitize(item.name) + w;
    assert "" + w == w;
    Assoc(svc, ":burn_rate", w);
    Assoc(svc, ":burn_rate_", raw);
    assert ":burn_rate_" == ":burn_rate" + "_";
    Assoc(":burn_rate", "_", raw);
    Assoc("_", Sanitize(item.name), w);
  }

  /** Only burn series can spell an alert's series: an event item's over that window, or a raw item's. */
  lemma BurnTail(svc: string, item: SLOItem, s: Series, v: string, tail: string)
    requires Windowed(v)
    ensures SeriesName(svc, item, s, v) == svc + (":burn_rate" + tail) <==>
            (s == BurnRate && tail == v) || (s == RawBurn && tail == "_" + (Sanitize(item.name) + v))
  {
    hide Sanitize;
    SpellBurn(svc, item, v);
    if SeriesName(svc, item, s, v) == svc + (":burn_rate" + tail) {
      FamilyShape(s);
      assert SeriesName(svc, item, s, v)[|svc| + 1] == Family(s)[1];
      assert (svc + (":burn_rate" + tail))[|svc| + 1] == 'b';
      var mine := if s == BurnRate then v else "_" + (Sanitize(item.name) + v);
      CancelPrefix(svc, ":burn_rate" + tail, ":burn_rate" + mine);
      CancelPrefix(":burn_rate", tail, mine);
    }
  }

  /**
   The series of an alert condition is generated exactly when its window is a recording window of an event item,
   or some raw item and recording window spell the same name, whatever the window.
   */
  lemma AlertSeriesResolves(svc: string, items: seq<SLOItem>, item: SLOItem, w: string)
    requires item in items && (item.events.Some? || item.raw.Some?)
    ensures Generated(svc, items, SeriesName(svc, item, BurnSeries(item), w)) <==> Resolves(items, item, w)
  {
    hide SeriesName, Sanitize;
    var tail := AlertTail(item, w);
    var n := SeriesName(svc, item, BurnSeries(item), w);
    SpellBurn(svc, item, w);
    LatencyApart(svc, item, BurnSeries(item), w);
    if Generated(svc, items, n) {
      var other :| other in items && Recorded(svc, other, n);
      var s, v :| s in SeriesOf(other) && Windowed(v) && n == SeriesName(svc, other, s, v);
      BurnTail(svc, other, s, v, tail);
      WindowFacts(v);
      assert item.events.None? ==> tail[0] == '_';
      assert item.events.Some? ==> tail == w;
    }
    if SpelledByRaw(items, tail) {
      var other, v :| other in items && v in RECORDING_WINDOWS && other.raw.Some? &&
                      tail == "_" + (Sanitize(other.name) + v);
      BurnTail(svc, other, RawBurn, v, tail);
      assert RawBurn in SeriesOf(other);
      assert Recorded(svc, other, n);
    } else if item.events.Some? && Windowed(w) {
      BurnTail(svc, item, BurnRate, w, tail);
      assert BurnRate in SeriesOf(item);
      assert Recorded(svc, item, n);
    }
  }

  predicate Resolves(items: seq<SLOItem>, item: SLOItem, w: string) {
    (item.events.Some? && Windowed(w)) || SpelledByRaw(items, AlertTail(item, w))
  }

  /** An alert with a window that does not resolve reads a series nobody writes: it can never fire. */
  lemma UnrecordedWindowSilences(format: Format, world: World, spec: SLOSpec, item: SLOItem, tier: Tier, w: string)
    requires item in spec.slos && (item.events.Some? || item.raw.Some?) && LegalItem(spec.service, item)
    requires tier != Budget && Enabled(item, tier)
    requires Exact(format, world, ChosenThreshold(TierSpec(item, tier).value, tier))
    requires forall v :: v in ChosenWindows(TierSpec(item, tier).value, tier) ==> NameChars(v)
    requires w in ChosenWindows(TierSpec(item, tier).value, tier) && !Resolves(spec.slos, item, w)
    requires world.series(SeriesName(spec.service, item, BurnSeries(item), w)) == Absent
    ensures !Fires(TierRule(format, spec, item, tier), Recordings(format, world, spec.service, spec.slos), world)
  {
    var n := SeriesName(spec.service, item, BurnSeries(item), w);
    AlertSeriesResolves(spec.service, spec.slos, item, w);
    RecordsAreGenerated(format, spec.service, spec.slos, n);
    GroupFrame(RecordingRules(format, spec.service, spec.slos), map[], world, n);
    AlertReads(format, world, spec, item, tier, Recordings(format, world, spec.service, spec.slos));
  }
}
