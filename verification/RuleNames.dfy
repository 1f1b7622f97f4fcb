/** The generated series names: decodable, and unique exactly when the items do not compete for them. */
module RuleNames {
  import opened Strings
  import opened PromQL
  import opened SloApi
  import opened RuleGenerator

  predicate Windowed(w: string) { w in RECORDING_WINDOWS }

  lemma WindowFacts(w: string)
    requires Windowed(w)
    ensures |w| >= 2 && Digit(w[0]) && NameChars(w)
  {}

  /** No recording window is a suffix of another, so the window can be read off the end of a name. */
  lemma WindowSuffix(a: string, w: string, b: string, v: string)
    requires Windowed(w) && Windowed(v) && a + w == b + v
    ensures w == v && a == b
  {
    var n := |a + w|;
    assert w[|w| - 2] == (a + w)[n - 2] && w[|w| - 1] == (a + w)[n - 1];
    assert v[|v| - 2] == (b + v)[n - 2] && v[|v| - 1] == (b + v)[n - 1];
    CancelSuffix(a, b, w);
  }

  function Suffix(item: SLOItem, s: Series, w: string): string {
    (if IsRaw(s) then Sanitize(item.name) else "") + w
  }

  /** An event family is followed by a digit, a raw family ends in "_": the family can be read off too. */
  lemma FamilyApart(s: Series, x: string, t: Series, y: string)
    requires x != "" && y != "" && Family(s) + x == Family(t) + y
    requires (!IsRaw(s) ==> Digit(x[0])) && (!IsRaw(t) ==> Digit(y[0]))
    ensures s == t && x == y
  {
    var a, b := Family(s) + x, Family(t) + y;
    assert a[|Family(s)|] == x[0] && b[|Family(t)|] == y[0];
    assert forall i :: 0 <= i < |Family(s)| ==> a[i] == Family(s)[i];
    assert forall i :: 0 <= i < |Family(t)| ==> b[i] == Family(t)[i];
    assert a[1] == b[1] && a[10] == b[10] && (|a| > 12 && |b| > 12 ==> a[12] == b[12]);
    FamilyShape(s);
    FamilyShape(t);
    assert s == t;
    CancelPrefix(Family(s), x, y);
  }

  lemma FamilyShape(s: Series)
    ensures |Family(s)| >= 10
    ensures Family(s)[1] == if s == RequestRate then 'r' else if s == BurnRate || s == RawBurn then 'b' else 'e'
    ensures s == ErrorRate ==> |Family(s)| == 11 && Family(s)[10] == 'e'
    ensures s == ErrorRatio ==> |Family(s)| == 12 && Family(s)[10] == 'i'
    ensures s == RawRatio ==> |Family(s)| == 13 && Family(s)[10] == 'i' && Family(s)[12] == '_'
    ensures s == BurnRate ==> |Family(s)| == 10
    ensures s == RawBurn ==> |Family(s)| == 11 && Family(s)[10] == '_'
  {}

  lemma NameParts(svc: string, a: SLOItem, s: Series, w: string, b: SLOItem, t: Series, v: string)
    requires w != "" && v != "" && Digit(w[0]) && Digit(v[0])
    requires SeriesName(svc, a, s, w) == SeriesName(svc, b, t, v)
    ensures s == t && Suffix(a, s, w) == Suffix(b, t, v)
  {
    hide Family;
    SpellName(svc, a, s, w);
    SpellName(svc, b, t, v);
    CancelPrefix(svc, Family(s) + Suffix(a, s, w), Family(t) + Suffix(b, t, v));
    FamilyApart(s, Suffix(a, s, w), t, Suffix(b, t, v));
  }

  lemma SpellName(svc: string, item: SLOItem, s: Series, w: string)
    ensures SeriesName(svc, item, s, w) == svc + (Family(s) + Suffix(item, s, w))
    ensures !IsRaw(s) ==> Suffix(item, s, w) == w
    ensures w != "" ==> Suffix(item, s, w) != ""
  {
    hide Family;
    assert svc + Family(s) + Suffix(item, s, w) == svc + (Family(s) + Suffix(item, s, w));
    assert "" + w == w;
  }

  /** The name of a recorded series determines its family, its window and, for raw SLIs, the sanitized item name. */
  lemma NameInjective(svc: string, a: SLOItem, s: Series, w: string, b: SLOItem, t: Series, v: string)
    requires Windowed(w) && Windowed(v)
    ensures SeriesName(svc, a, s, w) == SeriesName(svc, b, t, v) <==>
            s == t && w == v && (IsRaw(s) ==> Sanitize(a.name) == Sanitize(b.name))
  {
    if SeriesName(svc, a, s, w) == SeriesName(svc, b, t, v) {
      WindowFacts(w);
      WindowFacts(v);
      NameParts(svc, a, s, w, b, t, v);
      if IsRaw(s) { WindowSuffix(Sanitize(a.name), w, Sanitize(b.name), v); }
      else { assert Suffix(a, s, w) == w && Suffix(b, t, v) == v; }
    }
  }

  function LatencyName(svc: string): string { svc + ":latency_p99_5m" }

  lemma LatencyApart(svc: string, item: SLOItem, s: Series, w: string)
    ensures SeriesName(svc, item, s, w) != LatencyName(svc)
  {
    FamilyShape(s);
    assert LatencyName(svc)[|svc| + 1] == 'l';
    assert SeriesName(svc, item, s, w)[|svc| + 1] == Family(s)[1];
  }

  // ------------------------------------------- what the group records

  ghost predicate Recorded(svc: string, item: SLOItem, n: string) {
    (IsLatency(item) && n == LatencyName(svc)) ||
    exists s, w :: s in SeriesOf(item) && Windowed(w) && n == SeriesName(svc, item, s, w)
  }

  ghost predicate Generated(svc: string, items: seq<SLOItem>, n: string) {
    exists item :: item in items && Recorded(svc, item, n)
  }

  ghost predicate RuleOfItem(format: Format, svc: string, item: SLOItem, r: Rule) {
    (IsLatency(item) && r == LatencyRule(svc)) ||
    exists s, w :: s in SeriesOf(item) && Windowed(w) && r == SeriesRule(format, svc, item, s, w)
  }

  ghost predicate FromWindow(format: Format, svc: string, item: SLOItem, w: string, r: Rule) {
    exists s :: s in SeriesOf(item) && r == SeriesRule(format, svc, item, s, w)
  }

  lemma WindowRulesMembers(format: Format, svc: string, item: SLOItem, w: string, r: Rule)
    ensures r in WindowRules(format, svc, item, w) <==> FromWindow(format, svc, item, w, r)
  {
    var ss, rules := SeriesOf(item), WindowRules(format, svc, item, w);
    if FromWindow(format, svc, item, w, r) {
      var s :| s in ss && r == SeriesRule(format, svc, item, s, w);
      var k :| 0 <= k < |ss| && ss[k] == s;
      assert rules[k] == r;
    }
  }

  lemma {:induction false} ItemWindowsMembers(format: Format, svc: string, item: SLOItem, ws: seq<string>, r: Rule)
    ensures r in ItemWindows(format, svc, item, ws) <==> exists w :: w in ws && FromWindow(format, svc, item, w, r)
  {
    if ws != [] {
      hide FromWindow, WindowRules;
      var n := |ws| - 1;
      ItemWindowsMembers(format, svc, item, ws[..n], r);
      WindowRulesMembers(format, svc, item, ws[n], r);
      InAppend(ItemWindows(format, svc, item, ws[..n]), WindowRules(format, svc, item, ws[n]), r);
      SplitLast(ws);
    }
  }

  lemma SplitLast<T>(s: seq<T>)
    requires s != []
    ensures forall x :: x in s <==> x in s[..|s| - 1] || x == s[|s| - 1]
  {}

  lemma InAppend<T>(a: seq<T>, b: seq<T>, x: T)
    ensures x in a + b <==> x in a || x in b
  {}

  lemma ItemRulesMembers(format: Format, svc: string, item: SLOItem, r: Rule)
    ensures r in ItemRules(format, svc, item) <==> RuleOfItem(format, svc, item, r)
  {
    ItemWindowsMembers(format, svc, item, RECORDING_WINDOWS, r);
  }

  lemma {:induction false} RecordingMembers(format: Format, svc: string, items: seq<SLOItem>, r: Rule)
    ensures r in RecordingRules(format, svc, items) <==>
            exists item :: item in items && RuleOfItem(format, svc, item, r)
  {
    hide ItemRules, RuleOfItem;
    if items != [] {
      var n := |items| - 1;
      RecordingMembers(format, svc, items[..n], r);
      ItemRulesMembers(format, svc, items[n], r);
      assert forall item :: item in items <==> item in items[..n] || item == items[n];
    }
  }

  lemma ItemRecords(format: Format, svc: string, item: SLOItem, n: string)
    ensures n in Records(ItemRules(format, svc, item)) <==> Recorded(svc, item, n)
  {
    if r :| r in ItemRules(format, svc, item) && r.record == n { ItemRulesMembers(format, svc, item, r); }
    if Recorded(svc, item, n) {
      if IsLatency(item) && n == LatencyName(svc) {
        ItemRulesMembers(format, svc, item, LatencyRule(svc));
      } else {
        var s, w :| s in SeriesOf(item) && Windowed(w) && n == SeriesName(svc, item, s, w);
        ItemRulesMembers(format, svc, item, SeriesRule(format, svc, item, s, w));
      }
    }
  }

  /** The recorded names are exactly the series of the items over the recording windows, and the latency quantile. */
  lemma {:induction false} RecordsAreGenerated(format: Format, svc: string, items: seq<SLOItem>, n: string)
    ensures n in Records(RecordingRules(format, svc, items)) <==> Generated(svc, items, n)
  {
    if items != [] {
      var k := |items| - 1;
      RecordsAreGenerated(format, svc, items[..k], n);
      ItemRecords(format, svc, items[k], n);
      assert forall item :: item in items <==> item in items[..k] || item == items[k];
      RecordsConcat(RecordingRules(format, svc, items[..k]), ItemRules(format, svc, items[k]));
    }
  }

  lemma RecordsConcat(a: seq<Rule>, b: seq<Rule>)
    ensures Records(a + b) == Records(a) + Records(b)
  {}

  // ------------------------------------------------------- uniqueness

  /** Two items compete when both are event-based, or both raw with the same sanitized name. */
  predicate Compete(a: SLOItem, b: SLOItem) {
    (a.events.Some? && b.events.Some?) || (a.raw.Some? && b.raw.Some? && Sanitize(a.name) == Sanitize(b.name))
  }

  ghost predicate DistinctSources(items: seq<SLOItem>) {
    forall i, j :: 0 <= i < j < |items| ==> !Compete(items[i], items[j])
  }

  /** Exactly the names that sanitizing confuses: they differ at most in which of '.', '-', ' ' and '_' they use. */
  lemma SanitizedAlike(a: string, b: string)
    ensures Sanitize(a) == Sanitize(b) <==>
            |a| == |b| && forall i :: 0 <= i < |a| ==> a[i] == b[i] || (a[i] in ".- _" && b[i] in ".- _")
  {
    if Sanitize(a) == Sanitize(b) {
      assert |a| == |b|;
      forall i | 0 <= i < |a| ensures a[i] == b[i] || (a[i] in ".- _" && b[i] in ".- _") {
        assert Sanitize(a)[i] == Sanitize(b)[i];
      }
    }
  }

  lemma SharedSeries(svc: string, a: SLOItem, b: SLOItem, s: Series, w: string, t: Series, v: string)
    requires s in SeriesOf(a) && t in SeriesOf(b) && Windowed(w) && Windowed(v)
    requires SeriesName(svc, a, s, w) == SeriesName(svc, b, t, v)
    ensures Compete(a, b)
  {
    NameInjective(svc, a, s, w, b, t, v);
  }

  /** Two items share a recorded name exactly when they compete or both record the latency quantile. */
  lemma SharedNames(svc: string, a: SLOItem, b: SLOItem)
    ensures (exists n :: Recorded(svc, a, n) && Recorded(svc, b, n)) <==>
            Compete(a, b) || (IsLatency(a) && IsLatency(b))
  {
    if n :| Recorded(svc, a, n) && Recorded(svc, b, n) {
      if n == LatencyName(svc) {
        forall item, s, w | n == SeriesName(svc, item, s, w) ensures false { LatencyApart(svc, item, s, w); }
      } else {
        var s, w :| s in SeriesOf(a) && Windowed(w) && n == SeriesName(svc, a, s, w);
        var t, v :| t in SeriesOf(b) && Windowed(v) && n == SeriesName(svc, b, t, v);
        SharedSeries(svc, a, b, s, w, t, v);
      }
    }
    if IsLatency(a) && IsLatency(b) {
      assert Recorded(svc, a, LatencyName(svc)) && Recorded(svc, b, LatencyName(svc));
    }
    if Compete(a, b) {
      var s := if a.events.Some? && b.events.Some? then BurnRate else RawBurn;
      var n := SeriesName(svc, a, s, "5m");
      assert Windowed("5m") && s in SeriesOf(a) && s in SeriesOf(b);
      assert n == SeriesName(svc, b, s, "5m");
      assert Recorded(svc, a, n) && Recorded(svc, b, n);
    }
  }

  ghost predicate UniqueRecords(rules: seq<Rule>) {
    forall i, j :: 0 <= i < j < |rules| ==> rules[i].record != rules[j].record
  }

  lemma UniqueConcat(a: seq<Rule>, b: seq<Rule>)
    ensures UniqueRecords(a + b) <==> UniqueRecords(a) && UniqueRecords(b) && Records(a) !! Records(b)
  {
    var c := a + b;
    if UniqueRecords(c) {
      forall i, j | 0 <= i < j < |a| ensures a[i].record != a[j].record { assert c[i] == a[i] && c[j] == a[j]; }
      forall i, j | 0 <= i < j < |b| ensures b[i].record != b[j].record {
        assert c[|a| + i] == b[i] && c[|a| + j] == b[j];
      }
      forall r, q | r in a && q in b ensures r.record != q.record {
        var i :| 0 <= i < |a| && a[i] == r;
        var j :| 0 <= j < |b| && b[j] == q;
        assert c[i] == r && c[|a| + j] == q;
      }
    } else {
      var i, j :| 0 <= i < j < |c| && c[i].record == c[j].record;
      if i < |a| <= j {
        assert c[i] in a && c[j] in b;
        assert c[i].record in Records(a) && c[j].record in Records(b);
      }
      else if j < |a| { assert c[i] == a[i] && c[j] == a[j]; }
      else { assert c[i] == b[i - |a|] && c[j] == b[j - |a|]; }
    }
  }

  lemma WindowUnique(format: Format, svc: string, item: SLOItem, w: string)
    requires Windowed(w)
    ensures UniqueRecords(WindowRules(format, svc, item, w))
  {
    var ss, rules := SeriesOf(item), WindowRules(format, svc, item, w);
    forall i, j | 0 <= i < j < |rules| ensures rules[i].record != rules[j].record {
      NameInjective(svc, item, ss[i], w, item, ss[j], w);
    }
  }

  lemma {:induction false} ItemWindowsUnique(format: Format, svc: string, item: SLOItem, ws: seq<string>)
    requires forall w :: w in ws ==> Windowed(w)
    requires forall i, j :: 0 <= i < j < |ws| ==> ws[i] != ws[j]
    ensures UniqueRecords(ItemWindows(format, svc, item, ws))
  {
    if ws != [] {
      var n := |ws| - 1;
      var a, b := ItemWindows(format, svc, item, ws[..n]), WindowRules(format, svc, item, ws[n]);
      ItemWindowsUnique(format, svc, item, ws[..n]);
      WindowUnique(format, svc, item, ws[n]);
      forall r, q | r in a && q in b ensures r.record != q.record {
        ItemWindowsMembers(format, svc, item, ws[..n], r);
        WindowRulesMembers(format, svc, item, ws[n], q);
        var w :| w in ws[..n] && FromWindow(format, svc, item, w, r);
        var s :| s in SeriesOf(item) && r == SeriesRule(format, svc, item, s, w);
        var t :| t in SeriesOf(item) && q == SeriesRule(format, svc, item, t, ws[n]);
        NameInjective(svc, item, s, w, item, t, ws[n]);
      }
      UniqueConcat(a, b);
    }
  }

  lemma ItemUnique(format: Format, svc: string, item: SLOItem)
    ensures UniqueRecords(ItemRules(format, svc, item))
  {
    var a := ItemWindows(format, svc, item, RECORDING_WINDOWS);
    var b := if IsLatency(item) then [LatencyRule(svc)] else [];
    ItemWindowsUnique(format, svc, item, RECORDING_WINDOWS);
    forall r | r in a ensures r.record != LatencyName(svc) {
      ItemWindowsMembers(format, svc, item, RECORDING_WINDOWS, r);
      var w :| w in RECORDING_WINDOWS && FromWindow(format, svc, item, w, r);
      var s :| s in SeriesOf(item) && r == SeriesRule(format, svc, item, s, w);
      LatencyApart(svc, item, s, w);
    }
    UniqueConcat(a, b);
  }

  /**
   The items' rules so far share no name with the next item's, exactly when the next item clashes with none of them.
   */
  lemma NoClash(format: Format, svc: string, items: seq<SLOItem>, n: nat)
    requires n < |items|
    ensures Records(RecordingRules(format, svc, items[..n])) !! Records(ItemRules(format, svc, items[n])) <==>
            forall i :: 0 <= i < n ==> !Clash(items[i], items[n])
  {
    hide Clash, Recorded, ItemRules, RecordingRules;
    var a, b := RecordingRules(format, svc, items[..n]), ItemRules(format, svc, items[n]);
    forall i | 0 <= i < n
      ensures (exists m :: Recorded(svc, items[i], m) && Recorded(svc, items[n], m)) <==> Clash(items[i], items[n])
    {
      ClashShares(svc, items[i], items[n]);
    }
    forall m ensures m in Records(a) <==> exists i :: 0 <= i < n && Recorded(svc, items[i], m) {
      RecordsAreGenerated(format, svc, items[..n], m);
      if Generated(svc, items[..n], m) {
        var item :| item in items[..n] && Recorded(svc, item, m);
        var i :| 0 <= i < n && items[i] == item;
      }
      if i :| 0 <= i < n && Recorded(svc, items[i], m) { assert items[i] in items[..n]; }
    }
    forall m ensures m in Records(b) <==> Recorded(svc, items[n], m) { ItemRecords(format, svc, items[n], m); }
  }

  predicate Clash(a: SLOItem, b: SLOItem) { Compete(a, b) || (IsLatency(a) && IsLatency(b)) }

  lemma ClashShares(svc: string, a: SLOItem, b: SLOItem)
    ensures (exists n :: Recorded(svc, a, n) && Recorded(svc, b, n)) <==> Clash(a, b)
  {
    SharedNames(svc, a, b);
  }

  /** No two recording rules share a name, exactly when no two items compete or both are latency SLIs. */
  lemma {:induction false} UniqueExactly(format: Format, svc: string, items: seq<SLOItem>)
    ensures UniqueRecords(RecordingRules(format, svc, items)) <==>
            forall i, j :: 0 <= i < j < |items| ==> !Clash(items[i], items[j])
  {
    if items != [] {
      hide Clash, ItemRules, UniqueRecords, Records;
      var n := |items| - 1;
      UniqueExactly(format, svc, items[..n]);
      ItemUnique(format, svc, items[n]);
      UniqueConcat(RecordingRules(format, svc, items[..n]), ItemRules(format, svc, items[n]));
      NoClash(format, svc, items, n);
    }
  }
}
