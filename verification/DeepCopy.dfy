/**
 The hand-written deep copies of the API types. Go maps, slices and pointers are heap objects here, structs are
 values that hold references; a copy must have equal contents and share no object with the original.
 */
module DeepCopy {
  import opened Strings

  class Labels {
    var entries: map<string, string>

    constructor (entries: map<string, string>)
      ensures this.entries == entries
    {
      this.entries := entries;
    }
  }

  class Float {
    var value: real

    constructor (value: real)
      ensures this.value == value
    {
      this.value := value;
    }
  }

  class EventsSLI {
    var errorQuery: string
    var totalQuery: string

    constructor (errorQuery: string, totalQuery: string)
      ensures this.errorQuery == errorQuery && this.totalQuery == totalQuery
    {
      this.errorQuery, this.totalQuery := errorQuery, totalQuery;
    }
  }

  class RawSLI {
    var errorRatioQuery: string

    constructor (errorRatioQuery: string)
      ensures this.errorRatioQuery == errorRatioQuery
    {
      this.errorRatioQuery := errorRatioQuery;
    }
  }

  class AlertTier {
    var disable: bool
    var labels: Labels?
    var burnThreshold: Float?
    var windows: array?<string>
    var forDur: string

    constructor (disable: bool, labels: Labels?, burnThreshold: Float?, windows: array?<string>, forDur: string)
      ensures this.disable == disable && this.labels == labels && this.burnThreshold == burnThreshold
      ensures this.windows == windows && this.forDur == forDur
    {
      this.disable, this.labels, this.burnThreshold := disable, labels, burnThreshold;
      this.windows, this.forDur := windows, forDur;
    }
  }

  class Time {
    var at: int

    constructor (at: int)
      ensures this.at == at
    {
      this.at := at;
    }
  }

  datatype AlertingSpec = AlertingSpec(name: string, labels: Labels?, page: AlertTier?, ticket: AlertTier?)

  datatype SLISpec = SLISpec(events: EventsSLI?, raw: RawSLI?)

  datatype SLOItem = SLOItem(name: string, objective: real, description: string, sli: SLISpec, alerting: AlertingSpec)

  datatype SLOSpec = SLOSpec(version: string, service: string, labels: Labels?, slos: array?<SLOItem>)

  datatype Condition = Condition(kind: string, holds: bool, reason: string, message: string)

  datatype SLOStatus = SLOStatus(conditions: array?<Condition>, generatedRules: array?<string>, lastReconcileAt: Time?,
                                 prometheusRuleName: string, configMapName: string)

  /** Type and object metadata are copied by the API library; they stand here as values. */
  datatype SLO = SLO(meta: string, spec: SLOSpec, status: SLOStatus)

  datatype SLOList = SLOList(meta: string, items: array?<SLO>)

  // ------------------------------------------------------ contents, as values

  datatype TierValue = TierValue(disable: bool, labels: Option<map<string, string>>, burn: Option<real>,
                                 windows: Option<seq<string>>, forDur: string)

  datatype SLIValue = SLIValue(events: Option<(string, string)>, raw: Option<string>)

  datatype AlertingValue = AlertingValue(name: string, labels: Option<map<string, string>>,
                                         page: Option<TierValue>, ticket: Option<TierValue>)

  datatype ItemValue = ItemValue(name: string, objective: real, description: string, sli: SLIValue,
                                 alerting: AlertingValue)

  datatype StatusValue = StatusValue(conditions: Option<seq<Condition>>, rules: Option<seq<string>>, at: Option<int>,
                                     prName: string, cmName: string)

  datatype SpecValue = SpecValue(version: string, service: string, labels: Option<map<string, string>>,
                                 items: Option<seq<ItemValue>>)

  datatype SLOValue = SLOValue(meta: string, spec: SpecValue, status: StatusValue)

  function One(o: object?): set<object> { if o == null then {} else {o} }

  function LabelsValue(l: Labels?): Option<map<string, string>>
    reads l
  {
    if l == null then None else Some(l.entries)
  }

  function ArrayValue<T>(a: array?<T>): Option<seq<T>>
    reads a
  {
    if a == null then None else Some(a[..])
  }

  /** The objects a tier refers to. */
  function TierRefs(t: AlertTier?): set<object>
    reads t
  {
    if t == null then {} else One(t.labels) + One(t.burnThreshold) + One(t.windows)
  }

  /** A tier and what it refers to. */
  function TierAll(t: AlertTier?): set<object>
    reads t
  {
    One(t) + TierRefs(t)
  }

  function TierContents(t: AlertTier?): Option<TierValue>
    reads t, TierRefs(t)
  {
    if t == null then None
    else Some(TierValue(t.disable, LabelsValue(t.labels),
                        if t.burnThreshold == null then None else Some(t.burnThreshold.value),
                        ArrayValue(t.windows), t.forDur))
  }

  function SLIRefs(s: SLISpec): set<object> { One(s.events) + One(s.raw) }

  function SLIContents(s: SLISpec): SLIValue
    reads SLIRefs(s)
  {
    SLIValue(if s.events == null then None else Some((s.events.errorQuery, s.events.totalQuery)),
             if s.raw == null then None else Some(s.raw.errorRatioQuery))
  }

  function AlertingDirect(a: AlertingSpec): set<object> { One(a.labels) + One(a.page) + One(a.ticket) }

  function AlertingRefs(a: AlertingSpec): set<object>
    reads a.page, a.ticket
  {
    One(a.labels) + TierAll(a.page) + TierAll(a.ticket)
  }

  function AlertingContents(a: AlertingSpec): AlertingValue
    reads a.labels, a.page, a.ticket, TierRefs(a.page), TierRefs(a.ticket)
  {
    AlertingValue(a.name, LabelsValue(a.labels), TierContents(a.page), TierContents(a.ticket))
  }

  /** The objects an item refers to directly, and through its tiers. */
  function ItemDirect(it: SLOItem): set<object> { SLIRefs(it.sli) + AlertingDirect(it.alerting) }

  function ItemRefs(it: SLOItem): set<object>
    reads ItemDirect(it)
  {
    SLIRefs(it.sli) + AlertingRefs(it.alerting)
  }

  function ItemContents(it: SLOItem): ItemValue
    reads ItemDirect(it), ItemRefs(it)
  {
    ItemValue(it.name, it.objective, it.description, SLIContents(it.sli), AlertingContents(it.alerting))
  }

  function ItemsDirect(items: seq<SLOItem>): set<object> {
    set i, o | 0 <= i < |items| && o in ItemDirect(items[i]) :: o
  }

  function ItemsRefs(items: seq<SLOItem>): set<object>
    reads ItemsDirect(items)
  {
    set i, o | 0 <= i < |items| && o in ItemRefs(items[i]) :: o
  }

  function ItemsContents(items: seq<SLOItem>): seq<ItemValue>
    reads ItemsDirect(items), ItemsRefs(items)
  {
    seq(|items|, i requires 0 <= i < |items| reads ItemsDirect(items), ItemsRefs(items) => ItemContents(items[i]))
  }

  function StatusRefs(s: SLOStatus): set<object> { One(s.conditions) + One(s.generatedRules) + One(s.lastReconcileAt) }

  function StatusContents(s: SLOStatus): StatusValue
    reads StatusRefs(s)
  {
    StatusValue(ArrayValue(s.conditions), ArrayValue(s.generatedRules),
                if s.lastReconcileAt == null then None else Some(s.lastReconcileAt.at),
                s.prometheusRuleName, s.configMapName)
  }

  function Items(s: SLOSpec): seq<SLOItem>
    reads One(s.slos)
  {
    if s.slos == null then [] else s.slos[..]
  }

  /** Everything reachable from a spec. */
  function SpecRefs(s: SLOSpec): set<object>
    reads s.slos, ItemsDirect(Items(s))
  {
    One(s.labels) + One(s.slos) + ItemsRefs(Items(s))
  }

  function SpecContents(s: SLOSpec): SpecValue
    reads s.labels, s.slos, ItemsDirect(Items(s)), ItemsRefs(Items(s))
  {
    SpecValue(s.version, s.service, LabelsValue(s.labels),
              if s.slos == null then None else Some(ItemsContents(Items(s))))
  }

  /** Everything reachable from an SLO. */
  function SLORefs(x: SLO): set<object>
    reads x.spec.slos, ItemsDirect(Items(x.spec))
  {
    SpecRefs(x.spec) + StatusRefs(x.status)
  }

  function SLOContents(x: SLO): SLOValue
    reads x.spec.labels, x.spec.slos, ItemsDirect(Items(x.spec)), ItemsRefs(Items(x.spec)), StatusRefs(x.status)
  {
    SLOValue(x.meta, SpecContents(x.spec), StatusContents(x.status))
  }

  /** What the SLOs of a list reach. */
  function ListArrays(xs: seq<SLO>): set<object> { set i, o | 0 <= i < |xs| && o in One(xs[i].spec.slos) :: o }

  function ListItems(xs: seq<SLO>): set<object>
    reads ListArrays(xs)
  {
    set i, o | 0 <= i < |xs| && o in ItemsDirect(Items(xs[i].spec)) :: o
  }

  function ListRefs(xs: seq<SLO>): set<object>
    reads ListArrays(xs), ListItems(xs)
  {
    set i, o | 0 <= i < |xs| && o in SLORefs(xs[i]) :: o
  }

  // ------------------------------------------------------------------- frames

  /** A value with a set of objects that were not written; contents depend only on the objects reached. */
  datatype Kept<T> = Kept(it: T, kept: set<object>)

  /** Objects in hand exist, so objects made later are none of them. */
  lemma Allocated(s: set<object>)
    ensures forall o: object :: o in s ==> allocated(o)
  {}

  twostate lemma FrameTier(t: Kept<AlertTier?>)
    requires unchanged(t.kept) && old(TierAll(t.it)) <= t.kept
    ensures TierAll(t.it) == old(TierAll(t.it)) && TierContents(t.it) == old(TierContents(t.it))
  {}

  twostate lemma FrameAlerting(a: Kept<AlertingSpec>)
    requires unchanged(a.kept) && old(AlertingRefs(a.it)) <= a.kept
    ensures AlertingRefs(a.it) == old(AlertingRefs(a.it)) && AlertingContents(a.it) == old(AlertingContents(a.it))
  {
    hide TierAll, TierContents;
    FrameTier(Kept(a.it.page, a.kept));
    FrameTier(Kept(a.it.ticket, a.kept));
  }

  twostate lemma FrameItem(i: Kept<SLOItem>)
    requires unchanged(i.kept) && old(ItemRefs(i.it)) <= i.kept
    ensures ItemRefs(i.it) == old(ItemRefs(i.it)) && ItemContents(i.it) == old(ItemContents(i.it))
  {
    hide AlertingRefs, AlertingContents;
    FrameAlerting(Kept(i.it.alerting, i.kept));
  }

  twostate lemma FrameItems(items: Kept<seq<SLOItem>>)
    requires unchanged(items.kept) && old(ItemsRefs(items.it)) <= items.kept
    ensures ItemsRefs(items.it) == old(ItemsRefs(items.it)) && ItemsContents(items.it) == old(ItemsContents(items.it))
  {
    hide ItemRefs, ItemContents;
    var xs := items.it;
    forall i | 0 <= i < |xs|
      ensures ItemRefs(xs[i]) == old(ItemRefs(xs[i])) && ItemContents(xs[i]) == old(ItemContents(xs[i]))
    {
      FrameItem(Kept(xs[i], items.kept));
    }
  }

  twostate lemma FrameSpec(s: Kept<SLOSpec>)
    requires unchanged(s.kept) && old(SpecRefs(s.it)) <= s.kept
    ensures SpecRefs(s.it) == old(SpecRefs(s.it)) && SpecContents(s.it) == old(SpecContents(s.it))
  {
    hide ItemsRefs, ItemsContents;
    assert Items(s.it) == old(Items(s.it));
    FrameItems(Kept(Items(s.it), s.kept));
  }

  twostate lemma FrameSLO(x: Kept<SLO>)
    requires unchanged(x.kept) && old(SLORefs(x.it)) <= x.kept
    ensures SLORefs(x.it) == old(SLORefs(x.it)) && SLOContents(x.it) == old(SLOContents(x.it))
  {
    hide SpecRefs, SpecContents;
    FrameSpec(Kept(x.it.spec, x.kept));
  }

  // ------------------------------------------------------------------- copies

  /** The key-by-key copy of a map. */
  method CopyLabels(l: Labels?) returns (r: Labels?)
    ensures (r == null) == (l == null) && LabelsValue(r) == old(LabelsValue(l)) && fresh(One(r))
  {
    if l == null { return null; }
    r := new Labels(map[]);
    var todo := l.entries.Keys;
    while todo != {}
      invariant fresh(r) && todo <= l.entries.Keys && r.entries.Keys == l.entries.Keys - todo
      invariant forall k :: k in r.entries ==> r.entries[k] == l.entries[k]
      decreases |todo|
    {
      var k :| k in todo;
      r.entries := r.entries[k := l.entries[k]];
      todo := todo - {k};
    }
    assert r.entries == l.entries;
  }

  method CopyArray<T(0)>(a: array?<T>) returns (r: array?<T>)
    ensures (r == null) == (a == null) && ArrayValue(r) == old(ArrayValue(a)) && fresh(One(r))
  {
    if a == null { return null; }
    r := new T[a.Length];
    for i := 0 to a.Length
      invariant fresh(r) && r.Length == a.Length && r[..i] == a[..i]
    {
      r[i] := a[i];
    }
    assert r[..] == r[..a.Length] && a[..] == a[..a.Length];
  }

  method CopyTier(t: AlertTier?) returns (r: AlertTier?)
    ensures (r == null) == (t == null) && TierContents(r) == old(TierContents(t)) && fresh(TierAll(r))
  {
    if t == null { return null; }
    var labels := CopyLabels(t.labels);
    var burn: Float? := null;
    if t.burnThreshold != null { burn := new Float(t.burnThreshold.value); }
    var windows := CopyArray(t.windows);
    r := new AlertTier(t.disable, labels, burn, windows, t.forDur);
  }

  method CopySLI(s: SLISpec) returns (r: SLISpec)
    ensures SLIContents(r) == old(SLIContents(s)) && fresh(SLIRefs(r))
  {
    var events: EventsSLI? := null;
    if s.events != null { events := new EventsSLI(s.events.errorQuery, s.events.totalQuery); }
    var raw: RawSLI? := null;
    if s.raw != null { raw := new RawSLI(s.raw.errorRatioQuery); }
    r := SLISpec(events, raw);
  }

  method CopyAlerting(a: AlertingSpec) returns (r: AlertingSpec)
    ensures AlertingContents(r) == old(AlertingContents(a)) && fresh(AlertingRefs(r))
  {
    hide TierAll, TierContents;
    ghost var S := AlertingRefs(a);
    var labels := CopyLabels(a.labels);
    FrameTier(Kept(a.page, S));
    var page := CopyTier(a.page);
    FrameTier(Kept(a.ticket, S));
    ghost var P := TierAll(page);
    label paged:
    var ticket := CopyTier(a.ticket);
    FrameTier@paged(Kept(page, P));
    r := AlertingSpec(a.name, labels, page, ticket);
  }

  method CopyItem(it: SLOItem) returns (r: SLOItem)
    ensures ItemContents(r) == old(ItemContents(it)) && fresh(ItemRefs(r))
  {
    hide AlertingRefs, AlertingContents;
    var sli := CopySLI(it.sli);
    FrameAlerting(Kept(it.alerting, old(ItemRefs(it))));
    var alerting := CopyAlerting(it.alerting);
    r := SLOItem(it.name, it.objective, it.description, sli, alerting);
  }

  method CopyItems(a: array?<SLOItem>) returns (r: array?<SLOItem>)
    ensures (r == null) == (a == null) && fresh(One(r))
    ensures a != null ==> ItemsContents(r[..]) == old(ItemsContents(a[..])) && fresh(ItemsRefs(r[..]))
  {
    hide ItemRefs, ItemContents;
    if a == null { return null; }
    r := new SLOItem[a.Length];
    for i := 0 to a.Length
      invariant fresh(r) && r.Length == a.Length
      invariant forall j :: 0 <= j < i ==> fresh(ItemRefs(r[j])) && r !in ItemRefs(r[j])
      invariant forall j :: 0 <= j < i ==> ItemContents(r[j]) == old(ItemContents(a[j]))
    {
      FrameItem(Kept(a[i], old(ItemRefs(a[i]))));
      ghost var done := r[..i];
      ghost var S := ItemsRefs(done);
      label before:
      var item := CopyItem(a[i]);
      forall j | 0 <= j < i
        ensures ItemRefs(done[j]) == old@before(ItemRefs(done[j])) &&
                ItemContents(done[j]) == old@before(ItemContents(done[j]))
      {
        FrameItem@before(Kept(done[j], S));
      }
      ghost var T := ItemsRefs(done + [item]);
      assert r !in T;
      label copied:
      r[i] := item;
      forall j | 0 <= j < i + 1
        ensures ItemRefs(r[j]) == old@copied(ItemRefs((done + [item])[j]))
        ensures ItemContents(r[j]) == old@copied(ItemContents((done + [item])[j]))
      {
        assert r[j] == (done + [item])[j];
        FrameItem@copied(Kept((done + [item])[j], T));
      }
    }
  }

  method CopyStatus(s: SLOStatus) returns (r: SLOStatus)
    ensures StatusContents(r) == old(StatusContents(s)) && fresh(StatusRefs(r))
  {
    var conditions := CopyArray(s.conditions);
    var rules := CopyArray(s.generatedRules);
    var at: Time? := null;
    if s.lastReconcileAt != null { at := new Time(s.lastReconcileAt.at); }
    r := SLOStatus(conditions, rules, at, s.prometheusRuleName, s.configMapName);
  }

  method CopySpec(s: SLOSpec) returns (r: SLOSpec)
    ensures SpecContents(r) == old(SpecContents(s)) && fresh(SpecRefs(r))
  {
    hide ItemRefs, ItemsContents;
    var labels := CopyLabels(s.labels);
    FrameSpec(Kept(s, old(SpecRefs(s))));
    var slos := CopyItems(s.slos);
    r := SLOSpec(s.version, s.service, labels, slos);
  }

  /**
   The copy has the original's contents, shares no object with it, and leaves it alone. By FrameSLO, writing
   only what the one reaches is then invisible through the other.
   */
  method CopySLO(x: SLO) returns (r: SLO)
    ensures SLOContents(r) == old(SLOContents(x)) && fresh(SLORefs(r))
    ensures SLORefs(r) !! old(SLORefs(x)) && SLOContents(x) == old(SLOContents(x))
  {
    hide SpecRefs, SpecContents;
    Allocated(SLORefs(x));
    var spec := CopySpec(x.spec);
    ghost var P := SpecRefs(spec);
    label copied:
    var status := CopyStatus(x.status);
    FrameSpec@copied(Kept(spec, P));
    r := SLO(x.meta, spec, status);
    FrameSLO(Kept(x, old(SLORefs(x))));
  }

  method CopySLOs(a: array?<SLO>) returns (r: array?<SLO>)
    ensures (r == null) == (a == null) && fresh(One(r))
    ensures a != null ==> r.Length == a.Length
    ensures a != null ==> forall j :: 0 <= j < a.Length ==> SLOContents(r[j]) == old(SLOContents(a[j]))
    ensures a != null ==> forall j :: 0 <= j < a.Length ==> fresh(SLORefs(r[j])) && r !in SLORefs(r[j])
    ensures a != null ==> forall j, k :: 0 <= j < k < a.Length ==> SLORefs(r[j]) !! SLORefs(r[k])
  {
    hide SLORefs, SLOContents;
    if a == null { return null; }
    r := new SLO[a.Length];
    for i := 0 to a.Length
      invariant fresh(r) && r.Length == a.Length
      invariant forall j :: 0 <= j < i ==> SLOContents(r[j]) == old(SLOContents(a[j]))
      invariant forall j :: 0 <= j < i ==> fresh(SLORefs(r[j])) && r !in SLORefs(r[j])
      invariant forall j, k :: 0 <= j < k < i ==> SLORefs(r[j]) !! SLORefs(r[k])
    {
      FrameSLO(Kept(a[i], old(SLORefs(a[i]))));
      ghost var done := r[..i];
      ghost var S := ListRefs(done);
      Allocated(S);
      label before:
      var x := CopySLO(a[i]);
      assert S !! SLORefs(x);
      forall j | 0 <= j < i
        ensures SLORefs(done[j]) == old@before(SLORefs(done[j])) &&
                SLOContents(done[j]) == old@before(SLOContents(done[j]))
      {
        FrameSLO@before(Kept(done[j], S));
      }
      ghost var all := done + [x];
      ghost var T := ListRefs(all);
      assert r !in T;
      label copied:
      r[i] := x;
      forall j | 0 <= j < i + 1
        ensures r[j] == all[j]
        ensures SLORefs(r[j]) == old@copied(SLORefs(all[j]))
        ensures SLOContents(r[j]) == old@copied(SLOContents(all[j]))
      {
        FrameSLO@copied(Kept(all[j], T));
      }
    }
  }

  /** A list's items are copied one by one; no two copies share an object, whatever the originals shared. */
  method CopyList(l: SLOList) returns (out: SLOList)
    ensures out.meta == l.meta && (out.items == null) == (l.items == null) && fresh(One(out.items))
    ensures l.items != null ==> out.items.Length == l.items.Length
    ensures l.items != null ==>
            forall j :: 0 <= j < l.items.Length ==> SLOContents(out.items[j]) == old(SLOContents(l.items[j]))
    ensures l.items != null ==>
      forall j :: 0 <= j < l.items.Length ==> fresh(SLORefs(out.items[j])) && out.items !in SLORefs(out.items[j])
    ensures l.items != null ==>
      forall j, k :: 0 <= j < k < l.items.Length ==> SLORefs(out.items[j]) !! SLORefs(out.items[k])
  {
    hide SLORefs, SLOContents;
    var items := CopySLOs(l.items);
    out := SLOList(l.meta, items);
  }

  // ------------------------------------------------- what contents and reach are

  ghost predicate SameLabels(a: Labels?, b: Labels?)
    reads a, b
  {
    if a == null || b == null then a == b else a.entries == b.entries
  }

  ghost predicate SameArray<T>(a: array?<T>, b: array?<T>)
    reads a, b
  {
    if a == null || b == null then a == b else a[..] == b[..]
  }

  /** Equal contents of two tiers means equality field by field, with null apart from empty. */
  lemma TierTells(a: AlertTier, b: AlertTier)
    ensures TierContents(a) == TierContents(b) <==>
            a.disable == b.disable && a.forDur == b.forDur && SameLabels(a.labels, b.labels) &&
            SameArray(a.windows, b.windows) &&
            (if a.burnThreshold == null || b.burnThreshold == null then a.burnThreshold == b.burnThreshold
             else a.burnThreshold.value == b.burnThreshold.value)
  {}

  /** So it does for items... */
  lemma ItemTells(a: SLOItem, b: SLOItem)
    ensures ItemContents(a) == ItemContents(b) <==>
            a.name == b.name && a.objective == b.objective && a.description == b.description &&
            (if a.sli.events == null || b.sli.events == null then a.sli.events == b.sli.events
             else a.sli.events.errorQuery == b.sli.events.errorQuery &&
                  a.sli.events.totalQuery == b.sli.events.totalQuery) &&
            (if a.sli.raw == null || b.sli.raw == null then a.sli.raw == b.sli.raw
             else a.sli.raw.errorRatioQuery == b.sli.raw.errorRatioQuery) &&
            a.alerting.name == b.alerting.name && SameLabels(a.alerting.labels, b.alerting.labels) &&
            TierContents(a.alerting.page) == TierContents(b.alerting.page) &&
            TierContents(a.alerting.ticket) == TierContents(b.alerting.ticket)
  {
    hide TierContents;
  }

  /** ...and for whole resources. */
  lemma SLOTells(a: SLO, b: SLO)
    ensures SLOContents(a) == SLOContents(b) <==>
            a.meta == b.meta && a.spec.version == b.spec.version && a.spec.service == b.spec.service &&
            SameLabels(a.spec.labels, b.spec.labels) &&
            (if a.spec.slos == null || b.spec.slos == null then a.spec.slos == b.spec.slos
             else a.spec.slos.Length == b.spec.slos.Length &&
                  forall i :: 0 <= i < a.spec.slos.Length ==>
                    ItemContents(a.spec.slos[i]) == ItemContents(b.spec.slos[i])) &&
            SameArray(a.status.conditions, b.status.conditions) &&
            SameArray(a.status.generatedRules, b.status.generatedRules) &&
            (if a.status.lastReconcileAt == null || b.status.lastReconcileAt == null
             then a.status.lastReconcileAt == b.status.lastReconcileAt
             else a.status.lastReconcileAt.at == b.status.lastReconcileAt.at) &&
            a.status.prometheusRuleName == b.status.prometheusRuleName &&
            a.status.configMapName == b.status.configMapName
  {
    hide ItemContents;
    var p, q := Items(a.spec), Items(b.spec);
    if ItemsContents(p) == ItemsContents(q) {
      assert |ItemsContents(p)| == |p| && |ItemsContents(q)| == |q|;
      forall i | 0 <= i < |p| ensures ItemContents(p[i]) == ItemContents(q[i]) {
        assert ItemsContents(p)[i] == ItemsContents(q)[i];
      }
    }
  }

  predicate OfTier(t: AlertTier?, o: object)
    reads t
  {
    t != null && (o == t || o == t.labels || o == t.burnThreshold || o == t.windows)
  }

  predicate OfItem(it: SLOItem, o: object)
    reads it.alerting.page, it.alerting.ticket
  {
    o == it.sli.events || o == it.sli.raw || o == it.alerting.labels ||
    OfTier(it.alerting.page, o) || OfTier(it.alerting.ticket, o)
  }

  lemma ReachItems(items: seq<SLOItem>, o: object)
    ensures o in ItemsRefs(items) <==> exists i :: 0 <= i < |items| && o in ItemRefs(items[i])
  {
    hide ItemRefs;
  }

  lemma ReachItem(it: SLOItem, o: object)
    ensures o in ItemRefs(it) <==> OfItem(it, o)
  {}

  /** What a resource reaches: every pointer, map and slice in it, down to the tiers of its items. */
  lemma Reach(x: SLO, o: object)
    ensures o in SLORefs(x) <==>
            o == x.spec.labels || o == x.spec.slos || o == x.status.conditions || o == x.status.generatedRules ||
            o == x.status.lastReconcileAt || exists i :: 0 <= i < |Items(x.spec)| && OfItem(Items(x.spec)[i], o)
  {
    hide ItemRefs, OfItem, ItemsRefs, ItemsDirect;
    var items := Items(x.spec);
    forall i | 0 <= i < |items| ensures o in ItemRefs(items[i]) <==> OfItem(items[i], o) {
      ReachItem(items[i], o);
    }
    ReachItems(items, o);
  }
}
