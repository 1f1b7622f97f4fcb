/** The SLO resource (its spec, as values) and the admission webhook that checks it. */
module SloApi {
  import opened Strings

  datatype EventsSLI = EventsSLI(errorQuery: string, totalQuery: string)

  datatype RawSLI = RawSLI(errorRatioQuery: string)

  datatype AlertTier = AlertTier(disable: bool, labels: map<string, string>, burnThreshold: Option<real>,
                                 windows: seq<string>, forDur: string)

  datatype AlertingSpec = AlertingSpec(name: string, labels: map<string, string>,
                                       page: Option<AlertTier>, ticket: Option<AlertTier>)

  datatype SLOItem = SLOItem(name: string, objective: real, events: Option<EventsSLI>, raw: Option<RawSLI>,
                             alerting: AlertingSpec)

  datatype SLOSpec = SLOSpec(service: string, labels: map<string, string>, slos: seq<SLOItem>)

  const PLACEHOLDER := "{{.window}}"

  // ------------------------------------------------------ query templates

  /** text/template restricted to the one placeholder the SLI queries use. */
  function RenderQuery(tmpl: string, window: string): string {
    if PLACEHOLDER <= tmpl then window + RenderQuery(tmpl[|PLACEHOLDER|..], window)
    else if tmpl == "" then ""
    else [tmpl[0]] + RenderQuery(tmpl[1..], window)
  }

  function Slots(tmpl: string): nat {
    if PLACEHOLDER <= tmpl then 1 + Slots(tmpl[|PLACEHOLDER|..])
    else if tmpl == "" then 0
    else Slots(tmpl[1..])
  }

  lemma {:induction false} SlotsIffPlaceholder(tmpl: string)
    ensures Slots(tmpl) > 0 <==> Contains(tmpl, PLACEHOLDER)
  {
    if !(PLACEHOLDER <= tmpl) && tmpl != "" { SlotsIffPlaceholder(tmpl[1..]); }
  }

  lemma OneMoreSlot(n: nat, d: int)
    ensures (1 + n) * d == d + n * d
  {}

  lemma {:induction false} RenderedLength(tmpl: string, w: string)
    ensures |RenderQuery(tmpl, w)| == |tmpl| + Slots(tmpl) * (|w| - |PLACEHOLDER|)
  {
    if PLACEHOLDER <= tmpl {
      RenderedLength(tmpl[|PLACEHOLDER|..], w);
      OneMoreSlot(Slots(tmpl[|PLACEHOLDER|..]), |w| - |PLACEHOLDER|);
    } else if tmpl != "" {
      RenderedLength(tmpl[1..], w);
    }
  }

  lemma {:induction false} NoSlotsNoChange(tmpl: string, w: string)
    requires Slots(tmpl) == 0
    ensures RenderQuery(tmpl, w) == tmpl
  {
    if tmpl != "" { NoSlotsNoChange(tmpl[1..], w); }
  }

  lemma {:induction false} SameLengthDiffers(tmpl: string, w1: string, w2: string)
    requires |w1| == |w2| && RenderQuery(tmpl, w1) == RenderQuery(tmpl, w2) && Slots(tmpl) > 0
    ensures w1 == w2
  {
    if PLACEHOLDER <= tmpl {
      var rest := tmpl[|PLACEHOLDER|..];
      assert w1 == (w1 + RenderQuery(rest, w1))[..|w1|];
      assert w2 == (w2 + RenderQuery(rest, w2))[..|w2|];
    } else {
      CancelPrefix([tmpl[0]], RenderQuery(tmpl[1..], w1), RenderQuery(tmpl[1..], w2));
      SameLengthDiffers(tmpl[1..], w1, w2);
    }
  }

  /** No placeholder straddles the text before a placeholder and that placeholder: it has no border. */
  lemma NoStraddle(front: string, back: string)
    requires front != "" && !(PLACEHOLDER <= front)
    ensures !(PLACEHOLDER <= front + PLACEHOLDER + back)
  {
    var s, p := front + PLACEHOLDER + back, PLACEHOLDER;
    assert s[|front|] == p[0] && s[|front| + 1] == p[1];
    assert |p| <= |front| ==> s[..|p|] == front[..|p|];
  }

  /** Rendering replaces each placeholder by the window and keeps the text between. */
  lemma {:induction false} RenderSubstitutes(front: string, back: string, w: string)
    requires !Contains(front, PLACEHOLDER)
    ensures RenderQuery(front + PLACEHOLDER + back, w) == front + w + RenderQuery(back, w)
  {
    var tmpl := front + PLACEHOLDER + back;
    if front == [] {
      assert tmpl == PLACEHOLDER + back;
      assert tmpl[|PLACEHOLDER|..] == back;
    } else {
      NoStraddle(front, back);
      RenderSubstitutes(front[1..], back, w);
      Headed(front, PLACEHOLDER, back);
      Headed(front, w, RenderQuery(back, w));
    }
  }

  lemma Headed(a: string, b: string, c: string)
    requires a != ""
    ensures (a + b + c)[0] == a[0] && (a + b + c)[1..] == a[1..] + b + c
    ensures a + b + c == [a[0]] + (a[1..] + b + c)
  {}

  /** The placeholder check is exactly what keeps the queries of two windows apart. */
  lemma PlaceholderSeparatesWindows(tmpl: string, w1: string, w2: string)
    requires w1 != w2
    ensures RenderQuery(tmpl, w1) != RenderQuery(tmpl, w2) <==> Contains(tmpl, PLACEHOLDER)
  {
    SlotsIffPlaceholder(tmpl);
    if Slots(tmpl) == 0 {
      NoSlotsNoChange(tmpl, w1);
      NoSlotsNoChange(tmpl, w2);
    } else if RenderQuery(tmpl, w1) == RenderQuery(tmpl, w2) {
      RenderedLength(tmpl, w1);
      RenderedLength(tmpl, w2);
      if |w1| == |w2| { SameLengthDiffers(tmpl, w1, w2); }
      else { Cancel(Slots(tmpl), |w1| - |PLACEHOLDER|, |w2| - |PLACEHOLDER|); }
    }
  }

  lemma Cancel(n: nat, a: int, b: int)
    requires n > 0 && n * a == n * b
    ensures a == b
  {
    assert n * (a - b) == 0;
  }

  // ------------------------------------------------------------ admission

  datatype Problem =
    | ServiceEmpty
    | NameMissing(item: nat)
    | ObjectiveOutOfRange(item: nat)
    | SliMissing(item: nat)
    | EventQueryMissing(item: nat)
    | StatusLabel(item: nat)
    | ErrorQueryFixed(item: nat)
    | RawQueryFixed(item: nat)
    | PageThresholdNotPositive(item: nat)

  predicate HasStatusLabel(q: string) { Contains(q, "status=") || Contains(q, "status=~") }

  /** What each rejection means for an item. */
  predicate Violates(item: SLOItem, p: Problem) {
    match p
    case ServiceEmpty => false
    case NameMissing(_) => item.name == ""
    case ObjectiveOutOfRange(_) => !(0.0 <= item.objective <= 100.0)
    case SliMissing(_) => item.events.None? && item.raw.None?
    case EventQueryMissing(_) =>
      item.events.Some? && (item.events.value.errorQuery == "" || item.events.value.totalQuery == "")
    case StatusLabel(_) =>
      item.events.Some? &&
      (HasStatusLabel(item.events.value.errorQuery) || HasStatusLabel(item.events.value.totalQuery))
    case ErrorQueryFixed(_) => item.events.Some? && !Contains(item.events.value.errorQuery, PLACEHOLDER)
    case RawQueryFixed(_) => item.raw.Some? && !Contains(item.raw.value.errorRatioQuery, PLACEHOLDER)
    case PageThresholdNotPositive(_) =>
      item.alerting.page.Some? && item.alerting.page.value.burnThreshold.Some? &&
      item.alerting.page.value.burnThreshold.value <= 0.0
  }

  predicate HasProblem(spec: SLOSpec, p: Problem) {
    if p.ServiceEmpty? then spec.service == ""
    else p.item < |spec.slos| && Violates(spec.slos[p.item], p)
  }

  /** The admission predicate, as a caller would state it. */
  predicate Admitted(spec: SLOSpec) {
    spec.service != "" &&
    forall item :: item in spec.slos ==>
      item.name != "" && 0.0 <= item.objective <= 100.0 && (item.events.Some? || item.raw.Some?) &&
      (item.events.Some? ==>
         item.events.value.totalQuery != "" && Contains(item.events.value.errorQuery, PLACEHOLDER) &&
         !Contains(item.events.value.errorQuery, "status=") && !Contains(item.events.value.totalQuery, "status=")) &&
      (item.raw.Some? ==> Contains(item.raw.value.errorRatioQuery, PLACEHOLDER)) &&
      (item.alerting.page.Some? && item.alerting.page.value.burnThreshold.Some? ==>
         item.alerting.page.value.burnThreshold.value > 0.0)
  }

  lemma {:induction false} WiderPattern(q: string)
    requires Contains(q, "status=~")
    ensures Contains(q, "status=")
  {
    if "status=~" <= q { assert "status=" <= q; } else { WiderPattern(q[1..]); }
  }

  lemma AdmittedIffNoProblem(spec: SLOSpec)
    ensures Admitted(spec) <==> forall p :: !HasProblem(spec, p)
  {
    forall q | HasStatusLabel(q) ensures Contains(q, "status=") {
      if Contains(q, "status=~") { WiderPattern(q); }
    }
    if forall p :: !HasProblem(spec, p) {
      assert !HasProblem(spec, ServiceEmpty);
      forall i: nat | i < |spec.slos|
        ensures forall p: Problem :: !p.ServiceEmpty? && p.item == i ==> !Violates(spec.slos[i], p)
      {
        assert forall p: Problem :: !p.ServiceEmpty? && p.item == i ==> !HasProblem(spec, p);
      }
      forall item | item in spec.slos
        ensures forall p: Problem :: !Violates(item, p)
      {
        var i: nat :| i < |spec.slos| && spec.slos[i] == item;
        forall p: Problem ensures !Violates(item, p) {
          if !p.ServiceEmpty? {
            var q := p.(item := i);
            assert !Violates(spec.slos[i], q);
          }
        }
      }
      forall item | item in spec.slos
        ensures Contains("", PLACEHOLDER) == false && !Violates(item, NameMissing(0)) &&
                !Violates(item, ObjectiveOutOfRange(0))
        ensures !Violates(item, SliMissing(0)) && !Violates(item, EventQueryMissing(0)) &&
                !Violates(item, StatusLabel(0))
        ensures !Violates(item, ErrorQueryFixed(0)) && !Violates(item, RawQueryFixed(0))
        ensures !Violates(item, PageThresholdNotPositive(0))
      {}
    }
  }

  /** The checks on the item's queries. */
  method CheckQueries(item: SLOItem, i: nat) returns (errs: seq<Problem>)
    ensures forall p :: p in errs <==> OnQuery(p) && p.item == i && Violates(item, p)
  {
    hide Contains, HasStatusLabel;
    errs := [];
    if item.events.Some? {
      var events := item.events.value;
      if events.errorQuery == "" || events.totalQuery == "" { errs := errs + [EventQueryMissing(i)]; }
      if HasStatusLabel(events.errorQuery) || HasStatusLabel(events.totalQuery) { errs := errs + [StatusLabel(i)]; }
      if !Contains(events.errorQuery, PLACEHOLDER) { errs := errs + [ErrorQueryFixed(i)]; }
    }
    if item.raw.Some? {
      if !Contains(item.raw.value.errorRatioQuery, PLACEHOLDER) { errs := errs + [RawQueryFixed(i)]; }
    }
  }

  predicate OnQuery(p: Problem) { p.EventQueryMissing? || p.StatusLabel? || p.ErrorQueryFixed? || p.RawQueryFixed? }

  method CheckItem(item: SLOItem, i: nat) returns (errs: seq<Problem>)
    ensures forall p :: p in errs <==> !p.ServiceEmpty? && p.item == i && Violates(item, p)
  {
    hide Contains, HasStatusLabel;
    errs := [];
    if item.name == "" { errs := errs + [NameMissing(i)]; }
    if item.objective < 0.0 || item.objective > 100.0 { errs := errs + [ObjectiveOutOfRange(i)]; }
    if item.events.None? && item.raw.None? { errs := errs + [SliMissing(i)]; }
    var more := CheckQueries(item, i);
    errs := errs + more;
    if item.alerting.page.Some? && item.alerting.page.value.burnThreshold.Some? &&
       item.alerting.page.value.burnThreshold.value <= 0.0 {
      errs := errs + [PageThresholdNotPositive(i)];
    }
  }

  /** The webhook: it reports each problem of the spec, nothing else, and accepts exactly the admitted specs. */
  method ValidateSLO(spec: SLOSpec) returns (errs: seq<Problem>)
    ensures forall p :: p in errs <==> HasProblem(spec, p)
    ensures errs == [] <==> Admitted(spec)
  {
    errs := [];
    if spec.service == "" { errs := [ServiceEmpty]; }
    for i := 0 to |spec.slos|
      invariant forall p :: p in errs <==> HasProblem(spec, p) && (p.ServiceEmpty? || p.item < i)
    {
      var more := CheckItem(spec.slos[i], i);
      errs := errs + more;
    }
    AdmittedIffNoProblem(spec);
    assert errs != [] ==> errs[0] in errs;
  }
}
