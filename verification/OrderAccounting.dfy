/**
 The order service's request accounting: requests interleave step by step over the fault-injection fields and the
 shared counters, and the counters must add up in every interleaving.
 */
module OrderAccounting {
  import opened Strings

  datatype Path = OrderPath | ReadyPath | FaultPath

  /**
   A request with its input. The fault parameters are what parsing made of the query; None if absent or unparsable.
   */
  datatype Request = Order(post: bool) | Ready | Fault(fail: Option<real>, latency: Option<int>)

  datatype Outcome = NotPost | Buggy | Failed | Created | Plain(code: int)

  /** How far a request has come. The status recorder holds the outcome's code from Answered (or Leaving) on. */
  datatype Pc =
    | Pending
    | Waiting
    | Armed
    | Resolved(outcome: Outcome)
    | Counted(outcome: Outcome)
    | Answered(outcome: Outcome)
    | RateStored
    | RateShown
    | LatencyStored
    | Leaving(outcome: Outcome)
    | Done(outcome: Outcome)

  /** What the requests share. */
  datatype Shared = Shared(failRate: real, latencyMs: int, rateGauge: real, latencyGauge: int,
                           inFlight: int, created: int, failed: int, http: map<(Path, int), int>)

  function PathOf(r: Request): Path {
    match r
    case Order(_) => OrderPath
    case Ready => ReadyPath
    case Fault(_, _) => FaultPath
  }

  function Status(o: Outcome): int {
    match o
    case NotPost => 405
    case Buggy => 500
    case Failed => 500
    case Created => 201
    case Plain(code) => code
  }

  function Requests(s: Shared, path: Path, status: int): int {
    if (path, status) in s.http then s.http[(path, status)] else 0
  }

  function CountRequest(s: Shared, path: Path, status: int): Shared {
    s.(http := s.http[(path, status) := Requests(s, path, status) + 1])
  }

  function ValidRate(fail: Option<real>): bool { fail.Some? && 0.0 <= fail.value <= 1.0 }

  function ValidLatency(latency: Option<int>): bool { latency.Some? && latency.value >= 0 }

  /** One atomic step of one request; the two rolls are what the random source would return. */
  function Advance(buggy: bool, r: Request, pc: Pc, roll: real, s: Shared): (Pc, Shared) {
    match pc
    case Pending =>
      (match r
       case Order(post) =>
         if !post then (Leaving(NotPost), s)
         else if buggy && roll < 0.5 then (Leaving(Buggy), s)
         else (Waiting, s.(inFlight := s.inFlight + 1))
       case Ready => (Leaving(Plain(if s.failRate > 0.9 then 503 else 200)), s)
       case Fault(fail, _) =>
         if ValidRate(fail) then (RateStored, s.(failRate := fail.value)) else (RateShown, s))
    case Waiting => (if s.failRate > 0.0 then Armed else Resolved(Created), s)
    case Armed => (Resolved(if roll < s.failRate then Failed else Created), s)
    case Resolved(o) =>
      (Counted(o), if o == Failed then s.(failed := s.failed + 1) else s.(created := s.created + 1))
    case Counted(o) => (Answered(o), s)
    case Answered(o) => (Leaving(o), s.(inFlight := s.inFlight - 1))
    case RateStored => (RateShown, if r.Fault? && ValidRate(r.fail) then s.(rateGauge := r.fail.value) else s)
    case RateShown =>
      if r.Fault? && ValidLatency(r.latency) then (LatencyStored, s.(latencyMs := r.latency.value))
      else (Leaving(Plain(200)), s)
    case LatencyStored =>
      (Leaving(Plain(200)), if r.Fault? && ValidLatency(r.latency) then s.(latencyGauge := r.latency.value) else s)
    case Leaving(o) => (Done(o), CountRequest(s, PathOf(r), Status(o)))
    case Done(o) => (Done(o), s)
  }

  /** The points a request can be at. */
  predicate Reachable(r: Request, pc: Pc) {
    match pc
    case Pending => true
    case Waiting => r == Order(true)
    case Armed => r == Order(true)
    case Resolved(o) => r == Order(true) && o in {Failed, Created}
    case Counted(o) => r == Order(true) && o in {Failed, Created}
    case Answered(o) => r == Order(true) && o in {Failed, Created}
    case RateStored => r.Fault? && ValidRate(r.fail)
    case RateShown => r.Fault?
    case LatencyStored => r.Fault? && ValidLatency(r.latency)
    case Leaving(o) => Fits(r, o)
    case Done(o) => Fits(r, o)
  }

  predicate Fits(r: Request, o: Outcome) {
    match r
    case Order(post) => if post then o in {Buggy, Failed, Created} else o == NotPost
    case Ready => o in {Plain(200), Plain(503)}
    case Fault(_, _) => o == Plain(200)
  }

  // ------------------------------------------------------- one request, undisturbed

  function Rank(pc: Pc): nat {
    match pc
    case Pending => 9
    case Waiting => 8
    case Armed => 7
    case Resolved(_) => 6
    case Counted(_) => 5
    case Answered(_) => 4
    case RateStored => 8
    case RateShown => 7
    case LatencyStored => 4
    case Leaving(_) => 1
    case Done(_) => 0
  }

  /** A request run to its end with no other in between; the first roll serves the buggy build, the second the fault. */
  function Complete(buggy: bool, r: Request, pc: Pc, first: real, second: real, s: Shared): (Outcome, Shared)
    decreases Rank(pc)
  {
    if pc.Done? then (pc.outcome, s)
    else
      var next := Advance(buggy, r, pc, if pc.Pending? then first else second, s);
      Complete(buggy, r, next.0, first, second, next.1)
  }

  /** What an order does to the shared state apart from being counted as a request. */
  function Booked(o: Outcome, s: Shared): Shared {
    if o == Created then s.(created := s.created + 1) else if o == Failed then s.(failed := s.failed + 1) else s
  }

  function OrderOutcome(buggy: bool, post: bool, first: real, second: real, failRate: real): Outcome {
    if !post then NotPost
    else if buggy && first < 0.5 then Buggy
    else if failRate > 0.0 && second < failRate then Failed
    else Created
  }

  function Faulted(fail: Option<real>, latency: Option<int>, s: Shared): Shared {
    var t := if ValidRate(fail) then s.(failRate := fail.value, rateGauge := fail.value) else s;
    if ValidLatency(latency) then t.(latencyMs := latency.value, latencyGauge := latency.value) else t
  }

  /** Everything a request does when no other runs meanwhile. */
  function Served(buggy: bool, r: Request, first: real, second: real, s: Shared): (Outcome, Shared) {
    match r
    case Order(post) => var o := OrderOutcome(buggy, post, first, second, s.failRate); (o, Booked(o, s))
    case Ready => (Plain(if s.failRate > 0.9 then 503 else 200), s)
    case Fault(fail, latency) => (Plain(200), Faulted(fail, latency, s))
  }

  lemma Last(buggy: bool, r: Request, o: Outcome, first: real, second: real, s: Shared)
    ensures Complete(buggy, r, Leaving(o), first, second, s) == (o, CountRequest(s, PathOf(r), Status(o)))
  {}

  lemma OneStep(buggy: bool, r: Request, pc: Pc, first: real, second: real, s: Shared)
    requires !pc.Done?
    ensures var next := Advance(buggy, r, pc, if pc.Pending? then first else second, s);
            Complete(buggy, r, pc, first, second, s) == Complete(buggy, r, next.0, first, second, next.1)
  {}

  lemma Ends(buggy: bool, o: Outcome, first: real, second: real, s: Shared)
    requires o in {Failed, Created}
    ensures Complete(buggy, Order(true), Resolved(o), first, second, s.(inFlight := s.inFlight + 1))
         == (o, CountRequest(Booked(o, s), OrderPath, Status(o)))
  {
    hide Complete, CountRequest;
    var r, t := Order(true), Booked(o, s).(inFlight := s.inFlight + 1);
    OneStep(buggy, r, Resolved(o), first, second, s.(inFlight := s.inFlight + 1));
    OneStep(buggy, r, Counted(o), first, second, t);
    OneStep(buggy, r, Answered(o), first, second, t);
    Last(buggy, r, o, first, second, Booked(o, s));
  }

  lemma FaultEnds(buggy: bool, r: Request, first: real, second: real, s: Shared)
    requires r.Fault?
    ensures var t := if ValidLatency(r.latency) then s.(latencyMs := r.latency.value, latencyGauge := r.latency.value)
                     else s;
            Complete(buggy, r, RateShown, first, second, s) == (Plain(200), CountRequest(t, FaultPath, 200))
  {
    hide Complete, CountRequest;
    OneStep(buggy, r, RateShown, first, second, s);
    if ValidLatency(r.latency) { OneStep(buggy, r, LatencyStored, first, second, s.(latencyMs := r.latency.value)); }
    Last(buggy, r, Plain(200), first, second, Faulted(None, r.latency, s));
  }

  /** Taken without interruption, a request's steps do what the handler's code does from top to bottom. */
  lemma StepsAreServed(buggy: bool, r: Request, first: real, second: real, s: Shared)
    ensures var (o, t) := Served(buggy, r, first, second, s);
            Complete(buggy, r, Pending, first, second, s) == (o, CountRequest(t, PathOf(r), Status(o)))
  {
    hide Complete, CountRequest;
    var (o, t) := Served(buggy, r, first, second, s);
    OneStep(buggy, r, Pending, first, second, s);
    match r
    case Ready => Last(buggy, r, o, first, second, s);
    case Fault(fail, latency) =>
      if ValidRate(fail) {
        OneStep(buggy, r, RateStored, first, second, s.(failRate := fail.value));
        FaultEnds(buggy, r, first, second, s.(failRate := fail.value, rateGauge := fail.value));
      } else {
        FaultEnds(buggy, r, first, second, s);
      }
    case Order(post) =>
      if o in {NotPost, Buggy} {
        Last(buggy, r, o, first, second, s);
      } else {
        var entered := s.(inFlight := s.inFlight + 1);
        OneStep(buggy, r, Waiting, first, second, entered);
        if s.failRate > 0.0 { OneStep(buggy, r, Armed, first, second, entered); }
        Ends(buggy, o, first, second, s);
      }
  }

  // ------------------------------------------------------------ what requests come to

  /** An undisturbed order: what the dice and the injected rate make of it, and where it is counted. */
  lemma OrderFate(buggy: bool, post: bool, first: real, second: real, s: Shared)
    requires 0.0 <= second < 1.0
    ensures var (o, t) := Complete(buggy, Order(post), Pending, first, second, s);
            (o == NotPost <==> !post) && (o == Buggy <==> post && buggy && first < 0.5) &&
            (o == Failed <==> post && !(buggy && first < 0.5) && second < s.failRate) &&
            (o == Created <==> post && !(buggy && first < 0.5) && second >= s.failRate) &&
            t.created == s.created + (if o == Created then 1 else 0) &&
            t.failed == s.failed + (if o == Failed then 1 else 0) && t.inFlight == s.inFlight &&
            forall path, code ::
              Requests(t, path, code) == Requests(s, path, code) +
                if path == OrderPath && code == (match o case NotPost => 405 case Created => 201 case _ => 500)
                then 1 else 0
  {
    hide Complete;
    StepsAreServed(buggy, Order(post), first, second, s);
  }

  /** An undisturbed fault request: each parameter is taken iff it is in its range, both ends of it included. */
  lemma FaultTaken(buggy: bool, fail: Option<real>, latency: Option<int>, first: real, second: real, s: Shared)
    ensures var (o, t) := Complete(buggy, Fault(fail, latency), Pending, first, second, s);
            Status(o) == 200 &&
            (if fail.Some? && 0.0 <= fail.value && fail.value <= 1.0
             then t.failRate == fail.value && t.rateGauge == fail.value
             else t.failRate == s.failRate && t.rateGauge == s.rateGauge) &&
            (if latency.Some? && latency.value >= 0
             then t.latencyMs == latency.value && t.latencyGauge == latency.value
             else t.latencyMs == s.latencyMs && t.latencyGauge == s.latencyGauge)
  {
    hide Complete;
    StepsAreServed(buggy, Fault(fail, latency), first, second, s);
  }

  /** The readiness probe fails iff more than nine tenths of all orders are made to fail. */
  lemma ReadyTells(buggy: bool, first: real, second: real, s: Shared)
    ensures var (o, t) := Complete(buggy, Ready, Pending, first, second, s);
            Status(o) == (if s.failRate > 0.9 then 503 else 200) && t == CountRequest(s, ReadyPath, Status(o))
  {
    hide Complete;
    StepsAreServed(buggy, Ready, first, second, s);
  }

  class Handler {
    const buggy: bool
    var failRate: real
    var latencyMs: int
    var rateGauge: real
    var latencyGauge: int
    var inFlight: int
    var created: int
    var failed: int
    var http: map<(Path, int), int>

    constructor (buggy: bool, failRate: real, latencyMs: int)
      ensures this.buggy == buggy && View() == Shared(failRate, latencyMs, failRate, latencyMs, 0, 0, 0, map[])
    {
      this.buggy, this.failRate, this.latencyMs := buggy, failRate, latencyMs;
      rateGauge, latencyGauge := failRate, latencyMs;
      inFlight, created, failed, http := 0, 0, 0, map[];
    }

    function View(): Shared
      reads this
    {
      Shared(failRate, latencyMs, rateGauge, latencyGauge, inFlight, created, failed, http)
    }

    /** Returns the status written. */
    method CreateOrder(post: bool, first: real, second: real) returns (status: int)
      modifies this
      ensures var (o, s) := Served(buggy, Order(post), first, second, old(View()));
              status == Status(o) && View() == s
    {
      if !post { return 405; }
      if buggy && first < 0.5 { return 500; }
      inFlight := inFlight + 1;
      if failRate > 0.0 && second < failRate {
        failed := failed + 1;
        status := 500;
      } else {
        created := created + 1;
        status := 201;
      }
      inFlight := inFlight - 1;
    }

    method SetFault(fail: Option<real>, latency: Option<int>)
      modifies this
      ensures View() == Served(buggy, Fault(fail, latency), 0.0, 0.0, old(View())).1
    {
      if fail.Some? && 0.0 <= fail.value <= 1.0 {
        failRate := fail.value;
        rateGauge := fail.value;
      }
      if latency.Some? && latency.value >= 0 {
        latencyMs := latency.value;
        latencyGauge := latency.value;
      }
    }

    /** The middleware around the routes: the recorder starts at 200, and the request is counted under what it holds. */
    method Instrument(r: Request, first: real, second: real) returns (status: int)
      modifies this
      ensures var (o, s) := Complete(buggy, r, Pending, first, second, old(View()));
              status == Status(o) && View() == s
    {
      StepsAreServed(buggy, r, first, second, View());
      status := 200;
      match r {
        case Order(post) => status := CreateOrder(post, first, second);
        case Ready => if failRate > 0.9 { status := 503; }
        case Fault(fail, latency) => SetFault(fail, latency);
      }
      var n := if (PathOf(r), status) in http then http[(PathOf(r), status)] else 0;
      http := http[(PathOf(r), status) := n + 1];
    }
  }

  // ------------------------------------------------------------- interleavings

  datatype Proc = Proc(request: Request, pc: Pc)

  datatype State = State(procs: seq<Proc>, shared: Shared)

  /** Request `who` takes its next step; the random source returns `roll` if asked. */
  datatype Step = Step(who: nat, roll: real)

  predicate Sensible(x: Step) { 0.0 <= x.roll < 1.0 }

  function Apply(buggy: bool, st: State, x: Step): State {
    if x.who >= |st.procs| then st
    else
      var p := st.procs[x.who];
      var next := Advance(buggy, p.request, p.pc, x.roll, st.shared);
      State(st.procs[x.who := Proc(p.request, next.0)], next.1)
  }

  function Exec(buggy: bool, st: State, run: seq<Step>): State {
    if run == [] then st else Apply(buggy, Exec(buggy, st, run[..|run| - 1]), run[|run| - 1])
  }

  predicate Starting(st: State) {
    st.shared.inFlight == 0 && st.shared.created == 0 && st.shared.failed == 0 && st.shared.http == map[] &&
    forall p :: p in st.procs ==> p.pc == Pending
  }

  /** How many requests satisfy a condition. */
  ghost function Count(procs: seq<Proc>, f: Proc -> bool): nat {
    if procs == [] then 0 else (if f(procs[0]) then 1 else 0) + Count(procs[1..], f)
  }

  lemma {:induction false} CountUpdate(procs: seq<Proc>, i: nat, p: Proc, f: Proc -> bool)
    requires i < |procs|
    ensures Count(procs[i := p], f) == Count(procs, f) + (if f(p) then 1 else 0) - (if f(procs[i]) then 1 else 0)
  {
    if i == 0 {
      assert procs[0 := p][1..] == procs[1..];
    } else {
      assert procs[i := p][1..] == procs[1..][i - 1 := p];
      CountUpdate(procs[1..], i - 1, p, f);
    }
  }

  lemma {:induction false} CountNone(procs: seq<Proc>, f: Proc -> bool)
    requires forall p :: p in procs ==> !f(p)
    ensures Count(procs, f) == 0
  {
    if procs != [] { CountNone(procs[1..], f); }
  }

  /** Counts agree where the conditions do. */
  lemma {:induction false} CountSame(procs: seq<Proc>, f: Proc -> bool, g: Proc -> bool)
    requires forall p :: p in procs ==> f(p) == g(p)
    ensures Count(procs, f) == Count(procs, g)
  {
    if procs != [] { CountSame(procs[1..], f, g); }
  }

  lemma {:induction false} CountSplit(procs: seq<Proc>, f: Proc -> bool, g: Proc -> bool, h: Proc -> bool)
    requires forall p :: p in procs ==> f(p) == (g(p) || h(p)) && !(g(p) && h(p))
    ensures Count(procs, f) == Count(procs, g) + Count(procs, h)
  {
    if procs != [] { CountSplit(procs[1..], f, g, h); }
  }

  /** Between the Inc of the in-flight gauge and its deferred Dec. */
  predicate Inside(p: Proc) { p.pc.Waiting? || p.pc.Armed? || p.pc.Resolved? || p.pc.Counted? || p.pc.Answered? }

  /** Inside, and in neither order counter yet. */
  predicate Undecided(p: Proc) { p.pc.Waiting? || p.pc.Armed? || p.pc.Resolved? }

  /** In one of the order counters, under this outcome. */
  predicate Tallied(p: Proc, o: Outcome) {
    match p.pc
    case Counted(x) => x == o
    case Answered(x) => x == o
    case Leaving(x) => x == o
    case Done(x) => x == o
    case _ => false
  }

  /** Has entered the counted part of createOrder. */
  predicate Started(p: Proc) { Undecided(p) || Tallied(p, Created) || Tallied(p, Failed) }

  /** Counted by the middleware under this path and status. */
  predicate Finished(p: Proc, path: Path, status: int) {
    PathOf(p.request) == path && p.pc.Done? && Status(p.pc.outcome) == status
  }

  ghost function In(o: Outcome): Proc -> bool { (p: Proc) => Tallied(p, o) }

  ghost function Ended(path: Path, status: int): Proc -> bool { (p: Proc) => Finished(p, path, status) }

  /** Every counter is the number of requests it stands for. */
  ghost predicate Accounted(st: State) {
    (forall p :: p in st.procs ==> Reachable(p.request, p.pc)) &&
    st.shared.inFlight == Count(st.procs, Inside) &&
    st.shared.created == Count(st.procs, In(Created)) &&
    st.shared.failed == Count(st.procs, In(Failed)) &&
    forall path, status :: Requests(st.shared, path, status) == Count(st.procs, Ended(path, status))
  }

  lemma AdvanceReachable(buggy: bool, r: Request, pc: Pc, roll: real, s: Shared)
    requires Reachable(r, pc)
    ensures Reachable(r, Advance(buggy, r, pc, roll, s).0)
  {}

  /** One step changes each counter by what it changes in the number of requests the counter stands for. */
  lemma AdvanceBooks(buggy: bool, r: Request, pc: Pc, roll: real, s: Shared, path: Path, status: int)
    requires Reachable(r, pc)
    ensures var (q, t) := Advance(buggy, r, pc, roll, s);
            var before, after := Proc(r, pc), Proc(r, q);
            t.inFlight - s.inFlight == Bit(Inside(after)) - Bit(Inside(before)) &&
            t.created - s.created == Bit(Tallied(after, Created)) - Bit(Tallied(before, Created)) &&
            t.failed - s.failed == Bit(Tallied(after, Failed)) - Bit(Tallied(before, Failed)) &&
            Requests(t, path, status) - Requests(s, path, status)
              == Bit(Finished(after, path, status)) - Bit(Finished(before, path, status))
  {}

  function Bit(b: bool): int { if b then 1 else 0 }

  lemma StepAccounted(buggy: bool, st: State, x: Step)
    requires Accounted(st)
    ensures Accounted(Apply(buggy, st, x))
  {
    hide Advance, Reachable, Inside, Tallied, Finished, Requests;
    if x.who < |st.procs| {
      var p := st.procs[x.who];
      var next := Advance(buggy, p.request, p.pc, x.roll, st.shared);
      var q := Proc(p.request, next.0);
      var st' := Apply(buggy, st, x);
      AdvanceReachable(buggy, p.request, p.pc, x.roll, st.shared);
      assert Proc(p.request, p.pc) == p;
      CountUpdate(st.procs, x.who, q, Inside);
      CountUpdate(st.procs, x.who, q, In(Created));
      CountUpdate(st.procs, x.who, q, In(Failed));
      AdvanceBooks(buggy, p.request, p.pc, x.roll, st.shared, OrderPath, 0);
      forall path, status
        ensures Requests(st'.shared, path, status) == Count(st'.procs, Ended(path, status))
      {
        CountUpdate(st.procs, x.who, q, Ended(path, status));
        AdvanceBooks(buggy, p.request, p.pc, x.roll, st.shared, path, status);
      }
    }
  }

  /** In every interleaving, at every step, each counter is exactly the number of requests it stands for. */
  lemma {:induction false} CountersAddUp(buggy: bool, st: State, run: seq<Step>)
    requires Starting(st)
    ensures Accounted(Exec(buggy, st, run))
    decreases |run|
  {
    if run == [] {
      CountNone(st.procs, Inside);
      CountNone(st.procs, In(Created));
      CountNone(st.procs, In(Failed));
      forall path, status ensures Count(st.procs, Ended(path, status)) == 0 {
        CountNone(st.procs, Ended(path, status));
      }
    } else {
      CountersAddUp(buggy, st, run[..|run| - 1]);
      StepAccounted(buggy, Exec(buggy, st, run[..|run| - 1]), run[|run| - 1]);
    }
  }

  /** The gauge is never negative; orders started are created, failed, or still undecided. */
  lemma InFlightAndConservation(buggy: bool, st: State, run: seq<Step>)
    requires Starting(st)
    ensures var end := Exec(buggy, st, run);
            0 <= end.shared.inFlight <= Count(end.procs, Started) &&
            end.shared.created + end.shared.failed + Count(end.procs, Undecided) == Count(end.procs, Started)
  {
    var end := Exec(buggy, st, run);
    CountersAddUp(buggy, st, run);
    var decided := (p: Proc) => Tallied(p, Created) || Tallied(p, Failed);
    CountSplit(end.procs, Started, Undecided, decided);
    CountSplit(end.procs, decided, In(Created), In(Failed));
    CountAtMost(end.procs, Inside, Started);
  }

  lemma {:induction false} CountAtMost(procs: seq<Proc>, f: Proc -> bool, g: Proc -> bool)
    requires forall p :: p in procs && f(p) ==> g(p)
    ensures Count(procs, f) <= Count(procs, g)
  {
    if procs != [] { CountAtMost(procs[1..], f, g); }
  }

  ghost predicate Quiescent(st: State) { forall p :: p in st.procs ==> p.pc.Done? }

  ghost function Orders(post: bool): Proc -> bool { (p: Proc) => p.request == Order(post) }

  ghost function Rejected(): Proc -> bool { (p: Proc) => p.pc == Done(Buggy) }

  /** Once every request is done, the HTTP counters of /order tell the orders created and failed, and nothing else. */
  lemma Reconciled(buggy: bool, st: State, run: seq<Step>)
    requires Starting(st) && Quiescent(Exec(buggy, st, run))
    ensures var end := Exec(buggy, st, run);
            end.shared.inFlight == 0 &&
            Requests(end.shared, OrderPath, 201) == end.shared.created &&
            Requests(end.shared, OrderPath, 500) == end.shared.failed + Count(end.procs, Rejected()) &&
            Requests(end.shared, OrderPath, 405) == Count(end.procs, Orders(false)) &&
            Count(end.procs, Orders(true)) == end.shared.created + end.shared.failed + Count(end.procs, Rejected())
  {
    var end := Exec(buggy, st, run);
    CountersAddUp(buggy, st, run);
    CountNone(end.procs, Inside);
    CountSame(end.procs, Ended(OrderPath, 201), In(Created));
    CountSplit(end.procs, Ended(OrderPath, 500), In(Failed), Rejected());
    CountSame(end.procs, Ended(OrderPath, 405), Orders(false));
    var answered := (p: Proc) => Tallied(p, Created) || Tallied(p, Failed);
    CountSplit(end.procs, Orders(true), answered, Rejected());
    CountSplit(end.procs, answered, In(Created), In(Failed));
  }

  // ---------------------------------------------------------- fault injection

  /** From valid initial values the injected rate stays a probability and the latency non-negative. */
  lemma {:induction false} InjectionStaysValid(buggy: bool, st: State, run: seq<Step>)
    requires 0.0 <= st.shared.failRate <= 1.0 && st.shared.latencyMs >= 0
    ensures var s := Exec(buggy, st, run).shared; 0.0 <= s.failRate <= 1.0 && s.latencyMs >= 0
    decreases |run|
  {
    if run != [] { InjectionStaysValid(buggy, st, run[..|run| - 1]); }
  }

  /** The rate is pinned: it starts at c, and every request that sets it sets it to c. */
  predicate Pinned(st: State, c: real) {
    st.shared.failRate == c &&
    forall p :: p in st.procs && p.request.Fault? && ValidRate(p.request.fail) ==> p.request.fail.value == c
  }

  predicate NoneDecided(st: State, o: Outcome) { forall p :: p in st.procs ==> p.pc != Resolved(o) && !Tallied(p, o) }

  predicate Unarmed(st: State) { forall p :: p in st.procs ==> !p.pc.Armed? }

  lemma {:induction false} PinnedRun(buggy: bool, st: State, run: seq<Step>, c: real)
    requires Starting(st) && Pinned(st, c) && forall x :: x in run ==> Sensible(x)
    ensures Pinned(Exec(buggy, st, run), c)
    ensures c <= 0.0 ==> NoneDecided(Exec(buggy, st, run), Failed) && Unarmed(Exec(buggy, st, run))
    ensures c >= 1.0 ==> NoneDecided(Exec(buggy, st, run), Created)
    decreases |run|
  {
    if run != [] {
      var x := run[|run| - 1];
      assert Sensible(x);
      PinnedRun(buggy, st, run[..|run| - 1], c);
    }
  }

  /** With no fault injected every order started is created; with every order failed on purpose none is. */
  lemma NoFaultAllFault(buggy: bool, st: State, run: seq<Step>, c: real)
    requires Starting(st) && Pinned(st, c) && forall x :: x in run ==> Sensible(x)
    ensures c == 0.0 ==> Exec(buggy, st, run).shared.failed == 0
    ensures c == 1.0 ==> Exec(buggy, st, run).shared.created == 0
  {
    var end := Exec(buggy, st, run);
    PinnedRun(buggy, st, run, c);
    CountersAddUp(buggy, st, run);
    if c == 0.0 { CountNone(end.procs, In(Failed)); }
    if c == 1.0 { CountNone(end.procs, In(Created)); }
  }

  /** A request that is about to store a new failure rate. */
  predicate Storing(p: Proc) { p.pc == Pending && p.request.Fault? && ValidRate(p.request.fail) }

  predicate Settled(st: State) { forall p :: p in st.procs ==> p.pc != RateStored }

  /** No rate is stored while another store is not shown on its gauge yet. */
  ghost predicate OneAtATime(buggy: bool, st: State, run: seq<Step>) {
    forall k :: 0 <= k < |run| ==>
      var at := Exec(buggy, st, run[..k]);
      run[k].who < |at.procs| && Storing(at.procs[run[k].who]) ==> Settled(at)
  }

  /** The gauge shows the rate in force, unless exactly one request still has to show the rate it stored. */
  ghost predicate Shown(st: State) {
    (Settled(st) ==> st.shared.rateGauge == st.shared.failRate) &&
    (forall i, j :: 0 <= i < j < |st.procs| ==> st.procs[i].pc != RateStored || st.procs[j].pc != RateStored) &&
    forall i :: 0 <= i < |st.procs| && st.procs[i].pc == RateStored ==> StoredBy(st.procs[i], st.shared)
  }

  predicate StoredBy(p: Proc, s: Shared) {
    p.request.Fault? && ValidRate(p.request.fail) && s.failRate == p.request.fail.value
  }

  lemma AdvanceRate(buggy: bool, p: Proc, roll: real, s: Shared)
    requires p.pc == RateStored ==> StoredBy(p, s)
    ensures var (q, t) := Advance(buggy, p.request, p.pc, roll, s);
            (q == RateStored <==> Storing(p)) && (Storing(p) ==> StoredBy(Proc(p.request, q), t)) &&
            (p.pc == RateStored ==> t.failRate == s.failRate == t.rateGauge) &&
            (!Storing(p) && p.pc != RateStored ==> t.failRate == s.failRate && t.rateGauge == s.rateGauge)
  {}

  lemma StepShown(buggy: bool, st: State, x: Step)
    requires Shown(st) && (x.who < |st.procs| && Storing(st.procs[x.who]) ==> Settled(st))
    ensures Shown(Apply(buggy, st, x))
  {
    hide Advance;
    if x.who < |st.procs| {
      var p, end := st.procs[x.who], Apply(buggy, st, x);
      AdvanceRate(buggy, p, x.roll, st.shared);
      hide Storing;
      forall i | 0 <= i < |st.procs| && i != x.who ensures end.procs[i] == st.procs[i] {}
      if Storing(p) {
        assert end.procs[x.who].pc == RateStored;
        assert forall i :: 0 <= i < |st.procs| ==> st.procs[i].pc != RateStored;
      } else if p.pc == RateStored {
        assert forall i :: 0 <= i < |st.procs| && i != x.who ==> st.procs[i].pc != RateStored;
      } else {
        assert Settled(end) ==> Settled(st);
      }
    }
  }

  lemma {:induction false} ShownThroughout(buggy: bool, st: State, run: seq<Step>)
    requires Starting(st) && st.shared.rateGauge == st.shared.failRate && OneAtATime(buggy, st, run)
    ensures Shown(Exec(buggy, st, run))
    decreases |run|
  {
    if run != [] {
      var n := |run| - 1;
      forall k | 0 <= k < n ensures run[..n][..k] == run[..k] {}
      ShownThroughout(buggy, st, run[..n]);
      StepShown(buggy, Exec(buggy, st, run[..n]), run[n]);
    }
  }

  /** Fault updates that do not overlap leave the gauge showing the rate in force. */
  lemma GaugeShowsRate(buggy: bool, st: State, run: seq<Step>)
    requires Starting(st) && st.shared.rateGauge == st.shared.failRate && OneAtATime(buggy, st, run)
    requires Settled(Exec(buggy, st, run))
    ensures Exec(buggy, st, run).shared.rateGauge == Exec(buggy, st, run).shared.failRate
  {
    ShownThroughout(buggy, st, run);
  }

  /** The steps of a request that sets the failure rate only. */
  lemma Stores(rate: real, s: Shared)
    requires 0.0 <= rate <= 1.0
    ensures var r := Fault(Some(rate), None);
            Advance(false, r, Pending, 0.0, s) == (RateStored, s.(failRate := rate)) &&
            Advance(false, r, RateStored, 0.0, s) == (RateShown, s.(rateGauge := rate)) &&
            Advance(false, r, RateShown, 0.0, s) == (Leaving(Plain(200)), s) &&
            Advance(false, r, Leaving(Plain(200)), 0.0, s) == (Done(Plain(200)), CountRequest(s, FaultPath, 200))
  {}

  const ZERO := Fault(Some(0.0), None)
  const HALF := Fault(Some(0.5), None)
  const CALM := Shared(0.0, 0, 0.0, 0, 0, 0, 0, map[])

  function Both(zero: Pc, half: Pc, s: Shared): State { State([Proc(ZERO, zero), Proc(HALF, half)], s) }

  /** One step of the first or of the second of the two requests. */
  lemma OverlapStep(run: seq<Step>, first: bool, zero: Pc, half: Pc, s: Shared)
    requires Exec(false, Both(Pending, Pending, CALM), run) == Both(zero, half, s)
    ensures var x := Step(if first then 0 else 1, 0.0);
            var (q, t) := Advance(false, if first then ZERO else HALF, if first then zero else half, 0.0, s);
            Exec(false, Both(Pending, Pending, CALM), run + [x]) ==
              Both(if first then q else zero, if first then half else q, t)
  {
    var x := Step(if first then 0 else 1, 0.0);
    assert (run + [x])[..|run + [x]| - 1] == run;
  }

  /**
   Overlapping updates need not: here both requests have ended and the gauge shows 0 while half of all orders fail.
   */
  lemma OverlapMisleadsGauge() returns (st: State, run: seq<Step>)
    ensures Starting(st) && st.shared.rateGauge == st.shared.failRate && Quiescent(Exec(false, st, run))
    ensures Exec(false, st, run).shared.failRate == 0.5 && Exec(false, st, run).shared.rateGauge == 0.0
  {
    hide Exec, Advance, CountRequest;
    var a, b := [Step(0, 0.0)], [Step(1, 0.0)];
    var mixed := CALM.(failRate := 0.5);
    st := Both(Pending, Pending, CALM);
    EmptyRun(false, st);
    OverlapStep([], true, Pending, Pending, CALM);
    Stores(0.0, CALM);
    OverlapStep([] + a, false, RateStored, Pending, CALM);
    Stores(0.5, CALM);
    OverlapStep([] + a + b, false, RateStored, RateStored, mixed);
    Stores(0.5, mixed);
    OverlapStep([] + a + b + b, true, RateStored, RateShown, mixed.(rateGauge := 0.5));
    Stores(0.0, mixed.(rateGauge := 0.5));
    run := [] + a + b + b + a;
    var counted := OverlapEnds(run, mixed);
    CountKeepsRates(mixed, FaultPath, 200);
    CountKeepsRates(CountRequest(mixed, FaultPath, 200), FaultPath, 200);
    run := run + a + a + b + b;
  }

  lemma OverlapEnds(run: seq<Step>, s: Shared) returns (t: Shared)
    requires Exec(false, Both(Pending, Pending, CALM), run) == Both(RateShown, RateShown, s)
    ensures t == CountRequest(CountRequest(s, FaultPath, 200), FaultPath, 200)
    ensures Exec(false, Both(Pending, Pending, CALM),
                 run + [Step(0, 0.0)] + [Step(0, 0.0)] + [Step(1, 0.0)] + [Step(1, 0.0)])
         == Both(Done(Plain(200)), Done(Plain(200)), t)
  {
    hide Exec, Advance, CountRequest;
    var a, b, end := [Step(0, 0.0)], [Step(1, 0.0)], Plain(200);
    var once := CountRequest(s, FaultPath, 200);
    t := CountRequest(once, FaultPath, 200);
    Stores(0.0, s);
    OverlapStep(run, true, RateShown, RateShown, s);
    OverlapStep(run + a, true, Leaving(end), RateShown, s);
    Stores(0.5, once);
    OverlapStep(run + a + a, false, Done(end), RateShown, once);
    OverlapStep(run + a + a + b, false, Done(end), Leaving(end), once);
  }

  lemma EmptyRun(buggy: bool, st: State)
    ensures Exec(buggy, st, []) == st
  {}

  lemma CountKeepsRates(s: Shared, path: Path, status: int)
    ensures var t := CountRequest(s, path, status); t.failRate == s.failRate && t.rateGauge == s.rateGauge
  {}
}
