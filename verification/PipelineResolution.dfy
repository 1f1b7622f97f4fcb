/** When a stored resolution stays: goroutines of the same event that are still under way upsert over it. */
module PipelineResolution {
  import opened Samples
  import opened Slices
  import opened Strings
  import opened Triage
  import opened Remediate
  import opened Pipeline
  import opened PipelineLists
  import opened PipelineCooldown

  /** The goroutine will not upsert any more: it has finished, or its resolution is stored. */
  predicate Quiet(pr: Proc) { pr.pc.Finished? || (pr.pc.Start? && Resolved(pr.event)) }

  predicate Upserts(op: Op) { op.StoreNew? || op.Publish? }

  /** A step leaves a quiet goroutine quiet and upserts nothing for it, and makes another quiet only by an upsert. */
  predicate QuietMove(pr: Proc, next: Proc, upserts: bool) {
    next.event.info == pr.event.info && (Quiet(pr) ==> Quiet(next) && !upserts) &&
    (!Quiet(pr) && Quiet(next) ==> upserts)
  }

  lemma QuietStep(cfg: Config, pr: Proc, op: Op, w: Sight)
    requires OpEnabled(pr.pc, op)
    ensures var next := NextProc(cfg, pr, op, w);
            QuietMove(pr, next, Upserts(op))
  {
    hide Decide, Grown, LogOf;
  }

  /** Another goroutine of the ID. */
  predicate Other(procs: seq<Proc>, id: string, p: nat, q: nat) {
    q < |procs| && q != p && procs[q].event.info.id == id
  }

  ghost predicate AllQuiet(procs: seq<Proc>, id: string, p: nat) {
    forall q: nat :: Other(procs, id, p, q) ==> Quiet(procs[q])
  }

  /** The goroutines of the ID are those of s, and p among them is quiet. */
  ghost predicate SameOnes(s: seq<Proc>, t: seq<Proc>, id: string, p: nat) {
    p < |s| <= |t| && s[p].event.info.id == id && Quiet(t[p]) &&
    (forall q: nat :: q < |s| ==> t[q].event.info.id == s[q].event.info.id) &&
    (forall q: nat :: Other(t, id, p, q) ==> q < |s|)
  }

  /** What holds of a later state t when p's resolution was stored in s and the ID was not delivered since. */
  ghost predicate Settling(s: seq<Proc>, t: seq<Proc>, store: map<string, nat>, id: string, p: nat) {
    SameOnes(s, t, id, p) && id in store &&
    (AllQuiet(s, id, p) ==> AllQuiet(t, id, p) && store[id] == p) &&
    (store[id] == p ==> forall q: nat :: Other(s, id, p, q) && !Quiet(s[q]) ==> !Quiet(t[q]))
  }

  lemma SameOnesUpdate(s: seq<Proc>, t: seq<Proc>, id: string, p: nat, q: nat, next: Proc, upserts: bool)
    requires SameOnes(s, t, id, p) && q < |t| && QuietMove(t[q], next, upserts)
    ensures SameOnes(s, t[q := next], id, p)
  {
    hide Quiet;
    var u := t[q := next];
    assert forall r: nat :: r < |t| ==> u[r].event.info == t[r].event.info;
    forall r: nat | Other(u, id, p, r) ensures r < |s| { assert Other(t, id, p, r); }
  }

  lemma SettlingUpdate(s: seq<Proc>, t: seq<Proc>, store: map<string, nat>, id: string, p: nat, q: nat, next: Proc,
                       upserts: bool)
    requires Settling(s, t, store, id, p) && q < |t| && QuietMove(t[q], next, upserts)
    ensures Settling(s, t[q := next], if upserts then store[next.event.info.id := q] else store, id, p)
  {
    hide Quiet;
    var u := t[q := next];
    SameOnesUpdate(s, t, id, p, q, next, upserts);
    if AllQuiet(s, id, p) {
      assert Other(t, id, p, q) ==> Quiet(t[q]);
      forall r: nat | Other(u, id, p, r) ensures Quiet(u[r]) { assert Other(t, id, p, r); }
    }
  }

  lemma SettlingAppend(s: seq<Proc>, t: seq<Proc>, store: map<string, nat>, id: string, p: nat, newest: Proc)
    requires Settling(s, t, store, id, p) && newest.event.info.id != id
    ensures Settling(s, t + [newest], store, id, p)
  {
    hide Quiet;
    var u := t + [newest];
    forall r: nat | Other(u, id, p, r) ensures Other(t, id, p, r) {}
  }

  lemma SettlingStep(cfg: Config, s: seq<Proc>, t: State, id: string, p: nat, a: Step)
    requires WellFormed(t) && Settling(s, t.procs, t.store, id, p) && Enabled(t, a)
    requires a.Deliver? ==> EventId(cfg.digest, a.payload) != id
    ensures var u := Apply(cfg, t, a); Settling(s, u.procs, u.store, id, p)
  {
    hide NextProc, NextHeap, NextLast, NextMarks, NextCalls, NextMisses, Quiet, Describes, Settling;
    match a
    case At(q, op) =>
      QuietStep(cfg, t.procs[q], op, Seen(t));
      SettlingUpdate(s, t.procs, t.store, id, p, q, NextProc(cfg, t.procs[q], op, Seen(t)), Upserts(op));
    case Deliver(_, _, _) =>
      hide NextProcs;
      Delivered(cfg, t, a);
      SettlingAppend(s, t.procs, t.store, id, p, NextProcs(cfg, t, a)[|t.procs|]);
    case Tick(_) =>
  }

  predicate NotDelivered(cfg: Config, run: seq<Step>, from: nat, id: string) {
    forall j :: from <= j < |run| && run[j].Deliver? ==> EventId(cfg.digest, run[j].payload) != id
  }

  /** Goroutine p is a resolution that has just been stored. */
  predicate StoredResolution(s: State, id: string, p: nat) {
    p < |s.procs| && Id(s, p) == id && s.procs[p].pc == Start && Resolved(s.procs[p].event) && id in s.store &&
    s.store[id] == p
  }

  lemma {:induction false} Settles(cfg: Config, run: seq<Step>, n: nat, id: string, p: nat)
    requires Exec(cfg, run).Some? && n <= |run| && NotDelivered(cfg, run, n, id)
    requires StoredResolution(Before(cfg, run, n), id, p)
    ensures Settling(Before(cfg, run, n).procs, Exec(cfg, run).value.procs, Exec(cfg, run).value.store, id, p)
  {
    if n == |run| {
      AtEnd(cfg, run);
    } else {
      hide Exec, Before, Settling, StoredResolution;
      var m := |run| - 1;
      var t, a := Before(cfg, run, m), run[m];
      BeforeIs(cfg, run, m);
      assert Before(cfg, run[..m], n) == Before(cfg, run, n) by {
        if n == m { AtEnd(cfg, run[..m]); } else { SameBefore(cfg, run, n); }
      }
      Settles(cfg, run[..m], n, id, p);
      StepAt(cfg, run, m);
      AtEnd(cfg, run);
      SettlingStep(cfg, Before(cfg, run, n).procs, t, id, p, a);
    }
  }

  /**
   Let a resolution be stored, its event not be delivered again, and all the event's goroutines finish: the resolution
   is what stays stored exactly if every other goroutine of the event was quiet when it was stored.
   */
  lemma ResolutionStays(cfg: Config, run: seq<Step>, n: nat, id: string, p: nat)
    requires Exec(cfg, run).Some? && n <= |run| && NotDelivered(cfg, run, n, id)
    requires StoredResolution(Before(cfg, run, n), id, p)
    requires forall pr :: pr in Exec(cfg, run).value.procs && pr.event.info.id == id ==> pr.pc.Finished?
    ensures var end := Exec(cfg, run).value;
            id in end.store && (end.store[id] == p <==> AllQuiet(Before(cfg, run, n).procs, id, p))
  {
    hide Exec, Before, NotDelivered, StoredResolution;
    Settles(cfg, run, n, id, p);
    var s, end := Before(cfg, run, n), Exec(cfg, run).value;
    if end.store[id] == p {
      forall q: nat | Other(s.procs, id, p, q) ensures Quiet(s.procs[q]) {
        assert end.procs[q].event.info.id == id && end.procs[q] in end.procs;
      }
    }
  }
}
