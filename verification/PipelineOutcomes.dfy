/** One log entry per processed delivery: what the recorded histories say about the goroutines that made them. */
module PipelineOutcomes {
  import opened Samples
  import opened Strings
  import opened Triage
  import opened Remediate
  import opened Pipeline
  import opened PipelineCooldown
  import opened PipelineHistory

  /** The entry that a goroutine of the ID has recorded, if it has got that far. */
  function Own(pr: Proc, id: string): seq<Log> {
    if pr.event.info.id != id then []
    else
      match pr.pc
      case PublishLog(log) => [log]
      case Finished(Some(log)) => [log]
      case _ => []
  }

  /** The entries of the ID's goroutines in delivery order. */
  function InOrder(procs: seq<Proc>, id: string): seq<Log> {
    if procs == [] then [] else InOrder(procs[..|procs| - 1], id) + Own(procs[|procs| - 1], id)
  }

  lemma {:induction false} InOrderConcat(a: seq<Proc>, b: seq<Proc>, id: string)
    ensures InOrder(a + b, id) == InOrder(a, id) + InOrder(b, id)
  {
    if b == [] {
      assert a + b == a;
    } else {
      assert (a + b)[..|a + b| - 1] == a + b[..|b| - 1];
      InOrderConcat(a, b[..|b| - 1], id);
    }
  }

  lemma InOrderAt(procs: seq<Proc>, p: nat, id: string)
    requires p < |procs|
    ensures InOrder(procs, id) == InOrder(procs[..p], id) + Own(procs[p], id) + InOrder(procs[p + 1..], id)
  {
    assert procs == procs[..p] + [procs[p]] + procs[p + 1..];
    InOrderConcat(procs[..p] + [procs[p]], procs[p + 1..], id);
    InOrderConcat(procs[..p], [procs[p]], id);
    assert [procs[p]][..0] == [];
  }

  lemma {:induction false} NoneOf(procs: seq<Proc>, id: string)
    requires forall pr :: pr in procs ==> pr.event.info.id != id
    ensures InOrder(procs, id) == []
  {
    if procs != [] { NoneOf(procs[..|procs| - 1], id); }
  }

  /** Only recording gives a goroutine an entry, and it had none before. */
  lemma OwnStep(cfg: Config, pr: Proc, op: Op, w: Sight, id: string)
    requires OpEnabled(pr.pc, op)
    ensures var next := NextProc(cfg, pr, op, w);
            var entry := if op.Record? && pr.event.info.id == id then [pr.pc.log] else [];
            Own(next, id) == Own(pr, id) + entry && (entry == [] || Own(pr, id) == []) && !pr.pc.Finished?
  {
    hide Decide;
  }

  lemma InOrderReplace(procs: seq<Proc>, p: nat, next: Proc, id: string, entry: seq<Log>)
    requires p < |procs| && Own(next, id) == Own(procs[p], id) + entry && (entry == [] || Own(procs[p], id) == [])
    ensures multiset(InOrder(procs[p := next], id)) == multiset(InOrder(procs, id)) + multiset(entry)
    ensures entry == [] || InOrder(procs[p + 1..], id) == [] ==>
            InOrder(procs[p := next], id) == InOrder(procs, id) + entry
  {
    hide Own, InOrder;
    var procs' := procs[p := next];
    InOrderAt(procs, p, id);
    InOrderAt(procs', p, id);
    assert procs'[..p] == procs[..p] && procs'[p + 1..] == procs[p + 1..];
    var a, x, b := InOrder(procs[..p], id), Own(procs[p], id), InOrder(procs[p + 1..], id);
    assert multiset(a + (x + entry) + b) == multiset(a + x + b) + multiset(entry);
    if entry == [] { assert x + entry == x && a + x + b + entry == a + x + b; }
    else if b == [] { assert a + (x + entry) + b == a + x + b + entry; }
  }

  /** In a serial run the recording goroutine is the last of its ID. */
  lemma NoneAfter(procs: seq<Proc>, p: nat)
    requires Exclusive(procs) && p < |procs| && !procs[p].pc.Finished?
    ensures InOrder(procs[p + 1..], procs[p].event.info.id) == []
  {
    var id, rest := procs[p].event.info.id, procs[p + 1..];
    forall pr | pr in rest ensures pr.event.info.id != id {
      var k :| 0 <= k < |rest| && rest[k] == pr;
      assert procs[p + 1 + k] == pr;
    }
    NoneOf(rest, id);
  }

  /** What one step of goroutine p adds to the recorded entries, and to those in delivery order. */
  lemma InOrderStep(cfg: Config, s: State, p: nat, op: Op, id: string)
    requires WellFormed(s) && Enabled(s, At(p, op))
    ensures var s' := Apply(cfg, s, At(p, op));
            var entry := if op.Record? && Id(s, p) == id then [s.procs[p].pc.log] else [];
            multiset(InOrder(s'.procs, id)) == multiset(InOrder(s.procs, id)) + multiset(entry) &&
            (Exclusive(s.procs) ==> InOrder(s'.procs, id) == InOrder(s.procs, id) + entry)
  {
    hide NextProc, NextStore, NextLast, NextMarks, NextCalls, NextMisses, Own, InOrder, Exclusive;
    var pr := s.procs[p];
    var entry := if op.Record? && Id(s, p) == id then [s.procs[p].pc.log] else [];
    OwnStep(cfg, pr, op, Seen(s), id);
    InOrderReplace(s.procs, p, NextProc(cfg, pr, op, Seen(s)), id, entry);
    if Exclusive(s.procs) { NoneAfter(s.procs, p); }
  }

  lemma OtherSteps(cfg: Config, s: State, a: Step, id: string)
    requires WellFormed(s) && Enabled(s, a) && !a.At?
    ensures InOrder(Apply(cfg, s, a).procs, id) == InOrder(s.procs, id)
  {
    hide NextStore, NextLast, NextMarks, NextCalls, NextMisses;
    if a.Deliver? {
      hide NextProcs;
      Delivered(cfg, s, a);
      assert Apply(cfg, s, a).procs[..|s.procs|] == s.procs;
    }
  }

  /** In every interleaving the entries recorded for an ID are its goroutines' outcomes, one each. */
  lemma {:induction false} RecordedOutcomes(cfg: Config, run: seq<Step>, id: string)
    requires Exec(cfg, run).Some?
    ensures multiset(Recorded(cfg, run, id)) == multiset(InOrder(Exec(cfg, run).value.procs, id))
    ensures |Recorded(cfg, run, id)| == |InOrder(Exec(cfg, run).value.procs, id)|
  {
    if run != [] {
      hide Apply, InOrder, Own;
      var s, a := Exec(cfg, run[..|run| - 1]).value, run[|run| - 1];
      RecordedOutcomes(cfg, run[..|run| - 1], id);
      if a.At? { InOrderStep(cfg, s, a.p, a.op, id); } else { OtherSteps(cfg, s, a, id); }
    }
    SameSize(Recorded(cfg, run, id), InOrder(Exec(cfg, run).value.procs, id));
  }

  lemma SameSize<T>(a: seq<T>, b: seq<T>)
    requires multiset(a) == multiset(b)
    ensures |a| == |b|
  {
    assert |multiset(a)| == |a| && |multiset(b)| == |b|;
  }

  lemma {:induction false} RecordedInOrder(cfg: Config, run: seq<Step>, id: string)
    requires Exec(cfg, run).Some? && Serial(cfg, run)
    ensures Recorded(cfg, run, id) == InOrder(Exec(cfg, run).value.procs, id)
  {
    if run != [] {
      hide Apply, InOrder, Own, SerialStep, OneAtATime;
      var s, a := Exec(cfg, run[..|run| - 1]).value, run[|run| - 1];
      RecordedInOrder(cfg, run[..|run| - 1], id);
      if a.At? {
        ExclusiveRuns(cfg, run[..|run| - 1]);
        InOrderStep(cfg, s, a.p, a.op, id);
      } else {
        OtherSteps(cfg, s, a, id);
      }
    }
  }

  lemma ExclusiveRuns(cfg: Config, run: seq<Step>)
    requires Exec(cfg, run).Some? && Serial(cfg, run)
    ensures Exclusive(Exec(cfg, run).value.procs)
  {
    hide Exclusive, SeenAll, MarksSeeAll;
    SerialRuns(cfg, run);
  }

  /** In serial runs the stored list is the outcomes of the ID's goroutines in delivery order, one each. */
  lemma SerialOutcomes(cfg: Config, run: seq<Step>, id: string)
    requires Exec(cfg, run).Some? && Serial(cfg, run)
    ensures StoredHistory(Exec(cfg, run).value, id) == InOrder(Exec(cfg, run).value.procs, id)
  {
    hide *;
    SerialHistory(cfg, run, id);
    RecordedInOrder(cfg, run, id);
  }

  // ------------------------------------------------------- counting deliveries

  /** The deliveries of the ID that were not "resolved". */
  function Firings(cfg: Config, run: seq<Step>, id: string): nat {
    if run == [] then 0
    else
      var a := run[|run| - 1];
      Firings(cfg, run[..|run| - 1], id) +
      if a.Deliver? && EventId(cfg.digest, a.payload) == id && a.payload.status != "resolved" then 1 else 0
  }

  function FiringProcs(procs: seq<Proc>, id: string): nat {
    if procs == [] then 0
    else
      var pr := procs[|procs| - 1];
      FiringProcs(procs[..|procs| - 1], id) + if pr.event.info.id == id && !Resolved(pr.event) then 1 else 0
  }

  lemma {:induction false} SameInfos(a: seq<Proc>, b: seq<Proc>, id: string)
    requires |a| == |b| && forall i :: 0 <= i < |a| ==> a[i].event.info == b[i].event.info
    ensures FiringProcs(a, id) == FiringProcs(b, id)
  {
    if a != [] { SameInfos(a[..|a| - 1], b[..|b| - 1], id); }
  }

  lemma {:induction false} FiringsAreProcs(cfg: Config, run: seq<Step>, id: string)
    requires Exec(cfg, run).Some?
    ensures FiringProcs(Exec(cfg, run).value.procs, id) == Firings(cfg, run, id)
  {
    if run != [] {
      hide NextStore, NextLast, NextMarks, NextCalls, NextMisses, NextProcs, NextProc, EventId;
      var s, a := Exec(cfg, run[..|run| - 1]).value, run[|run| - 1];
      var s' := Exec(cfg, run).value;
      FiringsAreProcs(cfg, run[..|run| - 1], id);
      if a.Deliver? {
        Delivered(cfg, s, a);
        assert s'.procs[..|s.procs|] == s.procs;
      } else {
        StepProcs(cfg, s, a);
        forall q | 0 <= q < |s.procs| ensures s'.procs[q].event.info == s.procs[q].event.info {
          SingleOwner(cfg, s, a, q);
        }
        SameInfos(s.procs, s'.procs, id);
      }
    }
  }

  /** A finished goroutine has an entry unless its delivery was a resolution. */
  lemma {:induction false} FinishedEntries(procs: seq<Proc>, id: string)
    requires forall pr :: pr in procs ==> PipelineHistory.Outcome(pr) && (pr.event.info.id == id ==> pr.pc.Finished?)
    ensures |InOrder(procs, id)| == FiringProcs(procs, id)
  {
    if procs != [] {
      FinishedEntries(procs[..|procs| - 1], id);
      assert procs[|procs| - 1] in procs;
    }
  }

  /**
   Once the ID's goroutines have finished, exactly one entry was recorded per firing delivery of the ID; in serial
   runs that is what the stored list holds.
   */
  lemma OneEntryPerFiring(cfg: Config, run: seq<Step>, id: string)
    requires Exec(cfg, run).Some?
    requires forall pr :: pr in Exec(cfg, run).value.procs && pr.event.info.id == id ==> pr.pc.Finished?
    ensures |Recorded(cfg, run, id)| == Firings(cfg, run, id)
    ensures Serial(cfg, run) ==> |StoredHistory(Exec(cfg, run).value, id)| == Firings(cfg, run, id)
  {
    hide Exec, Recorded, InOrder, Serial, Firings, FiringProcs, StoredHistory;
    var procs := Exec(cfg, run).value.procs;
    RecordedOutcomes(cfg, run, id);
    forall pr | pr in procs ensures PipelineHistory.Outcome(pr) {
      var p :| 0 <= p < |procs| && procs[p] == pr;
      Outcomes(cfg, run, p);
    }
    FinishedEntries(procs, id);
    FiringsAreProcs(cfg, run, id);
    if Serial(cfg, run) { SerialOutcomes(cfg, run, id); }
  }
}
