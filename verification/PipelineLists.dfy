/**
 Remediation lists over shared arrays: what a goroutine's steps do to other objects' lists, and which entries survive.
 */
module PipelineLists {
  import opened Samples
  import opened Slices
  import opened Strings
  import opened Triage
  import opened Remediate
  import opened Pipeline

  /** Every object's header fits its array. */
  predicate Fitting(heap: Heap<Log>, procs: seq<Proc>) { forall pr :: pr in procs ==> Fits(heap, pr.list) }

  function List(s: State, p: nat): seq<Log>
    requires p < |s.procs|
  {
    Contents(s.heap, s.procs[p].list)
  }

  lemma NextList(cfg: Config, pr: Proc, op: Op, w: Sight)
    requires OpEnabled(pr.pc, op)
    ensures NextProc(cfg, pr, op, w).list == if op.Record? then Grown(pr.list, w.arrays, op.extra) else pr.list
  {
    hide Decide, Grown;
  }

  /** The acting goroutine's list gains the entry it records. */
  lemma OwnList(cfg: Config, s: State, p: nat, op: Op)
    requires WellFormed(s) && Fitting(s.heap, s.procs) && Enabled(s, At(p, op))
    ensures var s' := Apply(cfg, s, At(p, op));
            Fits(s'.heap, s'.procs[p].list) &&
            List(s', p) == List(s, p) + if op.Record? then [s.procs[p].pc.log] else []
  {
    hide NextProc, NextStore, NextLast, NextMarks, NextCalls, NextMisses, Fits, Contents, Written, Grown;
    NextList(cfg, s.procs[p], op, Seen(s));
    assert s.procs[p] in s.procs;
    if op.Record? { Appends(s.heap, s.procs[p].list, s.procs[p].pc.log, op.extra); }
  }

  /** Every other list stays as it is, save that a recorded entry shows in the lists that share its cell. */
  lemma OtherLists(cfg: Config, s: State, a: Step, q: nat)
    requires WellFormed(s) && Fitting(s.heap, s.procs) && Enabled(s, a) && q < |s.procs| && !(a.At? && a.p == q)
    ensures var s' := Apply(cfg, s, a);
            q < |s'.procs| && s'.procs[q].list == s.procs[q].list && Fits(s'.heap, s.procs[q].list) &&
            |List(s, q)| == s.procs[q].list.len &&
            List(s', q) ==
              if a.At? && a.op.Record? && Overlooks(s.procs[a.p].list, s.procs[q].list)
              then Overwritten(List(s, q), s.procs[a.p].list.len, s.procs[a.p].pc.log) else List(s, q)
  {
    hide NextProc, NextStore, NextLast, NextMarks, NextCalls, NextMisses, Written, Overlooks;
    SingleOwner(cfg, s, a, q);
    assert s.procs[q] in s.procs;
    if a.At? && a.op.Record? {
      assert s.procs[a.p] in s.procs;
      OthersSee(s.heap, s.procs[a.p].list, s.procs[a.p].pc.log, a.op.extra, s.procs[q].list);
    }
  }

  lemma FittingStep(cfg: Config, s: State, a: Step)
    requires WellFormed(s) && Fitting(s.heap, s.procs) && Enabled(s, a)
    ensures Fitting(Apply(cfg, s, a).heap, Apply(cfg, s, a).procs)
  {
    hide NextProcs, NextStore, NextLast, NextMarks, NextCalls, NextMisses, NextHeap, Fits, List, Describes;
    var s' := Apply(cfg, s, a);
    StepProcs(cfg, s, a);
    forall q | 0 <= q < |s'.procs| ensures Fits(s'.heap, s'.procs[q].list) {
      if q == |s.procs| {
        NewestFits(cfg, s, a);
      } else if a.At? && a.p == q {
        OwnList(cfg, s, q, a.op);
      } else {
        OtherLists(cfg, s, a, q);
      }
    }
  }

  lemma NewestFits(cfg: Config, s: State, a: Step)
    requires WellFormed(s) && Fitting(s.heap, s.procs) && a.Deliver? && Enabled(s, a)
    ensures var s' := Apply(cfg, s, a); Fits(s'.heap, s'.procs[|s.procs|].list)
  {
    hide NextProcs, NextStore, NextLast, NextMarks, NextCalls, NextMisses, Describes;
    Delivered(cfg, s, a);
    var id := EventId(cfg.digest, a.payload);
    if id in s.store { assert s.procs[s.store[id]] in s.procs; }
  }

  lemma {:induction false} FittingRun(cfg: Config, run: seq<Step>)
    requires Exec(cfg, run).Some?
    ensures Fitting(Exec(cfg, run).value.heap, Exec(cfg, run).value.procs)
  {
    if run != [] {
      hide Fitting, Apply;
      FittingRun(cfg, run[..|run| - 1]);
      FittingStep(cfg, Exec(cfg, run[..|run| - 1]).value, run[|run| - 1]);
    }
  }

  // ------------------------------------------------------------ states along a run

  lemma {:induction false} Prefix(cfg: Config, run: seq<Step>, j: nat)
    requires Exec(cfg, run).Some? && j <= |run|
    ensures Exec(cfg, run[..j]).Some?
  {
    if j == |run| {
      assert run[..j] == run;
    } else {
      assert run[..|run| - 1][..j] == run[..j];
      Prefix(cfg, run[..|run| - 1], j);
    }
  }

  /** The state before step j. */
  function Before(cfg: Config, run: seq<Step>, j: nat): (s: State)
    requires Exec(cfg, run).Some? && j <= |run|
    ensures WellFormed(s)
  {
    Prefix(cfg, run, j);
    Exec(cfg, run[..j]).value
  }

  lemma StepAt(cfg: Config, run: seq<Step>, j: nat)
    requires Exec(cfg, run).Some? && j < |run|
    ensures Enabled(Before(cfg, run, j), run[j])
    ensures Before(cfg, run, j + 1) == Apply(cfg, Before(cfg, run, j), run[j])
  {
    assert run[..j + 1][..j] == run[..j];
    Prefix(cfg, run, j + 1);
  }

  lemma Earlier(cfg: Config, run: seq<Step>, j: nat)
    requires Exec(cfg, run).Some? && j < |run|
    ensures Exec(cfg, run[..|run| - 1]).Some? && Before(cfg, run, j) == Before(cfg, run[..|run| - 1], j)
  {
    assert run[..|run| - 1][..j] == run[..j];
  }

  // ------------------------------------------------------------ surviving entries

  predicate Recording(cfg: Config, run: seq<Step>, j: nat)
    requires Exec(cfg, run).Some?
  {
    j < |run| && run[j].At? && run[j].op.Record?
  }

  /** The header that step j appends to. */
  function Onto(cfg: Config, run: seq<Step>, j: nat): Slice
    requires Exec(cfg, run).Some? && Recording(cfg, run, j)
  {
    StepAt(cfg, run, j);
    Before(cfg, run, j).procs[run[j].p].list
  }

  function Entry(cfg: Config, run: seq<Step>, j: nat): Log
    requires Exec(cfg, run).Some? && Recording(cfg, run, j)
  {
    StepAt(cfg, run, j);
    Before(cfg, run, j).procs[run[j].p].pc.log
  }

  /** Step j appends after step k to a copy of the very list that k appended to, inside the array they share. */
  predicate Rivals(cfg: Config, run: seq<Step>, k: nat, j: nat): (rivals: bool)
    requires Exec(cfg, run).Some? && Recording(cfg, run, k)
    ensures rivals ==> Recording(cfg, run, j) && j < |run| && run[j].At?
  {
    k < j && Recording(cfg, run, j) && Onto(cfg, run, j) == Onto(cfg, run, k) && Spare(Onto(cfg, run, k))
  }

  predicate EndsWith(logs: seq<Log>, log: Log) { logs != [] && logs[|logs| - 1] == log }

  predicate HasRecorded(pc: Pc) { pc.PublishLog? || pc.Finished? }

  /** No header of an array that was allocated for m is shorter than m. */
  predicate Based(procs: seq<Proc>, m: Slice) {
    forall pr :: pr in procs && pr.list.len > 0 && pr.list.base == m.base ==> m.len <= pr.list.len
  }

  /** Goroutine p has recorded and shows m, which it got by appending to l. */
  predicate Showing(s: State, p: nat, l: Slice, m: Slice) {
    Fitting(s.heap, s.procs) && p < |s.procs| && HasRecorded(s.procs[p].pc) && s.procs[p].list == m &&
    m.len == l.len + 1 && (if Spare(l) then m == l.(len := l.len + 1) else m.base < |s.heap| && Based(s.procs, m))
  }

  lemma StaysRecorded(cfg: Config, pr: Proc, op: Op, w: Sight)
    requires OpEnabled(pr.pc, op) && (HasRecorded(pr.pc) || op.Record?)
    ensures HasRecorded(NextProc(cfg, pr, op, w).pc) && (op.Record? ==> !HasRecorded(pr.pc))
  {
    hide Decide, Grown;
  }

  lemma BasedStep(cfg: Config, s: State, a: Step, m: Slice)
    requires WellFormed(s) && Fitting(s.heap, s.procs) && Enabled(s, a) && Based(s.procs, m) && m.base < |s.heap|
    ensures Based(Apply(cfg, s, a).procs, m) && m.base < |Apply(cfg, s, a).heap|
  {
    hide NextProc, NextStore, NextLast, NextMarks, NextCalls, NextMisses, Describes, Triaged, EventId;
    var s' := Apply(cfg, s, a);
    if a.At? {
      assert s.procs[a.p] in s.procs;
      NextList(cfg, s.procs[a.p], a.op, Seen(s));
    } else if a.Deliver? {
      var id := EventId(cfg.digest, a.payload);
      if id in s.store { assert s.procs[s.store[id]] in s.procs; }
    }
  }

  /** Once recorded, the last entry that p shows changes exactly when a rival of its header records. */
  lemma ShowingStep(cfg: Config, s: State, a: Step, p: nat, l: Slice, m: Slice)
    requires WellFormed(s) && Enabled(s, a) && Showing(s, p, l, m)
    ensures var s' := Apply(cfg, s, a);
            Showing(s', p, l, m) && |List(s, p)| == m.len && |List(s', p)| == m.len &&
            List(s', p)[l.len] == if a.At? && a.op.Record? && Spare(l) && s.procs[a.p].list == l
                                  then s.procs[a.p].pc.log else List(s, p)[l.len]
  {
    hide NextProc, NextStore, NextLast, NextMarks, NextCalls, NextMisses, NextProcs, NextHeap, Contents, Based;
    var s' := Apply(cfg, s, a);
    FittingStep(cfg, s, a);
    if !Spare(l) { BasedStep(cfg, s, a, m); }
    if a.At? { StaysRecordedAt(cfg, s, a.p, a.op, p); }
    if a.At? && a.p == p {
      OwnList(cfg, s, p, a.op);
      OwnLength(s, p);
    } else {
      OtherLists(cfg, s, a, p);
      SingleOwner(cfg, s, a, p);
      if a.At? && a.op.Record? { RivalOverlooks(s, a.p, p, l, m); }
    }
  }

  lemma OwnLength(s: State, p: nat)
    requires Fitting(s.heap, s.procs) && p < |s.procs|
    ensures |List(s, p)| == s.procs[p].list.len
  {
    assert s.procs[p] in s.procs;
  }

  lemma StaysRecordedAt(cfg: Config, s: State, q: nat, op: Op, p: nat)
    requires WellFormed(s) && Enabled(s, At(q, op)) && p < |s.procs| && HasRecorded(s.procs[p].pc)
    ensures var s' := Apply(cfg, s, At(q, op));
            p < |s'.procs| && HasRecorded(s'.procs[p].pc) &&
            (q == p ==> !op.Record? && s'.procs[p].list == s.procs[p].list)
  {
    hide NextProc, NextStore, NextLast, NextMarks, NextCalls, NextMisses, NextHeap;
    if q == p {
      StaysRecorded(cfg, s.procs[p], op, Seen(s));
      NextList(cfg, s.procs[p], op, Seen(s));
    }
  }

  /** A list writes over p's last entry exactly if it is the list that p appended to, with room. */
  lemma RivalOverlooks(s: State, q: nat, p: nat, l: Slice, m: Slice)
    requires Showing(s, p, l, m) && q < |s.procs|
    ensures var lq := s.procs[q].list;
            (Overlooks(lq, m) && lq.len == l.len) == (Spare(l) && lq == l)
  {
    assert s.procs[q] in s.procs && s.procs[p] in s.procs;
    assert Fits(s.heap, s.procs[q].list) && Fits(s.heap, m);
  }

  lemma RecordShows(cfg: Config, s: State, p: nat, op: Op)
    requires WellFormed(s) && Enabled(s, At(p, op)) && op.Record? && Fitting(s.heap, s.procs)
    ensures var s' := Apply(cfg, s, At(p, op));
            Showing(s', p, s.procs[p].list, Grown(s.procs[p].list, |s.heap|, op.extra)) &&
            |List(s', p)| == s.procs[p].list.len + 1 && List(s', p)[s.procs[p].list.len] == s.procs[p].pc.log
  {
    hide NextStore, NextLast, NextMarks, NextCalls, NextMisses, Contents;
    var s', l := Apply(cfg, s, At(p, op)), s.procs[p].list;
    OwnLength(s, p);
    OwnList(cfg, s, p, op);
    FittingStep(cfg, s, At(p, op));
    if !Spare(l) {
      forall pr | pr in s'.procs && pr.list.len > 0 && pr.list.base == |s.heap| ensures l.len + 1 <= pr.list.len {
        if pr in s.procs { assert Fits(s.heap, pr.list); }
      }
    }
  }

  /** Step j is the last, from step k on, to write the cell that step k wrote. */
  predicate LastRival(cfg: Config, run: seq<Step>, k: nat, j: nat)
    requires Exec(cfg, run).Some? && Recording(cfg, run, k)
  {
    (j == k || Rivals(cfg, run, k, j)) && forall i :: j < i < |run| ==> !Rivals(cfg, run, k, i)
  }

  lemma {:induction false} Survives(cfg: Config, run: seq<Step>, k: nat) returns (j: nat)
    requires Exec(cfg, run).Some? && Recording(cfg, run, k)
    ensures k <= j < |run| && LastRival(cfg, run, k, j)
    ensures var s, p, l := Exec(cfg, run).value, run[k].p, Onto(cfg, run, k);
            Showing(s, p, l, Grown(l, |Before(cfg, run, k).heap|, run[k].op.extra)) &&
            |List(s, p)| == l.len + 1 && List(s, p)[l.len] == Entry(cfg, run, j)
  {
    hide Apply, Showing, Grown, Spare, Exec, Before;
    var n := |run| - 1;
    var s, a := Before(cfg, run, n), run[n];
    StepAt(cfg, run, n);
    AtEnd(cfg, run);
    if k == n {
      BeforeIs(cfg, run, n);
      FittingRun(cfg, run[..n]);
      RecordShows(cfg, s, a.p, a.op);
      j := n;
    } else {
      SameBefore(cfg, run, k);
      var i := Survives(cfg, run[..n], k);
      var l := Onto(cfg, run, k);
      BeforeIs(cfg, run, n);
      ShowingStep(cfg, s, a, run[k].p, l, Grown(l, |Before(cfg, run, k).heap|, run[k].op.extra));
      j := if Rivals(cfg, run, k, n) then n else i;
      forall q | k < q < n ensures Rivals(cfg, run, k, q) <==> Rivals(cfg, run[..n], k, q) { SameBefore(cfg, run, q); }
      SameBefore(cfg, run, i);
    }
  }

  lemma AtEnd(cfg: Config, run: seq<Step>)
    requires Exec(cfg, run).Some?
    ensures Before(cfg, run, |run|) == Exec(cfg, run).value
  {
    assert run[..|run|] == run;
  }

  lemma BeforeIs(cfg: Config, run: seq<Step>, n: nat)
    requires Exec(cfg, run).Some? && n <= |run|
    ensures Exec(cfg, run[..n]).Some? && Exec(cfg, run[..n]).value == Before(cfg, run, n)
  {
    Prefix(cfg, run, n);
  }

  lemma SameBefore(cfg: Config, run: seq<Step>, j: nat)
    requires Exec(cfg, run).Some? && j < |run| - 1
    ensures Exec(cfg, run[..|run| - 1]).Some? && Before(cfg, run, j) == Before(cfg, run[..|run| - 1], j)
    ensures Recording(cfg, run, j) <==> Recording(cfg, run[..|run| - 1], j)
    ensures Recording(cfg, run, j) ==> Onto(cfg, run, j) == Onto(cfg, run[..|run| - 1], j) &&
                                       Entry(cfg, run, j) == Entry(cfg, run[..|run| - 1], j)
  {
    hide Exec;
    Prefix(cfg, run, |run| - 1);
    Earlier(cfg, run, j);
  }

  lemma RivalIsOther(cfg: Config, run: seq<Step>, k: nat, j: nat)
    requires Exec(cfg, run).Some? && Recording(cfg, run, k) && Rivals(cfg, run, k, j)
    ensures run[j].p != run[k].p
  {
    hide Exec, Grown, Spare, List, LastRival;
    BeforeIs(cfg, run, j);
    assert run[..j][..k] == run[..k];
    assert Recording(cfg, run[..j], k);
    var _ := Survives(cfg, run[..j], k);
    StepAt(cfg, run, j);
  }

  lemma OneLastRival(cfg: Config, run: seq<Step>, k: nat, i: nat, j: nat)
    requires Exec(cfg, run).Some? && Recording(cfg, run, k)
    requires k <= i < |run| && k <= j < |run| && LastRival(cfg, run, k, i) && LastRival(cfg, run, k, j)
    ensures i == j
  {
    hide Rivals, Recording, Exec;
  }

  /** Either no rival records and step k is the last writer of its cell, or the last writer is a rival. */
  lemma LastIsOwn(cfg: Config, run: seq<Step>, k: nat, j: nat)
    requires Exec(cfg, run).Some? && Recording(cfg, run, k) && k <= j < |run| && LastRival(cfg, run, k, j)
    ensures j == k <==> forall i: nat :: !Rivals(cfg, run, k, i)
  {
    hide Onto, Exec;
    if j == k {
      forall i: nat ensures !Rivals(cfg, run, k, i) {
        if i >= |run| { assert !Recording(cfg, run, i); }
      }
    }
  }

  /** The entry that step k recorded shows last in its goroutine's list. */
  predicate Shown(cfg: Config, run: seq<Step>, k: nat, log: Log)
    requires Exec(cfg, run).Some? && Recording(cfg, run, k)
  {
    var s := Exec(cfg, run).value;
    run[k].p < |s.procs| && EndsWith(List(s, run[k].p), log)
  }

  /** What shows is the entry of the last step to write the cell. */
  lemma ShowsLast(cfg: Config, run: seq<Step>, k: nat, log: Log, last: nat)
    requires Exec(cfg, run).Some? && Recording(cfg, run, k)
    requires k <= last < |run| && LastRival(cfg, run, k, last) && Recording(cfg, run, last)
    requires Shown(cfg, run, k, log) <==> Entry(cfg, run, last) == log
    ensures Shown(cfg, run, k, log) <==>
            exists j :: k <= j < |run| && LastRival(cfg, run, k, j) && Entry(cfg, run, j) == log
  {
    hide Exec, Shown, Entry, LastRival;
    forall j | k <= j < |run| && LastRival(cfg, run, k, j) ensures j == last { OneLastRival(cfg, run, k, j, last); }
    RivalsRecord(cfg, run, k, last);
  }

  lemma RivalsRecord(cfg: Config, run: seq<Step>, k: nat, j: nat)
    requires Exec(cfg, run).Some? && Recording(cfg, run, k) && LastRival(cfg, run, k, j)
    ensures Recording(cfg, run, j)
  {
    hide Exec, Onto, Recording;
  }

  lemma LastShown(cfg: Config, run: seq<Step>, k: nat, log: Log) returns (last: nat)
    requires Exec(cfg, run).Some? && Recording(cfg, run, k)
    ensures k <= last < |run| && LastRival(cfg, run, k, last) && Recording(cfg, run, last)
    ensures Shown(cfg, run, k, log) <==> Entry(cfg, run, last) == log
  {
    hide Exec, Grown, List, Onto, Entry, LastRival, Rivals, Showing, Before;
    last := Survives(cfg, run, k);
    RivalsRecord(cfg, run, k, last);
    var s, l := Exec(cfg, run).value, Onto(cfg, run, k);
    ShowingIs(s, run[k].p, l, Grown(l, |Before(cfg, run, k).heap|, run[k].op.extra));
  }

  lemma ShowingIs(s: State, p: nat, l: Slice, m: Slice)
    requires Showing(s, p, l, m)
    ensures p < |s.procs|
  {}

  /** If the rivals record other entries, one of them being last means that the own entry does not show. */
  lemma ShowsOwn(cfg: Config, run: seq<Step>, k: nat, last: nat)
    requires Exec(cfg, run).Some? && Recording(cfg, run, k)
    requires k <= last < |run| && LastRival(cfg, run, k, last) && Recording(cfg, run, last)
    requires Shown(cfg, run, k, Entry(cfg, run, k)) <==> Entry(cfg, run, last) == Entry(cfg, run, k)
    requires forall j: nat :: Rivals(cfg, run, k, j) ==> Entry(cfg, run, j) != Entry(cfg, run, k)
    ensures Shown(cfg, run, k, Entry(cfg, run, k)) <==> forall j: nat :: !Rivals(cfg, run, k, j)
  {
    LastIsOwn(cfg, run, k, last);
    hide Exec, Entry, Shown, Rivals, Recording;
  }

  /**
   An entry survives in the list of the goroutine that recorded it exactly as long as no other goroutine, which
   inherited the same array at the same length with room in it, records after it. What shows is the last one's entry.
   */
  lemma EntrySurvives(cfg: Config, run: seq<Step>, k: nat, log: Log)
    requires Exec(cfg, run).Some? && Recording(cfg, run, k)
    ensures Shown(cfg, run, k, log) <==>
            exists j :: k <= j < |run| && LastRival(cfg, run, k, j) && Entry(cfg, run, j) == log
    ensures (forall j: nat :: Rivals(cfg, run, k, j) ==> Entry(cfg, run, j) != Entry(cfg, run, k)) ==>
              (Shown(cfg, run, k, Entry(cfg, run, k)) <==> forall j: nat :: !Rivals(cfg, run, k, j))
    ensures forall j: nat :: Rivals(cfg, run, k, j) ==> run[j].p != run[k].p
  {
    hide Exec, Entry, Shown, Rivals, LastRival, Onto;
    var last := LastShown(cfg, run, k, log);
    ShowsLast(cfg, run, k, log, last);
    if forall j: nat :: Rivals(cfg, run, k, j) ==> Entry(cfg, run, j) != Entry(cfg, run, k) {
      var own := LastShown(cfg, run, k, Entry(cfg, run, k));
      ShowsOwn(cfg, run, k, own);
    }
    forall j: nat | Rivals(cfg, run, k, j) ensures run[j].p != run[k].p { RivalIsOther(cfg, run, k, j); }
  }
}
