/** Event histories: what all deliveries of an ID share, and what serial processing guarantees about the store. */
module PipelineHistory {
  import opened Samples
  import opened Slices
  import opened Strings
  import opened Triage
  import opened Remediate
  import opened Pipeline
  import opened PipelineLists
  import opened PipelineCooldown

  // --------------------------------------------------------- stored objects

  predicate Bounded(procs: seq<Proc>, store: map<string, nat>) { forall id :: id in store ==> store[id] < |procs| }

  /** The store is keyed by ID, and a goroutine past its first Upsert has its ID stored. */
  predicate Keyed(procs: seq<Proc>, store: map<string, nat>) {
    Bounded(procs, store) &&
    (forall id :: id in store ==> procs[store[id]].event.info.id == id && !procs[store[id]].pc.Put?) &&
    (forall pr :: pr in procs && !pr.pc.Put? ==> pr.event.info.id in store)
  }

  predicate Stored(s: State) { WellFormed(s) && Keyed(s.procs, s.store) }

  lemma LeavesPut(cfg: Config, pr: Proc, op: Op, w: Sight)
    requires OpEnabled(pr.pc, op)
    ensures !NextProc(cfg, pr, op, w).pc.Put?
    ensures NextProc(cfg, pr, op, w).event.info == pr.event.info
  {
    hide Decide;
  }

  lemma KeyedUpdate(procs: seq<Proc>, store: map<string, nat>, p: nat, next: Proc, upsert: bool)
    requires Keyed(procs, store) && p < |procs| && !next.pc.Put? && next.event.info == procs[p].event.info
    requires upsert || !procs[p].pc.Put?
    ensures Keyed(procs[p := next], if upsert then store[next.event.info.id := p] else store)
  {
    assert procs[p] in procs;
    assert forall pr :: pr in procs[p := next] ==> pr in procs || pr == next;
  }

  lemma KeyedAppend(procs: seq<Proc>, store: map<string, nat>, newest: Proc)
    requires Keyed(procs, store) && newest.pc.Put?
    ensures Keyed(procs + [newest], store)
  {}

  lemma StoredStep(cfg: Config, s: State, a: Step)
    requires Stored(s) && Enabled(s, a)
    ensures Stored(Apply(cfg, s, a))
  {
    hide NextProc, NextLast, NextCalls, NextMisses, NextMarks, Keyed;
    match a
    case At(p, op) =>
      LeavesPut(cfg, s.procs[p], op, Seen(s));
      KeyedUpdate(s.procs, s.store, p, NextProc(cfg, s.procs[p], op, Seen(s)), op.StoreNew? || op.Publish?);
    case Deliver(_, _, _) =>
      hide NextProcs;
      Delivered(cfg, s, a);
      KeyedAppend(s.procs, s.store, NextProcs(cfg, s, a)[|s.procs|]);
    case Tick(_) =>
  }

  lemma {:induction false} StoredRun(cfg: Config, run: seq<Step>)
    requires Exec(cfg, run).Some?
    ensures Stored(Exec(cfg, run).value)
  {
    if run != [] {
      hide Stored, Apply;
      StoredRun(cfg, run[..|run| - 1]);
      StoredStep(cfg, Exec(cfg, run[..|run| - 1]).value, run[|run| - 1]);
    } else {
      assert Stored(INIT);
    }
  }

  // -------------------------------------------------------------- creation times

  /** The creation times of an ID's objects are exactly the times at which a delivery missed it in the store. */
  predicate Rooted(procs: seq<Proc>, misses: seq<Miss>) {
    (forall pr :: pr in procs ==> Miss(pr.event.info.id, pr.event.info.createdAt) in misses) &&
    (forall m :: m in misses ==>
       exists pr :: pr in procs && pr.event.info.id == m.id && pr.event.info.createdAt == m.time)
  }

  lemma RootedAt(procs: seq<Proc>, misses: seq<Miss>, p: nat, next: Proc)
    requires Rooted(procs, misses) && p < |procs| && next.event.info == procs[p].event.info
    ensures Rooted(procs[p := next], misses)
  {
    var procs' := procs[p := next];
    assert procs[p] in procs;
    forall m | m in misses
      ensures exists pr :: pr in procs' && pr.event.info.id == m.id && pr.event.info.createdAt == m.time
    {
      var pr :| pr in procs && pr.event.info.id == m.id && pr.event.info.createdAt == m.time;
      var i :| 0 <= i < |procs| && procs[i] == pr;
      assert procs'[i] in procs';
    }
  }

  lemma RootedAppend(procs: seq<Proc>, misses: seq<Miss>, newest: Proc, missed: bool)
    requires Rooted(procs, misses)
    requires missed || exists pr :: pr in procs && pr.event.info.id == newest.event.info.id &&
                                    pr.event.info.createdAt == newest.event.info.createdAt
    ensures var m := Miss(newest.event.info.id, newest.event.info.createdAt);
            Rooted(procs + [newest], if missed then misses + [m] else misses)
  {
    var m := Miss(newest.event.info.id, newest.event.info.createdAt);
    var procs', misses' := procs + [newest], if missed then misses + [m] else misses;
    forall pr | pr in procs' ensures Miss(pr.event.info.id, pr.event.info.createdAt) in misses' {
      if pr in procs { assert Miss(pr.event.info.id, pr.event.info.createdAt) in misses; }
    }
    forall n | n in misses'
      ensures exists pr :: pr in procs' && pr.event.info.id == n.id && pr.event.info.createdAt == n.time
    {
      if n in misses {
        var pr :| pr in procs && pr.event.info.id == n.id && pr.event.info.createdAt == n.time;
        assert pr in procs';
      } else {
        assert newest in procs';
      }
    }
  }

  lemma RootedDeliver(cfg: Config, s: State, a: Step)
    requires Stored(s) && Rooted(s.procs, s.misses) && a.Deliver? && Enabled(s, a)
    ensures Rooted(NextProcs(cfg, s, a), NextMisses(cfg, s, a))
  {
    hide NextProcs, Rooted;
    Delivered(cfg, s, a);
    var id := EventId(cfg.digest, a.payload);
    if id in s.store { assert s.procs[s.store[id]] in s.procs; }
    RootedAppend(s.procs, s.misses, NextProcs(cfg, s, a)[|s.procs|], id !in s.store);
  }

  lemma {:induction false} RootedRun(cfg: Config, run: seq<Step>)
    requires Exec(cfg, run).Some?
    ensures Rooted(Exec(cfg, run).value.procs, Exec(cfg, run).value.misses)
  {
    if run != [] {
      hide Rooted, NextProc, NextLast, NextCalls, NextMarks, NextStore, Triaged;
      var s, a := Exec(cfg, run[..|run| - 1]).value, run[|run| - 1];
      RootedRun(cfg, run[..|run| - 1]);
      StoredRun(cfg, run[..|run| - 1]);
      if a.At? {
        SameInfo(cfg, s.procs[a.p], a.op, Seen(s));
        RootedAt(s.procs, s.misses, a.p, NextProc(cfg, s.procs[a.p], a.op, Seen(s)));
      } else if a.Deliver? {
        RootedDeliver(cfg, s, a);
      }
    } else {
      assert Rooted(INIT.procs, INIT.misses);
    }
  }

  /** All objects of an ID share one creation time exactly when its store misses happened at one clock reading. */
  lemma SharedCreation(cfg: Config, run: seq<Step>, id: string)
    requires Exec(cfg, run).Some?
    ensures var s := Exec(cfg, run).value;
            (forall pr, qr :: pr in s.procs && qr in s.procs && pr.event.info.id == id && qr.event.info.id == id ==>
               pr.event.info.createdAt == qr.event.info.createdAt) <==>
            (forall m, n :: m in s.misses && n in s.misses && m.id == id && n.id == id ==> m.time == n.time)
  {
    RootedRun(cfg, run);
    var s := Exec(cfg, run).value;
    if forall m, n :: m in s.misses && n in s.misses && m.id == id && n.id == id ==> m.time == n.time {
      forall pr, qr | pr in s.procs && qr in s.procs && pr.event.info.id == id && qr.event.info.id == id
        ensures pr.event.info.createdAt == qr.event.info.createdAt
      {
        assert Miss(id, pr.event.info.createdAt) in s.misses && Miss(id, qr.event.info.createdAt) in s.misses;
      }
    } else {
      var m, n :| m in s.misses && n in s.misses && m.id == id && n.id == id && m.time != n.time;
      var pr :| pr in s.procs && pr.event.info.id == id && pr.event.info.createdAt == m.time;
      var qr :| qr in s.procs && qr.event.info.id == id && qr.event.info.createdAt == n.time;
    }
  }

  /** Triage is atomic per ID: no delivery looks an ID up while another one has yet to store it. */
  predicate AtomicStep(cfg: Config, s: State, a: Step) {
    a.Deliver? ==> forall pr :: pr in s.procs && pr.event.info.id == EventId(cfg.digest, a.payload) ==> !pr.pc.Put?
  }

  predicate AtomicTriage(cfg: Config, run: seq<Step>) {
    run == [] ||
    (AtomicTriage(cfg, run[..|run| - 1]) &&
     (Exec(cfg, run[..|run| - 1]).Some? ==> AtomicStep(cfg, Exec(cfg, run[..|run| - 1]).value, run[|run| - 1])))
  }

  predicate SingleMiss(misses: seq<Miss>) {
    forall i, j :: 0 <= i < j < |misses| ==> misses[i].id != misses[j].id
  }

  lemma SettledIsStored(procs: seq<Proc>, store: map<string, nat>, misses: seq<Miss>, id: string)
    requires Keyed(procs, store) && Rooted(procs, misses) && id !in store
    requires forall pr :: pr in procs && pr.event.info.id == id ==> !pr.pc.Put?
    ensures forall m :: m in misses ==> m.id != id
  {
    forall m | m in misses ensures m.id != id {
      var pr :| pr in procs && pr.event.info.id == m.id;
    }
  }

  lemma OneMore(misses: seq<Miss>, m: Miss)
    requires SingleMiss(misses) && forall n :: n in misses ==> n.id != m.id
    ensures SingleMiss(misses + [m])
  {}

  lemma {:induction false} AtomicMissesOnce(cfg: Config, run: seq<Step>)
    requires Exec(cfg, run).Some? && AtomicTriage(cfg, run)
    ensures SingleMiss(Exec(cfg, run).value.misses)
  {
    if run != [] {
      hide NextProcs, NextLast, NextCalls, NextMarks, NextStore, Keyed, Rooted, SingleMiss, EventId;
      var s, a := Exec(cfg, run[..|run| - 1]).value, run[|run| - 1];
      AtomicMissesOnce(cfg, run[..|run| - 1]);
      StoredRun(cfg, run[..|run| - 1]);
      RootedRun(cfg, run[..|run| - 1]);
      if a.Deliver? && EventId(cfg.digest, a.payload) !in s.store {
        SettledIsStored(s.procs, s.store, s.misses, EventId(cfg.digest, a.payload));
        OneMore(s.misses, Miss(EventId(cfg.digest, a.payload), s.clock));
      }
    }
  }

  /** With atomic triage all event objects of an ID carry the first delivery's creation time. */
  lemma AtomicSharesCreation(cfg: Config, run: seq<Step>, p: nat, q: nat)
    requires Exec(cfg, run).Some? && AtomicTriage(cfg, run)
    requires p < |Exec(cfg, run).value.procs| && q < |Exec(cfg, run).value.procs|
    requires Id(Exec(cfg, run).value, p) == Id(Exec(cfg, run).value, q)
    ensures var s := Exec(cfg, run).value;
            s.procs[p].event.info.createdAt == s.procs[q].event.info.createdAt
  {
    var s := Exec(cfg, run).value;
    AtomicMissesOnce(cfg, run);
    forall m, n | m in s.misses && n in s.misses && m.id == n.id ensures m == n {
      var i :| 0 <= i < |s.misses| && s.misses[i] == m;
      var j :| 0 <= j < |s.misses| && s.misses[j] == n;
    }
    SharedCreation(cfg, run, Id(s, p));
    assert s.procs[p] in s.procs && s.procs[q] in s.procs;
  }

  // ----------------------------------------------------------- serial refinement

  /** The list header of the stored object. */
  function Header(procs: seq<Proc>, store: map<string, nat>, id: string): Slice
    requires Bounded(procs, store)
  {
    if id in store then procs[store[id]].list else NIL
  }

  /** No array is shared between events of different IDs. */
  predicate Owned(procs: seq<Proc>) {
    forall pr, qr :: pr in procs && qr in procs && pr.list.len > 0 && qr.list.len > 0 &&
                     pr.list.base == qr.list.base ==>
      pr.event.info.id == qr.event.info.id
  }

  lemma OwnedStep(cfg: Config, s: State, a: Step)
    requires Stored(s) && Fitting(s.heap, s.procs) && Owned(s.procs) && Enabled(s, a)
    ensures Owned(Apply(cfg, s, a).procs)
  {
    hide NextProc, NextStore, NextLast, NextCalls, NextMisses, NextMarks, NextHeap, Triaged, EventId, Describes;
    if a.At? {
      var pr := s.procs[a.p];
      assert pr in s.procs;
      SameInfo(cfg, pr, a.op, Seen(s));
      NextList(cfg, pr, a.op, Seen(s));
      OwnedUpdate(s.heap, s.procs, a.p, NextProc(cfg, pr, a.op, Seen(s)));
    } else if a.Deliver? {
      hide NextProcs;
      Delivered(cfg, s, a);
      var id := EventId(cfg.digest, a.payload);
      if id in s.store { assert s.procs[s.store[id]] in s.procs; }
      OwnedAppend(s.procs, NextProcs(cfg, s, a)[|s.procs|]);
    }
  }

  lemma OwnedUpdate(heap: Heap<Log>, procs: seq<Proc>, p: nat, next: Proc)
    requires Owned(procs) && Fitting(heap, procs) && p < |procs| && next.event.info == procs[p].event.info
    requires next.list == procs[p].list || exists extra :: next.list == Grown(procs[p].list, |heap|, extra)
    ensures Owned(procs[p := next])
  {
    hide Fits;
    assert procs[p] in procs;
    assert Fits(heap, procs[p].list);
    forall pr | pr in procs ensures pr.list.len > 0 ==> pr.list.base < |heap| { FitsBelow(heap, pr.list); }
    FitsBelow(heap, procs[p].list);
    assert forall pr :: pr in procs[p := next] ==> pr in procs || pr == next;
  }

  lemma FitsBelow(heap: Heap<Log>, l: Slice)
    requires Fits(heap, l)
    ensures l.len > 0 ==> l.base < |heap|
    ensures Spare(l) ==> l.len > 0
  {}

  lemma OwnedAppend(procs: seq<Proc>, newest: Proc)
    requires Owned(procs)
    requires newest.list.len > 0 ==>
             exists pr :: pr in procs && pr.list == newest.list && pr.event.info.id == newest.event.info.id
    ensures Owned(procs + [newest])
  {}

  lemma {:induction false} OwnedRun(cfg: Config, run: seq<Step>)
    requires Exec(cfg, run).Some?
    ensures Owned(Exec(cfg, run).value.procs)
  {
    if run != [] {
      hide Stored, Owned, Fitting, Apply;
      OwnedRun(cfg, run[..|run| - 1]);
      StoredRun(cfg, run[..|run| - 1]);
      FittingRun(cfg, run[..|run| - 1]);
      OwnedStep(cfg, Exec(cfg, run[..|run| - 1]).value, run[|run| - 1]);
    }
  }

  /** The stored object of an ID is its latest one, and a delivery not yet stored has the stored object's list. */
  predicate Current(procs: seq<Proc>, store: map<string, nat>) {
    Keyed(procs, store) && Exclusive(procs) &&
    (forall p :: 0 <= p < |procs| && !procs[p].pc.Put? ==> procs[p] in procs && p <= store[procs[p].event.info.id]) &&
    (forall pr :: pr in procs && pr.pc.Put? ==> pr.list == Header(procs, store, pr.event.info.id))
  }

  /** In a serial run an unfinished goroutine past Put works on the stored object. */
  lemma WorksOnStored(procs: seq<Proc>, store: map<string, nat>, p: nat)
    requires Current(procs, store) && p < |procs| && !procs[p].pc.Put? && !procs[p].pc.Finished?
    ensures procs[p].event.info.id in store && store[procs[p].event.info.id] == p
  {
    assert procs[p] in procs;
  }

  lemma OthersFinished(procs: seq<Proc>, p: nat)
    requires Exclusive(procs) && p < |procs| && !procs[p].pc.Finished?
    ensures forall q :: 0 <= q < |procs| && q != p && procs[q].event.info.id == procs[p].event.info.id ==>
              q < p && procs[q].pc.Finished?
  {}

  lemma NextEvent(cfg: Config, pr: Proc, op: Op, w: Sight)
    requires OpEnabled(pr.pc, op)
    ensures var next := NextProc(cfg, pr, op, w);
            !next.pc.Put? && next.event.info == pr.event.info && !pr.pc.Finished?
  {
    hide Decide;
  }

  /** The goroutine that an ID's entry names has that ID; so a step of p leaves the other IDs' entries alone. */
  lemma OtherKeys(procs: seq<Proc>, store: map<string, nat>, p: nat, next: Proc, upsert: bool)
    requires Keyed(procs, store) && p < |procs| && next.event.info == procs[p].event.info
    ensures var store' := if upsert then store[next.event.info.id := p] else store;
            forall id :: id != next.event.info.id ==>
              (id in store' <==> id in store) && (id in store ==> store'[id] == store[id] && store[id] != p)
  {
    forall other | other != next.event.info.id && other in store ensures store[other] != p {
      assert procs[store[other]].event.info.id == other;
    }
  }

  /** p is the latest goroutine of its ID, and after its step the stored one. */
  lemma BecomesStored(procs: seq<Proc>, store: map<string, nat>, p: nat, next: Proc, upsert: bool)
    requires Current(procs, store) && p < |procs| && !procs[p].pc.Finished?
    requires next.event.info == procs[p].event.info && (upsert || !procs[p].pc.Put?)
    ensures var store' := if upsert then store[next.event.info.id := p] else store;
            next.event.info.id in store' && store'[next.event.info.id] == p &&
            forall q :: 0 <= q < |procs| && q != p && procs[q].event.info.id == next.event.info.id ==>
              q < p && procs[q].pc.Finished?
  {
    OthersFinished(procs, p);
    if !procs[p].pc.Put? { WorksOnStored(procs, store, p); }
  }

  /** One step of an unfinished goroutine: the store's view of its ID becomes the goroutine's own. */
  lemma CurrentUpdate(procs: seq<Proc>, store: map<string, nat>, p: nat, next: Proc, upsert: bool)
    requires Current(procs, store) && p < |procs| && !procs[p].pc.Finished? && !next.pc.Put?
    requires next.event.info == procs[p].event.info && (upsert || !procs[p].pc.Put?)
    ensures var store' := if upsert then store[next.event.info.id := p] else store;
            Current(procs[p := next], store') && next.event.info.id in store' && store'[next.event.info.id] == p
  {
    hide Exclusive;
    var store' := if upsert then store[next.event.info.id := p] else store;
    var procs' := procs[p := next];
    KeyedUpdate(procs, store, p, next, upsert);
    ExclusiveUpdate(procs, p, next);
    BecomesStored(procs, store, p, next, upsert);
    OtherKeys(procs, store, p, next, upsert);
    forall q | 0 <= q < |procs'| && !procs'[q].pc.Put?
      ensures procs'[q] in procs' && q <= store'[procs'[q].event.info.id]
    {
      if q != p { assert procs[q] in procs; }
    }
    forall pr | pr in procs' && pr.pc.Put? ensures pr.list == Header(procs', store', pr.event.info.id) {
      var q :| 0 <= q < |procs'| && procs'[q] == pr;
      assert q != p && procs[q] in procs;
      assert pr.event.info.id != next.event.info.id;
    }
  }

  /** An unfinished goroutine's list is the stored one. */
  lemma OwnHeader(procs: seq<Proc>, store: map<string, nat>, p: nat)
    requires Current(procs, store) && p < |procs| && !procs[p].pc.Finished?
    ensures procs[p].list == Header(procs, store, procs[p].event.info.id)
  {
    assert procs[p] in procs;
    if !procs[p].pc.Put? { WorksOnStored(procs, store, p); }
  }

  /** What serial runs keep, and all runs. */
  predicate Orderly(s: State) {
    WellFormed(s) && Current(s.procs, s.store) && Fitting(s.heap, s.procs) && Owned(s.procs)
  }

  /** The remediation list that a reader of the store sees. */
  function StoredHistory(s: State, id: string): seq<Log>
    requires WellFormed(s)
  {
    if id in s.store then List(s, s.store[id]) else []
  }

  lemma OtherHistory(cfg: Config, s: State, p: nat, op: Op, q: nat)
    requires Orderly(s) && Enabled(s, At(p, op)) && q < |s.procs| && Id(s, q) != Id(s, p)
    ensures List(Apply(cfg, s, At(p, op)), q) == List(s, q)
  {
    hide NextProc, NextStore, NextLast, NextCalls, NextMisses, NextMarks, Current, Contents, NextHeap;
    assert s.procs[p] in s.procs && s.procs[q] in s.procs;
    FitsBelow(s.heap, s.procs[p].list);
    OtherLists(cfg, s, At(p, op), q);
  }

  lemma CurrentNext(cfg: Config, s: State, p: nat, op: Op)
    requires Orderly(s) && Enabled(s, At(p, op))
    ensures var s' := Apply(cfg, s, At(p, op));
            var id := Id(s, p);
            Current(s'.procs, s'.store) && !s.procs[p].pc.Finished? && id in s'.store && s'.store[id] == p &&
            forall other :: other != id ==>
              (other in s'.store <==> other in s.store) &&
              (other in s.store ==> s'.store[other] == s.store[other] && Id(s, s.store[other]) != id)
  {
    hide NextProc, NextLast, NextCalls, NextMisses, NextMarks, Current, Owned, Fitting, NextHeap;
    NextEvent(cfg, s.procs[p], op, Seen(s));
    CurrentUpdate(s.procs, s.store, p, NextProc(cfg, s.procs[p], op, Seen(s)), op.StoreNew? || op.Publish?);
    assert Keyed(s.procs, s.store) by { KeyedIds(s.procs, s.store); }
    OtherKeys(s.procs, s.store, p, NextProc(cfg, s.procs[p], op, Seen(s)), op.StoreNew? || op.Publish?);
    KeyedIds(s.procs, s.store);
  }

  lemma KeyedIds(procs: seq<Proc>, store: map<string, nat>)
    requires Current(procs, store)
    ensures Keyed(procs, store) &&
            forall id :: id in store ==> store[id] < |procs| && procs[store[id]].event.info.id == id
  {}

  lemma CurrentAt(cfg: Config, s: State, p: nat, op: Op)
    requires Orderly(s) && Enabled(s, At(p, op))
    ensures var s' := Apply(cfg, s, At(p, op));
            Current(s'.procs, s'.store) &&
            StoredHistory(s', Id(s, p)) ==
              StoredHistory(s, Id(s, p)) + (if op.Record? then [s.procs[p].pc.log] else []) &&
            forall id :: id != Id(s, p) ==> StoredHistory(s', id) == StoredHistory(s, id)
  {
    hide Apply, Current, Owned, Fitting, List;
    var s' := Apply(cfg, s, At(p, op));
    CurrentNext(cfg, s, p, op);
    OwnList(cfg, s, p, op);
    OwnHeader(s.procs, s.store, p);
    ShownFrom(s, p);
    forall id | id != Id(s, p) ensures StoredHistory(s', id) == StoredHistory(s, id) {
      if id in s.store { OtherHistory(cfg, s, p, op, s.store[id]); }
    }
  }

  lemma ShownFrom(s: State, p: nat)
    requires Bounded(s.procs, s.store) && WellFormed(s) && p < |s.procs|
    requires s.procs[p].list == Header(s.procs, s.store, Id(s, p))
    ensures List(s, p) == StoredHistory(s, Id(s, p))
  {}

  lemma CurrentAppend(procs: seq<Proc>, store: map<string, nat>, newest: Proc)
    requires Current(procs, store) && newest.pc.Put?
    requires forall pr :: pr in procs && pr.event.info.id == newest.event.info.id ==> pr.pc.Finished?
    requires newest.list == Header(procs, store, newest.event.info.id)
    ensures Current(procs + [newest], store)
  {
    KeyedAppend(procs, store, newest);
    ExclusiveAppend(procs, newest);
    var more := procs + [newest];
    forall q | 0 <= q < |more| && !more[q].pc.Put? ensures more[q] in more && q <= store[more[q].event.info.id] {
      assert procs[q] in procs;
    }
  }

  lemma CurrentDeliver(cfg: Config, s: State, a: Step)
    requires WellFormed(s) && Current(s.procs, s.store) && !a.At? && Enabled(s, a) && SerialStep(cfg, s, a)
    ensures var s' := Apply(cfg, s, a);
            Current(s'.procs, s'.store) && forall id :: StoredHistory(s', id) == StoredHistory(s, id)
  {
    hide NextLast, NextCalls, NextMisses, NextMarks, NextProcs, Keyed, Exclusive, Describes;
    if a.Deliver? {
      Delivered(cfg, s, a);
      CurrentAppend(s.procs, s.store, NextProcs(cfg, s, a)[|s.procs|]);
    } else {
      SameProcs(cfg, s, a);
    }
  }

  lemma {:induction false} OrderlyRun(cfg: Config, run: seq<Step>)
    requires Exec(cfg, run).Some? && Serial(cfg, run)
    ensures Orderly(Exec(cfg, run).value)
  {
    hide Current, Apply, SerialStep, Fitting, Owned;
    FittingRun(cfg, run);
    OwnedRun(cfg, run);
    if run != [] {
      var s, a := Exec(cfg, run[..|run| - 1]).value, run[|run| - 1];
      OrderlyRun(cfg, run[..|run| - 1]);
      if a.At? { CurrentAt(cfg, s, a.p, a.op); } else { CurrentDeliver(cfg, s, a); }
    } else {
      NothingCurrent();
    }
  }

  lemma NothingCurrent()
    ensures Current(INIT.procs, INIT.store)
  {}

  /**
   The log entries that the goroutines of an ID have recorded, in order: the history a sequential system would keep.
   */
  function Recorded(cfg: Config, run: seq<Step>, id: string): seq<Log>
    requires Exec(cfg, run).Some?
  {
    if run == [] then []
    else
      var s, a := Exec(cfg, run[..|run| - 1]).value, run[|run| - 1];
      Recorded(cfg, run[..|run| - 1], id) +
      if a.At? && a.op.Record? && Id(s, a.p) == id then [s.procs[a.p].pc.log] else []
  }

  lemma OrderlyIs(s: State)
    requires Orderly(s)
    ensures WellFormed(s) && Current(s.procs, s.store)
  {}

  /** Refinement: in serial runs the store shows exactly the entries recorded so far. */
  lemma {:induction false} SerialHistory(cfg: Config, run: seq<Step>, id: string)
    requires Exec(cfg, run).Some? && Serial(cfg, run)
    ensures StoredHistory(Exec(cfg, run).value, id) == Recorded(cfg, run, id)
  {
    if run != [] {
      hide Orderly, Current, Apply, SerialStep, StoredHistory;
      var s, a := Exec(cfg, run[..|run| - 1]).value, run[|run| - 1];
      SerialHistory(cfg, run[..|run| - 1], id);
      OrderlyRun(cfg, run[..|run| - 1]);
      assert Current(s.procs, s.store) by { OrderlyIs(s); }
      if a.At? { CurrentAt(cfg, s, a.p, a.op); } else { CurrentDeliver(cfg, s, a); }
    } else {
      assert StoredHistory(INIT, id) == [];
    }
  }

  lemma {:induction false} RecordedGrows(cfg: Config, run: seq<Step>, n: nat, id: string)
    requires Exec(cfg, run).Some? && n <= |run|
    ensures Exec(cfg, run[..n]).Some? && Recorded(cfg, run[..n], id) <= Recorded(cfg, run, id)
    ensures Serial(cfg, run) ==> Serial(cfg, run[..n])
  {
    if n == |run| {
      assert run[..n] == run;
    } else {
      assert run[..|run| - 1][..n] == run[..n];
      RecordedGrows(cfg, run[..|run| - 1], n, id);
    }
  }

  /** So a stored history is only ever extended... */
  lemma HistoryGrows(cfg: Config, run: seq<Step>, n: nat, id: string)
    requires Exec(cfg, run).Some? && Serial(cfg, run) && n <= |run|
    ensures Exec(cfg, run[..n]).Some? &&
            StoredHistory(Exec(cfg, run[..n]).value, id) <= StoredHistory(Exec(cfg, run).value, id)
  {
    RecordedGrows(cfg, run, n, id);
    SerialHistory(cfg, run, id);
    SerialHistory(cfg, run[..n], id);
  }

  /** A goroutine ends with the outcome it recorded, and only resolved deliveries end without one. */
  predicate Outcome(pr: Proc) {
    match pr.pc
    case Finished(log) => log.None? <==> Resolved(pr.event)
    case Put => true
    case Start => true
    case _ => !Resolved(pr.event)
  }

  lemma OutcomeStep(cfg: Config, pr: Proc, op: Op, w: Sight)
    requires Outcome(pr) && OpEnabled(pr.pc, op)
    ensures Outcome(NextProc(cfg, pr, op, w))
  {
    hide Decide, LogOf;
  }

  lemma {:induction false} Outcomes(cfg: Config, run: seq<Step>, p: nat)
    requires Exec(cfg, run).Some? && p < |Exec(cfg, run).value.procs|
    ensures Outcome(Exec(cfg, run).value.procs[p])
  {
    if run != [] {
      hide NextProc, NextLast, NextCalls, NextMisses, NextMarks, NextStore, Outcome, Triaged;
      var s, a := Exec(cfg, run[..|run| - 1]).value, run[|run| - 1];
      if p < |s.procs| { Outcomes(cfg, run[..|run| - 1], p); }
      if a.At? && a.p == p { OutcomeStep(cfg, s.procs[p], a.op, Seen(s)); }
      if a.Deliver? {
        Delivered(cfg, s, a);
        PutOutcome(NextProcs(cfg, s, a)[|s.procs|]);
      }
    }
  }

  lemma PutOutcome(pr: Proc)
    requires pr.pc.Put?
    ensures Outcome(pr)
  {}

  /** ...and in a quiet serial run the stored status is that of the last delivery. */
  lemma StatusIsLast(cfg: Config, run: seq<Step>, p: nat)
    requires Exec(cfg, run).Some? && Serial(cfg, run)
    requires var s := Exec(cfg, run).value;
             p < |s.procs| && !s.procs[p].pc.Put? &&
             forall q :: p < q < |s.procs| ==> Id(s, q) != Id(s, p)
    ensures var s := Exec(cfg, run).value;
            Id(s, p) in s.store && s.store[Id(s, p)] == p
  {
    OrderlyRun(cfg, run);
    var s := Exec(cfg, run).value;
    assert s.procs[p] in s.procs;
    assert Id(s, s.store[Id(s, p)]) == Id(s, p);
  }

  // ------------------------------------------------------- without serial runs

  function Firing(status: string): Payload { Payload(status, "g", [Alert(map[], map[], "t")]) }

  lemma OneStep(cfg: Config, run: seq<Step>, s: State, a: Step, t: State)
    requires Exec(cfg, run) == Some(s) && Enabled(s, a) && Apply(cfg, s, a) == t
    ensures Exec(cfg, run + [a]) == Some(t)
    ensures Serial(cfg, run + [a]) <==> Serial(cfg, run) && SerialStep(cfg, s, a)
  {
    assert (run + [a])[..|run|] == run;
  }

  function Payloads(status: string): Step { Deliver(Firing(status), Fin(0.0), Fin(0.0)) }

  lemma FiringFacts(digest: Digest, status: string, existing: Option<EventData>)
    ensures var e := Triaged(digest, Firing(status), Fin(0.0), Fin(0.0), 0, existing);
            e.info.id == EventId(digest, Firing("")) && e.info.status == status && (existing.None? ==> e.llm == None)
    ensures EventId(digest, Firing(status)) == EventId(digest, Firing("")) && Firing(status).alerts != []
  {}

  function TwoEvents(e: EventData, pc: Pc, rest: seq<Proc>, store: map<string, nat>): State {
    State([Proc(e, NIL, pc)] + rest, [], store, map[], 0, [], [], [Miss(e.info.id, 0)])
  }

  lemma LateSteps(cfg: Config, e: EventData, rest: seq<Proc>, store: map<string, nat>)
    requires e.info.id == EventId(cfg.digest, Firing(""))
    ensures var s := TwoEvents(e, Put, rest, store);
            WellFormed(s) ==>
              (Enabled(s, At(0, StoreNew)) &&
               Apply(cfg, s, At(0, StoreNew)) == TwoEvents(e, Start, rest, store[e.info.id := 0]))
    ensures var s := TwoEvents(e, Start, rest, store);
            WellFormed(s) && cfg.hasLlm && e.llm == None && !Resolved(e) ==>
              (Enabled(s, At(0, Begin(None))) &&
               Apply(cfg, s, At(0, Begin(None))) == TwoEvents(e, PublishAnswer, rest, store))
    ensures var s := TwoEvents(e, PublishAnswer, rest, store);
            WellFormed(s) ==>
              (Enabled(s, At(0, Publish)) &&
               Apply(cfg, s, At(0, Publish)) == TwoEvents(e, Judge, rest, store[e.info.id := 0]))
  {
    hide Decide, Firing, EventId;
    var pr := Proc(e, NIL, Put);
    assert ([pr] + rest)[0 := Proc(e, NIL, Start)] == [Proc(e, NIL, Start)] + rest;
    assert ([Proc(e, NIL, Start)] + rest)[0 := Proc(e, NIL, PublishAnswer)] == [Proc(e, NIL, PublishAnswer)] + rest;
    assert ([Proc(e, NIL, PublishAnswer)] + rest)[0 := Proc(e, NIL, Judge)] == [Proc(e, NIL, Judge)] + rest;
  }

  lemma Arrival(cfg: Config, e: EventData)
    requires e == Triaged(cfg.digest, Firing("firing"), Fin(0.0), Fin(0.0), 0, None)
    ensures e.info.id == EventId(cfg.digest, Firing("")) && e.llm == None && !Resolved(e)
    ensures Enabled(INIT, Payloads("firing")) && Apply(cfg, INIT, Payloads("firing")) == TwoEvents(e, Put, [], map[])
  {
    FiringFacts(cfg.digest, "firing", None);
    hide Triaged, EventId;
  }

  lemma FirstDelivery(cfg: Config) returns (run: seq<Step>, e: EventData)
    requires cfg.hasLlm
    ensures e == Triaged(cfg.digest, Firing("firing"), Fin(0.0), Fin(0.0), 0, None)
    ensures Exec(cfg, run) == Some(TwoEvents(e, PublishAnswer, [], map[e.info.id := 0]))
  {
    e := Triaged(cfg.digest, Firing("firing"), Fin(0.0), Fin(0.0), 0, None);
    Arrival(cfg, e);
    hide Triaged, Firing, Payloads, Decide, EventId, Serial, SerialStep, Apply, Enabled, Resolved;
    LateSteps(cfg, e, [], map[]);
    LateSteps(cfg, e, [], map[e.info.id := 0]);
    OneStep(cfg, [], INIT, Payloads("firing"), TwoEvents(e, Put, [], map[]));
    run := [] + [Payloads("firing")];
    OneStep(cfg, run, TwoEvents(e, Put, [], map[]), At(0, StoreNew), TwoEvents(e, Start, [], map[e.info.id := 0]));
    run := run + [At(0, StoreNew)];
    OneStep(cfg, run, TwoEvents(e, Start, [], map[e.info.id := 0]), At(0, Begin(None)),
            TwoEvents(e, PublishAnswer, [], map[e.info.id := 0]));
    run := run + [At(0, Begin(None))];
  }

  lemma SecondSteps(cfg: Config, e: EventData, f: EventData)
    requires e.info.id == EventId(cfg.digest, Firing("")) &&
             f == Triaged(cfg.digest, Firing("resolved"), Fin(0.0), Fin(0.0), 0, Some(e))
    ensures var s := TwoEvents(e, PublishAnswer, [], map[e.info.id := 0]);
            Enabled(s, Payloads("resolved")) && !SerialStep(cfg, s, Payloads("resolved")) &&
            Apply(cfg, s, Payloads("resolved")) == TwoEvents(e, PublishAnswer, [Proc(f, NIL, Put)], map[e.info.id := 0])
  {
    FiringFacts(cfg.digest, "resolved", Some(e));
    hide Triaged, Firing, Decide, EventId;
    var s := TwoEvents(e, PublishAnswer, [], map[e.info.id := 0]);
    assert s.procs[0] in s.procs;
  }

  lemma SecondStored(cfg: Config, e: EventData, f: EventData)
    requires f.info.id == e.info.id
    ensures var s := TwoEvents(e, PublishAnswer, [Proc(f, NIL, Put)], map[e.info.id := 0]);
            Enabled(s, At(1, StoreNew)) &&
            Apply(cfg, s, At(1, StoreNew)) == TwoEvents(e, PublishAnswer, [Proc(f, NIL, Start)], map[e.info.id := 1])
  {
    hide Triaged, Decide, EventId;
  }

  lemma ThreeSteps(cfg: Config, run: seq<Step>, s: State, a: Step, t: State, b: Step, u: State, c: Step, v: State)
    requires Exec(cfg, run) == Some(s) && Enabled(s, a) && !SerialStep(cfg, s, a) && Apply(cfg, s, a) == t
    requires Enabled(t, b) && Apply(cfg, t, b) == u && Enabled(u, c) && Apply(cfg, u, c) == v
    ensures Exec(cfg, run + [a] + [b] + [c]) == Some(v) && !Serial(cfg, run + [a] + [b] + [c])
  {
    hide Enabled, Apply, SerialStep, Serial, Exec;
    OneStep(cfg, run, s, a, t);
    OneStep(cfg, run + [a], t, b, u);
    OneStep(cfg, run + [a] + [b], u, c, v);
  }

  lemma SecondDelivery(cfg: Config, before: seq<Step>, e: EventData) returns (run: seq<Step>, f: EventData)
    requires e.info.id == EventId(cfg.digest, Firing(""))
    requires Exec(cfg, before) == Some(TwoEvents(e, PublishAnswer, [], map[e.info.id := 0]))
    ensures f == Triaged(cfg.digest, Firing("resolved"), Fin(0.0), Fin(0.0), 0, Some(e)) && !Serial(cfg, run)
    ensures Exec(cfg, run) == Some(TwoEvents(e, Judge, [Proc(f, NIL, Start)], map[e.info.id := 0]))
  {
    FiringFacts(cfg.digest, "resolved", Some(e));
    hide Triaged, Firing, Decide, EventId, Serial, SerialStep, Enabled, Exec, NextProcs, NextStore, NextMisses,
      Apply, Payloads;
    f := Triaged(cfg.digest, Firing("resolved"), Fin(0.0), Fin(0.0), 0, Some(e));
    SecondSteps(cfg, e, f);
    SecondStored(cfg, e, f);
    LateSteps(cfg, e, [Proc(f, NIL, Start)], map[e.info.id := 1]);
    assert map[e.info.id := 1][e.info.id := 0] == map[e.info.id := 0];
    ThreeSteps(cfg, before, TwoEvents(e, PublishAnswer, [], map[e.info.id := 0]), Payloads("resolved"),
               TwoEvents(e, PublishAnswer, [Proc(f, NIL, Put)], map[e.info.id := 0]), At(1, StoreNew),
               TwoEvents(e, PublishAnswer, [Proc(f, NIL, Start)], map[e.info.id := 1]), At(0, Publish),
               TwoEvents(e, Judge, [Proc(f, NIL, Start)], map[e.info.id := 0]));
    run := before + [Payloads("resolved")] + [At(1, StoreNew)] + [At(0, Publish)];
  }

  /** A firing goroutine that is still inferring overwrites the resolved event that arrived meanwhile. */
  lemma LateUpsertOverwrites(cfg: Config) returns (run: seq<Step>)
    requires cfg.hasLlm
    ensures Exec(cfg, run).Some? && !Serial(cfg, run)
    ensures var s := Exec(cfg, run).value;
            |s.procs| == 2 && Id(s, 0) == Id(s, 1) &&
            s.procs[0].event.info.status == "firing" && s.procs[1].event.info.status == "resolved" &&
            Id(s, 1) in s.store && s.store[Id(s, 1)] == 0
  {
    var first, e := FirstDelivery(cfg);
    FiringFacts(cfg.digest, "firing", None);
    var f;
    run, f := SecondDelivery(cfg, first, e);
    FiringFacts(cfg.digest, "resolved", Some(e));
  }

  // ------------------------------------------------------ rollbacks do happen

  /** One goroutine at clock 0. */
  function Solo(pr: Proc, store: map<string, nat>, last: map<string, int>, marks: seq<Marked>,
                calls: seq<Performed>): State {
    State([pr], [], store, last, 0, marks, calls, [Miss(pr.event.info.id, 0)])
  }

  function After(cfg: Config, pr: Proc, store: map<string, nat>, last: map<string, int>, marks: seq<Marked>,
                 calls: seq<Performed>, op: Op): State
    requires OpEnabled(pr.pc, op) && !op.Record?
  {
    var id := pr.event.info.id;
    Solo(NextProc(cfg, pr, op, Sight(last, 0, |marks|, 0)),
         if op.StoreNew? || op.Publish? then store[id := 0] else store,
         if op.Mark? then last[Key(id, pr.pc.rule.id) := 0] else last,
         if op.Mark? then marks + [Marked(0, id, pr.pc.rule, 0, pr.pc.seen)] else marks,
         if op.Perform? then calls + [Performed(0, pr.pc.rule, CallOf(pr.pc.rule))] else calls)
  }

  lemma SoloStep(cfg: Config, pr: Proc, store: map<string, nat>, last: map<string, int>, marks: seq<Marked>,
                 calls: seq<Performed>, op: Op)
    requires OpEnabled(pr.pc, op) && !op.Record? && Bounded([pr], store)
    ensures var s := Solo(pr, store, last, marks, calls);
            Enabled(s, At(0, op)) && Apply(cfg, s, At(0, op)) == After(cfg, pr, store, last, marks, calls, op)
  {
    hide Decide, CallOf, Key;
    SameInfo(cfg, pr, op, Sight(last, 0, |marks|, 0));
  }

  lemma Onward(cfg: Config, run: seq<Step>, pr: Proc, store: map<string, nat>, last: map<string, int>,
               marks: seq<Marked>, calls: seq<Performed>, op: Op)
    requires Exec(cfg, run) == Some(Solo(pr, store, last, marks, calls))
    requires OpEnabled(pr.pc, op) && !op.Record? && Bounded([pr], store)
    ensures Exec(cfg, run + [At(0, op)]) == Some(After(cfg, pr, store, last, marks, calls, op))
  {
    hide Apply, Enabled, Exec, NextProc, CallOf, Key;
    SoloStep(cfg, pr, store, last, marks, calls, op);
    OneStep(cfg, run, Solo(pr, store, last, marks, calls), At(0, op), After(cfg, pr, store, last, marks, calls, op));
  }

  const PAGE := Payload("firing", "g", [Alert(map["alertname" := "OrdersvcHighErrorRatePage"], map[], "t")])

  lemma PageArrives(cfg: Config) returns (e: EventData)
    ensures !Resolved(e) && e.info.alertName == "OrdersvcHighErrorRatePage" && e.info.burn5m == Fin(50.0) &&
            !e.info.isChaos
    ensures Enabled(INIT, Deliver(PAGE, Fin(50.0), Fin(50.0))) &&
            Apply(cfg, INIT, Deliver(PAGE, Fin(50.0), Fin(50.0))) == Solo(Proc(e, NIL, Put), map[], map[], [], [])
  {
    e := Triaged(cfg.digest, PAGE, Fin(50.0), Fin(50.0), 0, None);
    hide Classify, BudgetImpact, EventId;
  }

  lemma RollbackVerdict(cfg: Config, e: EventData)
    requires cfg.table == RULES && !cfg.dryRun && Confirmed(e.llm)
    requires e.info.alertName == "OrdersvcHighErrorRatePage" && e.info.burn5m == Fin(50.0) && !e.info.isChaos
    ensures Decide(cfg.table, cfg.dryRun, e, map[], 0) == Go(RULES[0]) && CallOf(RULES[0]) == AbortRollout
  {
    hide Match;
    ShippedPageBands(Fin(50.0));
  }

  lemma Empty(cfg: Config)
    ensures Exec(cfg, []) == Some(INIT)
  {}

  lemma PageInferred(cfg: Config, answer: Option<Llm>) returns (run: seq<Step>, f: EventData)
    requires cfg.hasLlm
    ensures f.info.alertName == "OrdersvcHighErrorRatePage" && f.info.burn5m == Fin(50.0) && !f.info.isChaos &&
            f.llm == answer
    ensures Exec(cfg, run) == Some(Solo(Proc(f, NIL, Judge), map[f.info.id := 0], map[], [], []))
  {
    var e := PageArrives(cfg);
    f := e.(llm := answer);
    hide Apply, Enabled, Exec, Decide, Serial, SerialStep, CallOf, LogOf, Key, EventId;
    var stored := map[e.info.id := 0];
    Empty(cfg);
    run := [] + [Deliver(PAGE, Fin(50.0), Fin(50.0))];
    OneStep(cfg, [], INIT, Deliver(PAGE, Fin(50.0), Fin(50.0)), Solo(Proc(e, NIL, Put), map[], map[], [], []));
    Onward(cfg, run, Proc(e, NIL, Put), map[], map[], [], [], StoreNew);
    run := run + [At(0, StoreNew)];
    Onward(cfg, run, Proc(e, NIL, Start), stored, map[], [], [], Begin(answer));
    run := run + [At(0, Begin(answer))];
    Onward(cfg, run, Proc(f, NIL, PublishAnswer), stored, map[], [], [], Publish);
    run := run + [At(0, Publish)];
    assert stored[e.info.id := 0] == stored;
  }

  lemma JudgedActs(cfg: Config, before: seq<Step>, f: EventData, rule: RepairRule, reply: Reply)
    returns (run: seq<Step>)
    requires Exec(cfg, before) == Some(Solo(Proc(f, NIL, Judge), map[f.info.id := 0], map[], [], []))
    requires Decide(cfg.table, cfg.dryRun, f, map[], 0) == Go(rule)
    ensures Exec(cfg, run).Some? && Exec(cfg, run).value.calls == [Performed(0, rule, CallOf(rule))]
  {
    hide Apply, Enabled, Exec, Decide, Serial, SerialStep, CallOf, LogOf, Key;
    var id := f.info.id;
    var stored, marked := map[id := 0], map[Key(id, rule.id) := 0];
    Onward(cfg, before, Proc(f, NIL, Judge), stored, map[], [], [], Check);
    run := before + [At(0, Check)];
    Onward(cfg, run, Proc(f, NIL, MarkNext(rule, 0, 0)), stored, map[], [], [], Mark);
    run := run + [At(0, Mark)];
    var marks := [] + [Marked(0, id, rule, 0, 0)];
    Onward(cfg, run, Proc(f, NIL, Act(rule)), stored, marked, marks, [], Perform(reply));
    run := run + [At(0, Perform(reply))];
  }

  /** The guards do not rule everything out: a confirmed page at burn 50 leads to a rollback. */
  lemma RollbackHappens(cfg: Config) returns (run: seq<Step>)
    requires cfg.table == RULES && !cfg.dryRun && cfg.hasLlm
    ensures Exec(cfg, run).Some? && exists c :: c in Exec(cfg, run).value.calls && c.call == AbortRollout
  {
    var before, f := PageInferred(cfg, Some(Llm(true, 0.7)));
    RollbackVerdict(cfg, f);
    hide Exec, Decide, CallOf;
    run := JudgedActs(cfg, before, f, RULES[0], Reply.Done("aborted"));
    assert Exec(cfg, run).value.calls[0].call == AbortRollout;
  }
}
