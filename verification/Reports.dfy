/** The grouping accumulators of the cost and toil scripts: what goes into the groups is what comes out of the total. */
module Reports {
  import opened Strings

  /** The sum of all values of a map. */
  ghost function MapSum(m: map<string, int>): int
    decreases |m|
  {
    if m == map[] then 0
    else
      var k :| k in m;
      m[k] + MapSum(m - {k})
  }

  function At(m: map<string, int>, k: string): int { if k in m then m[k] else 0 }

  function AddTo(m: map<string, int>, k: string, x: int): map<string, int> { m[k := At(m, k) + x] }

  /** Any key may be taken out first. */
  lemma {:induction false} MapSumWithout(m: map<string, int>, k: string)
    requires k in m
    ensures MapSum(m) == m[k] + MapSum(m - {k})
    decreases |m|
  {
    var first :| first in m && MapSum(m) == m[first] + MapSum(m - {first});
    if first != k {
      MapSumWithout(m - {first}, k);
      MapSumWithout(m - {k}, first);
      assert m - {first} - {k} == m - {k} - {first};
    }
  }

  lemma AddToSum(m: map<string, int>, k: string, x: int)
    ensures MapSum(AddTo(m, k, x)) == MapSum(m) + x
  {
    var n := AddTo(m, k, x);
    MapSumWithout(n, k);
    if k in m {
      MapSumWithout(m, k);
      assert n - {k} == m - {k};
    } else {
      assert n - {k} == m;
    }
  }

  // ------------------------------------------------------------- bucket sizes

  datatype Object = Object(key: string, size: int)

  /** What listing the next page of a bucket returns. */
  datatype Reply = Failed | Page(objects: seq<Object>, truncated: bool)

  function Prefix(key: string): (p: string)
    ensures p == "(root)" <==> '/' !in key
  {
    if '/' in key then UpToSlash(key) else "(root)"
  }

  /** Through the first slash. */
  function UpToSlash(key: string): (p: string)
    requires '/' in key
    ensures p <= key && p != [] && p[|p| - 1] == '/' && '/' !in p[..|p| - 1]
  {
    if key[0] == '/' then "/"
    else
      var rest := UpToSlash(key[1..]);
      assert ([key[0]] + rest)[..|rest|] == [key[0]] + rest[..|rest| - 1];
      [key[0]] + rest
  }

  function SizeOf(objects: seq<Object>): int {
    if objects == [] then 0 else SizeOf(objects[..|objects| - 1]) + objects[|objects| - 1].size
  }

  function SizeUnder(objects: seq<Object>, p: string): int {
    if objects == [] then 0
    else
      var last := objects[|objects| - 1];
      SizeUnder(objects[..|objects| - 1], p) + if Prefix(last.key) == p then last.size else 0
  }

  /** What the pages list up to and including the last one; None if a listing fails before it. */
  function Listed(replies: seq<Reply>): Option<seq<Object>>
    requires Finite(replies)
  {
    if replies[0].Failed? then None
    else if !replies[0].truncated then Some(replies[0].objects)
    else
      var rest := Listed(replies[1..]);
      if rest.None? then None else Some(replies[0].objects + rest.value)
  }

  /** The listing comes to an end: some page is the last, or a call fails. */
  predicate Finite(replies: seq<Reply>) { replies != [] && (Last(replies[0]) || Finite(replies[1..])) }

  predicate Last(r: Reply) { r.Failed? || !r.truncated }

  /** The total, and for each prefix seen, the size of what lies under it. */
  ghost predicate Accounts(objects: seq<Object>, total: int, sizes: map<string, int>) {
    total == SizeOf(objects) && MapSum(sizes) == total &&
    (forall p :: At(sizes, p) == SizeUnder(objects, p)) &&
    forall p :: p in sizes <==> exists o :: o in objects && Prefix(o.key) == p
  }

  lemma PrefixesGrow(objects: seq<Object>, o: Object, sizes: map<string, int>, p: string)
    requires forall q :: q in sizes <==> exists x :: x in objects && Prefix(x.key) == q
    ensures p in AddTo(sizes, Prefix(o.key), o.size) <==> exists x :: x in objects + [o] && Prefix(x.key) == p
  {
    hide Prefix;
    var all := objects + [o];
    if p == Prefix(o.key) {
      assert all[|objects|] == o;
    } else if p in sizes {
      var x :| x in objects && Prefix(x.key) == p;
      assert x in all;
    }
  }

  lemma AccountsGrow(objects: seq<Object>, o: Object, total: int, sizes: map<string, int>)
    requires Accounts(objects, total, sizes)
    ensures Accounts(objects + [o], total + o.size, AddTo(sizes, Prefix(o.key), o.size))
  {
    hide MapSum, Prefix;
    AddToSum(sizes, Prefix(o.key), o.size);
    assert (objects + [o])[..|objects|] == objects;
    var grown := AddTo(sizes, Prefix(o.key), o.size);
    forall p ensures p in grown <==> exists x :: x in objects + [o] && Prefix(x.key) == p {
      PrefixesGrow(objects, o, sizes, p);
    }
    assert SizeOf(objects + [o]) == SizeOf(objects) + o.size;
    forall p ensures At(grown, p) == SizeUnder(objects + [o], p) {
      assert At(sizes, p) == SizeUnder(objects, p);
    }
  }

  lemma NothingYet()
    ensures MapSum(map[]) == 0 && Accounts([], 0, map[])
  {}

  method AddPage(objects: seq<Object>, ghost seen: seq<Object>, total0: int, sizes0: map<string, int>)
      returns (total: int, sizes: map<string, int>)
    requires Accounts(seen, total0, sizes0)
    ensures Accounts(seen + objects, total, sizes)
  {
    hide MapSum, Prefix, Accounts, AddTo;
    total, sizes := total0, sizes0;
    assert seen + objects[..0] == seen;
    for i := 0 to |objects|
      invariant Accounts(seen + objects[..i], total, sizes)
    {
      AccountsGrow(seen + objects[..i], objects[i], total, sizes);
      assert seen + objects[..i] + [objects[i]] == seen + objects[..i + 1];
      total := total + objects[i].size;
      sizes := AddTo(sizes, Prefix(objects[i].key), objects[i].size);
    }
    assert objects[..|objects|] == objects;
  }

  /** Sums the pages of a bucket; any failure makes it 0 with no groups. */
  method BucketSize(replies: seq<Reply>) returns (total: int, sizes: map<string, int>)
    requires Finite(replies)
    ensures Listed(replies).None? ==> total == 0 && sizes == map[]
    ensures Listed(replies).Some? ==> Accounts(Listed(replies).value, total, sizes)
  {
    hide MapSum, Prefix, Accounts;
    total, sizes := 0, map[];
    NothingYet();
    ghost var seen: seq<Object> := [];
    assert replies[0..] == replies;
    assert Listed(replies).Some? ==> seen + Listed(replies).value == Listed(replies).value;
    var k := 0;
    while true
      invariant 0 <= k < |replies| && Finite(replies[k..])
      invariant Accounts(seen, total, sizes)
      invariant var rest := Listed(replies[k..]);
                Listed(replies) == if rest.None? then None else Some(seen + rest.value)
      decreases |replies| - k
    {
      if replies[k].Failed? { return 0, map[]; }
      var objects := replies[k].objects;
      total, sizes := AddPage(objects, seen, total, sizes);
      ghost var before := seen;
      seen := seen + objects;
      if !replies[k].truncated { break; }
      assert replies[k..][1..] == replies[k + 1..];
      ghost var rest := Listed(replies[k + 1..]);
      assert rest.Some? ==> before + (objects + rest.value) == before + objects + rest.value;
      k := k + 1;
    }
  }

  // -------------------------------------------------------------- toil report

  /** A logged toil event of the month; the duration was an integer in the CSV. */
  datatype Row = Row(task: string, minutes: int, automatable: bool)

  function Minutes(rows: seq<Row>): int {
    if rows == [] then 0 else Minutes(rows[..|rows| - 1]) + rows[|rows| - 1].minutes
  }

  /** The rows of one task. */
  function Of(rows: seq<Row>, task: string): seq<Row> {
    if rows == [] then []
    else Of(rows[..|rows| - 1], task) + if rows[|rows| - 1].task == task then [rows[|rows| - 1]] else []
  }

  function Automatable(rows: seq<Row>): seq<Row> {
    if rows == [] then []
    else Automatable(rows[..|rows| - 1]) + if rows[|rows| - 1].automatable then [rows[|rows| - 1]] else []
  }

  function Saved(r: Row): int { if r.automatable then r.minutes else 0 }

  /**
   Each task has its own rows' minutes, those that could be automated among them, and the sums are the report's
   totals.
   */
  ghost predicate Grouped(rows: seq<Row>, total: map<string, int>, auto: map<string, int>) {
    (forall t :: At(total, t) == Minutes(Of(rows, t)) && At(auto, t) == Minutes(Automatable(Of(rows, t)))) &&
    (forall t :: t in total <==> exists r :: r in rows && r.task == t) && total.Keys == auto.Keys &&
    MapSum(total) == Minutes(rows) && MapSum(auto) == Minutes(Automatable(rows)) &&
    ((forall r :: r in rows ==> r.minutes >= 0) ==> forall t :: t in total ==> 0 <= auto[t] <= total[t])
  }

  lemma TasksGrow(rows: seq<Row>, r: Row, total: map<string, int>, t: string)
    requires forall u :: u in total <==> exists x :: x in rows && x.task == u
    ensures t in AddTo(total, r.task, r.minutes) <==> exists x :: x in rows + [r] && x.task == t
  {
    var all := rows + [r];
    if t == r.task {
      assert all[|rows|] == r;
    } else if t in total {
      var x :| x in rows && x.task == t;
      assert x in all;
    }
  }

  lemma MinutesGrow(rows: seq<Row>, r: Row)
    ensures Minutes(rows + [r]) == Minutes(rows) + r.minutes
    ensures Minutes(Automatable(rows + [r])) == Minutes(Automatable(rows)) + Saved(r)
  {
    var all, a := rows + [r], Automatable(rows);
    assert all[..|rows|] == rows && all[|rows|] == r;
    assert (a + [r])[..|a|] == a && a + [] == a;
  }

  lemma OwnMinutesGrow(rows: seq<Row>, r: Row, total: map<string, int>, auto: map<string, int>, t: string)
    requires At(total, t) == Minutes(Of(rows, t)) && At(auto, t) == Minutes(Automatable(Of(rows, t)))
    ensures At(AddTo(total, r.task, r.minutes), t) == Minutes(Of(rows + [r], t))
    ensures At(AddTo(auto, r.task, Saved(r)), t) == Minutes(Automatable(Of(rows + [r], t)))
  {
    hide Minutes, Automatable;
    assert (rows + [r])[..|rows|] == rows;
    if r.task == t { MinutesGrow(Of(rows, t), r); }
    else { assert Of(rows, t) + [] == Of(rows, t); }
  }

  lemma BoundsGrow(rows: seq<Row>, r: Row, total: map<string, int>, auto: map<string, int>, t: string)
    requires total.Keys == auto.Keys && r in rows && forall x :: x in rows ==> x.minutes >= 0
    requires forall u :: u in total ==> 0 <= auto[u] <= total[u]
    requires t in AddTo(total, r.task, r.minutes)
    ensures 0 <= AddTo(auto, r.task, Saved(r))[t] <= AddTo(total, r.task, r.minutes)[t]
  {}

  lemma GroupedGrow(rows: seq<Row>, r: Row, total: map<string, int>, auto: map<string, int>)
    requires Grouped(rows, total, auto)
    ensures Grouped(rows + [r], AddTo(total, r.task, r.minutes), AddTo(auto, r.task, Saved(r)))
  {
    hide MapSum, Minutes, Automatable, AddTo, At, Of;
    var all, total', auto' := rows + [r], AddTo(total, r.task, r.minutes), AddTo(auto, r.task, Saved(r));
    AddToSum(total, r.task, r.minutes);
    AddToSum(auto, r.task, Saved(r));
    MinutesGrow(rows, r);
    assert total'.Keys == auto'.Keys by { AddToKeys(total, auto, r); }
    forall t
      ensures At(total', t) == Minutes(Of(all, t)) && At(auto', t) == Minutes(Automatable(Of(all, t)))
    {
      OwnMinutesGrow(rows, r, total, auto, t);
    }
    forall t ensures t in total' <==> exists x :: x in all && x.task == t {
      TasksGrow(rows, r, total, t);
    }
    if forall x :: x in all ==> x.minutes >= 0 {
      assert all[|rows|] == r;
      assert forall x :: x in rows ==> x in all;
      forall t | t in total' ensures 0 <= auto'[t] <= total'[t] {
        BoundsGrow(all, r, total, auto, t);
      }
    }
  }

  lemma AddToKeys(total: map<string, int>, auto: map<string, int>, r: Row)
    requires total.Keys == auto.Keys
    ensures AddTo(total, r.task, r.minutes).Keys == AddTo(auto, r.task, Saved(r)).Keys == total.Keys + {r.task}
  {}

  /** Per task: all minutes, and those that could be automated. */
  method ByTask(rows: seq<Row>) returns (total: map<string, int>, auto: map<string, int>)
    ensures Grouped(rows, total, auto)
  {
    hide Grouped, AddTo;
    total, auto := map[], map[];
    NoTasks();
    for i := 0 to |rows|
      invariant Grouped(rows[..i], total, auto)
    {
      GroupedGrow(rows[..i], rows[i], total, auto);
      assert rows[..i] + [rows[i]] == rows[..i + 1];
      total := AddTo(total, rows[i].task, rows[i].minutes);
      auto := AddTo(auto, rows[i].task, Saved(rows[i]));
    }
    assert rows[..|rows|] == rows;
  }

  lemma NoTasks()
    ensures Grouped([], map[], map[])
  {}

  // ------------------------------------------------------------------ priorities

  datatype Priority = P0 | P1 | P2

  function PriorityOf(auto: int): Priority { if auto >= 10 then P0 else if auto >= 5 then P1 else P2 }

  /** The report lists its tasks by descending automatable minutes. */
  predicate Ranked(autos: seq<int>) { forall i, j :: 0 <= i < j < |autos| ==> autos[i] >= autos[j] }

  /** So the priorities are three consecutive bands: P0 from ten minutes, P1 from five, P2 below. */
  lemma {:induction false} ConsecutiveBands(autos: seq<int>) returns (p: nat, q: nat)
    requires Ranked(autos)
    ensures p <= q <= |autos|
    ensures forall i :: 0 <= i < |autos| ==> PriorityOf(autos[i]) == if i < p then P0 else if i < q then P1 else P2
    ensures forall i :: 0 <= i < |autos| ==> (i < p <==> autos[i] >= 10) && (i < q <==> autos[i] >= 5)
  {
    p, q := 0, 0;
    if autos != [] {
      var n := |autos| - 1;
      p, q := ConsecutiveBands(autos[..n]);
      match PriorityOf(autos[n])
      case P0 => p, q := n + 1, n + 1;
      case P1 => q := n + 1;
      case P2 =>
    }
  }
}
