/** Runbook retrieval: keyword scores, an in-place exchange sort, and the top K. */
module Retrieval {
  import opened Strings

  datatype Snippet = Snippet(title: string, content: string)

  datatype Scored = Scored(snippet: Snippet, score: nat)

  /** strings.ToLower, left uninterpreted. */
  type Lower = string -> string

  predicate Hits(lower: Lower, s: Snippet, kw: string) {
    lower(kw) != "" && (Contains(lower(s.title), lower(kw)) || Contains(lower(s.content), lower(kw)))
  }

  /** How many keywords occur in the snippet. */
  function Score(lower: Lower, s: Snippet, keywords: seq<string>): nat {
    if keywords == [] then 0
    else Score(lower, s, keywords[..|keywords| - 1]) + if Hits(lower, s, keywords[|keywords| - 1]) then 1 else 0
  }

  function Matches(lower: Lower, kb: seq<Snippet>, keywords: seq<string>): seq<Scored> {
    if kb == [] then []
    else
      var s := kb[|kb| - 1];
      var score := Score(lower, s, keywords);
      Matches(lower, kb[..|kb| - 1], keywords) + if score > 0 then [Scored(s, score)] else []
  }

  method CollectMatches(lower: Lower, kb: seq<Snippet>, keywords: seq<string>) returns (ss: seq<Scored>)
    ensures ss == Matches(lower, kb, keywords)
  {
    ss := [];
    for i := 0 to |kb|
      invariant ss == Matches(lower, kb[..i], keywords)
    {
      var score: nat := 0;
      for j := 0 to |keywords|
        invariant score == Score(lower, kb[i], keywords[..j])
      {
        assert keywords[..j + 1][..j] == keywords[..j];
        var kw := lower(keywords[j]);
        if kw == "" { continue; }
        if Contains(lower(kb[i].title), kw) || Contains(lower(kb[i].content), kw) { score := score + 1; }
      }
      assert keywords[..|keywords|] == keywords && kb[..i + 1][..i] == kb[..i];
      if score > 0 { ss := ss + [Scored(kb[i], score)]; }
    }
    assert kb[..|kb|] == kb;
  }

  // ------------------------------------------------------------------- sorting

  predicate Descending(s: seq<Scored>) { forall i, j :: 0 <= i < j < |s| ==> s[i].score >= s[j].score }

  predicate Permutes(a: seq<Scored>, b: seq<Scored>) { multiset(a) == multiset(b) }

  method Swap(a: array<Scored>, i: nat, j: nat)
    requires i < j < a.Length
    modifies a
    ensures a[..] == old(a[..])[i := old(a[j])][j := old(a[i])]
    ensures Permutes(a[..], old(a[..]))
  {
    a[i], a[j] := a[j], a[i];
    assert a[..] == old(a[..])[i := old(a[j])][j := old(a[i])];
  }

  /** The first `done` entries are ranked and none of the others outscores them. */
  predicate Ranked(s: seq<Scored>, done: nat)
    requires done <= |s|
  {
    forall i, j :: 0 <= i < done && i < j < |s| ==> s[i].score >= s[j].score
  }

  lemma RankedSwap(s: seq<Scored>, done: nat, i: nat, j: nat)
    requires done <= i < j < |s| && Ranked(s, done)
    ensures Ranked(s[i := s[j]][j := s[i]], done)
  {
    var t := s[i := s[j]][j := s[i]];
    forall k, l | 0 <= k < done && k < l < |t| ensures t[k].score >= t[l].score {
      assert t[k] == s[k];
      assert t[l] == s[if l == i then j else if l == j then i else l];
    }
  }

  lemma ExtendRanked(s: seq<Scored>, i: nat)
    requires i < |s| && Ranked(s, i) && forall k :: i < k < |s| ==> s[i].score >= s[k].score
    ensures Ranked(s, i + 1)
  {}

  predicate BestUpTo(s: seq<Scored>, i: nat, j: nat)
    requires i < j <= |s|
  {
    forall k :: i < k < j ==> s[i].score >= s[k].score
  }

  lemma BestSwap(s: seq<Scored>, i: nat, j: nat)
    requires i < j < |s| && BestUpTo(s, i, j) && s[j].score > s[i].score
    ensures BestUpTo(s[i := s[j]][j := s[i]], i, j + 1)
  {}

  /** The inner loop: position i ends up with the best of the rest. */
  method PullBest(a: array<Scored>, i: nat)
    requires i < a.Length && Ranked(a[..], i)
    modifies a
    ensures Ranked(a[..], i + 1) && Permutes(a[..], old(a[..]))
  {
    hide Ranked;
    var j := i + 1;
    while j < a.Length
      invariant i < j <= a.Length && Ranked(a[..], i) && Permutes(a[..], old(a[..]))
      invariant BestUpTo(a[..], i, j)
    {
      if a[j].score > a[i].score {
        ghost var before := a[..];
        RankedSwap(before, i, i, j);
        BestSwap(before, i, j);
        Swap(a, i, j);
        assert a[..] == before[i := before[j]][j := before[i]];
      }
      j := j + 1;
    }
    ExtendRanked(a[..], i);
  }

  method ExchangeSort(a: array<Scored>)
    modifies a
    ensures Descending(a[..]) && Permutes(a[..], old(a[..]))
  {
    var i := 0;
    while i < a.Length - 1
      invariant 0 <= i && (a.Length > 0 ==> i < a.Length) && (a.Length == 0 ==> i == 0)
      invariant Ranked(a[..], i) && Permutes(a[..], old(a[..]))
    {
      PullBest(a, i);
      i := i + 1;
    }
  }

  // --------------------------------------------------------------------- top K

  function Snippets(ss: seq<Scored>): seq<Snippet> { seq(|ss|, i requires 0 <= i < |ss| => ss[i].snippet) }

  /** A best selection of k of the matches: none left out outscores one taken. */
  ghost predicate TopOf(chosen: seq<Scored>, rest: seq<Scored>, all: seq<Scored>) {
    Permutes(chosen + rest, all) && Descending(chosen) &&
    forall c, r :: c in chosen && r in rest ==> c.score >= r.score
  }

  ghost predicate RetrievedFrom(out: seq<Snippet>, all: seq<Scored>, k: nat) {
    exists chosen, rest :: TopOf(chosen, rest, all) && out == Snippets(chosen) &&
      |chosen| == if k < |all| then k else |all|
  }

  /** The best min(K, matches) snippets in descending score, or the whole knowledge base when nothing scored. */
  method Retrieve(lower: Lower, kb: seq<Snippet>, keywords: seq<string>, topK: int) returns (out: seq<Snippet>)
    ensures var all := Matches(lower, kb, keywords);
            if all == [] then out == kb else RetrievedFrom(out, all, if topK <= 0 then 2 else topK)
  {
    hide Matches, RetrievedFrom, Descending, Permutes;
    var k := if topK <= 0 then 2 else topK;
    var matches := CollectMatches(lower, kb, keywords);
    var a := new Scored[|matches|](i requires 0 <= i < |matches| => matches[i]);
    assert a[..] == matches;
    ExchangeSort(a);
    out := TakeTop(a, k);
    if |out| == 0 { return kb; }
    SortedTop(a[..], matches, k, out);
  }

  method TakeTop(a: array<Scored>, k: nat) returns (out: seq<Snippet>)
    ensures |out| == (if k < a.Length then k else a.Length) && out == Snippets(a[..|out|])
  {
    out := [];
    var i := 0;
    while i < k && i < a.Length
      invariant 0 <= i <= a.Length && i <= k && |out| == i
      invariant forall j :: 0 <= j < i ==> out[j] == a[j].snippet
    {
      out := out + [a[i].snippet];
      i := i + 1;
    }
  }

  lemma SortedTop(sorted: seq<Scored>, all: seq<Scored>, k: nat, out: seq<Snippet>)
    requires Descending(sorted) && Permutes(sorted, all)
    requires |out| == (if k < |sorted| then k else |sorted|) && out == Snippets(sorted[..|out|])
    ensures RetrievedFrom(out, all, k)
  {
    var n := |out|;
    assert sorted == sorted[..n] + sorted[n..];
    assert |multiset(sorted)| == |sorted| && |multiset(all)| == |all|;
    assert TopOf(sorted[..n], sorted[n..], all);
  }

  // ------------------------------------------------------------ what scores mean

  /** The keywords, by position, that are not empty and occur in title or content, letter case aside. */
  function Occurring(lower: Lower, s: Snippet, keywords: seq<string>): set<nat> {
    set j: nat | j < |keywords| &&
                 lower(keywords[j]) != "" &&
                 (Contains(lower(s.title), lower(keywords[j])) || Contains(lower(s.content), lower(keywords[j])))
  }

  /** The score is the number of occurring keywords; one that is listed twice counts twice. */
  lemma {:induction false} ScoreCounts(lower: Lower, s: Snippet, keywords: seq<string>)
    ensures Score(lower, s, keywords) == |Occurring(lower, s, keywords)|
  {
    hide Contains;
    if keywords == [] {
      assert Occurring(lower, s, keywords) == {};
    } else {
      var n := |keywords| - 1;
      ScoreCounts(lower, s, keywords[..n]);
      var before := Occurring(lower, s, keywords[..n]);
      assert Occurring(lower, s, keywords) == before + if Hits(lower, s, keywords[n]) then {n} else {};
    }
  }

  /**
   The positions at hold, in order, exactly the snippets with an occurring keyword, and ms is these with their counts.
   */
  ghost predicate Selects(lower: Lower, kb: seq<Snippet>, keywords: seq<string>, at: seq<nat>, ms: seq<Scored>) {
    |at| == |ms| && (forall i, j :: 0 <= i < j < |at| ==> at[i] < at[j]) &&
    (forall k: nat :: k in at <==> k < |kb| && Occurring(lower, kb[k], keywords) != {}) &&
    forall i :: 0 <= i < |at| ==>
      at[i] < |kb| && ms[i] == Scored(kb[at[i]], |Occurring(lower, kb[at[i]], keywords)|)
  }

  lemma SelectsNone(lower: Lower, kb: seq<Snippet>, s: Snippet, keywords: seq<string>, at: seq<nat>, ms: seq<Scored>)
    requires Selects(lower, kb, keywords, at, ms) && Occurring(lower, s, keywords) == {}
    ensures Selects(lower, kb + [s], keywords, at, ms)
  {
    hide Occurring;
  }

  lemma SelectsOne(lower: Lower, kb: seq<Snippet>, s: Snippet, keywords: seq<string>, at: seq<nat>, ms: seq<Scored>)
    requires Selects(lower, kb, keywords, at, ms) && Occurring(lower, s, keywords) != {}
    ensures Selects(lower, kb + [s], keywords, at + [|kb|], ms + [Scored(s, |Occurring(lower, s, keywords)|)])
  {
    hide Occurring;
    var more, all := at + [|kb|], kb + [s];
    forall i, j | 0 <= i < j < |more| ensures more[i] < more[j] {}
    forall k: nat ensures k in more <==> k < |all| && Occurring(lower, all[k], keywords) != {} {
      assert k in more <==> k in at || k == |kb|;
    }
  }

  /** The matches are the snippets with an occurring keyword, in the order of the knowledge base, with their counts. */
  lemma {:induction false} MatchesAre(lower: Lower, kb: seq<Snippet>, keywords: seq<string>) returns (at: seq<nat>)
    ensures Selects(lower, kb, keywords, at, Matches(lower, kb, keywords))
  {
    at := [];
    if kb != [] {
      hide Occurring, Score, Selects;
      var n := |kb| - 1;
      var s, ms := kb[n], Matches(lower, kb[..n], keywords);
      at := MatchesAre(lower, kb[..n], keywords);
      assert kb == kb[..n] + [s];
      ScoreCounts(lower, s, keywords);
      if Occurring(lower, s, keywords) == {} {
        assert ms + [] == ms;
        SelectsNone(lower, kb[..n], s, keywords, at, ms);
      } else {
        SelectsOne(lower, kb[..n], s, keywords, at, ms);
        at := at + [n];
      }
    }
  }

  // ------------------------------------------------------- what is determined

  function Scores(ss: seq<Scored>): seq<nat> { seq(|ss|, i requires 0 <= i < |ss| => ss[i].score) }

  function AtLeast(ss: seq<Scored>, t: nat): nat {
    if ss == [] then 0 else AtLeast(ss[..|ss| - 1], t) + if ss[|ss| - 1].score >= t then 1 else 0
  }

  lemma {:induction false} AtLeastConcat(a: seq<Scored>, b: seq<Scored>, t: nat)
    ensures AtLeast(a + b, t) == AtLeast(a, t) + AtLeast(b, t)
  {
    if b == [] {
      assert a + b == a;
    } else {
      assert (a + b)[..|a| + |b| - 1] == a + b[..|b| - 1];
      AtLeastConcat(a, b[..|b| - 1], t);
    }
  }

  lemma CancelOne<T>(a: multiset<T>, b: multiset<T>, x: T)
    requires a + multiset{x} == b + multiset{x}
    ensures a == b
  {
    assert a == (a + multiset{x}) - multiset{x};
    assert b == (b + multiset{x}) - multiset{x};
  }

  lemma {:induction false} AtLeastPermutes(a: seq<Scored>, b: seq<Scored>, t: nat)
    requires Permutes(a, b)
    ensures AtLeast(a, t) == AtLeast(b, t)
    decreases |a|
  {
    if a == [] {
      assert multiset(b) == multiset{};
      assert b == [];
    } else {
      var n := |a| - 1;
      var x := a[n];
      assert x in multiset(b);
      var i :| 0 <= i < |b| && b[i] == x;
      var others := b[..i] + b[i + 1..];
      assert b == b[..i] + [x] + b[i + 1..];
      assert a == a[..n] + [x];
      assert multiset(a) == multiset(a[..n]) + multiset{x};
      assert multiset(b) == multiset(b[..i]) + multiset{x} + multiset(b[i + 1..]);
      assert multiset(others) == multiset(b[..i]) + multiset(b[i + 1..]);
      CancelOne(multiset(a[..n]), multiset(others), x);
      AtLeastPermutes(a[..n], others, t);
      AtLeastConcat(b[..i], [x], t);
      AtLeastConcat(b[..i] + [x], b[i + 1..], t);
      AtLeastConcat(b[..i], b[i + 1..], t);
      assert [x][..0] == [];
    }
  }

  lemma {:induction false} AtLeastBounds(s: seq<Scored>, t: nat)
    ensures 0 <= AtLeast(s, t) <= |s|
    ensures (forall r :: r in s ==> r.score >= t) ==> AtLeast(s, t) == |s|
    ensures (forall r :: r in s ==> r.score < t) ==> AtLeast(s, t) == 0
  {
    if s != [] { AtLeastBounds(s[..|s| - 1], t); }
  }

  lemma DescendingCount(s: seq<Scored>, i: nat, t: nat)
    requires Descending(s) && i < |s|
    ensures s[i].score >= t ==> AtLeast(s, t) > i
    ensures s[i].score < t ==> AtLeast(s, t) <= i
  {
    hide AtLeast;
    if s[i].score >= t {
      CountAround(s, i + 1, t);
      assert forall r :: r in s[..i + 1] ==> r.score >= t;
    } else {
      CountAround(s, i, t);
      assert forall r :: r in s[i..] ==> r.score < t;
    }
  }

  lemma CountAround(s: seq<Scored>, k: nat, t: nat)
    requires k <= |s|
    ensures AtLeast(s, t) == AtLeast(s[..k], t) + AtLeast(s[k..], t)
    ensures 0 <= AtLeast(s[..k], t) <= k && 0 <= AtLeast(s[k..], t)
    ensures (forall r :: r in s[..k] ==> r.score >= t) ==> AtLeast(s[..k], t) == k
    ensures (forall r :: r in s[k..] ==> r.score < t) ==> AtLeast(s[k..], t) == 0
  {
    hide AtLeast;
    assert s == s[..k] + s[k..];
    AtLeastConcat(s[..k], s[k..], t);
    AtLeastBounds(s[..k], t);
    AtLeastBounds(s[k..], t);
  }

  /** In a best selection, position i holds at least t exactly when more than i matches score at least t. */
  lemma ScoreAtPosition(chosen: seq<Scored>, rest: seq<Scored>, all: seq<Scored>, i: nat, t: nat)
    requires TopOf(chosen, rest, all) && i < |chosen|
    ensures chosen[i].score >= t <==> AtLeast(all, t) > i
  {
    hide AtLeast, Permutes;
    AtLeastPermutes(chosen + rest, all, t);
    AtLeastConcat(chosen, rest, t);
    DescendingCount(chosen, i, t);
    assert chosen[i] in chosen;
    AtLeastBounds(rest, t);
  }

  /** Ties may be broken either way, but the scores of the best k are determined by the matches alone. */
  lemma TopScoresDetermined(chosen: seq<Scored>, rest: seq<Scored>, other: seq<Scored>, left: seq<Scored>,
                            all: seq<Scored>)
    requires TopOf(chosen, rest, all) && TopOf(other, left, all) && |chosen| == |other|
    ensures Scores(chosen) == Scores(other)
  {
    forall i | 0 <= i < |chosen| ensures chosen[i].score == other[i].score {
      ScoreAtPosition(chosen, rest, all, i, chosen[i].score);
      ScoreAtPosition(other, left, all, i, chosen[i].score);
      ScoreAtPosition(chosen, rest, all, i, other[i].score);
      ScoreAtPosition(other, left, all, i, other[i].score);
    }
  }

  /** The fallback is taken exactly when no snippet contains any keyword. */
  lemma {:induction false} NothingScored(lower: Lower, kb: seq<Snippet>, keywords: seq<string>)
    ensures Matches(lower, kb, keywords) == [] <==> forall s, kw :: s in kb && kw in keywords ==> !Hits(lower, s, kw)
  {
    if kb != [] {
      var n := |kb| - 1;
      NothingScored(lower, kb[..n], keywords);
      ScorePositive(lower, kb[n], keywords);
      assert forall s :: s in kb <==> s in kb[..n] || s == kb[n];
    }
  }

  lemma {:induction false} ScorePositive(lower: Lower, s: Snippet, keywords: seq<string>)
    ensures Score(lower, s, keywords) > 0 <==> exists kw :: kw in keywords && Hits(lower, s, kw)
  {
    if keywords != [] {
      var n := |keywords| - 1;
      ScorePositive(lower, s, keywords[..n]);
      assert forall kw :: kw in keywords <==> kw in keywords[..n] || kw == keywords[n];
    }
  }
}
