/**
 The fragment of PromQL that the rule generator writes: names, numerals, "/", ">" and "and".
 A text is lexed on blanks and parsed with PromQL's precedence; a text outside the fragment
 (every user query, normally) is an opaque query, whose answer may depend on the database and on the
 samples of every name the text mentions.
 */
module PromQL {
  import opened Samples
  import opened Strings

  datatype Op = AndOp | GtOp | DivOp

  datatype Expr = Name(name: string) | Num(tok: string) | Bin(op: Op, l: Expr, r: Expr)

  // ---------------------------------------------------------------- lexing

  predicate Blank(c: char) { c == ' ' || c == '\n' }

  predicate Word(t: string) { t != "" && forall c :: c in t ==> !Blank(c) }

  function WordLength(s: string): (n: nat)
    ensures n <= |s|
    ensures forall i :: 0 <= i < n ==> !Blank(s[i])
    ensures n < |s| ==> Blank(s[n])
  {
    if s == "" || Blank(s[0]) then 0 else 1 + WordLength(s[1..])
  }

  function Lex(s: string): seq<string>
    decreases |s|
  {
    if s == "" then []
    else if Blank(s[0]) then Lex(s[1..])
    else var n := WordLength(s); [s[..n]] + Lex(s[n..])
  }

  lemma LexWord(t: string, rest: string)
    requires Word(t) && (rest == "" || Blank(rest[0]))
    ensures Lex(t + rest) == [t] + Lex(rest)
  {
    var s := t + rest;
    var n := WordLength(s);
    assert forall i :: 0 <= i < |t| ==> s[i] == t[i] && t[i] in t;
    assert rest != "" ==> s[|t|] == rest[0];
    assert s[..n] == t && s[n..] == rest;
  }

  /** Lexing drops blanks only. */
  lemma {:induction false} LexKeeps(s: string, c: char)
    requires c in s && !Blank(c)
    ensures exists t :: t in Lex(s) && c in t
    decreases |s|
  {
    if Blank(s[0]) {
      LexKeeps(s[1..], c);
    } else {
      var n := WordLength(s);
      if c in s[..n] {
        assert s[..n] in Lex(s);
      } else {
        assert s == s[..n] + s[n..];
        LexKeeps(s[n..], c);
      }
    }
  }

  // --------------------------------------------------------------- grammar

  predicate Letter(c: char) { 'a' <= c <= 'z' || 'A' <= c <= 'Z' || c == '_' || c == ':' }

  predicate Digit(c: char) { '0' <= c <= '9' }

  predicate NameChars(s: string) { forall c :: c in s ==> Letter(c) || Digit(c) }

  predicate MetricName(s: string) { s != "" && Letter(s[0]) && NameChars(s) && s != "and" }

  predicate Numeral(s: string) {
    s != "" && (Digit(s[0]) || s[0] == '-') &&
    forall c :: c in s ==> Digit(c) || c == '.' || c == 'e' || c == '+' || c == '-'
  }

  function OpText(op: Op): string {
    match op case AndOp => "and" case GtOp => ">" case DivOp => "/"
  }

  /** Binding strength: "and" is weakest, "/" strongest. */
  function Level(op: Op): nat {
    match op case AndOp => 0 case GtOp => 1 case DivOp => 2
  }

  function OpAt(level: nat): (op: Op)
    requires level < 3
    ensures Level(op) == level
  {
    if level == 0 then AndOp else if level == 1 then GtOp else DivOp
  }

  /** Trees that need no parentheses: operands bind tighter, equal operators nest to the left. */
  predicate Canonical(e: Expr, level: nat) {
    match e
    case Name(n) => MetricName(n)
    case Num(t) => Numeral(t)
    case Bin(op, l, r) => level <= Level(op) && Canonical(l, Level(op)) && Canonical(r, Level(op) + 1)
  }

  function LastIndex<T(==)>(ts: seq<T>, x: T): (k: int)
    ensures -1 <= k < |ts|
    ensures k >= 0 ==> ts[k] == x
    ensures forall i :: k < i < |ts| ==> ts[i] != x
  {
    if ts == [] then -1
    else if ts[|ts| - 1] == x then |ts| - 1
    else LastIndex(ts[..|ts| - 1], x)
  }

  function ParseTokens(ts: seq<string>, level: nat): Option<Expr>
    requires level <= 3
    decreases |ts|, 3 - level
  {
    if level == 3 then
      if |ts| != 1 then None
      else if MetricName(ts[0]) then Some(Name(ts[0]))
      else if Numeral(ts[0]) then Some(Num(ts[0]))
      else None
    else
      var k := LastIndex(ts, OpText(OpAt(level)));
      if k < 0 then ParseTokens(ts, level + 1)
      else
        var l := ParseTokens(ts[..k], level);
        var r := ParseTokens(ts[k + 1..], level + 1);
        if l.Some? && r.Some? then Some(Bin(OpAt(level), l.value, r.value)) else None
  }

  function Parse(text: string): Option<Expr> { ParseTokens(Lex(text), 0) }

  function Tokens(e: Expr): seq<string> {
    match e
    case Name(n) => [n]
    case Num(t) => [t]
    case Bin(op, l, r) => Tokens(l) + [OpText(op)] + Tokens(r)
  }

  function OpBlank(op: Op): string { if op == AndOp then "\n" else " " }

  /** The generator's layout: "a / b", "a > t", and "\nand " between conjuncts. */
  function Print(e: Expr): string {
    match e
    case Name(n) => n
    case Num(t) => t
    case Bin(op, l, r) => Print(l) + OpBlank(op) + OpText(op) + " " + Print(r)
  }

  // ------------------------------------------------------- round trips

  lemma {:induction false} TightTokens(e: Expr, level: nat, op: Op)
    requires Canonical(e, level) && Level(op) < level
    ensures OpText(op) !in Tokens(e)
  {
    match e
    case Name(n) =>
      if op == GtOp { assert '>' in OpText(op); }
      if op == DivOp { assert '/' in OpText(op); }
    case Num(t) =>
      assert OpText(op)[0] in OpText(op);
    case Bin(o, l, r) =>
      TightTokens(l, Level(o), op);
      TightTokens(r, Level(o) + 1, op);
  }

  lemma {:induction false} LastIndexAfter<T>(l: seq<T>, x: T, r: seq<T>)
    requires x !in r
    ensures LastIndex(l + [x] + r, x) == |l|
  {
    if r == [] {
      assert l + [x] + r == l + [x];
    } else {
      var front := r[..|r| - 1];
      assert (l + [x] + r)[..|l| + |r|] == l + [x] + front;
      LastIndexAfter(l, x, front);
    }
  }

  lemma SplitAtLast<T>(l: seq<T>, x: T, r: seq<T>)
    requires x !in r
    ensures LastIndex(l + [x] + r, x) == |l|
    ensures (l + [x] + r)[..|l|] == l && (l + [x] + r)[|l| + 1..] == r
  {
    LastIndexAfter(l, x, r);
  }

  lemma ParseBin(op: Op, l: seq<string>, r: seq<string>)
    requires OpText(op) !in r
    ensures var (x, y) := (ParseTokens(l, Level(op)), ParseTokens(r, Level(op) + 1));
            ParseTokens(l + [OpText(op)] + r, Level(op)) ==
              if x.Some? && y.Some? then Some(Bin(op, x.value, y.value)) else None
  {
    hide OpText;
    SplitAtLast(l, OpText(op), r);
  }

  lemma ParseTighter(ts: seq<string>, level: nat)
    requires level < 3 && OpText(OpAt(level)) !in ts
    ensures ParseTokens(ts, level) == ParseTokens(ts, level + 1)
  {
    hide OpText;
  }

  /** Parsing the tokens of a canonical tree gives the tree back... */
  lemma {:induction false} ParseOfTokens(e: Expr, level: nat)
    requires level <= 3 && Canonical(e, level)
    ensures ParseTokens(Tokens(e), level) == Some(e)
    decreases e, 3 - level
  {
    hide LastIndex, OpText;
    if level < 3 && !(e.Bin? && Level(e.op) == level) {
      assert Canonical(e, level + 1);
      TightTokens(e, level + 1, OpAt(level));
      ParseOfTokens(e, level + 1);
      ParseTighter(Tokens(e), level);
    } else if e.Bin? {
      TightTokens(e.r, level + 1, e.op);
      ParseOfTokens(e.l, level);
      ParseOfTokens(e.r, level + 1);
      ParseBin(e.op, Tokens(e.l), Tokens(e.r));
    }
  }

  /** ...and whatever parses is a canonical tree over exactly those tokens. */
  lemma {:induction false} ParsedTokens(ts: seq<string>, level: nat)
    requires level <= 3 && ParseTokens(ts, level).Some?
    ensures var e := ParseTokens(ts, level).value; Canonical(e, level) && Tokens(e) == ts
    decreases |ts|, 3 - level
  {
    hide OpText, Canonical, Tokens;
    if level == 3 {
      ParsedLeaf(ts);
    } else {
      var k := LastIndex(ts, OpText(OpAt(level)));
      if k < 0 {
        ParsedTokens(ts, level + 1);
        Loosen(ParseTokens(ts, level).value, level + 1, level);
      } else {
        var l, r := ts[..k], ts[k + 1..];
        ParsedTokens(l, level);
        ParsedTokens(r, level + 1);
        ParsedBin(ts, k, OpAt(level), ParseTokens(l, level).value, ParseTokens(r, level + 1).value);
      }
    }
  }

  lemma ParsedLeaf(ts: seq<string>)
    requires ParseTokens(ts, 3).Some?
    ensures var e := ParseTokens(ts, 3).value; Canonical(e, 3) && Tokens(e) == ts
  {}

  /** The operator case: two parsed operands around the operator make a canonical tree over all tokens. */
  lemma ParsedBin(ts: seq<string>, k: nat, op: Op, l: Expr, r: Expr)
    requires k < |ts| && ts[k] == OpText(op)
    requires Canonical(l, Level(op)) && Tokens(l) == ts[..k]
    requires Canonical(r, Level(op) + 1) && Tokens(r) == ts[k + 1..]
    ensures Canonical(Bin(op, l, r), Level(op)) && Tokens(Bin(op, l, r)) == ts
  {
    assert ts == ts[..k] + [ts[k]] + ts[k + 1..];
  }

  lemma Loosen(e: Expr, from: nat, to: nat)
    requires Canonical(e, from) && to <= from
    ensures Canonical(e, to)
  {}

  /** The parser accepts exactly the blank-separated canonical trees, each in one way. */
  lemma ParseExact(text: string, e: Expr)
    ensures Parse(text) == Some(e) <==> Canonical(e, 0) && Tokens(e) == Lex(text)
  {
    if Parse(text).Some? { ParsedTokens(Lex(text), 0); }
    if Canonical(e, 0) { ParseOfTokens(e, 0); }
  }

  lemma LexSpaced(c: char, t: string, rest: string)
    requires Blank(c) && Word(t) && (rest == "" || Blank(rest[0]))
    ensures Lex([c] + t + rest) == [t] + Lex(rest)
  {
    assert ([c] + t + rest)[1..] == t + rest;
    LexWord(t, rest);
  }

  lemma LexBlank(c: char, s: string)
    requires Blank(c)
    ensures Lex([c] + s) == Lex(s)
  {
    assert ([c] + s)[1..] == s;
  }

  lemma LexOperator(op: Op, after: string)
    ensures Lex(OpBlank(op) + OpText(op) + (" " + after)) == [OpText(op)] + Lex(after)
  {
    LexSpaced(OpBlank(op)[0], OpText(op), " " + after);
    assert OpBlank(op) == [OpBlank(op)[0]];
    LexBlank(' ', after);
  }

  lemma Regroup(l: string, blank: string, op: string, r: string, rest: string)
    ensures (l + blank + op + " " + r) + rest == l + (blank + op + (" " + (r + rest)))
  {}

  lemma RegroupTokens(l: seq<string>, op: string, r: seq<string>, rest: seq<string>)
    ensures l + ([op] + (r + rest)) == (l + [op] + r) + rest
  {}

  lemma {:induction false} LexOfPrint(e: Expr, level: nat, rest: string)
    requires Canonical(e, level) && (rest == "" || Blank(rest[0]))
    ensures Lex(Print(e) + rest) == Tokens(e) + Lex(rest)
  {
    match e
    case Name(n) => LexWord(n, rest);
    case Num(t) => LexWord(t, rest);
    case Bin(op, l, r) =>
      var after := Print(r) + rest;
      var right := OpBlank(op) + OpText(op) + (" " + after);
      Regroup(Print(l), OpBlank(op), OpText(op), Print(r), rest);
      LexOfPrint(l, Level(op), right);
      LexOperator(op, after);
      LexOfPrint(r, Level(op) + 1, rest);
      RegroupTokens(Tokens(l), OpText(op), Tokens(r), Lex(rest));
  }

  /** Printing and parsing are inverse on every canonical tree. */
  lemma RoundTrip(e: Expr)
    requires Canonical(e, 0)
    ensures Parse(Print(e)) == Some(e)
  {
    LexOfPrint(e, 0, "");
    assert Print(e) + "" == Print(e) && Tokens(e) + Lex("") == Tokens(e);
    ParseOfTokens(e, 0);
  }

  lemma {:induction false} TokenAlphabet(e: Expr, level: nat, t: string, c: char)
    requires Canonical(e, level) && t in Tokens(e) && c in t
    ensures Letter(c) || Digit(c) || c in ".+->/"
  {
    match e
    case Name(_) =>
    case Num(_) =>
    case Bin(op, l, r) =>
      if t in Tokens(l) { TokenAlphabet(l, Level(op), t, c); }
      else if t in Tokens(r) { TokenAlphabet(r, Level(op) + 1, t, c); }
      else { assert t == OpText(op); }
  }

  /** A text with a character outside the fragment, such as a parenthesis, may read every name it mentions. */
  lemma Opaque(text: string, c: char)
    requires c in text && !Blank(c) && !Letter(c) && !Digit(c) && c !in ".+->/"
    ensures Parse(text) == None && Refs(text) == Mentions(text)
  {
    if Parse(text).Some? {
      ParsedTokens(Lex(text), 0);
      LexKeeps(text, c);
      var t :| t in Lex(text) && c in t;
      TokenAlphabet(Parse(text).value, 0, t, c);
      assert false;
    }
  }

  // -------------------------------------------------------------- mentions

  predicate NameChar(c: char) { Letter(c) || Digit(c) }

  function RunLength(s: string): (n: nat)
    ensures n <= |s| && NameChars(s[..n])
    ensures n < |s| ==> !NameChar(s[n])
  {
    if s == "" || !NameChar(s[0]) then 0 else 1 + RunLength(s[1..])
  }

  /** The maximal runs of name characters: whatever series a query selects by name is among them. */
  function Mentions(s: string): set<string>
    decreases |s|
  {
    if s == "" then {}
    else if !NameChar(s[0]) then Mentions(s[1..])
    else var n := RunLength(s); {s[..n]} + Mentions(s[n..])
  }

  /** A name that stands alone in a text is mentioned, wherever it stands... */
  lemma {:induction false} AloneIsMentioned(front: string, n: string, back: string)
    requires n != "" && NameChars(n)
    requires front == "" || !NameChar(front[|front| - 1])
    requires back == "" || !NameChar(back[0])
    ensures n in Mentions(front + n + back)
    decreases |front|
  {
    var s := front + n + back;
    if front == "" {
      assert s == n + back && n[0] in n;
      RunIs(n, back);
    } else if !NameChar(front[0]) {
      assert s[1..] == front[1..] + n + back;
      AloneIsMentioned(front[1..], n, back);
    } else {
      var k := RunLength(s);
      RunWithin(front, n + back);
      assert s == front + (n + back);
      assert s[k..] == front[k..] + n + back;
      AloneIsMentioned(front[k..], n, back);
    }
  }

  lemma {:induction false} RunIs(n: string, back: string)
    requires NameChars(n) && (back == "" || !NameChar(back[0]))
    ensures RunLength(n + back) == |n| && (n + back)[..|n|] == n
  {
    if n != "" {
      assert (n + back)[1..] == n[1..] + back && n[0] in n;
      RunIs(n[1..], back);
    } else {
      assert n + back == back;
    }
  }

  lemma RunWithin(front: string, rest: string)
    requires front != "" && !NameChar(front[|front| - 1])
    ensures RunLength(front + rest) < |front|
  {
    var s, k := front + rest, RunLength(front + rest);
    assert s[|front| - 1] == front[|front| - 1];
    assert forall i :: 0 <= i < k ==> s[..k][i] == s[i] && s[i] in s[..k];
  }

  /** ...and what is mentioned occurs in the text. */
  lemma {:induction false} MentionedOccurs(s: string, n: string)
    requires n in Mentions(s)
    ensures Contains(s, n)
    decreases |s|
  {
    if !NameChar(s[0]) {
      MentionedOccurs(s[1..], n);
    } else {
      var k := RunLength(s);
      if n != s[..k] {
        MentionedOccurs(s[k..], n);
        ContainsLater(s, k, n);
      }
    }
  }

  // ------------------------------------------------------------ evaluation

  /**
   What lies outside the rule group: the series of the database, the answers to opaque queries given the samples
   of the names they mention, and the reading of numerals.
   */
  datatype World = World(series: string -> Sample, query: (string, map<string, Sample>) -> Sample,
                         number: string -> real)

  /** The samples written at the timestamp of one evaluation. */
  type Env = map<string, Sample>

  function Lookup(n: string, env: Env, world: World): Sample {
    if n in env then env[n] else world.series(n)
  }

  /** What a query sees of the names it mentions. */
  function Seen(text: string, env: Env, world: World): map<string, Sample> {
    map n | n in Mentions(text) :: Lookup(n, env, world)
  }

  /** Instant-vector semantics: ">" filters its left operand, "and" keeps it if the right one is present. */
  function Eval(e: Expr, env: Env, world: World): Sample {
    match e
    case Name(n) => Lookup(n, env, world)
    case Num(t) => Fin(world.number(t))
    case Bin(op, l, r) =>
      var a := Eval(l, env, world);
      var b := Eval(r, env, world);
      match op
      case DivOp => Div(a, b)
      case GtOp => if Above(a, b) then a else Absent
      case AndOp => if b.Absent? then Absent else a
  }

  function EvalText(text: string, env: Env, world: World): Sample {
    match Parse(text)
    case Some(e) => Eval(e, env, world)
    case None => world.query(text, Seen(text, env, world))
  }

  function NamesOf(e: Expr): set<string> {
    match e
    case Name(n) => {n}
    case Num(_) => {}
    case Bin(_, l, r) => NamesOf(l) + NamesOf(r)
  }

  function Refs(text: string): set<string> {
    match Parse(text)
    case Some(e) => NamesOf(e)
    case None => Mentions(text)
  }

  lemma {:induction false} EvalFrame(e: Expr, env: Env, env': Env, world: World)
    requires forall n :: n in NamesOf(e) ==> Lookup(n, env, world) == Lookup(n, env', world)
    ensures Eval(e, env, world) == Eval(e, env', world)
  {
    if e.Bin? {
      EvalFrame(e.l, env, env', world);
      EvalFrame(e.r, env, env', world);
    }
  }

  lemma EvalTextFrame(text: string, env: Env, env': Env, world: World)
    requires forall n :: n in Refs(text) ==> Lookup(n, env, world) == Lookup(n, env', world)
    ensures EvalText(text, env, world) == EvalText(text, env', world)
  {
    if Parse(text).Some? { EvalFrame(Parse(text).value, env, env', world); }
    else { assert Seen(text, env, world) == Seen(text, env', world); }
  }

  // ----------------------------------------------------------- rule groups

  /** A rule of the PrometheusRule resource: recording when `record` is set, alerting when `alert` is. */
  datatype Rule = Rule(record: string, alert: string, expr: string, forDur: Option<string>,
                       labels: map<string, string>, annotations: map<string, string>)

  function Recording(record: string, expr: string): Rule {
    Rule(record, "", expr, None, map[], map[])
  }

  function Records(rules: seq<Rule>): set<string> { set r | r in rules :: r.record }

  /** A series takes one sample per timestamp: a second one is discarded. */
  function Store(env: Env, n: string, v: Sample): Env {
    if n in env && env[n] != Absent then env else env[n := v]
  }

  /** Prometheus evaluates a group in order; each rule sees the samples of the earlier ones. */
  function EvalGroup(rules: seq<Rule>, env: Env, world: World): Env {
    if rules == [] then env
    else EvalGroup(rules[1..], Store(env, rules[0].record, EvalText(rules[0].expr, env, world)), world)
  }

  lemma {:induction false} EvalConcat(a: seq<Rule>, b: seq<Rule>, env: Env, world: World)
    ensures EvalGroup(a + b, env, world) == EvalGroup(b, EvalGroup(a, env, world), world)
  {
    if a == [] {
      assert a + b == b;
    } else {
      assert (a + b)[1..] == a[1..] + b;
      EvalConcat(a[1..], b, Store(env, a[0].record, EvalText(a[0].expr, env, world)), world);
    }
  }

  /** No rule reads a series that it or a later rule records, and two rules of one name are the same query. */
  predicate Ordered(rules: seq<Rule>) {
    rules == [] ||
    (Refs(rules[0].expr) !! Records(rules) &&
     (forall r :: r in rules && r.record == rules[0].record ==> r.expr == rules[0].expr) &&
     Ordered(rules[1..]))
  }

  lemma {:induction false} GroupFrame(rules: seq<Rule>, env: Env, world: World, n: string)
    requires n !in Records(rules)
    ensures Lookup(n, EvalGroup(rules, env, world), world) == Lookup(n, env, world)
    ensures n in EvalGroup(rules, env, world) <==> n in env
  {
    if rules != [] {
      assert rules[0] in rules;
      GroupFrame(rules[1..], Store(env, rules[0].record, EvalText(rules[0].expr, env, world)), world, n);
    }
  }

  /**
   Rules whose series already has a sample: it is the one they would write, and nothing they read is still to come.
   */
  predicate Settled(rules: seq<Rule>, env: Env, world: World) {
    forall r :: r in rules && r.record in env ==>
      Refs(r.expr) !! Records(rules) && env[r.record] == EvalText(r.expr, env, world)
  }

  /** In an ordered group no sample is ever discarded for a different one. */
  lemma FirstStore(rules: seq<Rule>, env: Env, world: World)
    requires rules != [] && Ordered(rules) && Settled(rules, env, world)
    ensures var v := EvalText(rules[0].expr, env, world);
            Store(env, rules[0].record, v) == env[rules[0].record := v] &&
            Settled(rules[1..], env[rules[0].record := v], world)
  {
    var first, rest := rules[0], rules[1..];
    var v := EvalText(first.expr, env, world);
    var env1 := env[first.record := v];
    assert first in rules && rules == [first] + rest;
    if first.record in env { assert env1 == env; }
    forall r | r in rest && r.record in env1
      ensures Refs(r.expr) !! Records(rest) && env1[r.record] == EvalText(r.expr, env1, world)
    {
      assert r in rules;
      assert forall q :: q in rest ==> q in rules;
      EvalTextFrame(r.expr, env, env1, world);
    }
  }

  /** One pass over an ordered group solves all its rules at once, as equations. */
  lemma {:induction false} OnePassSolves(rules: seq<Rule>, env: Env, world: World)
    requires Ordered(rules) && Settled(rules, env, world)
    ensures var final := EvalGroup(rules, env, world);
            forall r :: r in rules ==> r.record in final && final[r.record] == EvalText(r.expr, final, world)
  {
    if rules != [] {
      var first, rest := rules[0], rules[1..];
      var env1 := env[first.record := EvalText(first.expr, env, world)];
      var final := EvalGroup(rules, env, world);
      FirstStore(rules, env, world);
      OnePassSolves(rest, env1, world);
      assert first in rules && rules == [first] + rest;
      if first.record in Records(rest) {
        var r :| r in rest && r.record == first.record;
        assert r in rules;
      } else {
        GroupFrame(rest, env1, world, first.record);
        forall n | n in Refs(first.expr)
          ensures Lookup(n, env, world) == Lookup(n, final, world)
        {
          GroupFrame(rules, env, world, n);
        }
        EvalTextFrame(first.expr, env, final, world);
      }
    }
  }

  lemma {:induction false} OrderedConcat(a: seq<Rule>, b: seq<Rule>)
    requires Ordered(a) && Ordered(b)
    requires forall r, s :: r in a && s in b ==>
             s.record !in Refs(r.expr) && (s.record == r.record ==> s.expr == r.expr)
    ensures Ordered(a + b)
  {
    if a == [] {
      assert a + b == b;
    } else {
      assert (a + b)[1..] == a[1..] + b && a[0] in a;
      OrderedConcat(a[1..], b);
      assert Refs(a[0].expr) !! Records(a + b);
    }
  }
}
