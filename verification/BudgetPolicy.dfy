/** The error-budget freeze controller: a hysteresis machine whose actuations may fail. */
module BudgetPolicy {
  import opened Samples
  import opened Strings

  const FREEZE_THRESHOLD := 1.0
  const UNFREEZE_THRESHOLD := 0.5

  /** Prometheus' reply to the burn query; an empty result set is a value, not an error. */
  datatype Reply = Failed | NoSeries | Series(v: Float)

  function Query(reply: Reply): Option<Float> {
    match reply
    case Failed => None
    case NoSeries => Some(Queried(Absent))
    case Series(v) => Some(v)
  }

  /** One tick as the outside world decides it: the reply, and whether a patch would be accepted. */
  datatype Tick = Tick(reply: Reply, patchOk: bool)

  predicate High(t: Tick) { Query(t.reply).Some? && Above(Query(t.reply).value, Fin(FREEZE_THRESHOLD)) }

  predicate Low(t: Tick) { Query(t.reply).Some? && Above(Fin(UNFREEZE_THRESHOLD), Query(t.reply).value) }

  /** The Rollout in the cluster: its pause flag and the patches it accepted. */
  class Rollout {
    var pause: bool
    var patches: seq<bool>

    constructor (pause: bool)
      ensures this.pause == pause && patches == []
    {
      this.pause, patches := pause, [];
    }

    method PauseRollout(pause: bool, accepted: bool) returns (ok: bool)
      modifies this
      ensures ok == accepted
      ensures accepted ==> this.pause == pause && patches == old(patches) + [pause]
      ensures !accepted ==> this.pause == old(this.pause) && patches == old(patches)
    {
      ok := accepted;
      if accepted { this.pause, patches := pause, patches + [pause]; }
    }
  }

  datatype State = State(lastFrozen: bool, pause: bool, patches: seq<bool>)

  /** The patch a tick asks for, given what the controller remembers. */
  function Wanted(lastFrozen: bool, t: Tick): Option<bool> {
    if High(t) && !lastFrozen then Some(true) else if Low(t) && lastFrozen then Some(false) else None
  }

  function Next(s: State, t: Tick): State {
    var want := Wanted(s.lastFrozen, t);
    if want.Some? && t.patchOk then State(want.value, want.value, s.patches + [want.value]) else s
  }

  class BudgetPolicy {
    var lastFrozen: bool
    const rollout: Rollout?

    constructor (rollout: Rollout?)
      ensures this.rollout == rollout && !lastFrozen
    {
      this.rollout, lastFrozen := rollout, false;
    }

    /** One tick. Without a cluster client nothing happens; a failed query or patch leaves everything as it was. */
    method Check(t: Tick)
      modifies this, rollout
      ensures rollout == null ==> lastFrozen == old(lastFrozen)
      ensures rollout != null ==>
        State(lastFrozen, rollout.pause, rollout.patches)
          == Next(State(old(lastFrozen), old(rollout.pause), old(rollout.patches)), t)
      ensures t.reply.Series? && t.reply.v.Fin? && 0.5 <= t.reply.v.v <= 1.0 ==> lastFrozen == old(lastFrozen)
      ensures lastFrozen && !old(lastFrozen) ==> t.reply.Series? && Above(t.reply.v, Fin(1.0))
      ensures !lastFrozen && old(lastFrozen) ==> t.reply == NoSeries || (t.reply.Series? && Above(Fin(0.5), t.reply.v))
    {
      if rollout == null { return; }
      var burn := Query(t.reply);
      if burn.None? { return; }
      if Above(burn.value, Fin(FREEZE_THRESHOLD)) && !lastFrozen {
        var ok := rollout.PauseRollout(true, t.patchOk);
        if ok { lastFrozen := true; }
      } else if Above(Fin(UNFREEZE_THRESHOLD), burn.value) && lastFrozen {
        var ok := rollout.PauseRollout(false, t.patchOk);
        if ok { lastFrozen := false; }
      }
    }
  }

  /** The state after a trace, from a controller just started in a cluster with the given pause flag. */
  function Run(paused: bool, trace: seq<Tick>): State {
    if trace == [] then State(false, paused, [])
    else Next(Run(paused, trace[..|trace| - 1]), trace[|trace| - 1])
  }

  /** The ticker loop is the fold of its ticks. */
  method Start(policy: BudgetPolicy, trace: seq<Tick>)
    requires policy.rollout != null && !policy.lastFrozen && policy.rollout.patches == []
    modifies policy, policy.rollout
    ensures State(policy.lastFrozen, policy.rollout.pause, policy.rollout.patches) ==
            Run(old(policy.rollout.pause), trace)
  {
    for i := 0 to |trace|
      invariant State(policy.lastFrozen, policy.rollout.pause, policy.rollout.patches)
             == Run(old(policy.rollout.pause), trace[..i])
    {
      policy.Check(trace[i]);
      assert trace[..i + 1][..i] == trace[..i];
    }
    assert trace[..|trace|] == trace;
  }

  // ------------------------------------------------------------- hysteresis

  /** What a tick does, in numbers: above 1 it freezes, below 0.5 it thaws, and in between it does nothing. */
  lemma TickDoes(s: State, x: real)
    ensures Next(s, Tick(Series(Fin(x)), true)) ==
              if x > 1.0 && !s.lastFrozen then State(true, true, s.patches + [true])
              else if x < 0.5 && s.lastFrozen then State(false, false, s.patches + [false])
              else s
    ensures Next(s, Tick(Series(Fin(x)), false)) == s
  {}

  /** No burn both freezes and thaws, and a burn from 0.5 to 1 does neither, nor does NaN. */
  lemma BandHolds(t: Tick)
    ensures !(High(t) && Low(t))
    ensures (forall s :: Next(s, t) == s) <==>
            !t.patchOk || t.reply == Failed || t.reply == Series(NaN) ||
            (t.reply.Series? && t.reply.v.Fin? && 0.5 <= t.reply.v.v <= 1.0)
  {
    if t.patchOk && High(t) {
      assert Next(State(false, false, []), t) != State(false, false, []);
    } else if t.patchOk && Low(t) {
      assert Next(State(true, true, []), t) != State(true, true, []);
    }
  }

  /** While the burn stays what it is the Rollout is patched at most once: frozen, if the burn is above 1. */
  lemma {:induction false} SteadyBurn(paused: bool, trace: seq<Tick>, burn: Float)
    requires forall t :: t in trace ==> t.reply == Series(burn)
    ensures var s := Run(paused, trace);
            var freezes := (burn == PosInf || (burn.Fin? && burn.v > 1.0)) && exists t :: t in trace && t.patchOk;
            s.patches == (if freezes then [true] else []) && s.lastFrozen == freezes
  {
    if trace != [] {
      var n := |trace| - 1;
      SteadyBurn(paused, trace[..n], burn);
      assert forall t :: t in trace <==> t in trace[..n] || t == trace[n];
    }
  }

  // ------------------------------------------------------------- invariants

  predicate Alternates(patches: seq<bool>) {
    forall i :: 0 <= i < |patches| ==> patches[i] == (i % 2 == 0)
  }

  /** Accepted patches are freeze, unfreeze, freeze, ...; the controller's memory is the last of them. */
  lemma {:induction false} PatchesAlternate(paused: bool, trace: seq<Tick>)
    ensures var s := Run(paused, trace);
            Alternates(s.patches) && s.lastFrozen == (|s.patches| % 2 == 1) &&
            s.pause == (if s.patches == [] then paused else s.lastFrozen)
  {
    if trace != [] { PatchesAlternate(paused, trace[..|trace| - 1]); }
  }

  /** Memory and cluster agree after every trace exactly when the Rollout was not paused at start-up. */
  lemma MemoryIsClusterFlag(paused: bool)
    ensures (forall trace :: Run(paused, trace).lastFrozen == Run(paused, trace).pause) <==> !paused
  {
    forall trace | !paused ensures Run(paused, trace).lastFrozen == Run(paused, trace).pause {
      PatchesAlternate(paused, trace);
    }
    if paused { assert Run(paused, []).lastFrozen != Run(paused, []).pause; }
  }

  /** A controller restarted over a paused Rollout never thaws it before the budget is exhausted again. */
  lemma {:induction false} RestartWhilePaused(trace: seq<Tick>)
    requires forall t :: t in trace ==> !High(t)
    ensures Run(true, trace) == State(false, true, [])
  {
    if trace != [] { RestartWhilePaused(trace[..|trace| - 1]); }
  }

  /** Missing data reads as a recovered budget: a frozen Rollout is thawed. */
  lemma MissingDataThaws(paused: bool, trace: seq<Tick>)
    requires Run(paused, trace).lastFrozen
    ensures !Run(paused, trace + [Tick(NoSeries, true)]).pause
  {
    assert (trace + [Tick(NoSeries, true)])[..|trace|] == trace;
  }

  /**
   Exactly when a thaw rests on a measurement: an accepted thaw follows a measured burn below 0.5 iff the reply was
   not empty.
   */
  lemma ThawIsMeasured(paused: bool, trace: seq<Tick>, t: Tick)
    requires Run(paused, trace).lastFrozen && !Run(paused, trace + [t]).lastFrozen
    ensures t.patchOk && !Run(paused, trace + [t]).pause
    ensures (exists v: Float :: t.reply == Series(v) && Above(Fin(UNFREEZE_THRESHOLD), v)) <==> t.reply != NoSeries
  {
    assert (trace + [t])[..|trace|] == trace;
    if t.reply.Series? { assert Above(Fin(UNFREEZE_THRESHOLD), t.reply.v); }
  }

  // -------------------------------------------------------------- optimality

  /** Indices of a subsequence of the trace that is high, low, high, ... */
  ghost predicate Zigzag(trace: seq<Tick>, picks: seq<nat>) {
    (forall i :: 0 <= i < |picks| ==>
       picks[i] < |trace| && if i % 2 == 0 then High(trace[picks[i]]) else Low(trace[picks[i]])) &&
    forall i, j :: 0 <= i < j < |picks| ==> picks[i] < picks[j]
  }

  lemma ZigzagPrefix(trace: seq<Tick>, picks: seq<nat>, n: nat)
    requires Zigzag(trace, picks) && n <= |trace|
    requires forall i :: 0 <= i < |picks| ==> picks[i] < n
    ensures Zigzag(trace[..n], picks)
  {}

  /** The accepted patches are themselves a zigzag of the burn samples, even with failures. */
  lemma {:induction false} PatchesAreZigzag(paused: bool, trace: seq<Tick>) returns (picks: seq<nat>)
    ensures Zigzag(trace, picks) && |picks| == |Run(paused, trace).patches|
  {
    picks := [];
    if trace != [] {
      var n := |trace| - 1;
      var before := Run(paused, trace[..n]);
      picks := PatchesAreZigzag(paused, trace[..n]);
      PatchesAlternate(paused, trace[..n]);
      assert forall i :: 0 <= i < |picks| ==> trace[..n][picks[i]] == trace[picks[i]];
      if Wanted(before.lastFrozen, trace[n]).Some? && trace[n].patchOk { picks := picks + [n]; }
    }
  }

  /** With every patch accepted, no zigzag is longer than the list of patches. */
  lemma {:induction false} NoLongerZigzag(paused: bool, trace: seq<Tick>, picks: seq<nat>)
    requires forall t :: t in trace ==> t.patchOk
    requires Zigzag(trace, picks)
    ensures |picks| <= |Run(paused, trace).patches|
  {
    if picks != [] {
      var n, k := |trace| - 1, |picks| - 1;
      assert picks[k] < |trace|;
      var before := Run(paused, trace[..n]);
      PatchesAlternate(paused, trace[..n]);
      assert trace[n] in trace;
      if picks[k] < n {
        ZigzagPrefix(trace, picks, n);
        NoLongerZigzag(paused, trace[..n], picks);
      } else {
        assert Zigzag(trace, picks[..k]);
        ZigzagPrefix(trace, picks[..k], n);
        NoLongerZigzag(paused, trace[..n], picks[..k]);
      }
    }
  }

  ghost predicate LongestZigzag(trace: seq<Tick>, n: nat) {
    (exists picks :: Zigzag(trace, picks) && |picks| == n) && forall picks :: Zigzag(trace, picks) ==> |picks| <= n
  }

  /**
   The controller is exactly greedy: it patches as often as the burn truly swings, and failures only make it patch
   less.
   */
  lemma GreedyIsOptimal(paused: bool, trace: seq<Tick>, n: nat)
    requires LongestZigzag(trace, n)
    ensures |Run(paused, trace).patches| <= n
    ensures (forall t :: t in trace ==> t.patchOk) ==> |Run(paused, trace).patches| == n
  {
    var mine := PatchesAreZigzag(paused, trace);
    var best :| Zigzag(trace, best) && |best| == n;
    if forall t :: t in trace ==> t.patchOk { NoLongerZigzag(paused, trace, best); }
  }

  /** Such a longest zigzag always exists: the patches of a run without failures. */
  lemma LongestExists(trace: seq<Tick>) returns (n: nat)
    ensures LongestZigzag(trace, n)
  {
    var smooth := seq(|trace|, i requires 0 <= i < |trace| => trace[i].(patchOk := true));
    var picks := PatchesAreZigzag(false, smooth);
    n := |picks|;
    assert Zigzag(trace, picks);
    forall other | Zigzag(trace, other) ensures |other| <= n {
      assert Zigzag(smooth, other);
      NoLongerZigzag(false, smooth, other);
    }
  }
}
