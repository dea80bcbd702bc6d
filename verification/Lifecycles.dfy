/** Counting how often something changes along the states a database passes through. */
module Lifecycles {

  // The states a run of statements passes through, first to last.
  ghost function Trace<D, S>(step: (D, S) -> D, d: D, ss: seq<S>): (states: seq<D>)
    ensures |states| == |ss| + 1 && states[0] == d
    ensures forall k :: 0 <= k < |ss| ==> states[k + 1] == step(states[k], ss[k])
    decreases |ss|
  {
    if ss == [] then [d] else [d] + Trace(step, step(d, ss[0]), ss[1..])
  }

  lemma {:induction false} TraceKeeps<D(!new), S(!new)>(step: (D, S) -> D, d: D, ss: seq<S>, inv: D -> bool)
    requires inv(d) && forall a, s :: inv(a) && s in ss ==> inv(step(a, s))
    ensures forall k :: 0 <= k <= |ss| ==> inv(Trace(step, d, ss)[k])
    decreases |ss|
  {
    if ss != [] {
      assert ss[0] in ss && forall s :: s in ss[1..] ==> s in ss;
      TraceKeeps(step, step(d, ss[0]), ss[1..], inv);
    }
  }

  // How many times what seen reads differs from one state to the next.
  ghost function Moves<D, T>(states: seq<D>, seen: D -> T): nat
    decreases |states|
  {
    if |states| < 2 then 0
    else (if seen(states[0]) != seen(states[1]) then 1 else 0) + Moves(states[1..], seen)
  }

  // The rank never falls, and rises whenever what seen reads changes.
  ghost predicate Climbs<D, T>(a: D, b: D, seen: D -> T, rank: D -> int) {
    rank(a) <= rank(b) && (seen(a) != seen(b) ==> rank(a) < rank(b))
  }

  lemma {:induction false} ClimbingBoundsMoves<D, T>(states: seq<D>, seen: D -> T, rank: D -> int)
    requires states != []
    requires forall k :: 0 <= k < |states| - 1 ==> Climbs(states[k], states[k + 1], seen, rank)
    ensures Moves(states, seen) <= rank(states[|states| - 1]) - rank(states[0])
    decreases |states|
  {
    if |states| > 1 {
      assert Climbs(states[0], states[0 + 1], seen, rank);
      var rest := states[1..];
      forall k | 0 <= k < |rest| - 1 ensures Climbs(rest[k], rest[k + 1], seen, rank) {
        assert Climbs(states[k + 1], states[k + 1 + 1], seen, rank);
      }
      ClimbingBoundsMoves(rest, seen, rank);
    }
  }

  // If every statement of a run climbs, the run changes what seen reads no more often than it
  // can climb.
  lemma {:induction false} RunClimbs<D(!new), S(!new), T>(
      step: (D, S) -> D, d: D, ss: seq<S>, inv: D -> bool, seen: D -> T, rank: D -> int)
    requires inv(d) && forall a, s :: inv(a) && s in ss ==> inv(step(a, s))
    requires forall a, s :: inv(a) && s in ss ==> Climbs(a, step(a, s), seen, rank)
    ensures Moves(Trace(step, d, ss), seen) <= rank(Trace(step, d, ss)[|ss|]) - rank(d)
  {
    TraceKeeps(step, d, ss, inv);
    var states := Trace(step, d, ss);
    forall k | 0 <= k < |states| - 1 ensures Climbs(states[k], states[k + 1], seen, rank) {
      assert ss[k] in ss && inv(states[k]);
    }
    ClimbingBoundsMoves(states, seen, rank);
  }

  // What flips with a latch that never resets moves once if the latch was set on the way, and
  // otherwise not at all.
  ghost predicate FlipsWith<D, T>(a: D, b: D, seen: D -> T, latch: D -> bool) {
    (latch(a) ==> latch(b)) && (seen(a) != seen(b) <==> latch(a) != latch(b))
  }

  lemma {:induction false} LatchedMovesOnce<D, T>(states: seq<D>, seen: D -> T, latch: D -> bool)
    requires states != []
    requires forall k :: 0 <= k < |states| - 1 ==> FlipsWith(states[k], states[k + 1], seen, latch)
    ensures latch(states[0]) ==> latch(states[|states| - 1])
    ensures Moves(states, seen) == if latch(states[|states| - 1]) && !latch(states[0]) then 1 else 0
    decreases |states|
  {
    if |states| > 1 {
      assert FlipsWith(states[0], states[0 + 1], seen, latch);
      var rest := states[1..];
      forall k | 0 <= k < |rest| - 1 ensures FlipsWith(rest[k], rest[k + 1], seen, latch) {
        assert FlipsWith(states[k + 1], states[k + 1 + 1], seen, latch);
      }
      LatchedMovesOnce(rest, seen, latch);
    }
  }

  lemma {:induction false} RunFlipsOnce<D(!new), S(!new), T>(
      step: (D, S) -> D, d: D, ss: seq<S>, inv: D -> bool, seen: D -> T, latch: D -> bool)
    requires inv(d) && forall a, s :: inv(a) && s in ss ==> inv(step(a, s))
    requires forall a, s :: inv(a) && s in ss ==> FlipsWith(a, step(a, s), seen, latch)
    ensures var states := Trace(step, d, ss);
      Moves(states, seen) == if latch(states[|ss|]) && !latch(d) then 1 else 0
  {
    TraceKeeps(step, d, ss, inv);
    var states := Trace(step, d, ss);
    forall k | 0 <= k < |states| - 1 ensures FlipsWith(states[k], states[k + 1], seen, latch) {
      assert ss[k] in ss && inv(states[k]);
    }
    LatchedMovesOnce(states, seen, latch);
  }
}
