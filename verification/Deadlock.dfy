/** What the lock order is for: transactions that take rows in it, and keep them to commit,
    never deadlock and all finish; and nothing weaker than it will do. */
module Deadlock {
  import opened LockOrder

  // A row of one of the ordered classes: an index into LOCK_ORDER and a primary key.
  datatype Row = Row(cls: nat, id: nat)

  // The rows a transaction locks, in order, repeats included. It commits after the last.
  type Program = p: seq<Row> | forall i :: 0 <= i < |p| ==> p[i].cls < |LOCK_ORDER| witness []

  predicate Below(a: Row, b: Row) {
    a.cls < b.cls || (a.cls == b.cls && a.id < b.id)
  }

  ghost predicate FirstLock(p: Program, i: int) {
    0 <= i < |p| && p[i] !in p[..i]
  }

  // Rows are first locked upwards: by class, and by identifier within a class.
  ghost predicate Ordered(p: Program) {
    forall i, j :: i < j && FirstLock(p, i) && FirstLock(p, j) ==> Below(p[i], p[j])
  }

  /* ---- the machine: one exclusive lock per row, held to commit ---- */

  // pc[t] locks taken; |p| + 1 once committed, when everything is released.
  type Counters = seq<nat>

  ghost predicate State(ps: seq<Program>, pc: Counters) {
    |pc| == |ps| && forall t :: 0 <= t < |pc| ==> pc[t] <= |ps[t]| + 1
  }

  ghost predicate Finished(ps: seq<Program>, pc: Counters, t: int)
    requires State(ps, pc) && 0 <= t < |ps|
  {
    pc[t] == |ps[t]| + 1
  }

  ghost predicate Holds(ps: seq<Program>, pc: Counters, t: int, r: Row)
    requires State(ps, pc)
  {
    0 <= t < |ps| && !Finished(ps, pc, t) && r in ps[t][..pc[t]]
  }

  // t asks for a row u holds. Asking for a row t itself holds never waits.
  ghost predicate Waits(ps: seq<Program>, pc: Counters, t: int, u: int)
    requires State(ps, pc)
  {
    0 <= t < |ps| && 0 <= u < |ps| && t != u && pc[t] < |ps[t]| && Holds(ps, pc, u, ps[t][pc[t]])
  }

  ghost predicate Enabled(ps: seq<Program>, pc: Counters, t: int)
    requires State(ps, pc)
  {
    0 <= t < |ps| && !Finished(ps, pc, t) && forall u :: !Waits(ps, pc, t, u)
  }

  ghost predicate Exclusive(ps: seq<Program>, pc: Counters)
    requires State(ps, pc)
  {
    forall t, u, r :: Holds(ps, pc, t, r) && Holds(ps, pc, u, r) ==> t == u
  }

  ghost function Start(ps: seq<Program>): (pc: Counters)
    ensures State(ps, pc)
  {
    seq(|ps|, _ => 0)
  }

  // A schedule names who takes each step, and only an enabled transaction may.
  ghost predicate Legal(ps: seq<Program>, pc: Counters, schedule: seq<nat>)
    requires State(ps, pc)
    decreases |schedule|
  {
    schedule == [] ||
    (Enabled(ps, pc, schedule[0]) && Legal(ps, pc[schedule[0] := pc[schedule[0]] + 1], schedule[1..]))
  }

  ghost function After(ps: seq<Program>, pc: Counters, schedule: seq<nat>): (end: Counters)
    requires State(ps, pc) && Legal(ps, pc, schedule)
    ensures State(ps, end)
    decreases |schedule|
  {
    if schedule == [] then pc else After(ps, pc[schedule[0] := pc[schedule[0]] + 1], schedule[1..])
  }

  lemma StepStaysExclusive(ps: seq<Program>, pc: Counters, t: nat)
    requires State(ps, pc) && Exclusive(ps, pc) && Enabled(ps, pc, t)
    ensures State(ps, pc[t := pc[t] + 1]) && Exclusive(ps, pc[t := pc[t] + 1])
  {
    var next := pc[t := pc[t] + 1];
    forall v, r | Holds(ps, next, v, r)
      ensures Holds(ps, pc, v, r) || (v == t && pc[t] < |ps[t]| && r == ps[t][pc[t]])
    {
      if v == t {
        assert ps[t][..next[t]] == ps[t][..pc[t]] + [ps[t][pc[t]]];
      }
    }
    if pc[t] < |ps[t]| {
      forall u | Holds(ps, pc, u, ps[t][pc[t]]) ensures u == t {
        assert !Waits(ps, pc, t, u);
      }
    }
  }

  lemma {:induction false} RunsStayExclusive(ps: seq<Program>, pc: Counters, schedule: seq<nat>)
    requires State(ps, pc) && Exclusive(ps, pc) && Legal(ps, pc, schedule)
    ensures Exclusive(ps, After(ps, pc, schedule))
    decreases |schedule|
  {
    if schedule != [] {
      StepStaysExclusive(ps, pc, schedule[0]);
      RunsStayExclusive(ps, pc[schedule[0] := pc[schedule[0]] + 1], schedule[1..]);
    }
  }

  /* ---- ordered transactions cannot deadlock ---- */

  // Whoever is waited for, and itself waits, waits for a higher row.
  lemma WaitsClimb(ps: seq<Program>, pc: Counters, t: int, u: int, v: int)
    requires State(ps, pc) && Exclusive(ps, pc)
    requires Waits(ps, pc, t, u) && Waits(ps, pc, u, v) && Ordered(ps[u])
    ensures Below(ps[t][pc[t]], ps[u][pc[u]])
  {
    var p, n, r := ps[u], pc[u], ps[t][pc[t]];
    var i := FirstIndex(p[..n], r);
    assert p[..n][..i] == p[..i];
    assert FirstLock(p, i) && p[i] == r;
    assert Holds(ps, pc, v, p[n]) && !Holds(ps, pc, u, p[n]);
    assert FirstLock(p, n);
  }

  lemma FirstIndex(p: seq<Row>, r: Row) returns (i: nat)
    requires r in p
    ensures i < |p| && p[i] == r && r !in p[..i]
  {
    i := 0;
    while p[i] != r
      invariant i < |p| && r !in p[..i]
      decreases |p| - i
    {
      assert p[..i + 1] == p[..i] + [p[i]];
      assert p[..|p|] == p;
      i := i + 1;
    }
  }

  // A wait-for cycle: each member waits for the next, the last for the first.
  ghost predicate WaitCycle(ps: seq<Program>, pc: Counters, cycle: seq<nat>)
    requires State(ps, pc)
  {
    |cycle| > 0 && forall k :: 0 <= k < |cycle| ==> Waits(ps, pc, cycle[k], Next(cycle, k))
  }

  function Next(cycle: seq<nat>, k: nat): nat
    requires k < |cycle|
  {
    if k + 1 < |cycle| then cycle[k + 1] else cycle[0]
  }

  // No sequence of rows climbs all the way round.
  lemma {:induction false} ClimbIsNotCyclic(rows: seq<Row>, k: nat)
    requires k < |rows| && forall i :: 0 < i < |rows| ==> Below(rows[i - 1], rows[i])
    ensures k > 0 ==> Below(rows[0], rows[k])
  {
    if k > 0 {
      ClimbIsNotCyclic(rows, k - 1);
    }
  }

  lemma NoWaitCycle(ps: seq<Program>, schedule: seq<nat>, cycle: seq<nat>)
    requires forall t :: 0 <= t < |ps| ==> Ordered(ps[t])
    requires Legal(ps, Start(ps), schedule)
    ensures !WaitCycle(ps, After(ps, Start(ps), schedule), cycle)
  {
    RunsStayExclusive(ps, Start(ps), schedule);
    var pc := After(ps, Start(ps), schedule);
    if WaitCycle(ps, pc, cycle) {
      var rows := seq(|cycle|, k requires 0 <= k < |cycle| => Wanted(ps, pc, cycle, k));
      forall k | 0 <= k < |cycle| ensures Below(rows[k], rows[if k + 1 < |cycle| then k + 1 else 0]) {
        CycleStepClimbs(ps, pc, cycle, k);
      }
      ClimbIsNotCyclic(rows, |cycle| - 1);
    }
  }

  ghost function Wanted(ps: seq<Program>, pc: Counters, cycle: seq<nat>, k: nat): Row
    requires State(ps, pc) && WaitCycle(ps, pc, cycle) && k < |cycle|
  {
    assert Waits(ps, pc, cycle[k], Next(cycle, k));
    ps[cycle[k]][pc[cycle[k]]]
  }

  lemma CycleStepClimbs(ps: seq<Program>, pc: Counters, cycle: seq<nat>, k: nat)
    requires State(ps, pc) && Exclusive(ps, pc) && WaitCycle(ps, pc, cycle) && k < |cycle|
    requires forall t :: 0 <= t < |ps| ==> Ordered(ps[t])
    ensures Below(Wanted(ps, pc, cycle, k), Wanted(ps, pc, cycle, if k + 1 < |cycle| then k + 1 else 0))
  {
    var n := if k + 1 < |cycle| then k + 1 else 0;
    assert Waits(ps, pc, cycle[k], Next(cycle, k)) && Next(cycle, k) == cycle[n];
    assert Waits(ps, pc, cycle[n], Next(cycle, n));
    WaitsClimb(ps, pc, cycle[k], cycle[n], Next(cycle, n));
  }

  ghost predicate AllFinished(ps: seq<Program>, pc: Counters)
    requires State(ps, pc)
  {
    forall t :: 0 <= t < |ps| ==> Finished(ps, pc, t)
  }

  ghost function Everybody(n: nat): (s: set<int>)
    ensures forall t :: t in s <==> 0 <= t < n
  {
    if n == 0 then {} else Everybody(n - 1) + {n - 1}
  }

  // Follow who-waits-for-whom from t: rows climb, so nobody is met twice, so it ends.
  lemma SomebodyCanStep(ps: seq<Program>, pc: Counters, t: int, met: set<int>) returns (e: nat)
    requires State(ps, pc) && Exclusive(ps, pc)
    requires forall u :: 0 <= u < |ps| ==> Ordered(ps[u])
    requires 0 <= t < |ps| && !Finished(ps, pc, t)
    requires met <= Everybody(|ps|) && forall u :: u in met ==> pc[u] < |ps[u]|
    requires !Enabled(ps, pc, t) ==>
      pc[t] < |ps[t]| && forall u :: u in met ==> Below(ps[u][pc[u]], ps[t][pc[t]])
    ensures Enabled(ps, pc, e)
    decreases Everybody(|ps|) - met
  {
    if Enabled(ps, pc, t) {
      e := t;
    } else {
      var u :| Waits(ps, pc, t, u);
      if !Enabled(ps, pc, u) {
        var v :| Waits(ps, pc, u, v);
        WaitsClimb(ps, pc, t, u, v);
      }
      assert t in Everybody(|ps|) - met;
      e := SomebodyCanStep(ps, pc, u, met + {t});
    }
  }

  ghost function Work(ps: seq<Program>, pc: Counters): nat
    requires State(ps, pc)
  {
    if ps == [] then 0 else |ps[0]| + 1 - pc[0] + Work(ps[1..], pc[1..])
  }

  lemma {:induction false} StepDoesWork(ps: seq<Program>, pc: Counters, t: nat)
    requires State(ps, pc) && t < |ps| && !Finished(ps, pc, t)
    ensures State(ps, pc[t := pc[t] + 1]) && Work(ps, pc[t := pc[t] + 1]) == Work(ps, pc) - 1
  {
    var next := pc[t := pc[t] + 1];
    if t == 0 {
      assert next[1..] == pc[1..];
    } else {
      StepDoesWork(ps[1..], pc[1..], t - 1);
      assert next[1..] == pc[1..][t - 1 := pc[1..][t - 1] + 1];
    }
  }

  // From any state a run can be finished, and no run is longer than the work there was.
  lemma {:induction false} CanFinish(ps: seq<Program>, pc: Counters) returns (rest: seq<nat>)
    requires State(ps, pc) && Exclusive(ps, pc)
    requires forall t :: 0 <= t < |ps| ==> Ordered(ps[t])
    ensures Legal(ps, pc, rest) && AllFinished(ps, After(ps, pc, rest))
    decreases Work(ps, pc)
  {
    if AllFinished(ps, pc) {
      rest := [];
    } else {
      var t :| 0 <= t < |ps| && !Finished(ps, pc, t);
      var e := SomebodyCanStep(ps, pc, t, {});
      StepDoesWork(ps, pc, e);
      StepStaysExclusive(ps, pc, e);
      var more := CanFinish(ps, pc[e := pc[e] + 1]);
      rest := [e] + more;
      assert rest[1..] == more;
    }
  }

  lemma {:induction false} RunsAreBounded(ps: seq<Program>, pc: Counters, schedule: seq<nat>)
    requires State(ps, pc) && Legal(ps, pc, schedule)
    ensures |schedule| + Work(ps, After(ps, pc, schedule)) == Work(ps, pc)
    decreases |schedule|
  {
    if schedule != [] {
      StepDoesWork(ps, pc, schedule[0]);
      RunsAreBounded(ps, pc[schedule[0] := pc[schedule[0]] + 1], schedule[1..]);
    }
  }

  lemma {:induction false} LegalConcat(ps: seq<Program>, pc: Counters, a: seq<nat>, b: seq<nat>)
    requires State(ps, pc) && Legal(ps, pc, a) && Legal(ps, After(ps, pc, a), b)
    ensures Legal(ps, pc, a + b) && After(ps, pc, a + b) == After(ps, After(ps, pc, a), b)
    decreases |a|
  {
    if a == [] {
      assert a + b == b;
    } else {
      LegalConcat(ps, pc[a[0] := pc[a[0]] + 1], a[1..], b);
      assert (a + b)[1..] == a[1..] + b;
    }
  }

  // The promise: however many ordered transactions, however they were interleaved so far,
  // no deadlock can be reached. Somebody unfinished can always step, and whoever steps the
  // run ends, within a bound fixed at the start, with every transaction committed.
  lemma OrderedTransactionsFinish(ps: seq<Program>, schedule: seq<nat>)
    requires forall t :: 0 <= t < |ps| ==> Ordered(ps[t])
    requires Legal(ps, Start(ps), schedule)
    ensures |schedule| <= Work(ps, Start(ps))
    ensures var pc := After(ps, Start(ps), schedule);
      AllFinished(ps, pc) || exists e: nat :: Enabled(ps, pc, e)
    ensures exists rest ::
      Legal(ps, Start(ps), schedule + rest) && AllFinished(ps, After(ps, Start(ps), schedule + rest))
  {
    var pc := After(ps, Start(ps), schedule);
    RunsStayExclusive(ps, Start(ps), schedule);
    RunsAreBounded(ps, Start(ps), schedule);
    if !AllFinished(ps, pc) {
      var t :| 0 <= t < |ps| && !Finished(ps, pc, t);
      var e := SomebodyCanStep(ps, pc, t, {});
    }
    var rest := CanFinish(ps, pc);
    LegalConcat(ps, Start(ps), schedule, rest);
  }

  /* ---- and nothing weaker will do ---- */

  ghost predicate DeadlocksWith(p: Program, q: Program, schedule: seq<nat>) {
    && Legal([p, q], Start([p, q]), schedule)
    && Waits([p, q], After([p, q], Start([p, q]), schedule), 0, 1)
    && Waits([p, q], After([p, q], Start([p, q]), schedule), 1, 0)
  }

  // A transaction that takes two rows out of order can be deadlocked by one that does not:
  // the partner locks the same two rows the right way round.
  lemma DisorderDeadlocks(p: Program) returns (q: Program, schedule: seq<nat>)
    requires !Ordered(p)
    ensures Ordered(q) && DeadlocksWith(p, q, schedule)
  {
    var i, j :| i < j && FirstLock(p, i) && FirstLock(p, j) && !Below(p[i], p[j]);
    q := [p[j], p[i]];
    assert Below(p[j], p[i]);
    var ps := [p, q];
    var alone := RunAlone(p, q, j);
    assert Legal(ps, [j, 0], [1]) by {
      assert Enabled(ps, [j, 0], 1);
      assert [1][1..] == [];
    }
    assert [j, 0][1 := 1] == [j, 1];
    assert After(ps, [j, 0], [1]) == [j, 1] by { assert [1][1..] == []; }
    LegalConcat(ps, Start(ps), alone, [1]);
    schedule := alone + [1];
    assert q[..1] == [p[j]];
    assert p[i] in p[..j];
  }

  lemma {:induction false} RunAlone(p: Program, q: Program, n: nat) returns (schedule: seq<nat>)
    requires n <= |p|
    ensures Legal([p, q], Start([p, q]), schedule) && After([p, q], Start([p, q]), schedule) == [n, 0]
  {
    var ps := [p, q];
    if n == 0 {
      schedule := [];
      assert Start(ps) == [0, 0];
    } else {
      var before := RunAlone(p, q, n - 1);
      assert Enabled(ps, [n - 1, 0], 0);
      assert [0][1..] == [] && [n - 1, 0][0 := n] == [n, 0];
      LegalConcat(ps, Start(ps), before, [0]);
      schedule := before + [0];
    }
  }

  // So the order is exactly the requirement on one transaction, its partners being ordered.
  lemma OrderIsExactlyWhatIsNeeded(p: Program)
    ensures Ordered(p) <==> forall q: Program, schedule :: Ordered(q) ==> !DeadlocksWith(p, q, schedule)
  {
    if Ordered(p) {
      forall q: Program, schedule | Ordered(q) ensures !DeadlocksWith(p, q, schedule) {
        if DeadlocksWith(p, q, schedule) {
          assert Next([0, 1], 0) == 1 && Next([0, 1], 1) == 0;
          NoWaitCycle([p, q], schedule, [0, 1]);
        }
      }
    } else {
      var q, schedule := DisorderDeadlocks(p);
    }
  }

  /* ---- what the table-level check sees of it ---- */

  function Tables(p: Program): (r: seq<string>)
    ensures |r| == |p| && forall i :: 0 <= i < |p| ==> r[i] == LOCK_ORDER[p[i].cls]
  {
    seq(|p|, i requires 0 <= i < |p| => LOCK_ORDER[p[i].cls])
  }

  // The part the check cannot see: a new row of a class already locked comes with a higher
  // identifier, and before any row of a later class.
  ghost predicate NewRowsAscend(p: Program) {
    forall i, j :: 0 <= i < j < |p| && p[i].cls == p[j].cls && FirstLock(p, j) ==>
      p[i].id < p[j].id && forall k :: 0 <= k < j ==> p[k].cls <= p[j].cls
  }

  lemma TableCheckPlusNewRows(p: Program)
    ensures Ordered(p) <==> InLockOrder(Tables(p)) && NewRowsAscend(p)
  {
    if Ordered(p) {
      OrderedImpliesChecks(p);
    }
    if InLockOrder(Tables(p)) && NewRowsAscend(p) {
      ChecksImplyOrdered(p);
    }
  }

  lemma OrderedImpliesChecks(p: Program)
    requires Ordered(p)
    ensures InLockOrder(Tables(p)) && NewRowsAscend(p)
  {
    var ts := Tables(p);
    forall i, j | i < j && FirstOfClass(ts, i) && FirstOfClass(ts, j)
      ensures Index(ts[i]) < Index(ts[j])
    {
      IndexInverts(p[i].cls);
      IndexInverts(p[j].cls);
      assert forall k, n :: 0 <= k < n < |p| ==> ts[..n][k] == ts[k];
      assert FirstLock(p, i) && FirstLock(p, j);
      assert ts[i] in ts[..j];
    }
    forall i, j | 0 <= i < j < |p| && p[i].cls == p[j].cls && FirstLock(p, j)
      ensures p[i].id < p[j].id && forall k :: 0 <= k < j ==> p[k].cls <= p[j].cls
    {
      forall k | 0 <= k < j ensures Below(p[k], p[j]) {
        var f := FirstIndex(p[..k + 1], p[k]);
        assert p[..k + 1][..f] == p[..f];
        assert FirstLock(p, f) && f < j;
      }
    }
  }

  lemma SameTableSameClass(p: Program, i: nat, j: nat)
    requires i < |p| && j < |p|
    ensures Tables(p)[i] in LOCK_ORDER && Index(Tables(p)[i]) == p[i].cls
    ensures Tables(p)[i] == Tables(p)[j] <==> p[i].cls == p[j].cls
  {
    IndexInverts(p[i].cls);
    IndexInverts(p[j].cls);
  }

  // Where the class of row i was first locked.
  lemma ClassFirstTaken(p: Program, i: nat) returns (f: nat)
    requires i < |p|
    ensures f <= i && FirstOfClass(Tables(p), f) && Tables(p)[f] == Tables(p)[i]
  {
    var ts := Tables(p);
    SameTableSameClass(p, i, i);
    assert ts[..i + 1][i] == ts[i];
    FirstExists(ts[..i + 1], ts[i]);
    f :| FirstOfClass(ts[..i + 1], f) && ts[..i + 1][f] == ts[i];
    assert ts[..i + 1][..f] == ts[..f];
  }

  lemma ClassesClimb(p: Program, i: nat, j: nat)
    requires InLockOrder(Tables(p)) && NewRowsAscend(p)
    requires i < j < |p| && FirstLock(p, j) && p[i].cls != p[j].cls
    ensures p[i].cls < p[j].cls
  {
    var f := ClassFirstTaken(p, i);
    var g := ClassFirstTaken(p, j);
    SameTableSameClass(p, f, i);
    SameTableSameClass(p, g, j);
    if g < j {
      assert p[g].cls == p[j].cls;
    } else {
      assert Index(Tables(p)[f]) < Index(Tables(p)[g]);
    }
  }

  lemma ChecksImplyOrdered(p: Program)
    requires InLockOrder(Tables(p)) && NewRowsAscend(p)
    ensures Ordered(p)
  {
    forall i, j | i < j && FirstLock(p, i) && FirstLock(p, j) ensures Below(p[i], p[j]) {
      if p[i].cls != p[j].cls {
        ClassesClimb(p, i, j);
      }
    }
  }

  // The premise as documented: one row per class, except Variant rows, ascending.
  ghost predicate DocumentedPremise(p: Program) {
    forall i, j :: 0 <= i < j < |p| && p[i].cls == p[j].cls && FirstLock(p, j) ==>
      LOCK_ORDER[p[j].cls] == VARIANT && p[i].id < p[j].id
  }

  lemma LateVariantIsSkipped(p: Program)
    requires p == [Row(2, 1), Row(3, 5), Row(2, 2)]
    ensures DocumentedPremise(p) && InLockOrder(Tables(p)) && !Ordered(p)
  {
    assert p[..0] == [] && p[..1] == [Row(2, 1)] && p[..2] == [Row(2, 1), Row(3, 5)];
    assert FirstLock(p, 1) && FirstLock(p, 2) && !Below(p[1], p[2]);
    var ts := Tables(p);
    assert ts[..2][0] == ts[2];
    assert !FirstOfClass(ts, 2);
    IndexInverts(2);
    IndexInverts(3);
  }

  // It leaves a gap. Every rule stated is obeyed here, and it deadlocks: the second variant
  // is taken after the reservation, and the check skips it as a class already seen.
  lemma DocumentedPremiseIsNotEnough() returns (p: Program, q: Program, schedule: seq<nat>)
    ensures DocumentedPremise(p) && InLockOrder(Tables(p))
    ensures DocumentedPremise(q) && InLockOrder(Tables(q)) && Ordered(q)
    ensures DeadlocksWith(p, q, schedule)
  {
    p := [Row(2, 1), Row(3, 5), Row(2, 2)];
    LateVariantIsSkipped(p);
    q, schedule := SmallPartner(p);
    TableCheckPlusNewRows(q);
  }

  lemma SmallPartner(p: Program) returns (q: Program, schedule: seq<nat>)
    requires !Ordered(p) && p == [Row(2, 1), Row(3, 5), Row(2, 2)]
    ensures Ordered(q) && DeadlocksWith(p, q, schedule) && DocumentedPremise(q)
  {
    var j := 2;
    q := [Row(2, 2), Row(3, 5)];
    var ps := [p, q];
    var alone := RunAlone(p, q, j);
    assert Enabled(ps, [j, 0], 1);
    assert [1][1..] == [] && [j, 0][1 := 1] == [j, 1];
    LegalConcat(ps, Start(ps), alone, [1]);
    schedule := alone + [1];
    assert q[..1] == [Row(2, 2)] && p[..2] == [Row(2, 1), Row(3, 5)];
  }
}
