/** What one transaction does to the shelf when nobody is in its way; and from that, that every
    standing hold can be sold, and how exact the clocks must be for nothing to be oversold. */
module InventoryAlone {
  import opened Relational
  import opened PaymentSchema
  import opened Inventory

  /* ---- one transaction, from its locks to its commit ---- */

  lemma {:induction false} ReachesCompose(w: World, before: seq<Event>, after: seq<Event>)
    ensures Reach(w, before + after) == Reach(Reach(w, before), after)
    decreases |before|
  {
    if before == [] {
      assert before + after == after;
    } else {
      assert (before + after)[1..] == before[1..] + after;
      ReachesCompose(Happen(w, before[0]), before[1..], after);
    }
  }

  lemma ThreeSteps(w: World, a: Event, b: Event, c: Event)
    ensures Reach(w, [a, b, c]) == Happen(Happen(Happen(w, a), b), c)
  {
    hide Happen;
    var w1 := Happen(w, a);
    var w2 := Happen(w1, b);
    assert [a, b, c][1..] == [b, c] && [b, c][1..] == [c] && [c][1..] == [];
    assert Reach(w, [a, b, c]) == Reach(w1, [b, c]) == Reach(w2, [c]) == Reach(Happen(w2, c), []);
  }

  function Locks(txn: Id, vs: seq<Id>): seq<Event> {
    if vs == [] then [] else [Lock(txn, vs[0])] + Locks(txn, vs[1..])
  }

  // One transaction on some variants, from its locks to its commit.
  function Alone(txn: Id, vs: seq<Id>, reading: Time, write: Pending, at: Time, newId: Id): seq<Event> {
    Locks(txn, vs) + [Look(txn, reading), Decide(txn, write, at), Commit(txn, newId)]
  }

  ghost predicate Distinct(vs: seq<Id>) { forall i, j :: 0 <= i < j < |vs| ==> vs[i] != vs[j] }

  function HeldBy(txn: Id, vs: seq<Id>): map<Id, Id> { map v | v in vs :: txn }

  lemma LockIsTaken(w: World, txn: Id, v: Id)
    requires v !in w.locks && txn !in w.seen && txn !in w.pending
    ensures Happen(w, Lock(txn, v)) == w.(locks := w.locks[v := txn])
  {
  }

  lemma HeldByOneMore(locks: map<Id, Id>, txn: Id, vs: seq<Id>)
    requires vs != []
    ensures locks[vs[0] := txn] + HeldBy(txn, vs[1..]) == locks + HeldBy(txn, vs)
  {
    assert forall u :: u in vs <==> u == vs[0] || u in vs[1..];
  }

  lemma {:induction false} LocksAreTaken(w: World, txn: Id, vs: seq<Id>)
    requires Distinct(vs) && (forall v :: v in vs ==> v !in w.locks) && txn !in w.seen && txn !in w.pending
    ensures Reach(w, Locks(txn, vs)) == w.(locks := w.locks + HeldBy(txn, vs))
    decreases |vs|
  {
    hide Happen, HeldBy;
    if vs == [] {
      NothingHeld(w.locks, txn);
    } else {
      var v, rest := vs[0], vs[1..];
      var next := w.(locks := w.locks[v := txn]);
      LockIsTaken(w, txn, v);
      assert Locks(txn, vs)[1..] == Locks(txn, rest);
      forall k | 0 <= k < |rest| ensures rest[k] !in next.locks {
        assert vs[k + 1] in vs && vs[0] != vs[k + 1];
      }
      LocksAreTaken(next, txn, rest);
      HeldByOneMore(w.locks, txn, vs);
    }
  }

  lemma NothingHeld(locks: map<Id, Id>, txn: Id)
    ensures locks + HeldBy(txn, []) == locks
  {
  }

  lemma CommitOfTheOnlyOne(w: World, txn: Id, vs: seq<Id>, reading: Time, write: Pending, newId: Id)
    requires w == Idle(w.clocks, w.now, w.stock, w.holds)
    ensures
      var decided := w.(locks := HeldBy(txn, vs), seen := map[txn := reading], pending := map[txn := write]);
      Ended(Wrote(decided, write, newId), txn) == Wrote(w, write, newId)
  {
    var decided := w.(locks := HeldBy(txn, vs), seen := map[txn := reading], pending := map[txn := write]);
    var written := Wrote(decided, write, newId);
    assert written.locks == decided.locks && written.seen == decided.seen && written.pending == decided.pending;
    assert Ended(written, txn).locks == map[];
  }

  // The clock is read, the decision taken and the write committed, under the locks.
  lemma DecidesUnderLocks(w: World, txn: Id, vs: seq<Id>, reading: Time, write: Pending, at: Time, newId: Id)
    requires w == Idle(w.clocks, w.now, w.stock, w.holds)
    requires reading <= w.now + w.clocks.fast && w.now <= reading + w.clocks.slow && newId !in w.holds
    requires Decidable(w.(locks := HeldBy(txn, vs), seen := map[txn := reading]), txn, write, at)
    ensures var locked := w.(locks := HeldBy(txn, vs));
      Happen(Happen(Happen(locked, Look(txn, reading)), Decide(txn, write, at)), Commit(txn, newId))
        == Ended(Wrote(locked.(seen := map[txn := reading], pending := map[txn := write]), write, newId), txn)
  {
    hide Wrote, Ended, Decidable, HeldBy;
    var locked := w.(locks := HeldBy(txn, vs));
    var looked := locked.(seen := map[txn := reading]);
    var decided := looked.(pending := map[txn := write]);
    assert Happen(locked, Look(txn, reading)) == looked;
    assert Happen(looked, Decide(txn, write, at)) == decided;
    assert Happen(decided, Commit(txn, newId)) == Ended(Wrote(decided, write, newId), txn);
  }

  lemma NobodyInTheWay(w: World, txn: Id, vs: seq<Id>, reading: Time, write: Pending, at: Time, newId: Id)
    requires w == Idle(w.clocks, w.now, w.stock, w.holds) && Distinct(vs)
    requires reading <= w.now + w.clocks.fast && w.now <= reading + w.clocks.slow && newId !in w.holds
    requires Decidable(w.(locks := HeldBy(txn, vs), seen := map[txn := reading]), txn, write, at)
    ensures Reach(w, Alone(txn, vs, reading, write, at, newId)) == Wrote(w, write, newId)
  {
    LocksAreTaken(w, txn, vs);
    DecidesUnderLocks(w, txn, vs, reading, write, at, newId);
    CommitOfTheOnlyOne(w, txn, vs, reading, write, newId);
    hide Reach, Wrote, Ended, Decidable, Happen, HeldBy, Distinct;
    var locked := w.(locks := HeldBy(txn, vs));
    assert w.locks + HeldBy(txn, vs) == locked.locks;
    ThreeSteps(locked, Look(txn, reading), Decide(txn, write, at), Commit(txn, newId));
    ReachesCompose(w, Locks(txn, vs), [Look(txn, reading), Decide(txn, write, at), Commit(txn, newId)]);
  }

  /* ---- what every hold is good for ---- */

  lemma Enumerate(s: set<Id>) returns (vs: seq<Id>)
    ensures Distinct(vs) && forall v :: v in vs <==> v in s
    decreases |s|
  {
    if s == {} {
      vs := [];
    } else {
      var v :| v in s;
      var rest := Enumerate(s - {v});
      vs := [v] + rest;
    }
  }

  lemma Above(s: set<Id>) returns (id: Id)
    ensures forall i :: i in s ==> i < id
    decreases |s|
  {
    if s == {} {
      id := 0;
    } else {
      var i :| i in s;
      var rest := Above(s - {i});
      id := if i < rest then rest else i + 1;
      assert forall j :: j in s ==> j == i || j in s - {i};
    }
  }

  // What a shelf holds after a sale of units that were all there.
  function Sold(stock: map<Id, int>, lines: map<Id, int>): map<Id, int> {
    map v | v in stock :: stock[v] - At(lines, v)
  }

  function AfterSale(w: World, h: Id): World
    requires h in w.holds
  {
    w.(holds := w.holds[h := w.holds[h].(status := CONSUMED)], stock := Sold(w.stock, w.holds[h].lines))
  }

  lemma AdmissionGoesThrough(w: World, h: Id, vs: seq<Id>, newId: Id)
    requires w == Idle(w.clocks, w.now, w.stock, w.holds) && h in w.holds && newId !in w.holds
    requires w.holds[h].status == ReservationStatus.ACTIVE && w.now < w.holds[h].expiresAt
    requires Distinct(vs) && forall v :: v in vs <==> v in w.holds[h].lines
    ensures Reach(w, Alone(0, vs, w.now, Committing(h), w.now, newId))
         == w.(holds := w.holds[h := w.holds[h].(status := COMMITTED)])
  {
    var looked := w.(locks := HeldBy(0, vs), seen := map[0 := w.now]);
    assert Decidable(looked, 0, Committing(h), w.now);
    hide Reach, Decidable, Alone, HeldBy, Distinct;
    NobodyInTheWay(w, 0, vs, w.now, Committing(h), w.now, newId);
  }

  lemma SaleGoesThrough(w: World, h: Id, vs: seq<Id>, newId: Id)
    requires Sound(w) && w == Idle(w.clocks, w.now, w.stock, w.holds) && h in w.holds && newId !in w.holds
    requires w.holds[h].status == COMMITTED
    requires Distinct(vs) && forall v :: v in vs <==> v in w.holds[h].lines
    ensures Reach(w, Alone(0, vs, w.now, Consuming(h), w.now, newId)) == AfterSale(w, h)
  {
    var looked := w.(locks := HeldBy(0, vs), seen := map[0 := w.now]);
    assert Decidable(looked, 0, Consuming(h), w.now);
    forall v | v in w.holds[h].lines ensures v in w.stock && w.holds[h].lines[v] <= w.stock[v] {
      CommittedUnitsAreThere(w, h, v);
    }
    assert Lowered(w.stock, w.holds[h].lines) == Sold(w.stock, w.holds[h].lines);
    hide Reach, Decidable, Alone, HeldBy, Distinct, Sound, Lowered, Sold;
    NobodyInTheWay(w, 0, vs, w.now, Consuming(h), w.now, newId);
  }

  // A hold is a promise that is kept: while it stands, and once nobody is in the way, it can be
  // sold, and takes exactly its units off the shelf.
  lemma StandingHoldCanBeSold(w: World, h: Id)
    requires Sound(w) && w == Idle(w.clocks, w.now, w.stock, w.holds)
    requires h in w.holds && Effective(w.holds[h], w.now)
    ensures exists es :: Reach(w, es) == AfterSale(w, h)
  {
    var vs := Enumerate(w.holds[h].lines.Keys);
    var newId := Above(w.holds.Keys);
    if w.holds[h].status == COMMITTED {
      SaleGoesThrough(w, h, vs, newId);
    } else {
      var admission := Alone(0, vs, w.now, Committing(h), w.now, newId);
      AdmissionGoesThrough(w, h, vs, newId);
      RunSound(w, admission);
      var next := w.(holds := w.holds[h := w.holds[h].(status := COMMITTED)]);
      SaleGoesThrough(next, h, vs, newId);
      ReachesCompose(w, admission, Alone(0, vs, w.now, Consuming(h), w.now, newId));
      assert next.holds[h := next.holds[h].(status := CONSUMED)] == w.holds[h := w.holds[h].(status := CONSUMED)];
    }
  }

  /* ---- how exact the clocks must be ---- */

  ghost predicate NeverOversells(clocks: Clocks, start: Time) {
    forall es, v, at :: Uncut(Reach(Opening(clocks, start), es), v) && Reach(Opening(clocks, start), es).now <= at ==>
      Reserved(Reach(Opening(clocks, start), es).holds, v, at) <= Reach(Opening(clocks, start), es).stock[v]
  }

  function OneUnit(checkout: Id, expiresAt: Time): Hold {
    Hold(checkout, ReservationStatus.ACTIVE, expiresAt, map[0 := 1])
  }

  // Variant 0 has one unit in stock.
  function Shelf(clocks: Clocks, now: Time, holds: map<Id, Hold>): World { Idle(clocks, now, map[0 := 1], holds) }

  function Reserve(txn: Id, reading: Time, h: Hold, at: Time, newId: Id): seq<Event> {
    Alone(txn, [0], reading, Reserving(h.checkout, h.expiresAt, h.lines), at, newId)
  }

  lemma ReserveTakesTheUnit(
      clocks: Clocks, now: Time, holds: map<Id, Hold>, txn: Id, reading: Time, h: Hold, at: Time, newId: Id)
    requires reading <= now + clocks.fast && now <= reading + clocks.slow && at <= reading + clocks.ahead
    requires h == OneUnit(h.checkout, h.expiresAt) && !HoldingFor(holds, h.checkout) && newId !in holds
    requires Reserved(holds, 0, at) == 0
    ensures Reach(Shelf(clocks, now, holds), Reserve(txn, reading, h, at, newId))
         == Shelf(clocks, now, holds[newId := h])
  {
    NobodyInTheWay(
      Shelf(clocks, now, holds), txn, [0], reading, Reserving(h.checkout, h.expiresAt, h.lines), at, newId);
  }

  lemma TwoHoldsReserve(a: Hold, b: Hold, at: Time)
    ensures Reserved(map[], 0, at) == 0
    ensures Reserved(map[0 := a], 0, at) == Claim(0, at)(a)
    ensures Reserved(map[0 := a, 1 := b], 0, at) == Claim(0, at)(a) + Claim(0, at)(b)
  {
    var none: map<Id, Hold> := map[];
    SumWritten(none, Claim(0, at), 0, a);
    SumWritten(map[0 := a], Claim(0, at), 1, b);
    assert none[0 := a] == map[0 := a] && map[0 := a][1 := b] == map[0 := a, 1 := b];
  }

  // An empty shelf gets one unit, and somebody holds it for one instant.
  function HeldForAnInstant(start: Time): seq<Event> {
    [Restock(0, 1)] + Reserve(1, start, OneUnit(0, start + 1), start, 0)
  }

  lemma OneUnitIsHeld(clocks: Clocks, start: Time)
    ensures Reach(Opening(clocks, start), HeldForAnInstant(start))
         == Shelf(clocks, start, map[0 := OneUnit(0, start + 1)])
  {
    var first := OneUnit(0, start + 1);
    ReachesCompose(Opening(clocks, start), [Restock(0, 1)], Reserve(1, start, first, start, 0));
    TwoHoldsReserve(first, first, start);
    ReserveTakesTheUnit(clocks, start, map[], 1, start, first, start, 0);
  }

  // Counting an instant ahead takes a standing hold for a lapsed one.
  lemma CountingAheadOversells(clocks: Clocks, start: Time)
    requires clocks.fast + clocks.ahead > 0
    ensures !NeverOversells(clocks, start)
  {
    var first, second := OneUnit(0, start + 1), OneUnit(1, start + 2);
    var again := Reserve(2, start + clocks.fast, second, start + 1, 1);
    var es := HeldForAnInstant(start) + again;
    ReachesCompose(Opening(clocks, start), HeldForAnInstant(start), again);
    OneUnitIsHeld(clocks, start);
    TwoHoldsReserve(first, second, start + 1);
    ReserveTakesTheUnit(clocks, start, map[0 := first], 2, start + clocks.fast, second, start + 1, 1);
    TwoHoldsReserve(first, second, start);
    assert Uncut(Reach(Opening(clocks, start), es), 0);
    assert Reserved(Reach(Opening(clocks, start), es).holds, 0, start) == 2;
  }

  // Somebody holds the unit, the hold lapses, and somebody else holds the unit.
  function HeldTwice(start: Time): seq<Event> {
    HeldForAnInstant(start) + [Tick(start + 1)] + Reserve(2, start + 1, OneUnit(1, start + 2), start + 1, 1)
  }

  lemma TheUnitIsHeldAgain(clocks: Clocks, start: Time)
    ensures Reach(Opening(clocks, start), HeldTwice(start))
         == Shelf(clocks, start + 1, map[0 := OneUnit(0, start + 1), 1 := OneUnit(1, start + 2)])
  {
    var first, second := OneUnit(0, start + 1), OneUnit(1, start + 2);
    var opening, early := Opening(clocks, start), HeldForAnInstant(start);
    ReachesCompose(opening, early, [Tick(start + 1)]);
    ReachesCompose(opening, early + [Tick(start + 1)], Reserve(2, start + 1, second, start + 1, 1));
    OneUnitIsHeld(clocks, start);
    TwoHoldsReserve(first, second, start + 1);
    ReserveTakesTheUnit(clocks, start + 1, map[0 := first], 2, start + 1, second, start + 1, 1);
    assert map[0 := first][1 := second] == map[0 := first, 1 := second];
  }

  // A clock that is behind admits a hold that has lapsed, and whose unit was held again since.
  lemma ClocksBehindOversell(clocks: Clocks, start: Time)
    requires clocks.slow > 0
    ensures !NeverOversells(clocks, start)
  {
    var first, second := OneUnit(0, start + 1), OneUnit(1, start + 2);
    var admit := Alone(3, [0], start, Committing(0), start, 2);
    var es := HeldTwice(start) + admit;
    ReachesCompose(Opening(clocks, start), HeldTwice(start), admit);
    TheUnitIsHeldAgain(clocks, start);
    var both := Shelf(clocks, start + 1, map[0 := first, 1 := second]);
    NobodyInTheWay(both, 3, [0], start, Committing(0), start, 2);
    var committed := first.(status := COMMITTED);
    assert Reach(Opening(clocks, start), es).holds == map[0 := committed, 1 := second];
    TwoHoldsReserve(committed, second, start + 1);
    assert Uncut(Reach(Opening(clocks, start), es), 0);
    assert Reserved(Reach(Opening(clocks, start), es).holds, 0, start + 1) == 2;
  }

  // One clock, read exactly, and no count ahead of it: that is what keeps a variant from being
  // promised twice, and nothing less does.
  lemma OneClockIsExactlyWhatIsNeeded(clocks: Clocks, start: Time)
    ensures NeverOversells(clocks, start) <==> clocks == EXACT
  {
    if clocks == EXACT {
      forall es, v, at |
        Uncut(Reach(Opening(clocks, start), es), v) && Reach(Opening(clocks, start), es).now <= at
        ensures Reserved(Reach(Opening(clocks, start), es).holds, v, at) <= Reach(Opening(clocks, start), es).stock[v]
      {
        NeverOversold(start, es, v, at);
      }
    } else if clocks.slow > 0 {
      ClocksBehindOversell(clocks, start);
    } else {
      CountingAheadOversells(clocks, start);
    }
  }
}
