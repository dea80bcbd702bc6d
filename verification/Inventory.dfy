/** Holding stock: reservations written while their variant rows are locked never add up to more
    than there is, however preparations, admissions, sales and releases interleave. */
module Inventory {
  import opened Relational
  import opened PaymentSchema

  // A reservation with its lines, as units per variant.
  datatype Hold = Hold(checkout: Id, status: ReservationStatus, expiresAt: Time, lines: map<Id, int>)

  predicate Effective(h: Hold, at: Time) {
    h.status == COMMITTED || (h.status == ReservationStatus.ACTIVE && at < h.expiresAt)
  }

  ghost function Claim(v: Id, at: Time): Hold -> int {
    (h: Hold) => if v in h.lines && Effective(h, at) then h.lines[v] else 0
  }

  // Units of a variant held by reservations effective at an instant.
  ghost function Reserved(holds: map<Id, Hold>, v: Id, at: Time): int { SumBy(holds, Claim(v, at)) }

  /* ---- the two loops ---- */

  datatype Violation = Violation(variant: Id, requested: int, available: int)

  function At(units: map<Id, int>, v: Id): int { if v in units then units[v] else 0 }

  // Units of a variant that nothing holds; negative if more is held than there is.
  function Free(stock: map<Id, int>, reserved: map<Id, int>, v: Id): int { At(stock, v) - At(reserved, v) }

  predicate Fits(stock: map<Id, int>, reserved: map<Id, int>, v: Id, units: int) {
    units <= Free(stock, reserved, v)
  }

  // The lines reported, by position: those that ask for more than is free, in quoted order, each
  // under its own variant and quantity, and with the number of units that would have fitted.
  ghost predicate Reported(
      stock: map<Id, int>, reserved: map<Id, int>, lines: seq<(Id, int)>, found: seq<Violation>, picks: seq<nat>)
  {
    && |picks| == |found|
    && (forall a, b :: 0 <= a < b < |picks| ==> picks[a] < picks[b])
    && (forall n: nat :: n in picks <==> n < |lines| && !Fits(stock, reserved, lines[n].0, lines[n].1))
    && (forall k :: 0 <= k < |found| && picks[k] < |lines| ==>
          found[k].variant == lines[picks[k]].0 && found[k].requested == lines[picks[k]].1)
    && (forall f :: f in found ==> FitsUpTo(stock, reserved, f.variant, f.available))
  }

  // A line of so many units fits, one of more does not; none at all when nothing is free.
  ghost predicate FitsUpTo(stock: map<Id, int>, reserved: map<Id, int>, v: Id, available: int) {
    available >= 0 && forall units: int | units > 0 :: Fits(stock, reserved, v, units) <==> units <= available
  }

  lemma ReportOneMore(
      stock: map<Id, int>, reserved: map<Id, int>, lines: seq<(Id, int)>, n: nat,
      found: seq<Violation>, picks: seq<nat>, f: Violation)
    requires n < |lines| && Reported(stock, reserved, lines[..n], found, picks)
    requires f.variant == lines[n].0 && f.requested == lines[n].1 && !Fits(stock, reserved, f.variant, f.requested)
    requires FitsUpTo(stock, reserved, f.variant, f.available)
    ensures Reported(stock, reserved, lines[..n + 1], found + [f], picks + [n])
  {
    var upTo := lines[..n + 1];
    assert forall m :: 0 <= m < n ==> upTo[m] == lines[..n][m];
    forall k | 0 <= k < |picks| ensures picks[k] < n {
      assert picks[k] in picks;
    }
    forall m: nat ensures m in picks + [n] <==> m < |upTo| && !Fits(stock, reserved, upTo[m].0, upTo[m].1) {
      assert m in picks + [n] <==> m in picks || m == n;
    }
  }

  lemma ReportNoMore(
      stock: map<Id, int>, reserved: map<Id, int>, lines: seq<(Id, int)>, n: nat,
      found: seq<Violation>, picks: seq<nat>)
    requires n < |lines| && Reported(stock, reserved, lines[..n], found, picks)
    requires Fits(stock, reserved, lines[n].0, lines[n].1)
    ensures Reported(stock, reserved, lines[..n + 1], found, picks)
  {
    var upTo := lines[..n + 1];
    assert forall m :: 0 <= m < n ==> upTo[m] == lines[..n][m];
    forall k | 0 <= k < |picks| ensures picks[k] < n {
      assert picks[k] in picks;
    }
  }

  method Shortfalls(lines: seq<(Id, int)>, stock: map<Id, int>, reserved: map<Id, int>)
    returns (found: seq<Violation>)
    requires forall line :: line in lines ==> line.1 > 0
    ensures exists picks :: Reported(stock, reserved, lines, found, picks)
    ensures found == [] <==> forall line :: line in lines ==> line.1 <= At(stock, line.0) - At(reserved, line.0)
    ensures forall f :: f in found ==> 0 <= f.available < f.requested
  {
    found := [];
    ghost var picks: seq<nat> := [];
    for n := 0 to |lines|
      invariant Reported(stock, reserved, lines[..n], found, picks)
    {
      var available := At(stock, lines[n].0) - At(reserved, lines[n].0);
      if lines[n].1 > available {
        var f := Violation(lines[n].0, lines[n].1, if available > 0 then available else 0);
        ReportOneMore(stock, reserved, lines, n, found, picks, f);
        found, picks := found + [f], picks + [n];
      } else {
        ReportNoMore(stock, reserved, lines, n, found, picks);
      }
    }
    assert lines[..|lines|] == lines;
    ReportsSaySo(stock, reserved, lines, found, picks);
  }

  lemma ReportsSaySo(
      stock: map<Id, int>, reserved: map<Id, int>, lines: seq<(Id, int)>, found: seq<Violation>, picks: seq<nat>)
    requires forall line :: line in lines ==> line.1 > 0
    requires Reported(stock, reserved, lines, found, picks)
    ensures found == [] <==> forall line :: line in lines ==> Fits(stock, reserved, line.0, line.1)
    ensures forall f :: f in found ==> 0 <= f.available < f.requested
  {
    if found == [] {
      forall line | line in lines ensures Fits(stock, reserved, line.0, line.1) {
        var n: nat :| n < |lines| && lines[n] == line;
        assert n !in picks;
      }
    } else {
      assert picks[0] in picks && lines[picks[0]] in lines;
    }
    forall f | f in found ensures 0 <= f.available < f.requested {
      var k :| 0 <= k < |found| && found[k] == f;
      assert picks[k] in picks && lines[picks[k]] in lines;
      assert !Fits(stock, reserved, f.variant, f.requested) && FitsUpTo(stock, reserved, f.variant, f.available);
    }
  }

  // What taking units off the shelf leaves, clamped at zero.
  function Lowered(stock: map<Id, int>, lines: map<Id, int>): map<Id, int> {
    map v | v in stock :: if v !in lines then stock[v] else if lines[v] < stock[v] then stock[v] - lines[v] else 0
  }

  function Missing(stock: map<Id, int>, lines: map<Id, int>): map<Id, int> {
    map v | v in lines && At(stock, v) < lines[v] :: lines[v] - At(stock, v)
  }

  // What was asked for left the shelf or is missing, and is missing only from an empty shelf;
  // what was not asked for is untouched.
  ghost predicate TakenOrMissing(
      stock: map<Id, int>, lines: map<Id, int>, left: map<Id, int>, missing: map<Id, int>)
  {
    && left.Keys == stock.Keys && missing.Keys <= lines.Keys
    && (forall v :: v in stock && v !in lines ==> left[v] == stock[v])
    && (forall v :: v in stock && v in lines ==> 0 <= left[v] && left[v] + lines[v] == stock[v] + At(missing, v))
    && (forall v :: v in lines && v !in stock ==> v in missing && missing[v] == lines[v])
    && (forall v :: v in missing ==> missing[v] > 0 && At(left, v) == 0)
  }

  lemma LoweringTakesOrMisses(stock: map<Id, int>, lines: map<Id, int>)
    requires forall v :: v in stock ==> stock[v] >= 0
    requires forall v :: v in lines ==> lines[v] > 0
    ensures TakenOrMissing(stock, lines, Lowered(stock, lines), Missing(stock, lines))
  {
  }

  // How far the loop has got: the variants in todo are still as they were.
  ghost predicate Consumed(
      stock: map<Id, int>, lines: map<Id, int>, todo: set<Id>, left: map<Id, int>, missing: map<Id, int>)
  {
    && todo <= lines.Keys && left.Keys == stock.Keys
    && (forall v :: v in stock ==> left[v] == if v in todo then stock[v] else Lowered(stock, lines)[v])
    && missing == Missing(stock, lines) - todo
  }

  lemma ConsumedOne(
      stock: map<Id, int>, lines: map<Id, int>, todo: set<Id>, left: map<Id, int>, missing: map<Id, int>, v: Id)
    requires Consumed(stock, lines, todo, left, missing) && v in todo
    requires lines[v] > 0
    ensures v in left <==> v in stock
    ensures v !in stock ==> Consumed(stock, lines, todo - {v}, left, missing[v := lines[v]])
    ensures v in stock ==>
      var taken := if lines[v] < left[v] then lines[v] else left[v];
      Consumed(stock, lines, todo - {v}, left[v := left[v] - taken],
        if taken < lines[v] then missing[v := lines[v] - taken] else missing)
  {
  }

  lemma ConsumedNone(stock: map<Id, int>, lines: map<Id, int>)
    ensures Consumed(stock, lines, lines.Keys, stock, map[])
  {
    assert Missing(stock, lines) - lines.Keys == map[];
  }

  lemma ConsumedAll(stock: map<Id, int>, lines: map<Id, int>, left: map<Id, int>, missing: map<Id, int>)
    requires Consumed(stock, lines, {}, left, missing)
    ensures left == Lowered(stock, lines) && missing == Missing(stock, lines)
  {
  }

  method ConsumeStock(stock: map<Id, int>, lines: map<Id, int>)
    returns (left: map<Id, int>, missing: map<Id, int>)
    requires forall v :: v in stock ==> stock[v] >= 0
    requires forall v :: v in lines ==> lines[v] > 0
    ensures left == Lowered(stock, lines) && missing == Missing(stock, lines)
    ensures TakenOrMissing(stock, lines, left, missing)
  {
    left, missing := stock, map[];
    var todo := lines.Keys;
    ConsumedNone(stock, lines);
    hide Consumed, Lowered, Missing, TakenOrMissing;
    while todo != {}
      invariant todo <= lines.Keys && Consumed(stock, lines, todo, left, missing)
      decreases |todo|
    {
      var v :| v in todo;
      ConsumedOne(stock, lines, todo, left, missing, v);
      todo := todo - {v};
      if v !in stock {
        missing := missing[v := lines[v]];
      } else {
        var taken := if lines[v] < left[v] then lines[v] else left[v];
        left := left[v := left[v] - taken];
        if taken < lines[v] {
          missing := missing[v := lines[v] - taken];
        }
      }
    }
    ConsumedAll(stock, lines, left, missing);
    LoweringTakesOrMisses(stock, lines);
  }

  /* ---- transactions over a shelf ---- */

  // What a transaction has decided to write when it commits.
  datatype Pending =
    | Reserving(checkout: Id, expiresAt: Time, lines: map<Id, int>)
    | Committing(hold: Id)
    | Consuming(hold: Id)

  // How far the clock of a process may be ahead of and behind the time it is, and how far ahead
  // of its own clock a transaction may count.
  datatype Clocks = Clocks(fast: nat, slow: nat, ahead: nat)

  const EXACT := Clocks(0, 0, 0)

  // locks: which transaction holds a variant row. seen: the clock as a transaction read it once
  // it held its rows. lowered: the variants whose stock somebody has cut. clocks never changes.
  datatype World = World(
    clocks: Clocks, now: Time, stock: map<Id, int>, holds: map<Id, Hold>,
    locks: map<Id, Id>, seen: map<Id, Time>, pending: map<Id, Pending>, lowered: set<Id>)

  datatype Event =
    | Tick(to: Time)
    | Lock(txn: Id, variant: Id)
    | Look(txn: Id, reading: Time)
    | Decide(txn: Id, write: Pending, at: Time)
    | Commit(txn: Id, newId: Id)
    | GiveUp(txn: Id)
    | Release(hold: Id)
    | Restock(variant: Id, units: int)
    | Cut(variant: Id, to: int)

  predicate Locked(w: World, txn: Id, lines: map<Id, int>) {
    forall v :: v in lines ==> v in w.locks && w.locks[v] == txn
  }

  predicate HoldingFor(holds: map<Id, Hold>, checkout: Id) {
    exists h :: h in holds && holds[h].checkout == checkout && Holding(holds[h].status)
  }

  // reserve counts at an instant that is an argument, beside the clock read under the locks, and
  // only if the checkout holds nothing yet; admission requires the hold to stand at both instants;
  // consumption requires a committed hold.
  ghost predicate Decidable(w: World, txn: Id, write: Pending, at: Time) {
    match write
    case Reserving(checkout, _, lines) =>
      && txn in w.seen && at <= w.seen[txn] + w.clocks.ahead
      && lines != map[] && Locked(w, txn, lines) && !HoldingFor(w.holds, checkout)
      && forall v :: v in lines ==> v in w.stock && 0 < lines[v] <= w.stock[v] - Reserved(w.holds, v, at)
    case Committing(h) =>
      && txn in w.seen && h in w.holds && Locked(w, txn, w.holds[h].lines)
      && Effective(w.holds[h], at) && Effective(w.holds[h], w.seen[txn])
    case Consuming(h) =>
      h in w.holds && Locked(w, txn, w.holds[h].lines) && w.holds[h].status == COMMITTED
  }

  // Locks wait; a clock is looked at once, after the last of them; a decision is taken once.
  // A release takes no variant lock and may come at any moment.
  ghost predicate Enabled(w: World, e: Event) {
    match e
    case Tick(to) => w.now <= to
    case Lock(txn, v) => v !in w.locks && txn !in w.seen && txn !in w.pending
    case Look(txn, reading) =>
      && txn !in w.seen && txn !in w.pending
      && reading <= w.now + w.clocks.fast && w.now <= reading + w.clocks.slow
    case Decide(txn, write, at) => txn !in w.pending && Decidable(w, txn, write, at)
    case Commit(txn, newId) => txn in w.pending && newId !in w.holds
    case GiveUp(txn) => true
    case Release(h) => h in w.holds && Holding(w.holds[h].status)
    case Restock(v, units) => units >= 0
    case Cut(v, to) => v in w.stock && 0 <= to < w.stock[v]
  }

  // The write of a commit, as the unique index and the reservation trigger leave it.
  function Wrote(w: World, write: Pending, newId: Id): World {
    match write
    case Reserving(checkout, expiresAt, lines) =>
      if HoldingFor(w.holds, checkout) then w
      else w.(holds := w.holds[newId := Hold(checkout, ReservationStatus.ACTIVE, expiresAt, lines)])
    case Committing(h) =>
      if h in w.holds && w.holds[h].status == ReservationStatus.ACTIVE
      then w.(holds := w.holds[h := w.holds[h].(status := COMMITTED)]) else w
    case Consuming(h) =>
      if h in w.holds && w.holds[h].status == COMMITTED
      then w.(holds := w.holds[h := w.holds[h].(status := CONSUMED)], stock := Lowered(w.stock, w.holds[h].lines))
      else w
  }

  // A transaction that ends lets go of its rows.
  function Ended(w: World, txn: Id): World {
    w.(locks := map v | v in w.locks && w.locks[v] != txn :: w.locks[v],
       seen := w.seen - {txn}, pending := w.pending - {txn})
  }

  function After(w: World, e: Event): World {
    match e
    case Tick(to) => w.(now := to)
    case Lock(txn, v) => w.(locks := w.locks[v := txn])
    case Look(txn, reading) => w.(seen := w.seen[txn := reading])
    case Decide(txn, write, _) => w.(pending := w.pending[txn := write])
    case Commit(txn, newId) => if txn in w.pending then Ended(Wrote(w, w.pending[txn], newId), txn) else w
    case GiveUp(txn) => Ended(w, txn)
    case Release(h) => if h in w.holds then w.(holds := w.holds[h := w.holds[h].(status := RELEASED)]) else w
    case Restock(v, units) => w.(stock := w.stock[v := At(w.stock, v) + units])
    case Cut(v, to) => w.(stock := w.stock[v := to], lowered := w.lowered + {v})
  }

  ghost function Happen(w: World, e: Event): World { if Enabled(w, e) then After(w, e) else w }

  ghost function Reach(w: World, es: seq<Event>): World
    decreases |es|
  {
    if es == [] then w else Reach(Happen(w, es[0]), es[1..])
  }

  /* ---- no variant is promised beyond its stock ---- */

  // Whoever has a variant locked and has looked at the clock still counts as of then.
  function Instant(w: World, v: Id): Time {
    if v in w.locks && w.locks[v] in w.seen then w.seen[w.locks[v]] else w.now
  }

  // Units decided on but not written yet.
  function Promised(w: World, v: Id): int {
    if v in w.locks && w.locks[v] in w.pending && w.pending[w.locks[v]].Reserving?
    then At(w.pending[w.locks[v]].lines, v) else 0
  }

  ghost predicate LinesPositive(holds: map<Id, Hold>) {
    forall h, v :: h in holds && v in holds[h].lines ==> holds[h].lines[v] > 0
  }

  predicate Equipped(w: World, txn: Id)
    requires txn in w.pending
  {
    match w.pending[txn]
    case Reserving(_, _, lines) => Locked(w, txn, lines) && forall v :: v in lines ==> v in w.stock && lines[v] > 0
    case Committing(h) =>
      && h in w.holds && Locked(w, txn, w.holds[h].lines)
      && txn in w.seen && (Holding(w.holds[h].status) ==> Effective(w.holds[h], w.seen[txn]))
    case Consuming(h) => h in w.holds && Locked(w, txn, w.holds[h].lines)
  }

  ghost predicate Orderly(w: World) {
    && LinesPositive(w.holds)
    && (forall h, v :: h in w.holds && v in w.holds[h].lines ==> v in w.stock)
    && (forall t :: t in w.seen ==> w.seen[t] <= w.now)
    && (forall t :: t in w.pending ==> Equipped(w, t))
  }

  predicate Uncut(w: World, v: Id) { v in w.stock && v !in w.lowered }

  ghost predicate CoveredAt(w: World, v: Id)
    requires v in w.stock
  {
    Reserved(w.holds, v, Instant(w, v)) + Promised(w, v) <= w.stock[v]
  }

  ghost predicate Covered(w: World) { forall v :: Uncut(w, v) ==> CoveredAt(w, v) }

  ghost predicate Sound(w: World) { w.clocks == EXACT && Orderly(w) && Covered(w) }

  lemma LaterHoldsLess(holds: map<Id, Hold>, v: Id, early: Time, late: Time)
    requires LinesPositive(holds) && early <= late
    ensures 0 <= Reserved(holds, v, late) <= Reserved(holds, v, early)
  {
    SumOrdered(holds, Claim(v, late), Claim(v, early));
    var nothing := (h: Hold) => 0;
    SumZero(holds, nothing);
    SumOrdered(holds, nothing, Claim(v, late));
  }

  // A row whose claim does not rise leaves the sum no higher.
  lemma OneHoldChanges(holds: map<Id, Hold>, h: Id, to: Hold, v: Id, at: Time)
    requires h in holds
    ensures Reserved(holds[h := to], v, at) == Reserved(holds, v, at) + Claim(v, at)(to) - Claim(v, at)(holds[h])
  {
    SumWritten(holds, Claim(v, at), h, to);
  }

  lemma TickSound(w: World, to: Time)
    requires Sound(w) && w.now <= to
    ensures Sound(After(w, Tick(to)))
  {
    var next := After(w, Tick(to));
    assert forall t :: t in next.pending ==> Equipped(w, t);
    forall v | Uncut(next, v) ensures CoveredAt(next, v) {
      assert Uncut(w, v) ==> CoveredAt(w, v);
      LaterHoldsLess(w.holds, v, Instant(w, v), Instant(next, v));
    }
  }

  lemma LockSound(w: World, txn: Id, v: Id)
    requires Sound(w) && Enabled(w, Lock(txn, v))
    ensures Sound(After(w, Lock(txn, v)))
  {
    var next := After(w, Lock(txn, v));
    forall t | t in next.pending ensures Equipped(next, t) {
      assert Equipped(w, t);
    }
    forall u | Uncut(next, u) ensures CoveredAt(next, u) {
      assert Uncut(w, u) ==> CoveredAt(w, u);
      assert Instant(next, u) == Instant(w, u) && Promised(next, u) == Promised(w, u);
    }
  }

  lemma LookSound(w: World, txn: Id, reading: Time)
    requires Sound(w) && Enabled(w, Look(txn, reading))
    ensures Sound(After(w, Look(txn, reading)))
  {
    var next := After(w, Look(txn, reading));
    forall t | t in next.pending ensures Equipped(next, t) {
      assert Equipped(w, t);
    }
    forall u | Uncut(next, u) ensures CoveredAt(next, u) {
      assert Uncut(w, u) ==> CoveredAt(w, u);
      assert Instant(next, u) == Instant(w, u) && Promised(next, u) == Promised(w, u);
    }
  }

  // The count was taken no later than the instant the locks are accounted at.
  lemma DecideSound(w: World, txn: Id, write: Pending, at: Time)
    requires Sound(w) && Enabled(w, Decide(txn, write, at))
    ensures Sound(After(w, Decide(txn, write, at)))
  {
    var next := After(w, Decide(txn, write, at));
    forall t | t in next.pending ensures Equipped(next, t) {
      assert t in w.pending ==> Equipped(w, t);
    }
    forall u | Uncut(next, u) ensures CoveredAt(next, u) {
      assert Uncut(w, u) ==> CoveredAt(w, u);
      if write.Reserving? && u in write.lines {
        LaterHoldsLess(w.holds, u, at, Instant(w, u));
      }
    }
  }

  lemma EndSound(w: World, txn: Id)
    requires Sound(w)
    ensures Sound(Ended(w, txn))
  {
    var next := Ended(w, txn);
    forall t | t in next.pending ensures Equipped(next, t) {
      assert Equipped(w, t);
    }
    forall u | Uncut(next, u) ensures CoveredAt(next, u) {
      assert Uncut(w, u) ==> CoveredAt(w, u);
      LaterHoldsLess(w.holds, u, Instant(w, u), Instant(next, u));
    }
  }

  lemma ReserveWriteSound(w: World, txn: Id, newId: Id)
    requires Sound(w) && txn in w.pending && w.pending[txn].Reserving? && newId !in w.holds
    ensures Sound(Ended(Wrote(w, w.pending[txn], newId), txn))
  {
    var write := w.pending[txn];
    assert Equipped(w, txn);
    EndSound(w, txn);
    if !HoldingFor(w.holds, write.checkout) {
      var ended := Ended(w, txn);
      var hold := Hold(write.checkout, ReservationStatus.ACTIVE, write.expiresAt, write.lines);
      var next := ended.(holds := w.holds[newId := hold]);
      assert next == Ended(Wrote(w, write, newId), txn);
      forall t | t in next.pending ensures Equipped(next, t) {
        assert Equipped(ended, t);
      }
      forall u | Uncut(next, u) ensures CoveredAt(next, u) {
        assert Uncut(w, u) && CoveredAt(w, u) && Uncut(ended, u) && CoveredAt(ended, u);
        SumWritten(w.holds, Claim(u, Instant(next, u)), newId, hold);
        if u in write.lines {
          LaterHoldsLess(w.holds, u, Instant(w, u), Instant(next, u));
        }
      }
    }
  }

  // A hold that counted at the instant its rows are accounted at counts no more once committed.
  lemma CommitWriteSound(w: World, txn: Id, newId: Id)
    requires Sound(w) && txn in w.pending && w.pending[txn].Committing?
    ensures Sound(Wrote(w, w.pending[txn], newId))
  {
    var h := w.pending[txn].hold;
    assert Equipped(w, txn);
    var next := Wrote(w, w.pending[txn], newId);
    if w.holds[h].status == ReservationStatus.ACTIVE {
      forall t | t in next.pending ensures Equipped(next, t) {
        assert Equipped(w, t);
      }
      forall u | Uncut(next, u) ensures CoveredAt(next, u) {
        assert Uncut(w, u) ==> CoveredAt(w, u);
        OneHoldChanges(w.holds, h, next.holds[h], u, Instant(w, u));
        assert Instant(next, u) == Instant(w, u) && Promised(next, u) == Promised(w, u);
      }
    }
  }

  // The units a committed hold claims are on the shelf.
  lemma CommittedUnitsAreThere(w: World, h: Id, v: Id)
    requires Sound(w) && h in w.holds && w.holds[h].status == COMMITTED && v in w.holds[h].lines && v !in w.lowered
    ensures v in w.stock && w.holds[h].lines[v] <= w.stock[v]
  {
    var at := Instant(w, v);
    assert Uncut(w, v) && CoveredAt(w, v);
    SumAt(w.holds, Claim(v, at), h);
    LaterHoldsLess(w.holds - {h}, v, at, at);
    PromisesAreNotNegative(w, v);
  }

  lemma PromisesAreNotNegative(w: World, v: Id)
    requires Orderly(w)
    ensures Promised(w, v) >= 0
  {
    if v in w.locks && w.locks[v] in w.pending {
      assert Equipped(w, w.locks[v]);
    }
  }

  lemma ConsumeWriteSound(w: World, txn: Id, newId: Id)
    requires Sound(w) && txn in w.pending && w.pending[txn].Consuming?
    ensures Sound(Wrote(w, w.pending[txn], newId))
  {
    var h := w.pending[txn].hold;
    assert Equipped(w, txn);
    var next := Wrote(w, w.pending[txn], newId);
    if w.holds[h].status == COMMITTED {
      forall t | t in next.pending ensures Equipped(next, t) {
        assert Equipped(w, t);
      }
      forall u | Uncut(next, u) ensures CoveredAt(next, u) {
        assert Uncut(w, u) ==> CoveredAt(w, u);
        OneHoldChanges(w.holds, h, next.holds[h], u, Instant(w, u));
        assert Instant(next, u) == Instant(w, u) && Promised(next, u) == Promised(w, u);
        if u in w.holds[h].lines {
          CommittedUnitsAreThere(w, h, u);
        }
      }
    }
  }

  lemma CommitSound(w: World, txn: Id, newId: Id)
    requires Sound(w) && Enabled(w, Commit(txn, newId))
    ensures Sound(After(w, Commit(txn, newId)))
  {
    if w.pending[txn].Reserving? {
      ReserveWriteSound(w, txn, newId);
    } else {
      if w.pending[txn].Committing? {
        CommitWriteSound(w, txn, newId);
      } else {
        ConsumeWriteSound(w, txn, newId);
      }
      EndSound(Wrote(w, w.pending[txn], newId), txn);
    }
  }

  lemma ReleaseSound(w: World, h: Id)
    requires Sound(w) && Enabled(w, Release(h))
    ensures Sound(After(w, Release(h)))
  {
    var next := After(w, Release(h));
    forall t | t in next.pending ensures Equipped(next, t) {
      assert Equipped(w, t);
    }
    forall u | Uncut(next, u) ensures CoveredAt(next, u) {
      assert Uncut(w, u) ==> CoveredAt(w, u);
      OneHoldChanges(w.holds, h, next.holds[h], u, Instant(w, u));
      assert Instant(next, u) == Instant(w, u) && Promised(next, u) == Promised(w, u);
    }
  }

  lemma RestockSound(w: World, v: Id, units: int)
    requires Sound(w) && units >= 0
    ensures Sound(After(w, Restock(v, units)))
  {
    var next := After(w, Restock(v, units));
    forall t | t in next.pending ensures Equipped(next, t) {
      assert Equipped(w, t);
    }
    forall u | Uncut(next, u) ensures CoveredAt(next, u) {
      assert Uncut(w, u) ==> CoveredAt(w, u);
      assert Instant(next, u) == Instant(w, u) && Promised(next, u) == Promised(w, u);
      if u !in w.stock {
        UnknownVariantIsFree(w, u);
      }
    }
  }

  lemma CutSound(w: World, v: Id, to: int)
    requires Sound(w) && Enabled(w, Cut(v, to))
    ensures Sound(After(w, Cut(v, to)))
  {
    var next := After(w, Cut(v, to));
    forall t | t in next.pending ensures Equipped(next, t) {
      assert Equipped(w, t);
    }
    forall u | Uncut(next, u) ensures CoveredAt(next, u) {
      assert Uncut(w, u) && CoveredAt(w, u);
      assert Instant(next, u) == Instant(w, u) && Promised(next, u) == Promised(w, u);
    }
  }

  lemma UnknownVariantIsFree(w: World, v: Id)
    requires Orderly(w) && v !in w.stock
    ensures Reserved(w.holds, v, Instant(w, v)) == 0 && Promised(w, v) == 0
  {
    SumZero(w.holds, Claim(v, Instant(w, v)));
    if v in w.locks && w.locks[v] in w.pending {
      assert Equipped(w, w.locks[v]);
    }
  }

  lemma EventSound(w: World, e: Event)
    requires Sound(w)
    ensures Sound(Happen(w, e))
  {
    if Enabled(w, e) {
      match e
      case Tick(to) => TickSound(w, to);
      case Lock(txn, v) => LockSound(w, txn, v);
      case Look(txn, reading) => LookSound(w, txn, reading);
      case Decide(txn, write, at) => DecideSound(w, txn, write, at);
      case Commit(txn, newId) => CommitSound(w, txn, newId);
      case GiveUp(txn) => EndSound(w, txn);
      case Release(h) => ReleaseSound(w, h);
      case Restock(v, units) => RestockSound(w, v, units);
      case Cut(v, to) => CutSound(w, v, to);
    }
  }

  lemma {:induction false} RunSound(w: World, es: seq<Event>)
    requires Sound(w)
    ensures Sound(Reach(w, es))
    decreases |es|
  {
    if es != [] {
      EventSound(w, es[0]);
      RunSound(Happen(w, es[0]), es[1..]);
    }
  }

  // An empty shelf at some time: no stock, no holds, nobody at work.
  function Opening(clocks: Clocks, now: Time): World { Idle(clocks, now, map[], map[]) }

  // Nobody at work.
  function Idle(clocks: Clocks, now: Time, stock: map<Id, int>, holds: map<Id, Hold>): World {
    World(clocks, now, stock, holds, map[], map[], map[], {})
  }

  // No oversell. With exact clocks, after any events at all, unless somebody has cut the variant's stock, at no
  // instant from now on do effective reservations of it add up to more than there is.
  lemma NeverOversold(start: Time, es: seq<Event>, v: Id, at: Time)
    requires Uncut(Reach(Opening(EXACT, start), es), v) && Reach(Opening(EXACT, start), es).now <= at
    ensures 0 <= Reserved(Reach(Opening(EXACT, start), es).holds, v, at) <= Reach(Opening(EXACT, start), es).stock[v]
  {
    var w := Reach(Opening(EXACT, start), es);
    RunSound(Opening(EXACT, start), es);
    assert CoveredAt(w, v);
    LaterHoldsLess(w.holds, v, Instant(w, v), at);
    PromisesAreNotNegative(w, v);
  }

  // So a sale finds its units: consumption falls short, and the oversold event is due, only of
  // variants somebody has cut.
  lemma OnlyCutsLeaveSalesShort(start: Time, es: seq<Event>, h: Id)
    requires var w := Reach(Opening(EXACT, start), es); h in w.holds && w.holds[h].status == COMMITTED
    ensures var w := Reach(Opening(EXACT, start), es); Missing(w.stock, w.holds[h].lines).Keys <= w.lowered
  {
    var w := Reach(Opening(EXACT, start), es);
    RunSound(Opening(EXACT, start), es);
    forall v | v in w.holds[h].lines && v !in w.lowered ensures w.holds[h].lines[v] <= At(w.stock, v) {
      CommittedUnitsAreThere(w, h, v);
    }
  }

  /* ---- where every unit is ---- */

  ghost function SoldOf(v: Id): Hold -> int {
    (h: Hold) => if v in h.lines && h.status == CONSUMED then h.lines[v] else 0
  }

  // Units on the shelf, and units that left it for good.
  ghost function Accounted(w: World, v: Id): int { At(w.stock, v) + SumBy(w.holds, SoldOf(v)) }

  function Stocked(e: Event, v: Id): int { if e.Restock? && e.variant == v && e.units >= 0 then e.units else 0 }

  function AllStocked(es: seq<Event>, v: Id): int
    decreases |es|
  {
    if es == [] then 0 else Stocked(es[0], v) + AllStocked(es[1..], v)
  }

  lemma CommitAccounts(w: World, txn: Id, newId: Id, v: Id)
    requires Sound(w) && txn in w.pending && newId !in w.holds && v !in w.lowered
    ensures Accounted(Wrote(w, w.pending[txn], newId), v) == Accounted(w, v)
  {
    var write := w.pending[txn];
    var next := Wrote(w, write, newId);
    if write.Reserving? {
      if !HoldingFor(w.holds, write.checkout) {
        SumWritten(w.holds, SoldOf(v), newId, next.holds[newId]);
      }
    } else if write.hold in w.holds && next != w {
      SumWritten(w.holds, SoldOf(v), write.hold, next.holds[write.hold]);
      if write.Consuming? && v in w.holds[write.hold].lines {
        CommittedUnitsAreThere(w, write.hold, v);
      }
    }
  }

  lemma EventAccounts(w: World, e: Event, v: Id)
    requires Sound(w) && v !in Happen(w, e).lowered
    ensures v !in w.lowered && Accounted(Happen(w, e), v) == Accounted(w, v) + Stocked(e, v)
  {
    if Enabled(w, e) {
      match e
      case Commit(txn, newId) => CommitAccounts(w, txn, newId, v);
      case Release(h) => SumWritten(w.holds, SoldOf(v), h, w.holds[h].(status := RELEASED));
      case _ =>
    }
  }

  // Conservation. Every unit a variant was ever given, and that nobody cut, is on its shelf or
  // was sold, once.
  lemma {:induction false} UnitsAreAccountedFor(w: World, es: seq<Event>, v: Id)
    requires Sound(w) && v !in Reach(w, es).lowered
    ensures v !in w.lowered && Accounted(Reach(w, es), v) == Accounted(w, v) + AllStocked(es, v)
    decreases |es|
  {
    if es != [] {
      EventSound(w, es[0]);
      UnitsAreAccountedFor(Happen(w, es[0]), es[1..], v);
      EventAccounts(w, es[0], v);
    }
  }

  /* ---- what any hold is ---- */

  // Every hold is of something, and is decided on that way.
  ghost predicate HoldsSomething(w: World) {
    && (forall h :: h in w.holds ==> w.holds[h].lines != map[])
    && (forall t :: t in w.pending && w.pending[t].Reserving? ==> w.pending[t].lines != map[])
  }

  // Hold h is still there, for the same checkout, units and time, and not reopened once closed.
  predicate SameTerms(before: map<Id, Hold>, after: map<Id, Hold>, h: Id) {
    && h in before && h in after && after[h] == before[h].(status := after[h].status)
    && (before[h].status in {RELEASED, CONSUMED} ==> after[h].status == before[h].status)
    && (before[h].status == COMMITTED ==> after[h].status != ReservationStatus.ACTIVE)
  }

  lemma WriteMovesOn(w: World, write: Pending, newId: Id)
    requires HoldsSomething(w) && newId !in w.holds && (write.Reserving? ==> write.lines != map[])
    ensures forall h :: h in Wrote(w, write, newId).holds ==> Wrote(w, write, newId).holds[h].lines != map[]
    ensures forall h :: h in w.holds ==> SameTerms(w.holds, Wrote(w, write, newId).holds, h)
  {
  }

  lemma CommitMovesOn(w: World, txn: Id, newId: Id)
    requires HoldsSomething(w) && Enabled(w, Commit(txn, newId))
    ensures HoldsSomething(After(w, Commit(txn, newId)))
    ensures forall h :: h in w.holds ==> SameTerms(w.holds, After(w, Commit(txn, newId)).holds, h)
  {
    var write := w.pending[txn];
    WriteMovesOn(w, write, newId);
    assert Wrote(w, write, newId).pending == w.pending;
    hide Wrote, SameTerms;
  }

  lemma EventMovesOn(w: World, e: Event)
    requires HoldsSomething(w)
    ensures HoldsSomething(Happen(w, e))
    ensures forall h :: h in w.holds ==> SameTerms(w.holds, Happen(w, e).holds, h)
  {
    if e.Commit? && Enabled(w, e) {
      hide After, Enabled;
      CommitMovesOn(w, e.txn, e.newId);
    } else {
      hide Wrote, Reserved;
    }
  }

  // However events interleave: no hold is of nothing, and one once written keeps its checkout,
  // units and time, and only moves on.
  lemma {:induction false} HoldsOnlyMoveOn(w: World, es: seq<Event>)
    requires HoldsSomething(w)
    ensures HoldsSomething(Reach(w, es))
    ensures forall h :: h in w.holds ==> SameTerms(w.holds, Reach(w, es).holds, h)
    decreases |es|
  {
    if es != [] {
      EventMovesOn(w, es[0]);
      HoldsOnlyMoveOn(Happen(w, es[0]), es[1..]);
      assert forall h :: h in w.holds ==> SameTerms(w.holds, Happen(w, es[0]).holds, h);
    }
  }

  ghost predicate NothingNegative(stock: map<Id, int>) { forall v :: v in stock ==> stock[v] >= 0 }

  // However short a sale falls, a shelf never goes below zero.
  lemma {:induction false} ShelvesNeverGoNegative(w: World, es: seq<Event>)
    requires NothingNegative(w.stock)
    ensures NothingNegative(Reach(w, es).stock)
    decreases |es|
  {
    if es != [] {
      EventKeepsShelves(w, es[0]);
      ShelvesNeverGoNegative(Happen(w, es[0]), es[1..]);
    }
  }

  lemma EventKeepsShelves(w: World, e: Event)
    requires NothingNegative(w.stock)
    ensures NothingNegative(Happen(w, e).stock)
  {
    hide Decidable;
  }

  // Exactly when an admission is decided on: under the hold's own locks, while it stands both at
  // the accounting instant and at the instant read under them, unless it is committed already.
  lemma AdmissionNeedsBothInstants(w: World, txn: Id, h: Id, at: Time)
    requires h in w.holds
    ensures Enabled(w, Decide(txn, Committing(h), at)) <==>
      && txn !in w.pending && txn in w.seen
      && (forall v :: v in w.holds[h].lines ==> v in w.locks && w.locks[v] == txn)
      && (w.holds[h].status == COMMITTED
          || (w.holds[h].status == ReservationStatus.ACTIVE
              && at < w.holds[h].expiresAt && w.seen[txn] < w.holds[h].expiresAt))
  {
  }

  /* ---- one hold a checkout ---- */

  predicate HoldsFor(h: Hold, checkout: Id) {
    h.checkout == checkout && h.status in {ReservationStatus.ACTIVE, COMMITTED}
  }

  ghost predicate OneHoldEach(holds: map<Id, Hold>) {
    forall i, j, c :: i in holds && j in holds && HoldsFor(holds[i], c) && HoldsFor(holds[j], c) ==> i == j
  }

  lemma WriteKeepsOneHold(w: World, write: Pending, newId: Id)
    requires OneHoldEach(w.holds) && newId !in w.holds
    ensures OneHoldEach(Wrote(w, write, newId).holds)
  {
  }

  lemma EventKeepsOneHold(w: World, e: Event)
    requires OneHoldEach(w.holds)
    ensures OneHoldEach(Happen(w, e).holds)
  {
    if e.Commit? && Enabled(w, e) {
      WriteKeepsOneHold(w, w.pending[e.txn], e.newId);
    }
    hide Wrote, Decidable;
  }

  // However preparations interleave, a checkout never holds stock twice.
  lemma {:induction false} OneHoldPerCheckout(w: World, es: seq<Event>)
    requires OneHoldEach(w.holds)
    ensures OneHoldEach(Reach(w, es).holds)
    decreases |es|
  {
    if es != [] {
      EventKeepsOneHold(w, es[0]);
      OneHoldPerCheckout(Happen(w, es[0]), es[1..]);
    }
  }
}
