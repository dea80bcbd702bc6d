/** Stock holds: quantity only ever leaves the held state, nothing is counted twice, and what
    was put on hold is held, returned or sold. */
module PaymentHolds {
  import opened Relational
  import opened PaymentSchema
  import opened PaymentDatabase

  datatype Fate = Held | Returned | Sold

  function FateOf(s: ReservationStatus): Fate {
    if Holding(s) then Held else if s == RELEASED then Returned else Sold
  }

  ghost function InFate(reservations: map<Id, Reservation>, variant: Id, fate: Fate): Line -> int {
    (l: Line) =>
      if l.variant == variant && l.reservation in reservations && FateOf(reservations[l.reservation].status) == fate
      then l.quantity else 0
  }

  ghost function OfVariant(variant: Id): Line -> int {
    (l: Line) => if l.variant == variant then l.quantity else 0
  }

  // How much of a variant is in each state, and how much has been put on lines at all.
  ghost function Quantity(db: Db, variant: Id, fate: Fate): int {
    SumBy(db.lines, InFate(db.reservations, variant, fate))
  }

  ghost function OnLines(db: Db, variant: Id): int { SumBy(db.lines, OfVariant(variant)) }

  lemma EveryUnitHasOneFate(db: Db, variant: Id)
    requires Consistent(db)
    ensures OnLines(db, variant)
         == Quantity(db, variant, Held) + Quantity(db, variant, Returned) + Quantity(db, variant, Sold)
  {
    var w, h, r, s := OfVariant(variant), InFate(db.reservations, variant, Held),
      InFate(db.reservations, variant, Returned), InFate(db.reservations, variant, Sold);
    forall i | i in db.lines ensures w(db.lines[i]) == h(db.lines[i]) + r(db.lines[i]) + s(db.lines[i]) {
      assert Resolves(db.lines[i], db.reservations, LineReservation, SameReservationOwner);
    }
    SumSplit(db.lines, w, h, r, s);
  }

  // What one statement puts on a line of the variant, and what it takes off: by deleting the
  // line, or by deleting the hold it stands under.
  ghost function Added(db: Db, s: Statement, variant: Id): int {
    if Accepts(db, s) && s.OnLine? && s.line.Insert? && s.line.row.variant == variant then s.line.row.quantity else 0
  }

  ghost function Removed(db: Db, s: Statement, variant: Id): int {
    if Accepts(db, s) then SumBy(Kept(db.lines, LinesDeleted(db, s)), OfVariant(variant)) else 0
  }

  function LinesDeleted(db: Db, s: Statement): set<Id> {
    if s.OnLine? && s.line.Delete? then {s.line.id}
    else if s.OnReservation? && s.reservation.Delete? then LinesOf(db, s.reservation.id)
    else {}
  }

  ghost function AllAdded(db: Db, ss: seq<Statement>, variant: Id): int
    decreases |ss|
  {
    if ss == [] then 0 else Added(db, ss[0], variant) + AllAdded(Step(db, ss[0]), ss[1..], variant)
  }

  ghost function AllRemoved(db: Db, ss: seq<Statement>, variant: Id): int
    decreases |ss|
  {
    if ss == [] then 0 else Removed(db, ss[0], variant) + AllRemoved(Step(db, ss[0]), ss[1..], variant)
  }

  lemma LinesAfter(db: Db, s: Statement)
    requires Triggers(db, s)
    ensures var kept, next := db.lines - LinesDeleted(db, s), Post(db, s).lines;
      if s.OnLine? && s.line.Insert? then
        s.line.id !in kept && kept == db.lines && next == kept[s.line.id := s.line.row]
      else next == kept
  {
    if !(s.OnLine? && s.line.Insert?) {
      assert Post(db, s).lines == db.lines - LinesDeleted(db, s);
    } else {
      assert db.lines - {} == db.lines;
    }
  }

  lemma PostBalances(db: Db, s: Statement, variant: Id)
    requires Triggers(db, s)
    ensures OnLines(Post(db, s), variant) == OnLines(db, variant)
      + (if s.OnLine? && s.line.Insert? && s.line.row.variant == variant then s.line.row.quantity else 0)
      - SumBy(Kept(db.lines, LinesDeleted(db, s)), OfVariant(variant))
  {
    LinesAfter(db, s);
    hide Triggers, Post;
    SumWithout(db.lines, OfVariant(variant), LinesDeleted(db, s));
    if s.OnLine? && s.line.Insert? {
      SumWritten(db.lines, OfVariant(variant), s.line.id, s.line.row);
    }
  }

  lemma StepBalances(db: Db, s: Statement, variant: Id)
    ensures OnLines(Step(db, s), variant) == OnLines(db, variant) + Added(db, s, variant) - Removed(db, s, variant)
  {
    if Accepts(db, s) {
      PostBalances(db, s, variant);
    }
  }

  // Conservation. Over any statements at all, what is held, returned and sold of a variant is
  // what there was, plus exactly what the accepted inserts put on lines, less exactly what
  // deletions took off.
  lemma {:induction false} HoldsAreConserved(db: Db, ss: seq<Statement>, variant: Id)
    requires Consistent(db)
    ensures var end := Run(db, ss);
      Quantity(end, variant, Held) + Quantity(end, variant, Returned) + Quantity(end, variant, Sold)
      == Quantity(db, variant, Held) + Quantity(db, variant, Returned) + Quantity(db, variant, Sold)
         + AllAdded(db, ss, variant) - AllRemoved(db, ss, variant)
    decreases |ss|
  {
    hide Consistent;
    if ss != [] {
      StepBalances(db, ss[0], variant);
      EveryUnitHasOneFate(db, variant);
      EveryUnitHasOneFate(Step(db, ss[0]), variant);
      HoldsAreConserved(Step(db, ss[0]), ss[1..], variant);
    }
  }

  /* ---- units never come back ---- */

  predicate KeepsLine(s: Statement, i: Id, reservation: Id) {
    s != OnLine(Delete(i)) && s != OnReservation(Delete(reservation))
  }

  // Line i is under a hold, which is gone one way or the other.
  predicate LineHas(db: Db, i: Id, fate: Fate) {
    && i in db.lines && db.lines[i].reservation in db.reservations
    && FateOf(db.reservations[db.lines[i].reservation].status) == fate
  }

  lemma PostKeepsFate(db: Db, s: Statement, fate: Fate, i: Id)
    requires Triggers(db, s) && fate != Held && LineHas(db, i, fate) && KeepsLine(s, i, db.lines[i].reservation)
    ensures LineHas(Post(db, s), i, fate) && Post(db, s).lines[i] == db.lines[i]
  {
  }

  // Once a line's hold is returned or sold it stays so, with the line's quantity, whatever is
  // done to anything else; only deleting the line or its own hold ends that.
  lemma {:induction false} FateIsFinal(db: Db, ss: seq<Statement>, fate: Fate, i: Id)
    requires fate != Held && LineHas(db, i, fate)
    requires forall s :: s in ss ==> KeepsLine(s, i, db.lines[i].reservation)
    ensures LineHas(Run(db, ss), i, fate) && Run(db, ss).lines[i] == db.lines[i]
    decreases |ss|
  {
    if ss != [] {
      hide Consistent, Triggers;
      assert ss[0] in ss && forall t :: t in ss[1..] ==> t in ss;
      if Accepts(db, ss[0]) {
        PostKeepsFate(db, ss[0], fate, i);
      }
      FateIsFinal(Step(db, ss[0]), ss[1..], fate, i);
    }
  }

  // What deletions take off the record of one fate.
  ghost function RemovedOf(db: Db, s: Statement, variant: Id, fate: Fate): int {
    if Accepts(db, s) then SumBy(Kept(db.lines, LinesDeleted(db, s)), InFate(db.reservations, variant, fate)) else 0
  }

  ghost function AllRemovedOf(db: Db, ss: seq<Statement>, variant: Id, fate: Fate): int
    decreases |ss|
  {
    if ss == [] then 0
    else RemovedOf(db, ss[0], variant, fate) + AllRemovedOf(Step(db, ss[0]), ss[1..], variant, fate)
  }

  lemma KeptLinesStay(db: Db, s: Statement, variant: Id, fate: Fate)
    requires LinesOk(db) && Triggers(db, s) && fate != Held
    ensures var kept, next := db.lines - LinesDeleted(db, s), Post(db, s);
      forall i :: i in kept ==>
        InFate(db.reservations, variant, fate)(kept[i]) <= InFate(next.reservations, variant, fate)(kept[i])
  {
    var kept, next := db.lines - LinesDeleted(db, s), Post(db, s);
    forall i | i in kept
      ensures InFate(db.reservations, variant, fate)(kept[i]) <= InFate(next.reservations, variant, fate)(kept[i])
    {
      assert LineCheck(db.lines[i]);
      if LineHas(db, i, fate) {
        PostKeepsFate(db, s, fate, i);
      }
    }
  }

  lemma PostOnlyLeavesHeld(db: Db, s: Statement, variant: Id, fate: Fate)
    requires LinesOk(db) && LinesOk(Post(db, s)) && Triggers(db, s) && fate != Held
    ensures Quantity(Post(db, s), variant, fate)
         >= Quantity(db, variant, fate)
            - SumBy(Kept(db.lines, LinesDeleted(db, s)), InFate(db.reservations, variant, fate))
  {
    var next, gone := Post(db, s), LinesDeleted(db, s);
    var before, after := InFate(db.reservations, variant, fate), InFate(next.reservations, variant, fate);
    var kept := db.lines - gone;
    SumWithout(db.lines, before, gone);
    KeptLinesStay(db, s, variant, fate);
    SumOrdered(kept, before, after);
    LinesAfter(db, s);
    hide Triggers, Post;
    if s.OnLine? && s.line.Insert? {
      assert next.lines[s.line.id] == s.line.row && LineCheck(next.lines[s.line.id]);
      SumWritten(db.lines, after, s.line.id, s.line.row);
    }
  }

  lemma StepOnlyLeavesHeld(db: Db, s: Statement, variant: Id, fate: Fate)
    requires Consistent(db) && fate != Held
    ensures Quantity(Step(db, s), variant, fate) >= Quantity(db, variant, fate) - RemovedOf(db, s, variant, fate)
  {
    if Accepts(db, s) {
      PostOnlyLeavesHeld(db, s, variant, fate);
    }
  }

  // Over any statements at all, returned and sold quantity fall only by what is deleted from
  // the record: no unit goes back to being held.
  lemma {:induction false} UnitsNeverComeBack(db: Db, ss: seq<Statement>, variant: Id, fate: Fate)
    requires Consistent(db) && fate != Held
    ensures Quantity(Run(db, ss), variant, fate) >= Quantity(db, variant, fate) - AllRemovedOf(db, ss, variant, fate)
    decreases |ss|
  {
    hide Consistent;
    if ss != [] {
      StepOnlyLeavesHeld(db, ss[0], variant, fate);
      UnitsNeverComeBack(Step(db, ss[0]), ss[1..], variant, fate);
    }
  }

  // What the lines of one reservation hold of a variant.
  ghost function UnitsUnder(db: Db, r: Id, variant: Id): int {
    SumBy(Kept(db.lines, LinesOf(db, r)), OfVariant(variant))
  }

  lemma SameSum(lines: map<Id, Line>, a: Line -> int, b: Line -> int)
    requires forall i :: i in lines ==> a(lines[i]) == b(lines[i])
    ensures SumBy(lines, a) == SumBy(lines, b)
  {
    SumOrdered(lines, a, b);
    SumOrdered(lines, b, a);
  }

  // Of one fate: what the reservation's own lines count for, and what the rest do.
  lemma FateUnder(db: Db, reservations: map<Id, Reservation>, r: Id, variant: Id, fate: Fate)
    requires r in reservations
    ensures SumBy(db.lines, InFate(reservations, variant, fate))
         == SumBy(db.lines - LinesOf(db, r), InFate(reservations, variant, fate))
            + if FateOf(reservations[r].status) == fate then UnitsUnder(db, r, variant) else 0
  {
    var own := Kept(db.lines, LinesOf(db, r));
    SumWithout(db.lines, InFate(reservations, variant, fate), LinesOf(db, r));
    if FateOf(reservations[r].status) == fate {
      SameSum(own, InFate(reservations, variant, fate), OfVariant(variant));
    } else {
      SumZero(own, InFate(reservations, variant, fate));
    }
  }

  lemma RestIsUntouched(db: Db, r: Id, n: Reservation, variant: Id, fate: Fate)
    requires r in db.reservations
    ensures SumBy(db.lines - LinesOf(db, r), InFate(db.reservations[r := n], variant, fate))
         == SumBy(db.lines - LinesOf(db, r), InFate(db.reservations, variant, fate))
  {
    SameSum(
      db.lines - LinesOf(db, r), InFate(db.reservations[r := n], variant, fate),
      InFate(db.reservations, variant, fate));
  }

  lemma FateMoves(db: Db, r: Id, n: Reservation, variant: Id, fate: Fate)
    requires r in db.reservations
    ensures SumBy(db.lines, InFate(db.reservations[r := n], variant, fate)) == Quantity(db, variant, fate)
      + (if FateOf(n.status) == fate then UnitsUnder(db, r, variant) else 0)
      - (if FateOf(db.reservations[r].status) == fate then UnitsUnder(db, r, variant) else 0)
  {
    hide LinesOf, UnitsUnder;
    RestIsUntouched(db, r, n, variant, fate);
    FateUnder(db, db.reservations, r, variant, fate);
    FateUnder(db, db.reservations[r := n], r, variant, fate);
  }

  // Releasing a hold gives back exactly the units under it, and consuming it sells exactly them.
  lemma ClosingAHoldMovesItsUnits(db: Db, r: Id, n: Reservation, variant: Id)
    requires r in db.reservations && db.reservations[r].status in {ReservationStatus.ACTIVE, COMMITTED}
    requires Accepts(db, OnReservation(Update(r, n))) && n.status in {RELEASED, CONSUMED}
    ensures var next, units := Step(db, OnReservation(Update(r, n))), UnitsUnder(db, r, variant);
      && Quantity(next, variant, Held) == Quantity(db, variant, Held) - units
      && Quantity(next, variant, Returned)
           == Quantity(db, variant, Returned) + (if n.status == RELEASED then units else 0)
      && Quantity(next, variant, Sold) == Quantity(db, variant, Sold) + (if n.status == CONSUMED then units else 0)
  {
    var after := db.reservations[r := n];
    assert Step(db, OnReservation(Update(r, n))) == db.(reservations := after);
    hide Accepts, LinesOf, UnitsUnder;
    FateMoves(db, r, n, variant, Held);
    FateMoves(db, r, n, variant, Returned);
    FateMoves(db, r, n, variant, Sold);
  }

  // Never double counted: in every state, one checkout holds a variant through one line.
  lemma HeldOnce(ss: seq<Statement>, i: Id, j: Id)
    requires var db := Run(EMPTY, ss);
      && i in db.lines && j in db.lines && db.lines[i].variant == db.lines[j].variant
      && db.lines[i].reservation in db.reservations && db.lines[j].reservation in db.reservations
      && db.reservations[db.lines[i].reservation].checkout == db.reservations[db.lines[j].reservation].checkout
      && Holding(db.reservations[db.lines[i].reservation].status)
      && Holding(db.reservations[db.lines[j].reservation].status)
    ensures i == j
  {
    var db := Run(EMPTY, ss);
    RunStaysConsistent(EMPTY, ss);
    var r1, r2 := db.lines[i].reservation, db.lines[j].reservation;
    assert HoldingCheckout(db.reservations[r1]) == HoldingCheckout(db.reservations[r2]);
    assert LineVariant(db.lines[i]) == LineVariant(db.lines[j]);
  }

  /* ---- quantity that was never held ---- */

  ghost function LeftHold(db: Db, variant: Id): int { Quantity(db, variant, Returned) + Quantity(db, variant, Sold) }

  // Units appear as returned or sold beyond what left the held state.
  ghost predicate BornSettled(a: Db, b: Db, variant: Id) {
    && LeftHold(b, variant) > LeftHold(a, variant)
    && LeftHold(b, variant) - LeftHold(a, variant) > Quantity(a, variant, Held) - Quantity(b, variant, Held)
  }

  lemma RemovedIsNotNegative(db: Db, s: Statement, variant: Id)
    requires LinesOk(db)
    ensures Removed(db, s, variant) >= 0
  {
    var gone, nothing := Kept(db.lines, LinesDeleted(db, s)), (l: Line) => 0;
    assert forall i :: i in gone ==> LineCheck(gone[i]);
    SumOrdered(gone, nothing, OfVariant(variant));
    SumZero(gone, nothing);
  }

  lemma InsertedLine(db: Db, id: Id, line: Line)
    requires id !in db.lines && line.reservation in db.reservations
    ensures var next, fate := Post(db, OnLine(Insert(id, line))), FateOf(db.reservations[line.reservation].status);
      forall f ::
        Quantity(next, line.variant, f) == Quantity(db, line.variant, f) + if f == fate then line.quantity else 0
  {
    forall f: Fate {
      SumWritten(db.lines, InFate(db.reservations, line.variant, f), id, line);
    }
  }

  // Lines carry no INSERT trigger, so this is exactly when it happens: a line of the variant is
  // inserted under a hold already released or consumed.
  lemma BornSettledExactlyUnderAFinishedHold(db: Db, s: Statement, variant: Id)
    requires Consistent(db)
    ensures BornSettled(db, Step(db, s), variant) <==>
      Accepts(db, s) && s.OnLine? && s.line.Insert? && s.line.row.variant == variant
      && s.line.row.reservation in db.reservations && !Holding(db.reservations[s.line.row.reservation].status)
  {
    EveryUnitHasOneFate(db, variant);
    StepStaysConsistent(db, s);
    EveryUnitHasOneFate(Step(db, s), variant);
    StepBalances(db, s, variant);
    RemovedIsNotNegative(db, s, variant);
    if Accepts(db, s) && s.OnLine? && s.line.Insert? {
      InsertIsGrounded(db, s.line.id, s.line.row);
      InsertedLine(db, s.line.id, s.line.row);
      assert Kept(db.lines, {}) == map[];
    }
  }

  lemma InsertIsGrounded(db: Db, id: Id, line: Line)
    requires Accepts(db, OnLine(Insert(id, line)))
    ensures id !in db.lines && line.reservation in db.reservations && LineCheck(line)
  {
    var post := Post(db, OnLine(Insert(id, line)));
    assert Resolves(post.lines[id], post.reservations, LineReservation, SameReservationOwner);
  }

  // And the insert is accepted under a finished hold on the same terms as under a standing one.
  lemma QuantityCanBeBornSold(db: Db, id: Id, line: Line)
    requires Consistent(db) && id !in db.lines && LineCheck(line) && Free(db.lines, LineVariant, id, line)
    requires line.reservation in db.reservations && db.reservations[line.reservation].merchant == line.merchant
    requires LineGrounded(db.outside, line)
    ensures var next, fate := Step(db, OnLine(Insert(id, line))), FateOf(db.reservations[line.reservation].status);
      forall f ::
        Quantity(next, line.variant, f) == Quantity(db, line.variant, f) + if f == fate then line.quantity else 0
  {
    hide Consistent;
    ProbesAreEnough(db, OnLine(Insert(id, line)));
    InsertedLine(db, id, line);
  }
}
