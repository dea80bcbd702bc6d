/** The migration that introduced payments: its whitelist guards against the blacklists they
    replaced, and a downgrade that is lossless or refused. */
module PaymentMigration {
  import opened Relational
  import opened PaymentSchema

  /* ---- whitelists refine blacklists ---- */

  predicate MandateBlacklist(o: Mandate, n: Mandate) {
    && n == o.(status := n.status, revokedAt := n.revokedAt)
    && !(o.status == REVOKED && (n.status != o.status || n.revokedAt != o.revokedAt))
  }

  predicate CheckoutBlacklist(o: Checkout, n: Checkout) {
    && n == o.(status := n.status, cancelledAt := n.cancelledAt, paidAt := n.paidAt)
    && !(o.status == CANCELLED && (n.status != o.status || n.cancelledAt != o.cancelledAt))
  }

  predicate ReservationBlacklist(o: Reservation, n: Reservation) {
    && n == o.(status := n.status, releasedAt := n.releasedAt, consumedAt := n.consumedAt)
    && !(o.status == RELEASED && (n.status != o.status || n.releasedAt != o.releasedAt))
  }

  // Rows as the previous schema could hold them.
  predicate TwoStatusMandate(m: Mandate) { MandateCheck(m) }
  predicate TwoStatusCheckout(c: Checkout) { CheckoutCheck(c) && c.status in {OPEN, CANCELLED} }
  predicate TwoStatusReservation(r: Reservation) {
    ReservationCheck(r) && r.status in {ReservationStatus.ACTIVE, RELEASED}
  }

  // A history is the successive versions of one row that its guard let through.
  ghost predicate History<R>(versions: seq<R>, guard: (R, R) -> bool) {
    forall k :: 0 < k < |versions| ==> guard(versions[k - 1], versions[k])
  }

  // The history without the updates of a terminal row that changed nothing.
  function Squeezed<R(==)>(versions: seq<R>, terminal: R -> bool): (r: seq<R>)
    ensures versions != [] ==> r != [] && r[0] == versions[0]
  {
    if |versions| < 2 then versions
    else if terminal(versions[0]) && versions[1] == versions[0] then Squeezed(versions[1..], terminal)
    else [versions[0]] + Squeezed(versions[1..], terminal)
  }

  // Where the old guard accepts what the new one does and no-op updates of terminal rows
  // besides, histories agree once those no-ops are taken out.
  lemma {:induction false} SameHistories<R>(
      versions: seq<R>, black: (R, R) -> bool, white: (R, R) -> bool, terminal: R -> bool)
    requires forall o, n :: o in versions && n in versions ==>
      (black(o, n) <==> white(o, n) || (terminal(o) && n == o)) && (white(o, n) ==> !terminal(o))
    ensures History(versions, black) <==> History(Squeezed(versions, terminal), white)
    decreases |versions|
  {
    if |versions| >= 2 {
      var first, rest := versions[0], versions[1..];
      assert forall v :: v in rest ==> v in versions;
      SameHistories(rest, black, white, terminal);
      HistoryUnfolds(versions, black);
      assert versions[1] in versions && first in versions;
      if !(terminal(first) && versions[1] == first) {
        assert ([first] + Squeezed(rest, terminal))[1..] == Squeezed(rest, terminal);
        HistoryUnfolds([first] + Squeezed(rest, terminal), white);
      }
    }
  }

  lemma HistoryUnfolds<R>(versions: seq<R>, guard: (R, R) -> bool)
    requires |versions| >= 2
    ensures History(versions, guard) <==> guard(versions[0], versions[1]) && History(versions[1..], guard)
  {
    if guard(versions[0], versions[1]) && History(versions[1..], guard) {
      forall k | 0 < k < |versions| ensures guard(versions[k - 1], versions[k]) {
        if k > 1 {
          assert guard(versions[1..][k - 2], versions[1..][k - 1]);
        }
      }
    }
    if History(versions, guard) {
      forall k | 0 < k < |versions[1..]| ensures guard(versions[1..][k - 1], versions[1..][k]) {
        assert versions[1..][k - 1] == versions[k + 1 - 1] && versions[1..][k] == versions[k + 1];
      }
    }
  }

  predicate MandateTerminal(m: Mandate) { m.status == REVOKED }
  predicate CheckoutTerminal(c: Checkout) { c.status == CANCELLED }
  predicate ReservationTerminal(r: Reservation) { r.status == RELEASED }

  // On two-status rows the rewritten guards lose nothing but updates that changed nothing.
  lemma WhitelistsKeepMandateHistories(versions: seq<Mandate>)
    requires forall m :: m in versions ==> TwoStatusMandate(m)
    ensures History(versions, MandateBlacklist) <==> History(Squeezed(versions, MandateTerminal), MandateGuard)
  {
    SameHistories(versions, MandateBlacklist, MandateGuard, MandateTerminal);
  }

  lemma WhitelistsKeepCheckoutHistories(versions: seq<Checkout>)
    requires forall c :: c in versions ==> TwoStatusCheckout(c)
    ensures History(versions, CheckoutBlacklist) <==> History(Squeezed(versions, CheckoutTerminal), CheckoutGuard)
  {
    SameHistories(versions, CheckoutBlacklist, CheckoutGuard, CheckoutTerminal);
  }

  lemma WhitelistsKeepReservationHistories(versions: seq<Reservation>)
    requires forall r :: r in versions ==> TwoStatusReservation(r)
    ensures History(versions, ReservationBlacklist) <==>
      History(Squeezed(versions, ReservationTerminal), ReservationGuard)
  {
    SameHistories(versions, ReservationBlacklist, ReservationGuard, ReservationTerminal);
  }

  // On the statuses this migration adds, the blacklists would have let a sale be undone: any
  // paid checkout reopened, any sold hold put back. The whitelists let neither row change.
  lemma BlacklistsWouldUndoASale(c: Checkout, r: Reservation)
    requires CheckoutCheck(c) && c.status == PAID && ReservationCheck(r) && r.status == CONSUMED
    ensures exists n :: CheckoutCheck(n) && n.status == OPEN && CheckoutBlacklist(c, n)
    ensures exists n :: ReservationCheck(n) && n.status == ReservationStatus.ACTIVE && ReservationBlacklist(r, n)
    ensures forall n :: !CheckoutGuard(c, n)
    ensures forall n :: !ReservationGuard(r, n)
  {
    var reopened := c.(status := OPEN, paidAt := None);
    assert CheckoutCheck(reopened) && CheckoutBlacklist(c, reopened);
    var shelved := r.(status := ReservationStatus.ACTIVE, consumedAt := None);
    assert ReservationCheck(shelved) && ReservationBlacklist(r, shelved);
  }

  /* ---- the previous schema ---- */

  datatype OldCheckout = OldCheckout(
    merchant: Id, mandate: Id, currency: string, subtotal: int, shipping: int, discount: int, total: int,
    createdAt: Time, expiresAt: Time, cancelled: bool, cancelledAt: Option<Time>)

  datatype OldReservation = OldReservation(
    merchant: Id, checkout: Id, createdAt: Time, expiresAt: Time, released: bool, releasedAt: Option<Time>)

  datatype OldDb = OldDb(
    mandates: map<Id, Mandate>, checkouts: map<Id, OldCheckout>,
    reservations: map<Id, OldReservation>, lines: map<Id, Line>, outside: Outside)

  predicate OldCheckoutCheck(c: OldCheckout) {
    && c.cancelled == c.cancelledAt.Some?
    && c.expiresAt > c.createdAt
    && 0 <= c.subtotal && 0 <= c.shipping && 0 <= c.discount && 0 <= c.total
    && Bigint(c.subtotal) && Bigint(c.shipping) && Bigint(c.discount) && Bigint(c.subtotal + c.shipping)
    && c.total == c.subtotal + c.shipping - c.discount
  }

  predicate OldReservationCheck(r: OldReservation) {
    r.released == r.releasedAt.Some? && r.expiresAt > r.createdAt
  }

  function OldCheckoutMandate(c: OldCheckout): Option<Id> { Some(c.mandate) }
  predicate OldSameMandateOwner(c: OldCheckout, m: Mandate) { c.merchant == m.merchant }
  function OldReservationCheckout(r: OldReservation): Option<Id> { Some(r.checkout) }
  predicate OldSameCheckoutOwner(r: OldReservation, c: OldCheckout) { r.merchant == c.merchant }
  predicate OldSameReservationOwner(l: Line, r: OldReservation) { l.merchant == r.merchant }
  function ActiveCheckout(r: OldReservation): Option<Id> { if r.released then None else Some(r.checkout) }

  ghost predicate OldConsistent(old_: OldDb) {
    && (forall i :: i in old_.mandates ==> MandateCheck(old_.mandates[i]))
    && (forall i :: i in old_.checkouts ==> OldCheckoutCheck(old_.checkouts[i]))
    && (forall i :: i in old_.reservations ==> OldReservationCheck(old_.reservations[i]))
    && (forall i :: i in old_.lines ==> LineCheck(old_.lines[i]))
    && Unique(old_.reservations, ActiveCheckout)
    && Unique(old_.lines, LineVariant)
    && References(old_.checkouts, old_.mandates, OldCheckoutMandate, OldSameMandateOwner)
    && References(old_.reservations, old_.checkouts, OldReservationCheckout, OldSameCheckoutOwner)
    && References(old_.lines, old_.reservations, LineReservation, OldSameReservationOwner)
    && OldGrounded(old_)
  }

  // No table of the previous schema could name an attempt.
  predicate OldGrounded(old_: OldDb) {
    && (forall i :: i in old_.mandates ==> MandateGrounded(old_.outside, old_.mandates[i]))
    && (forall i :: i in old_.lines ==> LineGrounded(old_.outside, old_.lines[i]))
    && old_.outside.namedMandates <= old_.mandates.Keys
    && old_.outside.namedCheckouts <= old_.checkouts.Keys
    && old_.outside.namedAttempts == {}
  }

  // The tables of later revisions are gone before this one is reversed: there are no bindings,
  // and no mission runs to name an attempt.
  predicate AtThisRevision(db: Db) { db.bindings == map[] && db.outside.namedAttempts == {} }

  /* ---- upgrade and downgrade ---- */

  function WidenCheckout(c: OldCheckout): Checkout {
    Checkout(c.merchant, c.mandate, c.currency, c.subtotal, c.shipping, c.discount, c.total,
             c.createdAt, c.expiresAt, if c.cancelled then CANCELLED else OPEN, c.cancelledAt, None)
  }

  function WidenReservation(r: OldReservation): Reservation {
    Reservation(r.merchant, r.checkout, r.createdAt, r.expiresAt,
                if r.released then RELEASED else ReservationStatus.ACTIVE, r.releasedAt, None)
  }

  function NarrowCheckout(c: Checkout): OldCheckout {
    OldCheckout(c.merchant, c.mandate, c.currency, c.subtotal, c.shipping, c.discount, c.total,
                c.createdAt, c.expiresAt, c.status == CANCELLED, c.cancelledAt)
  }

  function NarrowReservation(r: Reservation): OldReservation {
    OldReservation(r.merchant, r.checkout, r.createdAt, r.expiresAt, r.status == RELEASED, r.releasedAt)
  }

  function Upgraded(old_: OldDb): Db {
    Db(old_.mandates,
       map i | i in old_.checkouts :: WidenCheckout(old_.checkouts[i]),
       map i | i in old_.reservations :: WidenReservation(old_.reservations[i]),
       old_.lines, map[], map[], old_.outside)
  }

  function Downgraded(db: Db): OldDb {
    OldDb(db.mandates,
          map i | i in db.checkouts :: NarrowCheckout(db.checkouts[i]),
          map i | i in db.reservations :: NarrowReservation(db.reservations[i]),
          db.lines, db.outside)
  }

  // The three tables inspected, in order.
  datatype Table = CheckoutTable | ReservationTable | AttemptTable
  const IRREVERSIBLE_STATE := [CheckoutTable, ReservationTable, AttemptTable]

  // The rows of a table in states the previous schema has no words for.
  function Irreversible(db: Db, t: Table): set<Id> {
    match t
    case CheckoutTable => set i | i in db.checkouts && db.checkouts[i].status == PAID
    case ReservationTable => set i | i in db.reservations && db.reservations[i].status in {COMMITTED, CONSUMED}
    case AttemptTable => set i | i in db.attempts && db.attempts[i].status in {IN_FLIGHT, SUCCEEDED, FAILED, UNKNOWN}
  }

  predicate Offends(db: Db, t: Table) { Irreversible(db, t) != {} }

  ghost predicate Reversible(db: Db) { forall t :: !Offends(db, t) }

  function FoundIn(db: Db, tables: seq<Table>): seq<(Table, nat)> {
    if tables == [] then []
    else
      var found, t := FoundIn(db, tables[..|tables| - 1]), tables[|tables| - 1];
      if Offends(db, t) then found + [(t, |Irreversible(db, t)|)] else found
  }

  // Reported are exactly the offending tables among those looked at, each with its row count.
  ghost predicate Reports(db: Db, tables: seq<Table>, found: seq<(Table, nat)>) {
    forall f :: f in found <==> f.0 in tables && Offends(db, f.0) && f.1 == |Irreversible(db, f.0)|
  }

  lemma {:induction false} FoundInReports(db: Db, tables: seq<Table>)
    ensures Reports(db, tables, FoundIn(db, tables))
    decreases |tables|
  {
    if tables != [] {
      var earlier, t := tables[..|tables| - 1], tables[|tables| - 1];
      FoundInReports(db, earlier);
      assert tables == earlier + [t];
      ReportsOneMore(db, earlier, FoundIn(db, earlier), t);
    }
  }

  lemma ReportsOneMore(db: Db, tables: seq<Table>, found: seq<(Table, nat)>, t: Table)
    requires Reports(db, tables, found)
    ensures Reports(db, tables + [t], if Offends(db, t) then found + [(t, |Irreversible(db, t)|)] else found)
  {
  }

  // Names every offending table with the number of rows found, and refuses if any was.
  method RequireReversible(db: Db) returns (found: seq<(Table, nat)>)
    ensures found == FoundIn(db, IRREVERSIBLE_STATE)
    ensures found == [] <==> Reversible(db)
    ensures forall t :: Offends(db, t) <==> (t, |Irreversible(db, t)|) in found
  {
    found := [];
    for n := 0 to |IRREVERSIBLE_STATE|
      invariant found == FoundIn(db, IRREVERSIBLE_STATE[..n])
    {
      var t := IRREVERSIBLE_STATE[n];
      assert IRREVERSIBLE_STATE[..n + 1][..n] == IRREVERSIBLE_STATE[..n];
      var count := |Irreversible(db, t)|;
      if count > 0 {
        found := found + [(t, count)];
      }
    }
    assert IRREVERSIBLE_STATE[..|IRREVERSIBLE_STATE|] == IRREVERSIBLE_STATE;
    FoundInReports(db, IRREVERSIBLE_STATE);
    NothingReportedMeansReversible(db, found);
  }

  lemma NothingReportedMeansReversible(db: Db, found: seq<(Table, nat)>)
    requires Reports(db, IRREVERSIBLE_STATE, found)
    ensures forall t :: Offends(db, t) <==> (t, |Irreversible(db, t)|) in found
    ensures found == [] <==> Reversible(db)
  {
    forall t: Table ensures Offends(db, t) <==> (t, |Irreversible(db, t)|) in found {
      EveryTableIsInspected(t);
      var f := (t, |Irreversible(db, t)|);
      assert f in found <==> f.0 in IRREVERSIBLE_STATE && Offends(db, f.0) && f.1 == |Irreversible(db, f.0)|;
    }
    if found != [] {
      assert found[0] in found && Offends(db, found[0].0);
    }
  }

  lemma EveryTableIsInspected(t: Table)
    ensures t in IRREVERSIBLE_STATE
  {
    assert IRREVERSIBLE_STATE[0] == CheckoutTable;
    assert IRREVERSIBLE_STATE[1] == ReservationTable;
    assert IRREVERSIBLE_STATE[2] == AttemptTable;
    match t
    case CheckoutTable =>
    case ReservationTable =>
    case AttemptTable =>
  }

  // The whole reversal, or nothing and the reasons.
  method Downgrade(db: Db) returns (r: Option<OldDb>, found: seq<(Table, nat)>)
    ensures r == if Reversible(db) then Some(Downgraded(db)) else None
    ensures r.None? <==> found != []
  {
    found := RequireReversible(db);
    r := if found == [] then Some(Downgraded(db)) else None;
  }

  lemma NarrowThenWiden(db: Db)
    requires CheckoutsOk(db) && ReservationsOk(db) && Reversible(db)
    ensures Upgraded(Downgraded(db)) == db.(attempts := map[], bindings := map[])
  {
    forall i | i in db.checkouts ensures WidenCheckout(NarrowCheckout(db.checkouts[i])) == db.checkouts[i] {
      assert !Offends(db, CheckoutTable) && i !in Irreversible(db, CheckoutTable);
      assert CheckoutCheck(db.checkouts[i]);
    }
    forall i | i in db.reservations
      ensures WidenReservation(NarrowReservation(db.reservations[i])) == db.reservations[i]
    {
      assert !Offends(db, ReservationTable) && i !in Irreversible(db, ReservationTable);
      assert ReservationCheck(db.reservations[i]);
    }
  }

  lemma NarrowedRowsFit(db: Db)
    requires CheckoutsOk(db) && ReservationsOk(db) && Reversible(db)
    ensures var old_ := Downgraded(db);
      && (forall i :: i in old_.checkouts ==> OldCheckoutCheck(old_.checkouts[i]))
      && (forall i :: i in old_.reservations ==> OldReservationCheck(old_.reservations[i]))
      && Unique(old_.reservations, ActiveCheckout)
  {
    var old_ := Downgraded(db);
    forall i | i in db.checkouts ensures OldCheckoutCheck(old_.checkouts[i]) {
      assert CheckoutCheck(db.checkouts[i]);
    }
    forall i | i in db.reservations
      ensures OldReservationCheck(old_.reservations[i])
      ensures ActiveCheckout(old_.reservations[i]) == HoldingCheckout(db.reservations[i])
    {
      assert ReservationCheck(db.reservations[i]) && !Offends(db, ReservationTable);
      assert i !in Irreversible(db, ReservationTable);
    }
  }

  lemma NarrowedIsConsistent(db: Db)
    requires Consistent(db) && AtThisRevision(db) && Reversible(db)
    ensures OldConsistent(Downgraded(db))
  {
    NarrowedRowsFit(db);
    NarrowedLinksHold(db);
  }

  lemma NarrowedLinksHold(db: Db)
    requires References(db.checkouts, db.mandates, CheckoutMandate, SameMandateOwner)
    requires References(db.reservations, db.checkouts, ReservationCheckout, SameCheckoutOwner)
    requires References(db.lines, db.reservations, LineReservation, SameReservationOwner)
    ensures var old_ := Downgraded(db);
      && References(old_.checkouts, old_.mandates, OldCheckoutMandate, OldSameMandateOwner)
      && References(old_.reservations, old_.checkouts, OldReservationCheckout, OldSameCheckoutOwner)
      && References(old_.lines, old_.reservations, LineReservation, OldSameReservationOwner)
  {
    assert forall i :: i in db.checkouts ==> Resolves(db.checkouts[i], db.mandates, CheckoutMandate, SameMandateOwner);
    assert forall i :: i in db.reservations ==>
      Resolves(db.reservations[i], db.checkouts, ReservationCheckout, SameCheckoutOwner);
    assert forall i :: i in db.lines ==> Resolves(db.lines[i], db.reservations, LineReservation, SameReservationOwner);
  }

  // An accepted downgrade satisfies every narrowed constraint and loses nothing but attempts
  // that provably never reached a provider: upgrading again gives back every other row as it was.
  lemma AcceptedDowngradeIsLossless(db: Db)
    requires Consistent(db) && AtThisRevision(db) && Reversible(db)
    ensures OldConsistent(Downgraded(db))
    ensures Upgraded(Downgraded(db)) == db.(attempts := map[])
    ensures forall i :: i in db.attempts ==> db.attempts[i].status == ADMITTED && db.attempts[i].dispatchedAt.None?
  {
    NarrowedIsConsistent(db);
    NarrowThenWiden(db);
    OnlyAdmittedRemain(db);
  }

  lemma OnlyAdmittedRemain(db: Db)
    requires AttemptsOk(db) && Reversible(db)
    ensures forall i :: i in db.attempts ==> db.attempts[i].status == ADMITTED && db.attempts[i].dispatchedAt.None?
  {
    forall i | i in db.attempts ensures db.attempts[i].status == ADMITTED && AttemptCheck(db.attempts[i]) {
      assert !Offends(db, AttemptTable) && i !in Irreversible(db, AttemptTable);
    }
  }

  lemma WidenedRowsFit(old_: OldDb)
    requires OldConsistent(old_)
    ensures forall i :: i in old_.checkouts ==> CheckoutCheck(WidenCheckout(old_.checkouts[i]))
    ensures forall i :: i in old_.reservations ==> ReservationCheck(WidenReservation(old_.reservations[i]))
  {
  }

  lemma WidenedHoldsStaySingle(old_: OldDb)
    requires Unique(old_.reservations, ActiveCheckout)
    ensures Unique(Upgraded(old_).reservations, HoldingCheckout)
  {
    assert forall i :: i in old_.reservations ==>
      HoldingCheckout(Upgraded(old_).reservations[i]) == ActiveCheckout(old_.reservations[i]);
  }

  lemma WidenedLinksHold(old_: OldDb)
    requires References(old_.checkouts, old_.mandates, OldCheckoutMandate, OldSameMandateOwner)
    requires References(old_.reservations, old_.checkouts, OldReservationCheckout, OldSameCheckoutOwner)
    requires References(old_.lines, old_.reservations, LineReservation, OldSameReservationOwner)
    ensures var db := Upgraded(old_);
      && References(db.checkouts, db.mandates, CheckoutMandate, SameMandateOwner)
      && References(db.reservations, db.checkouts, ReservationCheckout, SameCheckoutOwner)
      && References(db.lines, db.reservations, LineReservation, SameReservationOwner)
  {
    assert forall i :: i in old_.checkouts ==>
      Resolves(old_.checkouts[i], old_.mandates, OldCheckoutMandate, OldSameMandateOwner);
    assert forall i :: i in old_.reservations ==>
      Resolves(old_.reservations[i], old_.checkouts, OldReservationCheckout, OldSameCheckoutOwner);
    assert forall i :: i in old_.lines ==>
      Resolves(old_.lines[i], old_.reservations, LineReservation, OldSameReservationOwner);
  }

  lemma WidenThenNarrow(old_: OldDb)
    ensures Downgraded(Upgraded(old_)) == old_ && Reversible(Upgraded(old_))
  {
    assert forall i :: i in old_.checkouts ==> NarrowCheckout(WidenCheckout(old_.checkouts[i])) == old_.checkouts[i];
    assert forall i :: i in old_.reservations ==>
      NarrowReservation(WidenReservation(old_.reservations[i])) == old_.reservations[i];
    WidenedIsReversible(old_);
  }

  lemma WidenedIsReversible(old_: OldDb)
    ensures Reversible(Upgraded(old_))
  {
    forall t ensures Irreversible(Upgraded(old_), t) == {} {
      match t
      case CheckoutTable =>
      case ReservationTable =>
      case AttemptTable =>
    }
  }

  // And going up is always reversible, exactly.
  lemma UpgradeIsReversible(old_: OldDb)
    requires OldConsistent(old_)
    ensures Consistent(Upgraded(old_)) && Reversible(Upgraded(old_))
    ensures Downgraded(Upgraded(old_)) == old_
  {
    WidenedRowsFit(old_);
    WidenedHoldsStaySingle(old_);
    WidenedLinksHold(old_);
    WidenThenNarrow(old_);
  }

  // The refusal is neither too eager nor too late: it comes exactly when no database of the
  // previous schema says what this one says, or an attempt has been dispatched.
  lemma RefusalIsExact(db: Db)
    requires Consistent(db) && AtThisRevision(db)
    ensures Reversible(db) <==>
      SaidByPreviousSchema(db) && forall i :: i in db.attempts ==> db.attempts[i].dispatchedAt.None?
  {
    if Reversible(db) {
      AcceptedDowngradeIsLossless(db);
    } else if SaidByPreviousSchema(db) {
      var old_ :| OldConsistent(old_) && Upgraded(old_) == db.(attempts := map[]);
      DispatchedIsWhatRemains(db, old_);
    }
  }

  ghost predicate SaidByPreviousSchema(db: Db) {
    exists old_ :: OldConsistent(old_) && Upgraded(old_) == db.(attempts := map[])
  }

  lemma OnlyAttemptsRemain(db: Db, old_: OldDb, t: Table)
    requires Upgraded(old_) == db.(attempts := map[]) && t != AttemptTable
    ensures Irreversible(db, t) == {}
  {
    WidenThenNarrow(old_);
    assert Irreversible(db, t) == Irreversible(Upgraded(old_), t);
  }

  lemma DispatchedIsWhatRemains(db: Db, old_: OldDb)
    requires AttemptsOk(db) && !Reversible(db) && Upgraded(old_) == db.(attempts := map[])
    ensures exists i :: i in db.attempts && db.attempts[i].dispatchedAt.Some?
  {
    var t :| Irreversible(db, t) != {};
    if t != AttemptTable {
      OnlyAttemptsRemain(db, old_, t);
    }
    var i :| i in Irreversible(db, t);
    assert AttemptCheck(db.attempts[i]);
  }
}
