/** Exactly which writes the payment tables accept, column by column: what a row may be inserted
    as, what an update may change it to, and which other rows can stand in the way. */
module PaymentTransitions {
  import opened Relational
  import opened PaymentSchema
  import opened PaymentDatabase

  const BIGINT_LIMIT := 0x8000_0000_0000_0000
  const INTEGER_LIMIT := 0x8000_0000

  // Of a row that is there, an update is judged by its trigger and its probes.
  lemma CheckoutUpdateIsJudged(db: Db, i: Id, n: Checkout)
    requires Consistent(db) && i in db.checkouts
    ensures Accepts(db, OnCheckout(Update(i, n))) <==>
      CheckoutGuard(db.checkouts[i], n) && OwnProbes(db, OnCheckout(Update(i, n)))
  {
    hide Consistent, Accepts, OwnProbes, CheckoutGuard;
    ProbesAreEnough(db, OnCheckout(Update(i, n)));
  }

  lemma ReservationUpdateIsJudged(db: Db, i: Id, n: Reservation)
    requires Consistent(db) && i in db.reservations
    ensures Accepts(db, OnReservation(Update(i, n))) <==>
      ReservationGuard(db.reservations[i], n) && OwnProbes(db, OnReservation(Update(i, n)))
  {
    hide Consistent, Accepts, OwnProbes, ReservationGuard;
    ProbesAreEnough(db, OnReservation(Update(i, n)));
  }

  lemma AttemptUpdateIsJudged(db: Db, i: Id, n: Attempt)
    requires Consistent(db) && i in db.attempts
    ensures Accepts(db, OnAttempt(Update(i, n))) <==>
      AttemptGuard(db.attempts[i], n) && OwnProbes(db, OnAttempt(Update(i, n)))
  {
    hide Consistent, Accepts, OwnProbes, AttemptGuard;
    ProbesAreEnough(db, OnAttempt(Update(i, n)));
  }

  lemma BindingUpdateIsJudged(db: Db, i: Id, n: Binding)
    requires Consistent(db) && i in db.bindings
    ensures Accepts(db, OnBinding(Update(i, n))) <==>
      BindingGuard(db.bindings[i], n) && OwnProbes(db, OnBinding(Update(i, n)))
  {
    hide Consistent, Accepts, OwnProbes, BindingGuard;
    ProbesAreEnough(db, OnBinding(Update(i, n)));
  }

  /* ---- mandates ---- */

  lemma MandateInserts(db: Db, i: Id, n: Mandate)
    requires Consistent(db)
    ensures Accepts(db, OnMandate(Insert(i, n))) <==>
      && i !in db.mandates && n.merchant in db.outside.merchants
      && n.validFrom < n.validUntil && 0 <= n.maxTotal < BIGINT_LIMIT
      && (n.maxQuantity.None? || 0 < n.maxQuantity.value < INTEGER_LIMIT)
      && (if n.status == REVOKED then n.revokedAt.Some? else n.revokedAt.None?)
  {
    hide Consistent;
    ProbesAreEnough(db, OnMandate(Insert(i, n)));
  }

  // The one thing that can happen to a mandate is to be revoked, once.
  lemma MandateUpdates(db: Db, i: Id, n: Mandate)
    requires Consistent(db) && i in db.mandates
    ensures var o := db.mandates[i];
      Accepts(db, OnMandate(Update(i, n))) <==>
        && o.status == MandateStatus.ACTIVE
        && (n == o || (n.revokedAt.Some? && n == o.(status := REVOKED, revokedAt := n.revokedAt)))
  {
    assert MandateCheck(db.mandates[i]) && MandateGrounded(db.outside, db.mandates[i]);
    hide Consistent;
    ProbesAreEnough(db, OnMandate(Update(i, n)));
  }

  /* ---- checkouts ---- */

  lemma CheckoutInserts(db: Db, i: Id, n: Checkout)
    requires Consistent(db)
    ensures Accepts(db, OnCheckout(Insert(i, n))) <==>
      && i !in db.checkouts && n.mandate in db.mandates && db.mandates[n.mandate].merchant == n.merchant
      && n.createdAt < n.expiresAt
      && 0 <= n.subtotal && 0 <= n.shipping && n.subtotal + n.shipping < BIGINT_LIMIT
      && 0 <= n.discount <= n.subtotal + n.shipping && n.total == n.subtotal + n.shipping - n.discount
      && match n.status
         case OPEN => n.cancelledAt.None? && n.paidAt.None?
         case CANCELLED => n.cancelledAt.Some? && n.paidAt.None?
         case PAID => n.cancelledAt.None? && n.paidAt.Some?
  {
    hide Consistent;
    ProbesAreEnough(db, OnCheckout(Insert(i, n)));
  }

  predicate CheckoutMoves(o: Checkout, n: Checkout) {
    && o.status == OPEN
    && (|| n == o
        || (n.cancelledAt.Some? && n == o.(status := CANCELLED, cancelledAt := n.cancelledAt))
        || (n.paidAt.Some? && n == o.(status := PAID, paidAt := n.paidAt)))
  }

  // An open quote can be cancelled or paid; a closed one cannot be touched.
  lemma CheckoutUpdates(db: Db, i: Id, n: Checkout)
    requires Consistent(db) && i in db.checkouts
    ensures Accepts(db, OnCheckout(Update(i, n))) <==> CheckoutMoves(db.checkouts[i], n)
  {
    var o := db.checkouts[i];
    assert CheckoutCheck(o) && Resolves(o, db.mandates, CheckoutMandate, SameMandateOwner);
    CheckoutUpdateIsJudged(db, i, n);
    hide Consistent, Accepts;
  }

  /* ---- reservations and their lines ---- */

  // One reservation at a time holds stock for a checkout.
  predicate NothingElseHolds(db: Db, i: Id, checkout: Id) {
    forall j :: j in db.reservations && j != i && db.reservations[j].checkout == checkout ==>
      db.reservations[j].status != ReservationStatus.ACTIVE && db.reservations[j].status != COMMITTED
  }

  lemma ReservationInserts(db: Db, i: Id, n: Reservation)
    requires Consistent(db)
    ensures Accepts(db, OnReservation(Insert(i, n))) <==>
      && i !in db.reservations && n.checkout in db.checkouts && db.checkouts[n.checkout].merchant == n.merchant
      && n.createdAt < n.expiresAt
      && match n.status
         case ACTIVE => n.releasedAt.None? && n.consumedAt.None? && NothingElseHolds(db, i, n.checkout)
         case COMMITTED => n.releasedAt.None? && n.consumedAt.None? && NothingElseHolds(db, i, n.checkout)
         case RELEASED => n.releasedAt.Some? && n.consumedAt.None?
         case CONSUMED => n.releasedAt.None? && n.consumedAt.Some?
  {
    hide Consistent;
    ProbesAreEnough(db, OnReservation(Insert(i, n)));
  }

  predicate ReservationMoves(o: Reservation, n: Reservation) {
    && o.status in {ReservationStatus.ACTIVE, COMMITTED}
    && (|| n == o
        || (o.status == ReservationStatus.ACTIVE && n == o.(status := COMMITTED))
        || (n.releasedAt.Some? && n == o.(status := RELEASED, releasedAt := n.releasedAt))
        || (o.status == COMMITTED && n.consumedAt.Some? && n == o.(status := CONSUMED, consumedAt := n.consumedAt)))
  }

  lemma ReservationMovesAsGuarded(o: Reservation, n: Reservation)
    requires ReservationCheck(o)
    ensures ReservationMoves(o, n) <==> ReservationGuard(o, n) && ReservationCheck(n)
    ensures ReservationMoves(o, n) ==> n.checkout == o.checkout && n.merchant == o.merchant
  {
  }

  // A hold can be committed; a standing one released; and only a committed one consumed.
  lemma ReservationUpdates(db: Db, i: Id, n: Reservation)
    requires Consistent(db) && i in db.reservations
    ensures Accepts(db, OnReservation(Update(i, n))) <==> ReservationMoves(db.reservations[i], n)
  {
    var o := db.reservations[i];
    assert ReservationCheck(o) && Resolves(o, db.checkouts, ReservationCheckout, SameCheckoutOwner);
    ReservationMovesAsGuarded(o, n);
    assert ReservationMoves(o, n) ==> Holding(o.status);
    HoldKeepsItsKey(db, i, n);
    ReservationUpdateIsJudged(db, i, n);
    hide Consistent, Accepts, ReservationMoves, ReservationGuard, ReservationCheck;
  }

  lemma HoldKeepsItsKey(db: Db, i: Id, n: Reservation)
    requires ReservationsOk(db) && i in db.reservations
    ensures n.checkout == db.reservations[i].checkout && Holding(db.reservations[i].status) ==>
      Free(db.reservations, HoldingCheckout, i, n)
  {
    var o := db.reservations[i];
    forall j | j in db.reservations && HoldingCheckout(o).Some?
      && HoldingCheckout(db.reservations[j]) == HoldingCheckout(o)
      ensures j == i
    {
    }
  }

  // A line is inserted under a reservation in any status, once per variant, and never changes.
  lemma LineInserts(db: Db, i: Id, n: Line)
    requires Consistent(db)
    ensures Accepts(db, OnLine(Insert(i, n))) <==>
      && i !in db.lines && 0 < n.quantity < INTEGER_LIMIT
      && n.reservation in db.reservations && db.reservations[n.reservation].merchant == n.merchant
      && n.variant in db.outside.variants && db.outside.variants[n.variant] == n.merchant
      && forall j :: j in db.lines && db.lines[j].reservation == n.reservation ==> db.lines[j].variant != n.variant
    ensures !Accepts(db, OnLine(Update(i, n)))
  {
    hide Consistent;
    ProbesAreEnough(db, OnLine(Insert(i, n)));
  }

  /* ---- payment attempts ---- */

  // The columns a status comes with.
  predicate AttemptColumns(a: Attempt) {
    && 0 <= a.amount < BIGINT_LIMIT
    && match a.status
       case ADMITTED => a.dispatchedAt.None? && a.outcomeSource.None? && a.resolvedAt.None? && a.failureCode.None?
       case IN_FLIGHT => a.dispatchedAt.Some? && a.outcomeSource.None? && a.resolvedAt.None? && a.failureCode.None?
       case UNKNOWN => a.dispatchedAt.Some? && a.outcomeSource.Some? && a.resolvedAt.None? && a.failureCode.None?
       case SUCCEEDED => a.dispatchedAt.Some? && a.outcomeSource.Some? && a.resolvedAt.Some? && a.failureCode.None?
       case FAILED => a.dispatchedAt.Some? && a.outcomeSource.Some? && a.resolvedAt.Some?
  }

  // Whether attempt j under the mandate shuts another one out: an open one while the other is
  // open, a success once the other succeeds.
  predicate ShutOut(db: Db, i: Id, mandate: Id, status: AttemptStatus) {
    exists j :: j in db.attempts && j != i && db.attempts[j].mandate == mandate &&
      (if status == SUCCEEDED then db.attempts[j].status == SUCCEEDED
       else status != FAILED && db.attempts[j].status in {ADMITTED, IN_FLIGHT, UNKNOWN})
  }

  // The two indexes on successes say no more than the one by mandate: a quote has one mandate.
  lemma ShutOutByIndex(db: Db, i: Id, n: Attempt)
    requires AttemptsOk(db) && Resolves(n, db.checkouts, AttemptCheckout, QuotedExactly)
    ensures ShutOut(db, i, n.mandate, n.status) <==>
      !(Free(db.attempts, SucceededCheckout, i, n) && Free(db.attempts, SucceededMandate, i, n)
        && Free(db.attempts, OpenMandate, i, n))
  {
    forall j | j in db.attempts
      ensures db.attempts[j].checkout == n.checkout ==> db.attempts[j].mandate == n.mandate
    {
      assert Resolves(db.attempts[j], db.checkouts, AttemptCheckout, QuotedExactly);
    }
  }

  predicate AttemptFits(db: Db, i: Id, n: Attempt) {
    && n.checkout in db.checkouts && n.reservation in db.reservations
    && (var c := db.checkouts[n.checkout];
        n.merchant == c.merchant && n.mandate == c.mandate && n.currency == c.currency && n.amount == c.total)
    && db.reservations[n.reservation].merchant == n.merchant
    && db.reservations[n.reservation].checkout == n.checkout
    && forall j :: j in db.attempts && j != i && db.attempts[j].checkout == n.checkout ==>
         db.attempts[j].idempotencyKey != n.idempotencyKey
  }

  lemma AttemptProbed(db: Db, i: Id, n: Attempt)
    requires AttemptsOk(db)
    ensures OwnProbes(db, OnAttempt(Insert(i, n))) <==>
      AttemptColumns(n) && AttemptFits(db, i, n) && !ShutOut(db, i, n.mandate, n.status)
    ensures OwnProbes(db, OnAttempt(Update(i, n))) <==> OwnProbes(db, OnAttempt(Insert(i, n)))
  {
    AttemptColumnsAreTheChecks(n);
    if Resolves(n, db.checkouts, AttemptCheckout, QuotedExactly) {
      ShutOutByIndex(db, i, n);
    }
    hide AttemptsOk, AttemptCheck, AttemptColumns, ShutOut;
  }

  lemma AttemptColumnsAreTheChecks(n: Attempt)
    ensures AttemptColumns(n) <==> AttemptCheck(n)
  {
  }

  // Only a key of its quote already used, another open attempt or an earlier success under its
  // mandate keep out an attempt that matches its quote and its hold.
  lemma AttemptInserts(db: Db, i: Id, n: Attempt)
    requires Consistent(db)
    ensures Accepts(db, OnAttempt(Insert(i, n))) <==>
      && i !in db.attempts && AttemptColumns(n) && AttemptFits(db, i, n)
      && !ShutOut(db, i, n.mandate, n.status)
  {
    AttemptProbed(db, i, n);
    hide Consistent, OwnProbes, AttemptColumns, AttemptFits, ShutOut;
    ProbesAreEnough(db, OnAttempt(Insert(i, n)));
  }

  // The six columns an update may write, and when.
  predicate AttemptMoves(o: Attempt, n: Attempt) {
    && n == o.(status := n.status, providerReference := n.providerReference, failureCode := n.failureCode,
               outcomeSource := n.outcomeSource, dispatchedAt := n.dispatchedAt, resolvedAt := n.resolvedAt)
    && AttemptColumns(n)
    && match o.status
       case ADMITTED => n.status == ADMITTED || n.status == IN_FLIGHT
       case IN_FLIGHT => n.status != ADMITTED && n.dispatchedAt == o.dispatchedAt
       case UNKNOWN => n.status in {UNKNOWN, SUCCEEDED, FAILED} && n.dispatchedAt == o.dispatchedAt
       case SUCCEEDED => false
       case FAILED => false
  }

  // An attempt is dispatched before it has an outcome, and then succeeds unless its mandate has
  // been spent already.
  lemma AttemptUpdates(db: Db, i: Id, n: Attempt)
    requires Consistent(db) && i in db.attempts
    ensures Accepts(db, OnAttempt(Update(i, n))) <==>
      && AttemptMoves(db.attempts[i], n)
      && !(n.status == SUCCEEDED && ShutOut(db, i, n.mandate, SUCCEEDED))
  {
    AttemptKeepsItsKeys(db, i, n);
    AttemptProbed(db, i, n);
    hide *;
    AttemptUpdateIsJudged(db, i, n);
  }

  lemma AttemptMovesAsGuarded(o: Attempt, n: Attempt)
    requires AttemptCheck(o)
    ensures AttemptMoves(o, n) <==> AttemptGuard(o, n) && AttemptColumns(n)
  {
  }

  lemma AttemptKeepsItsKeys(db: Db, i: Id, n: Attempt)
    requires AttemptsOk(db) && i in db.attempts
    ensures var o := db.attempts[i];
      && (AttemptMoves(o, n) <==> AttemptGuard(o, n) && AttemptColumns(n))
      && (AttemptMoves(o, n) ==> AttemptFits(db, i, n))
      && (AttemptMoves(o, n) && n.status != SUCCEEDED ==> !ShutOut(db, i, n.mandate, n.status))
  {
    var o := db.attempts[i];
    assert AttemptCheck(o);
    AttemptMovesAsGuarded(o, n);
    if AttemptMoves(o, n) {
      assert AttemptIdentity(n) == AttemptIdentity(o);
      assert Resolves(o, db.checkouts, AttemptCheckout, QuotedExactly);
      assert Resolves(o, db.reservations, AttemptReservation, HeldForCheckout);
      forall j | j in db.attempts && j != i
        ensures AttemptIdentity(db.attempts[j]) != AttemptIdentity(o)
        ensures OpenMandate(o).Some? ==> OpenMandate(db.attempts[j]) != OpenMandate(o)
      {
      }
    }
  }

  /* ---- bindings ---- */

  predicate BindingColumns(b: Binding) {
    && 0 < b.amount < BIGINT_LIMIT
    && match b.status
       case PREPARING => b.orderId.None? && b.orderCreatedAt.None? && b.paymentId.None? && b.confirmedAt.None?
       case AWAITING_PAYMENT => b.orderId.Some? && b.orderCreatedAt.Some? && b.paymentId.None? && b.confirmedAt.None?
       case CONFIRMED => b.orderId.Some? && b.orderCreatedAt.Some? && b.paymentId.Some? && b.confirmedAt.Some?
  }

  predicate OrderNamedElsewhere(db: Db, i: Id, order: Option<string>) {
    order.Some? && exists j :: j in db.bindings && j != i && db.bindings[j].orderId == order
  }

  predicate BindingFits(db: Db, i: Id, n: Binding) {
    && n.attempt in db.attempts
    && (var a := db.attempts[n.attempt]; n.merchant == a.merchant && n.amount == a.amount && n.currency == a.currency)
    && forall j :: j in db.bindings && j != i ==>
         db.bindings[j].attempt != n.attempt && db.bindings[j].receipt != n.receipt
  }

  lemma BindingColumnsAreTheChecks(n: Binding)
    ensures BindingColumns(n) <==> BindingCheck(n)
  {
  }

  lemma BindingProbed(db: Db, i: Id, n: Binding)
    ensures OwnProbes(db, OnBinding(Insert(i, n))) <==>
      BindingColumns(n) && BindingFits(db, i, n) && !OrderNamedElsewhere(db, i, n.orderId)
    ensures OwnProbes(db, OnBinding(Update(i, n))) <==> OwnProbes(db, OnBinding(Insert(i, n)))
  {
    BindingColumnsAreTheChecks(n);
    hide BindingCheck, BindingColumns;
  }

  // One binding an attempt, one receipt and one order a binding, on the attempt's own terms.
  lemma BindingInserts(db: Db, i: Id, n: Binding)
    requires Consistent(db)
    ensures Accepts(db, OnBinding(Insert(i, n))) <==>
      i !in db.bindings && BindingColumns(n) && BindingFits(db, i, n) && !OrderNamedElsewhere(db, i, n.orderId)
  {
    BindingProbed(db, i, n);
    hide Consistent, OwnProbes, BindingColumns, BindingFits, OrderNamedElsewhere;
    ProbesAreEnough(db, OnBinding(Insert(i, n)));
  }

  predicate BindingMoves(o: Binding, n: Binding) {
    match o.status
    case PREPARING =>
      || n == o
      || (n.orderId.Some? && n.orderCreatedAt.Some?
          && n == o.(status := AWAITING_PAYMENT, orderId := n.orderId, orderCreatedAt := n.orderCreatedAt))
    case AWAITING_PAYMENT =>
      || n == o
      || (n.paymentId.Some? && n.confirmedAt.Some?
          && n == o.(status := CONFIRMED, paymentId := n.paymentId, confirmedAt := n.confirmedAt))
    case CONFIRMED => false
  }

  lemma BindingMovesAsGuarded(o: Binding, n: Binding)
    requires BindingColumns(o)
    ensures BindingMoves(o, n) <==> BindingGuard(o, n) && BindingColumns(n)
    ensures BindingMoves(o, n) ==>
      && n.attempt == o.attempt && n.receipt == o.receipt
      && n.merchant == o.merchant && n.amount == o.amount && n.currency == o.currency
  {
  }

  lemma BindingKeepsItsKeys(db: Db, i: Id, n: Binding)
    requires BindingsOk(db) && i in db.bindings
    ensures BindingMoves(db.bindings[i], n) <==> BindingGuard(db.bindings[i], n) && BindingColumns(n)
    ensures BindingMoves(db.bindings[i], n) ==> BindingFits(db, i, n)
  {
    var o := db.bindings[i];
    assert BindingCheck(o) && Resolves(o, db.attempts, BindingAttempt, AdmittedExactly);
    BindingColumnsAreTheChecks(o);
    BindingMovesAsGuarded(o, n);
    hide BindingCheck, BindingMoves, BindingColumns, BindingGuard;
    forall j | j in db.bindings && j != i
      ensures BindingAttempt(db.bindings[j]) != BindingAttempt(o) && BindingReceipt(db.bindings[j]) != BindingReceipt(o)
    {
    }
  }

  // An order is named once and a payment confirms it once; nothing else is ever written.
  lemma BindingUpdates(db: Db, i: Id, n: Binding)
    requires Consistent(db) && i in db.bindings
    ensures Accepts(db, OnBinding(Update(i, n))) <==>
      BindingMoves(db.bindings[i], n) && !OrderNamedElsewhere(db, i, n.orderId)
  {
    BindingKeepsItsKeys(db, i, n);
    BindingProbed(db, i, n);
    hide *;
    BindingUpdateIsJudged(db, i, n);
  }

  /* ---- deletes ---- */

  // No table is guarded against DELETE: a row goes exactly when no row that cannot go with it
  // names it.
  lemma Deletes(db: Db, i: Id)
    requires Consistent(db)
    ensures Accepts(db, OnMandate(Delete(i))) <==>
      && i in db.mandates && i !in db.outside.namedMandates
      && forall c :: c in db.checkouts ==> db.checkouts[c].mandate != i
    ensures Accepts(db, OnCheckout(Delete(i))) <==>
      && i in db.checkouts && i !in db.outside.namedCheckouts
      && (forall r :: r in db.reservations ==> db.reservations[r].checkout != i)
      && forall a :: a in db.attempts ==> db.attempts[a].checkout != i
    ensures Accepts(db, OnReservation(Delete(i))) <==>
      i in db.reservations && forall a :: a in db.attempts ==> db.attempts[a].reservation != i
    ensures Accepts(db, OnLine(Delete(i))) <==> i in db.lines
    ensures Accepts(db, OnAttempt(Delete(i))) <==>
      && i in db.attempts && i !in db.outside.namedAttempts
      && forall b :: b in db.bindings ==> db.bindings[b].attempt != i
    ensures Accepts(db, OnBinding(Delete(i))) <==> i in db.bindings
  {
    hide Consistent;
    ProbesAreEnough(db, OnMandate(Delete(i)));
    ProbesAreEnough(db, OnCheckout(Delete(i)));
    ProbesAreEnough(db, OnReservation(Delete(i)));
    ProbesAreEnough(db, OnLine(Delete(i)));
    ProbesAreEnough(db, OnAttempt(Delete(i)));
    ProbesAreEnough(db, OnBinding(Delete(i)));
  }

  /* ---- one open attempt ---- */

  // At most one provider call is open under a mandate, in every state any statements lead to.
  lemma OneOpenAttempt(ss: seq<Statement>, i: Id, j: Id)
    requires i in Run(EMPTY, ss).attempts && j in Run(EMPTY, ss).attempts
    requires var db := Run(EMPTY, ss);
      && db.attempts[i].mandate == db.attempts[j].mandate
      && db.attempts[i].status in {ADMITTED, IN_FLIGHT, UNKNOWN}
      && db.attempts[j].status in {ADMITTED, IN_FLIGHT, UNKNOWN}
    ensures i == j
  {
    RunStaysConsistent(EMPTY, ss);
    TwoOpenAreOne(Run(EMPTY, ss), i, j);
  }

  // And while it is open, whatever a statement does, every other attempt under the mandate that
  // is there afterwards is settled.
  lemma OpenAttemptShutsOutOthers(db: Db, s: Statement, i: Id, j: Id)
    requires Consistent(db) && i in db.attempts && db.attempts[i].status in {ADMITTED, IN_FLIGHT, UNKNOWN}
    requires j in Step(db, s).attempts && Step(db, s).attempts[j].mandate == db.attempts[i].mandate && j != i
    ensures Step(db, s).attempts[j].status in {SUCCEEDED, FAILED}
  {
    StepStaysConsistent(db, s);
    OneAttemptAtATime(db, s, i, j);
    hide Consistent, Accepts, Step;
    if !(Step(db, s).attempts[j].status in {SUCCEEDED, FAILED}) {
      if i in Step(db, s).attempts && Step(db, s).attempts[i] == db.attempts[i] {
        TwoOpenAreOne(Step(db, s), i, j);
      } else {
        TwoOpenAreOne(db, i, j);
      }
    }
  }

  lemma OneAttemptAtATime(db: Db, s: Statement, i: Id, j: Id)
    requires i in db.attempts && j in Step(db, s).attempts && i != j
    ensures var next := Step(db, s).attempts;
      || (i in next && next[i] == db.attempts[i])
      || (j in db.attempts && next[j] == db.attempts[j])
  {
    hide Consistent, Triggers;
  }

  lemma TwoOpenAreOne(db: Db, i: Id, j: Id)
    requires Consistent(db) && i in db.attempts && j in db.attempts && db.attempts[i].mandate == db.attempts[j].mandate
    requires db.attempts[i].status in {ADMITTED, IN_FLIGHT, UNKNOWN}
    requires db.attempts[j].status in {ADMITTED, IN_FLIGHT, UNKNOWN}
    ensures i == j
  {
    assert OpenMandate(db.attempts[i]) == OpenMandate(db.attempts[j]);
  }
}
