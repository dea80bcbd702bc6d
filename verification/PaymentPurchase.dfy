/** A held quote on an unspent mandate, from admission to payment or decline: the statements every
    purchase comes down to, accepted whatever else the database holds. */
module PaymentPurchase {
  import opened Relational
  import opened PaymentSchema
  import opened PaymentHistory
  import opened PaymentTransitions

  lemma AdmitStep(db: Db, i: Id, n: Attempt)
    requires Consistent(db) && i !in db.attempts && AttemptColumns(n) && AttemptFits(db, i, n)
    requires !ShutOut(db, i, n.mandate, n.status)
    ensures Step(db, OnAttempt(Insert(i, n))) == db.(attempts := db.attempts[i := n])
    ensures Consistent(db.(attempts := db.attempts[i := n]))
  {
    hide Consistent, Accepts, AttemptColumns, AttemptFits, ShutOut;
    AttemptInserts(db, i, n);
    StepStaysConsistent(db, OnAttempt(Insert(i, n)));
  }

  lemma AttemptStep(db: Db, i: Id, n: Attempt)
    requires Consistent(db) && i in db.attempts && AttemptMoves(db.attempts[i], n)
    requires n.status == SUCCEEDED ==> !ShutOut(db, i, n.mandate, SUCCEEDED)
    ensures Step(db, OnAttempt(Update(i, n))) == db.(attempts := db.attempts[i := n])
    ensures Consistent(db.(attempts := db.attempts[i := n]))
  {
    hide Consistent, Accepts, AttemptMoves, ShutOut;
    AttemptUpdates(db, i, n);
    StepStaysConsistent(db, OnAttempt(Update(i, n)));
  }

  lemma ReservationStep(db: Db, r: Id, n: Reservation)
    requires Consistent(db) && r in db.reservations && ReservationMoves(db.reservations[r], n)
    ensures Step(db, OnReservation(Update(r, n))) == db.(reservations := db.reservations[r := n])
    ensures Consistent(db.(reservations := db.reservations[r := n]))
  {
    hide Consistent, Accepts, ReservationMoves;
    ReservationUpdates(db, r, n);
    StepStaysConsistent(db, OnReservation(Update(r, n)));
  }

  lemma CheckoutStep(db: Db, c: Id, n: Checkout)
    requires Consistent(db) && c in db.checkouts && CheckoutMoves(db.checkouts[c], n)
    ensures Step(db, OnCheckout(Update(c, n))) == db.(checkouts := db.checkouts[c := n])
    ensures Consistent(db.(checkouts := db.checkouts[c := n]))
  {
    hide Consistent, Accepts, CheckoutMoves;
    CheckoutUpdates(db, c, n);
    StepStaysConsistent(db, OnCheckout(Update(c, n)));
  }

  /* ---- the rows a purchase goes through ---- */

  function Admitted(c: Checkout, checkout: Id, r: Id, key: string, t: Time): Attempt {
    Attempt(c.merchant, checkout, c.mandate, r, key, c.total, c.currency, t, ADMITTED, None, None, None, None, None)
  }

  function Dispatched(a: Attempt, t: Time): Attempt { a.(status := IN_FLIGHT, dispatchedAt := Some(t)) }

  function Resolved(a: Attempt, paid: bool, t: Time): Attempt {
    a.(status := if paid then SUCCEEDED else FAILED, outcomeSource := Some(EXECUTION), resolvedAt := Some(t))
  }

  function Committed(r: Reservation): Reservation { r.(status := COMMITTED) }

  function Closed(r: Reservation, paid: bool, t: Time): Reservation {
    if paid then r.(status := CONSUMED, consumedAt := Some(t)) else r.(status := RELEASED, releasedAt := Some(t))
  }

  function Paid(c: Checkout, t: Time): Checkout { c.(status := PAID, paidAt := Some(t)) }

  // Quote c is open, r holds its stock, and nothing under its mandate is open or has succeeded.
  predicate Payable(db: Db, c: Id, r: Id) {
    && c in db.checkouts && db.checkouts[c].status == OPEN
    && r in db.reservations && db.reservations[r].status == ReservationStatus.ACTIVE && db.reservations[r].checkout == c
    && forall j :: j in db.attempts && db.attempts[j].mandate == db.checkouts[c].mandate ==>
         db.attempts[j].status == FAILED
  }

  predicate FreshKey(db: Db, c: Id, key: string) {
    forall j :: j in db.attempts && db.attempts[j].checkout == c ==> db.attempts[j].idempotencyKey != key
  }

  function Admission(db: Db, c: Id, r: Id, i: Id, key: string, t: Time): seq<Statement>
    requires c in db.checkouts && r in db.reservations
  {
    [OnAttempt(Insert(i, Admitted(db.checkouts[c], c, r, key, t))),
     OnReservation(Update(r, Committed(db.reservations[r])))]
  }

  function AfterAdmission(db: Db, c: Id, r: Id, i: Id, key: string, t: Time): Db
    requires c in db.checkouts && r in db.reservations
  {
    db.(attempts := db.attempts[i := Admitted(db.checkouts[c], c, r, key, t)],
        reservations := db.reservations[r := Committed(db.reservations[r])])
  }

  lemma TwoStatements(db: Db, a: Statement, b: Statement)
    ensures Run(db, [a, b]) == Step(Step(db, a), b)
  {
    hide Step;
    assert [a, b][1..] == [b] && [b][1..] == [];
    assert Run(db, [a, b]) == Run(Step(db, a), [b]) == Run(Step(Step(db, a), b), []);
  }

  lemma AdmissionHappens(db: Db, c: Id, r: Id, i: Id, key: string, t: Time)
    requires Consistent(db) && Payable(db, c, r) && i !in db.attempts && FreshKey(db, c, key)
    ensures var next := AfterAdmission(db, c, r, i, key, t);
      Run(db, Admission(db, c, r, i, key, t)) == next && Consistent(next)
  {
    var a := Admitted(db.checkouts[c], c, r, key, t);
    assert CheckoutCheck(db.checkouts[c]);
    assert Resolves(db.reservations[r], db.checkouts, ReservationCheckout, SameCheckoutOwner);
    assert AttemptFits(db, i, a) && AttemptColumns(a) && !ShutOut(db, i, a.mandate, a.status);
    hide Consistent, AttemptFits, AttemptColumns, ShutOut, Run, Step;
    AdmitStep(db, i, a);
    var next := db.(attempts := db.attempts[i := a]);
    ReservationStep(next, r, Committed(db.reservations[r]));
    var ss := Admission(db, c, r, i, key, t);
    TwoStatements(db, ss[0], ss[1]);
  }

  /* ---- the provider answers ---- */

  // Attempt i was admitted for quote c on hold r, and nothing else under the mandate succeeded.
  predicate InHand(db: Db, c: Id, r: Id, i: Id) {
    && c in db.checkouts && r in db.reservations && i in db.attempts
    && db.checkouts[c].status == OPEN && db.reservations[r].status == COMMITTED && db.attempts[i].status == ADMITTED
    && !ShutOut(db, i, db.attempts[i].mandate, SUCCEEDED)
  }

  function Called(db: Db, i: Id, paid: bool, t: Time): seq<Statement>
    requires i in db.attempts
  {
    var a := Dispatched(db.attempts[i], t);
    [OnAttempt(Update(i, a)), OnAttempt(Update(i, Resolved(a, paid, t)))]
  }

  function AfterCall(db: Db, i: Id, paid: bool, t: Time): Db
    requires i in db.attempts
  {
    db.(attempts := db.attempts[i := Resolved(Dispatched(db.attempts[i], t), paid, t)])
  }

  lemma CallMoves(o: Attempt, paid: bool, t: Time)
    requires AttemptColumns(o) && o.status == ADMITTED
    ensures AttemptMoves(o, Dispatched(o, t)) && AttemptMoves(Dispatched(o, t), Resolved(Dispatched(o, t), paid, t))
  {
  }

  // Whether others shut an attempt out does not depend on the attempt itself.
  lemma OthersShutOut(db: Db, i: Id, a: Attempt, mandate: Id)
    ensures ShutOut(db.(attempts := db.attempts[i := a]), i, mandate, SUCCEEDED) <==> ShutOut(db, i, mandate, SUCCEEDED)
  {
    var next := db.(attempts := db.attempts[i := a]);
    forall j | j != i ensures j in next.attempts <==> j in db.attempts {
    }
    assert forall j :: j in db.attempts && j != i ==> next.attempts[j] == db.attempts[j];
  }

  lemma TwoAttemptSteps(db: Db, i: Id, a: Attempt, b: Attempt)
    requires Consistent(db) && i in db.attempts && AttemptMoves(db.attempts[i], a) && AttemptMoves(a, b)
    requires a.status != SUCCEEDED && !ShutOut(db, i, b.mandate, SUCCEEDED)
    ensures var end := db.(attempts := db.attempts[i := b]);
      Run(db, [OnAttempt(Update(i, a)), OnAttempt(Update(i, b))]) == end && Consistent(end)
  {
    OthersShutOut(db, i, a, b.mandate);
    hide Consistent, AttemptMoves, ShutOut, Run, Step;
    AttemptStep(db, i, a);
    var next := db.(attempts := db.attempts[i := a]);
    AttemptStep(next, i, b);
    assert next.attempts[i := b] == db.attempts[i := b];
    TwoStatements(db, OnAttempt(Update(i, a)), OnAttempt(Update(i, b)));
  }

  lemma CallHappens(db: Db, c: Id, r: Id, i: Id, paid: bool, t: Time)
    requires Consistent(db) && InHand(db, c, r, i)
    ensures var next := AfterCall(db, i, paid, t); Run(db, Called(db, i, paid, t)) == next && Consistent(next)
  {
    assert AttemptCheck(db.attempts[i]);
    AttemptColumnsAreTheChecks(db.attempts[i]);
    CallMoves(db.attempts[i], paid, t);
    hide Consistent, AttemptCheck, AttemptColumns, AttemptMoves, ShutOut, Run;
    TwoAttemptSteps(db, i, Dispatched(db.attempts[i], t), Resolved(Dispatched(db.attempts[i], t), paid, t));
  }

  // The stock is sold and the quote paid, or the stock given back and the quote left open.
  function Closing(db: Db, c: Id, r: Id, paid: bool, t: Time): seq<Statement>
    requires c in db.checkouts && r in db.reservations
  {
    [OnReservation(Update(r, Closed(db.reservations[r], paid, t))),
     OnCheckout(Update(c, if paid then Paid(db.checkouts[c], t) else db.checkouts[c]))]
  }

  function AfterClosing(db: Db, c: Id, r: Id, paid: bool, t: Time): Db
    requires c in db.checkouts && r in db.reservations
  {
    db.(reservations := db.reservations[r := Closed(db.reservations[r], paid, t)],
        checkouts := db.checkouts[c := if paid then Paid(db.checkouts[c], t) else db.checkouts[c]])
  }

  lemma ClosingHappens(db: Db, c: Id, r: Id, paid: bool, t: Time)
    requires Consistent(db) && c in db.checkouts && r in db.reservations
    requires db.checkouts[c].status == OPEN && db.reservations[r].status == COMMITTED
    ensures var next := AfterClosing(db, c, r, paid, t);
      Run(db, Closing(db, c, r, paid, t)) == next && Consistent(next)
  {
    hide Consistent, Run, Step;
    ReservationStep(db, r, Closed(db.reservations[r], paid, t));
    var next := db.(reservations := db.reservations[r := Closed(db.reservations[r], paid, t)]);
    CheckoutStep(next, c, if paid then Paid(db.checkouts[c], t) else db.checkouts[c]);
    var ss := Closing(db, c, r, paid, t);
    TwoStatements(db, ss[0], ss[1]);
  }

  /* ---- a purchase from end to end ---- */

  lemma {:induction false} RunsCompose(db: Db, before: seq<Statement>, after: seq<Statement>)
    ensures Run(db, before + after) == Run(Run(db, before), after)
    decreases |before|
  {
    hide Step;
    if before == [] {
      assert before + after == after;
    } else {
      assert (before + after)[1..] == before[1..] + after;
      RunsCompose(Step(db, before[0]), before[1..], after);
    }
  }

  function Purchase(db: Db, c: Id, r: Id, i: Id, key: string, paid: bool, t: Time): seq<Statement>
    requires c in db.checkouts && r in db.reservations
  {
    var admitted := AfterAdmission(db, c, r, i, key, t);
    Admission(db, c, r, i, key, t) + Called(admitted, i, paid, t)
      + Closing(AfterCall(admitted, i, paid, t), c, r, paid, t)
  }

  function AfterPurchase(db: Db, c: Id, r: Id, i: Id, key: string, paid: bool, t: Time): Db
    requires c in db.checkouts && r in db.reservations
  {
    AfterClosing(AfterCall(AfterAdmission(db, c, r, i, key, t), i, paid, t), c, r, paid, t)
  }

  lemma AdmittedIsInHand(db: Db, c: Id, r: Id, i: Id, key: string, t: Time)
    requires Payable(db, c, r) && i !in db.attempts
    ensures InHand(AfterAdmission(db, c, r, i, key, t), c, r, i)
  {
  }

  lemma PurchaseHappens(db: Db, c: Id, r: Id, i: Id, key: string, paid: bool, t: Time)
    requires Consistent(db) && Payable(db, c, r) && i !in db.attempts && FreshKey(db, c, key)
    ensures var end := AfterPurchase(db, c, r, i, key, paid, t);
      Run(db, Purchase(db, c, r, i, key, paid, t)) == end && Consistent(end)
  {
    AdmissionHappens(db, c, r, i, key, t);
    AdmittedIsInHand(db, c, r, i, key, t);
    var admitted := AfterAdmission(db, c, r, i, key, t);
    var answered := AfterCall(admitted, i, paid, t);
    CallHappens(admitted, c, r, i, paid, t);
    assert answered.checkouts[c].status == OPEN && answered.reservations[r].status == COMMITTED;
    ClosingHappens(answered, c, r, paid, t);
    hide *;
    var first, second := Admission(db, c, r, i, key, t), Called(admitted, i, paid, t);
    RunsCompose(db, first, second);
    RunsCompose(db, first + second, Closing(answered, c, r, paid, t));
  }

  // What each mandate has seen after.
  lemma PurchaseSpends(db: Db, c: Id, r: Id, i: Id, key: string, paid: bool, t: Time)
    requires Payable(db, c, r) && i !in db.attempts
    ensures var end, mandate := AfterPurchase(db, c, r, i, key, paid, t), db.checkouts[c].mandate;
      Succeeded(end, mandate) == (if paid then {i} else {}) && end.attempts[i].amount == db.checkouts[c].total
  {
    var end, mandate := AfterPurchase(db, c, r, i, key, paid, t), db.checkouts[c].mandate;
    forall j | j in end.attempts ensures j in Succeeded(end, mandate) <==> j == i && paid {
      assert j != i ==> j in db.attempts && end.attempts[j] == db.attempts[j];
    }
  }

  // Whatever else the database holds: a held quote whose mandate is unspent can be bought, and
  // then it is paid, its stock sold and its total all the money spent under the mandate; or be
  // declined, and then its stock is given back, nothing is spent and it can be tried again.
  lemma HeldQuoteCanBeBought(db: Db, c: Id, r: Id, i: Id, key: string, paid: bool, t: Time)
    requires Consistent(db) && Payable(db, c, r) && i !in db.attempts && FreshKey(db, c, key)
    ensures var end := Run(db, Purchase(db, c, r, i, key, paid, t));
      && c in end.checkouts && r in end.reservations && i in end.attempts
      && end.checkouts[c].status == (if paid then PAID else OPEN)
      && end.reservations[r].status == (if paid then CONSUMED else RELEASED)
      && end.attempts[i].status == (if paid then SUCCEEDED else FAILED)
      && end.attempts[i].amount == db.checkouts[c].total
      && Spent(end, db.checkouts[c].mandate) == if paid then db.checkouts[c].total else 0
  {
    PurchaseHappens(db, c, r, i, key, paid, t);
    PurchaseSpends(db, c, r, i, key, paid, t);
    hide Consistent, Run, Succeeded, Spent;
    SpentIsOneQuoteOrNothing(AfterPurchase(db, c, r, i, key, paid, t), db.checkouts[c].mandate);
  }
}
