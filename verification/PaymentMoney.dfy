/** Money across four tables: what a provider order is bound to is what was admitted, which is
    what was quoted, and none of it moves. */
module PaymentMoney {
  import opened Relational
  import opened PaymentSchema
  import opened PaymentHistory

  // From a binding up to the mandate: one owner, one currency, one amount, and that amount is
  // the sum of the quote's parts.
  ghost predicate MoneyChain(db: Db, k: Id) {
    k in db.bindings &&
    var b := db.bindings[k];
    b.attempt in db.attempts &&
    var a := db.attempts[b.attempt];
    a.checkout in db.checkouts && a.reservation in db.reservations && a.mandate in db.mandates &&
    var c := db.checkouts[a.checkout];
    && b.amount == a.amount == c.total == c.subtotal + c.shipping - c.discount
    && b.amount > 0
    && b.currency == a.currency == c.currency
    && b.merchant == a.merchant == c.merchant
    && b.merchant == db.reservations[a.reservation].merchant == db.mandates[a.mandate].merchant
    && c.mandate == a.mandate
    && db.reservations[a.reservation].checkout == a.checkout
  }

  lemma ChainHolds(db: Db, k: Id)
    requires Consistent(db) && k in db.bindings
    ensures MoneyChain(db, k)
  {
    assert Resolves(db.bindings[k], db.attempts, BindingAttempt, AdmittedExactly);
    var a := db.attempts[db.bindings[k].attempt];
    assert Resolves(a, db.checkouts, AttemptCheckout, QuotedExactly);
    assert Resolves(a, db.reservations, AttemptReservation, HeldForCheckout);
    assert Resolves(db.checkouts[a.checkout], db.mandates, CheckoutMandate, SameMandateOwner);
  }

  // n is a later version of binding o: the money is the same, and an order once bound stays.
  predicate BindingOnward(o: Binding, n: Binding) {
    && n == o.(status := n.status, orderId := n.orderId, paymentId := n.paymentId,
               orderCreatedAt := n.orderCreatedAt, confirmedAt := n.confirmedAt)
    && BindingStage(Some(o.status)) <= BindingStage(Some(n.status))
    && (o.orderId.Some? ==> n.orderId == o.orderId && n.orderCreatedAt == o.orderCreatedAt)
    && (o.status == CONFIRMED ==> n == o)
  }

  // Between two states, binding k and everything its money comes from.
  ghost predicate Anchored(a: Db, b: Db, k: Id) {
    k in a.bindings && k in b.bindings && BindingOnward(a.bindings[k], b.bindings[k])
    && Onward(a, b, a.bindings[k].attempt)
  }

  predicate KeepsBinding(s: Statement, k: Id) { s != OnBinding(Delete(k)) }

  lemma PostAnchored(db: Db, s: Statement, k: Id)
    requires MoneyChain(db, k) && BindingCheck(db.bindings[k]) && Triggers(db, s) && KeepsBinding(s, k)
    requires MoneyChain(Post(db, s), k)
    ensures Anchored(db, Post(db, s), k)
  {
  }

  lemma BindingStays(db: Db, s: Statement, k: Id)
    requires k in db.bindings && KeepsBinding(s, k)
    ensures k in Post(db, s).bindings
  {
  }

  lemma AcceptedAnchored(db: Db, s: Statement, k: Id)
    requires Consistent(db) && k in db.bindings && KeepsBinding(s, k) && Accepts(db, s)
    ensures Anchored(db, Step(db, s), k)
  {
    BindingStays(db, s, k);
    ChainHolds(db, k);
    ChainHolds(Post(db, s), k);
    PostAnchored(db, s, k);
  }

  lemma StepAnchored(db: Db, s: Statement, k: Id)
    requires Consistent(db) && k in db.bindings && KeepsBinding(s, k)
    ensures Anchored(db, Step(db, s), k)
  {
    if Accepts(db, s) {
      AcceptedAnchored(db, s, k);
    } else {
      ChainHolds(db, k);
      StillAnchored(db, k);
    }
  }

  lemma StillAnchored(db: Db, k: Id)
    requires MoneyChain(db, k)
    ensures Anchored(db, db, k)
  {
  }

  lemma AnchoredComposes(a: Db, b: Db, c: Db, k: Id)
    requires Anchored(a, b, k) && Anchored(b, c, k)
    ensures Anchored(a, c, k)
  {
  }

  lemma {:induction false} RunAnchored(db: Db, ss: seq<Statement>, k: Id)
    requires Consistent(db) && k in db.bindings
    requires forall s :: s in ss ==> KeepsBinding(s, k)
    ensures Consistent(Run(db, ss)) && Anchored(db, Run(db, ss), k)
    decreases |ss|
  {
    hide Consistent, MoneyChain, Triggers;
    if ss == [] {
      ChainHolds(db, k);
      StillAnchored(db, k);
    } else {
      assert ss[0] in ss && forall s :: s in ss[1..] ==> s in ss;
      StepAnchored(db, ss[0], k);
      RunAnchored(Step(db, ss[0]), ss[1..], k);
      AnchoredComposes(db, Step(db, ss[0]), Run(db, ss), k);
    }
  }

  // No other binding names the order this one names.
  ghost predicate OrderIsItsOwn(db: Db, k: Id)
    requires k in db.bindings
  {
    db.bindings[k].orderId.Some? ==>
      forall j :: j in db.bindings && db.bindings[j].orderId == db.bindings[k].orderId ==> j == k
  }

  // In every state any statements lead to, deletions included, every binding's money is its
  // attempt's is its quote's.
  lemma BoundMoneyIsQuotedMoney(ss: seq<Statement>, k: Id)
    requires k in Run(EMPTY, ss).bindings
    ensures MoneyChain(Run(EMPTY, ss), k)
  {
    RunStaysConsistent(EMPTY, ss);
    ChainHolds(Run(EMPTY, ss), k);
  }

  // While a binding stands, whatever else is inserted, updated or deleted: its attempt and its
  // quote stand too, on unchanged terms; the order it names never changes once named; and no
  // other binding, so no other attempt, names that order.
  lemma BoundMoneyNeverMoves(db: Db, ss: seq<Statement>, k: Id)
    requires Consistent(db) && k in db.bindings
    requires forall s :: s in ss ==> KeepsBinding(s, k)
    ensures var end := Run(db, ss);
      && Anchored(db, end, k)
      && MoneyChain(end, k)
      && end.bindings[k].amount == db.bindings[k].amount
      && (db.bindings[k].orderId.Some? ==> end.bindings[k].orderId == db.bindings[k].orderId)
      && OrderIsItsOwn(end, k)
  {
    RunAnchored(db, ss, k);
    var end := Run(db, ss);
    ChainHolds(end, k);
    assert BindingOrder(end.bindings[k]) == end.bindings[k].orderId;
    assert forall j :: j in end.bindings ==> BindingOrder(end.bindings[j]) == end.bindings[j].orderId;
  }
}
