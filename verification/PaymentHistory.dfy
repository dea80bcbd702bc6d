/** What the payment tables keep over whole runs of statements about the purchase itself: one
    success per mandate, final, and worth exactly one quote. */
module PaymentHistory {
  import opened Relational
  import opened PaymentSchema
  import opened PaymentDatabase

  /* ---- one purchase ---- */

  // No table's rows are protected from DELETE, so the history of attempt i is over statements
  // that do not delete it. Every other statement is allowed.
  predicate KeepsAttempt(s: Statement, i: Id) { s != OnAttempt(Delete(i)) }

  ghost predicate AllKeepAttempt(ss: seq<Statement>, i: Id) { forall s :: s in ss ==> KeepsAttempt(s, i) }

  // n is a later version of attempt o: same identity and money, never earlier in the
  // lifecycle, times written once, and unchanged once settled.
  predicate AttemptOnward(o: Attempt, n: Attempt) {
    && n == o.(status := n.status, providerReference := n.providerReference, failureCode := n.failureCode,
               outcomeSource := n.outcomeSource, dispatchedAt := n.dispatchedAt, resolvedAt := n.resolvedAt)
    && AttemptStage(Some(o.status)) <= AttemptStage(Some(n.status))
    && (o.dispatchedAt.Some? ==> n.dispatchedAt == o.dispatchedAt)
    && (o.resolvedAt.Some? ==> n.resolvedAt == o.resolvedAt)
    && (Settled(o.status) ==> n == o)
  }

  predicate SameQuote(o: Checkout, n: Checkout) {
    n == o.(status := n.status, cancelledAt := n.cancelledAt, paidAt := n.paidAt)
  }

  // Between two states: attempt i and the quote it was made for are still there, the attempt no
  // earlier in its lifecycle and the quote on the same terms.
  ghost predicate Onward(a: Db, b: Db, i: Id) {
    i in a.attempts && i in b.attempts && AttemptOnward(a.attempts[i], b.attempts[i]) &&
    var c := a.attempts[i].checkout;
    c in a.checkouts && c in b.checkouts && SameQuote(a.checkouts[c], b.checkouts[c])
  }

  // A quote with an attempt cannot be deleted: the foreign key would dangle.
  ghost predicate Quoted(db: Db, i: Id) {
    i in db.attempts ==> Resolves(db.attempts[i], db.checkouts, AttemptCheckout, QuotedExactly)
  }

  lemma PostOnward(db: Db, s: Statement, i: Id)
    requires i in db.attempts && Triggers(db, s) && KeepsAttempt(s, i)
    requires Quoted(db, i) && Quoted(Post(db, s), i)
    ensures Onward(db, Post(db, s), i)
  {
  }

  lemma EveryAttemptIsQuoted(db: Db, i: Id)
    requires AttemptsOk(db)
    ensures Quoted(db, i)
  {
  }

  lemma StepOnward(db: Db, s: Statement, i: Id)
    requires Consistent(db) && i in db.attempts && KeepsAttempt(s, i)
    ensures Onward(db, Step(db, s), i)
  {
    EveryAttemptIsQuoted(db, i);
    if Accepts(db, s) {
      EveryAttemptIsQuoted(Post(db, s), i);
      PostOnward(db, s, i);
    }
  }

  lemma StillOnward(db: Db, i: Id)
    requires Consistent(db) && i in db.attempts
    ensures Onward(db, db, i)
  {
    EveryAttemptIsQuoted(db, i);
  }

  lemma OnwardComposes(a: Db, b: Db, c: Db, i: Id)
    requires Onward(a, b, i) && Onward(b, c, i)
    ensures Onward(a, c, i)
  {
  }

  lemma {:induction false} RunOnward(db: Db, ss: seq<Statement>, i: Id)
    requires Consistent(db) && i in db.attempts && AllKeepAttempt(ss, i)
    ensures Consistent(Run(db, ss)) && Onward(db, Run(db, ss), i)
    decreases |ss|
  {
    hide Consistent, Triggers;
    if ss == [] {
      StillOnward(db, i);
    } else {
      assert ss[0] in ss && forall s :: s in ss[1..] ==> s in ss;
      StepOnward(db, ss[0], i);
      RunOnward(Step(db, ss[0]), ss[1..], i);
      OnwardComposes(db, Step(db, ss[0]), Run(db, ss), i);
    }
  }

  ghost function Succeeded(db: Db, mandate: Id): set<Id> {
    set i | i in db.attempts && db.attempts[i].status == SUCCEEDED && db.attempts[i].mandate == mandate
  }

  ghost function MoneyUnder(mandate: Id): Attempt -> int {
    (a: Attempt) => if a.status == SUCCEEDED && a.mandate == mandate then a.amount else 0
  }

  // The money that has succeeded under a mandate.
  ghost function Spent(db: Db, mandate: Id): int { SumBy(db.attempts, MoneyUnder(mandate)) }

  lemma SpentIsOneQuoteOrNothing(db: Db, mandate: Id)
    requires Consistent(db)
    ensures forall i, j :: i in Succeeded(db, mandate) && j in Succeeded(db, mandate) ==> i == j
    ensures Succeeded(db, mandate) == {} ==> Spent(db, mandate) == 0
    ensures forall i :: i in Succeeded(db, mandate) ==>
      && db.attempts[i].checkout in db.checkouts
      && db.checkouts[db.attempts[i].checkout].mandate == mandate
      && Spent(db, mandate) == db.attempts[i].amount == db.checkouts[db.attempts[i].checkout].total
  {
    forall i, j | i in Succeeded(db, mandate) && j in Succeeded(db, mandate) ensures i == j {
      assert SucceededMandate(db.attempts[i]) == SucceededMandate(db.attempts[j]) == Some(mandate);
    }
    if Succeeded(db, mandate) == {} {
      forall k | k in db.attempts ensures MoneyUnder(mandate)(db.attempts[k]) == 0 {
        assert k !in Succeeded(db, mandate);
      }
      SumZero(db.attempts, MoneyUnder(mandate));
    }
    forall i | i in Succeeded(db, mandate)
      ensures Spent(db, mandate) == db.attempts[i].amount
      ensures Resolves(db.attempts[i], db.checkouts, AttemptCheckout, QuotedExactly)
    {
      SumAt(db.attempts, MoneyUnder(mandate), i);
      forall k | k in db.attempts - {i} ensures MoneyUnder(mandate)(db.attempts[k]) == 0 {
        assert k !in Succeeded(db, mandate);
      }
      SumZero(db.attempts - {i}, MoneyUnder(mandate));
    }
  }

  // Single purchase per mandate. Once an attempt under a mandate has succeeded, and unless that
  // attempt is itself deleted, no run of statements changes it, undoes it, or lets another
  // attempt under the mandate succeed, open ones and ones yet to be written included; and the
  // money spent stays that quote's total.
  lemma SinglePurchase(db: Db, ss: seq<Statement>, mandate: Id, i: Id)
    requires Consistent(db) && i in Succeeded(db, mandate) && AllKeepAttempt(ss, i)
    ensures Succeeded(Run(db, ss), mandate) == {i}
    ensures Run(db, ss).attempts[i] == db.attempts[i]
    ensures Spent(Run(db, ss), mandate) == Spent(db, mandate) == db.checkouts[db.attempts[i].checkout].total
    ensures db.attempts[i].checkout in Run(db, ss).checkouts
      && Run(db, ss).checkouts[db.attempts[i].checkout].total == db.checkouts[db.attempts[i].checkout].total
  {
    hide Consistent;
    RunOnward(db, ss, i);
    SpentIsOneQuoteOrNothing(db, mandate);
    SpentIsOneQuoteOrNothing(Run(db, ss), mandate);
    assert i in Succeeded(Run(db, ss), mandate);
  }

  // The same for a checkout: an attempt keeps its identity, its money and the times it has, and
  // two attempts for one quote never both succeed.
  lemma AttemptsOnlyMoveOn(db: Db, ss: seq<Statement>, i: Id, j: Id)
    requires Consistent(db) && i in db.attempts && AllKeepAttempt(ss, i)
    ensures i in Run(db, ss).attempts && AttemptOnward(db.attempts[i], Run(db, ss).attempts[i])
    ensures j in Run(db, ss).attempts && i != j ==> !BothSucceededFor(Run(db, ss).attempts[i], Run(db, ss).attempts[j])
  {
    RunOnward(db, ss, i);
    var end := Run(db, ss);
    if j in end.attempts && BothSucceededFor(end.attempts[i], end.attempts[j]) {
      assert SucceededCheckout(end.attempts[i]) == SucceededCheckout(end.attempts[j]) == Some(end.attempts[i].checkout);
    }
  }

  predicate BothSucceededFor(a: Attempt, b: Attempt) {
    a.status == SUCCEEDED && b.status == SUCCEEDED && a.checkout == b.checkout
  }

  // Nothing names attempt i: no binding, and no mission run.
  predicate Unnamed(db: Db, i: Id) { Unreferenced(db.bindings, BindingAttempt, i) && i !in db.outside.namedAttempts }

  // Exactly when a statement loses a success: a DELETE of one that no binding and no mission run
  // names.
  lemma SuccessIsLostOnlyByDelete(db: Db, s: Statement, mandate: Id)
    requires Consistent(db)
    ensures Succeeded(db, mandate) <= Succeeded(Step(db, s), mandate) <==>
      !(s.OnAttempt? && s.attempt.Delete? && s.attempt.id in Succeeded(db, mandate)
        && Unnamed(db, s.attempt.id))
  {
    hide Consistent, Accepts;
    if s.OnAttempt? && s.attempt.Delete? {
      StepOfDelete(db, s.attempt.id);
      AfterDelete(db, s.attempt.id, mandate);
    } else {
      forall i | i in Succeeded(db, mandate) ensures i in Succeeded(Step(db, s), mandate) {
        StepOnward(db, s, i);
      }
    }
  }

  lemma StepOfDelete(db: Db, id: Id)
    requires Consistent(db)
    ensures Step(db, OnAttempt(Delete(id))) ==
      if id in db.attempts && Unnamed(db, id)
      then db.(attempts := db.attempts - {id}) else db
  {
    hide Consistent;
    ProbesAreEnough(db, OnAttempt(Delete(id)));
  }

  lemma AfterDelete(db: Db, id: Id, mandate: Id)
    ensures Succeeded(db.(attempts := db.attempts - {id}), mandate) == Succeeded(db, mandate) - {id}
  {
  }

  // And then the quote can be paid for again, under another key.
  lemma DeletedSuccessCanBeRepeated(db: Db, mandate: Id, i: Id, j: Id)
    requires Consistent(db) && i in Succeeded(db, mandate) && j !in db.attempts
    requires Unnamed(db, i)
    ensures Succeeded(Run(db, [OnAttempt(Delete(i)), OnAttempt(Insert(j, db.attempts[i]))]), mandate) == {j}
  {
    hide Consistent;
    DeletedRowFitsAgain(db, i, j);
    var end := db.(attempts := (db.attempts - {i})[j := db.attempts[i]]);
    SpentIsOneQuoteOrNothing(end, mandate);
    assert j in Succeeded(end, mandate);
  }

  lemma StepOfInsert(db: Db, j: Id, row: Attempt)
    requires Consistent(db) && j !in db.attempts && Probes(db, OnAttempt(Insert(j, row)))
    ensures Step(db, OnAttempt(Insert(j, row))) == db.(attempts := db.attempts[j := row])
  {
    hide Consistent, Probes;
    ProbesAreEnough(db, OnAttempt(Insert(j, row)));
  }

  lemma DeletedRowFitsAgain(db: Db, i: Id, j: Id)
    requires Consistent(db) && i in db.attempts && j !in db.attempts
    requires Unnamed(db, i)
    ensures var end := db.(attempts := (db.attempts - {i})[j := db.attempts[i]]);
      Consistent(end) && Run(db, [OnAttempt(Delete(i)), OnAttempt(Insert(j, db.attempts[i]))]) == end
  {
    SameRowProbes(db, i, j);
    hide Consistent, Probes, Accepts;
    var gone, again := OnAttempt(Delete(i)), OnAttempt(Insert(j, db.attempts[i]));
    StepOfDelete(db, i);
    StepStaysConsistent(db, gone);
    StepOfInsert(Step(db, gone), j, db.attempts[i]);
    StepStaysConsistent(Step(db, gone), again);
    assert [gone, again][1..] == [again] && [again][1..] == [];
    assert Run(Step(db, gone), [again]) == Step(Step(db, gone), again);
  }

  lemma SameRowProbes(db: Db, i: Id, j: Id)
    requires AttemptsOk(db) && i in db.attempts
    ensures Probes(db.(attempts := db.attempts - {i}), OnAttempt(Insert(j, db.attempts[i])))
  {
    assert Resolves(db.attempts[i], db.checkouts, AttemptCheckout, QuotedExactly);
    assert Resolves(db.attempts[i], db.reservations, AttemptReservation, HeldForCheckout);
  }
}
