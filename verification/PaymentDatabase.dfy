/** The payment tables as they are enforced: a statement is judged by its trigger, the checks
    on the one row it writes, and index and foreign key probes for that row alone. */
module PaymentDatabase {
  import opened Relational
  import opened PaymentSchema

  // The probes for a row about to be written, or for a key about to go.
  predicate Probes(db: Db, s: Statement) { OwnProbes(db, s) && OutsideProbes(db, s) }

  // Within these tables.
  predicate OwnProbes(db: Db, s: Statement) {
    match s
    case OnMandate(Delete(id)) => Unreferenced(db.checkouts, CheckoutMandate, id)
    case OnMandate(c) => MandateCheck(c.row)
    case OnCheckout(Delete(id)) =>
      Unreferenced(db.reservations, ReservationCheckout, id) && Unreferenced(db.attempts, AttemptCheckout, id)
    case OnCheckout(c) => CheckoutCheck(c.row) && Resolves(c.row, db.mandates, CheckoutMandate, SameMandateOwner)
    case OnReservation(Delete(id)) => Unreferenced(db.attempts, AttemptReservation, id)
    case OnReservation(c) =>
      && ReservationCheck(c.row)
      && Free(db.reservations, HoldingCheckout, c.id, c.row)
      && Resolves(c.row, db.checkouts, ReservationCheckout, SameCheckoutOwner)
    case OnLine(Delete(id)) => true
    case OnLine(c) =>
      && LineCheck(c.row)
      && Free(db.lines, LineVariant, c.id, c.row)
      && Resolves(c.row, db.reservations, LineReservation, SameReservationOwner)
    case OnAttempt(Delete(id)) => Unreferenced(db.bindings, BindingAttempt, id)
    case OnAttempt(c) =>
      && AttemptCheck(c.row)
      && Free(db.attempts, AttemptIdentity, c.id, c.row)
      && Free(db.attempts, SucceededCheckout, c.id, c.row)
      && Free(db.attempts, SucceededMandate, c.id, c.row)
      && Free(db.attempts, OpenMandate, c.id, c.row)
      && Resolves(c.row, db.checkouts, AttemptCheckout, QuotedExactly)
      && Resolves(c.row, db.reservations, AttemptReservation, HeldForCheckout)
    case OnBinding(Delete(id)) => true
    case OnBinding(c) =>
      && BindingCheck(c.row)
      && Free(db.bindings, BindingAttempt, c.id, c.row)
      && Free(db.bindings, BindingReceipt, c.id, c.row)
      && Free(db.bindings, BindingOrder, c.id, c.row)
      && Resolves(c.row, db.attempts, BindingAttempt, AdmittedExactly)
    case Elsewhere(_) => true
  }

  // To and from the tables beside these.
  predicate OutsideProbes(db: Db, s: Statement) {
    match s
    case OnMandate(Delete(id)) => id !in db.outside.namedMandates
    case OnMandate(c) => MandateGrounded(db.outside, c.row)
    case OnCheckout(Delete(id)) => id !in db.outside.namedCheckouts
    case OnLine(c) => c.Delete? || LineGrounded(db.outside, c.row)
    case OnAttempt(Delete(id)) => id !in db.outside.namedAttempts
    case Elsewhere(o) => Grounded(db.(outside := o))
    case _ => true
  }

  lemma GroundProbes(db: Db, s: Statement)
    requires Grounded(db) && Triggers(db, s)
    ensures OutsideProbes(db, s) <==> Grounded(Post(db, s))
  {
    var post := Post(db, s);
    match s
    case OnMandate(c) => assert c.Delete? || post.mandates[c.id] == c.row;
    case OnLine(c) => assert c.Delete? || post.lines[c.id] == c.row;
    case _ =>
  }

  /* ---- probing one row is as good as checking every constraint on every row ---- */

  lemma MandateProbes(db: Db, c: Change<Mandate>)
    requires MandatesOk(db) && CheckoutsOk(db) && Triggers(db, OnMandate(c))
    ensures var post := Post(db, OnMandate(c)); OwnProbes(db, OnMandate(c)) <==> MandatesOk(post) && CheckoutsOk(post)
  {
    if c.Delete? {
      DeletedTarget(db.checkouts, db.mandates, CheckoutMandate, SameMandateOwner, c.id);
    } else {
      WrittenTarget(db.checkouts, db.mandates, CheckoutMandate, SameMandateOwner, c.id, c.row);
      assert Post(db, OnMandate(c)).mandates[c.id] == c.row;
    }
  }

  lemma CheckoutDeleteProbes(db: Db, id: Id)
    requires CheckoutsOk(db) && ReservationsOk(db) && AttemptsOk(db)
    ensures var post := Post(db, OnCheckout(Delete(id)));
      && CheckoutsOk(post)
      && (OwnProbes(db, OnCheckout(Delete(id))) <==> ReservationsOk(post) && AttemptsOk(post))
  {
    DeletedTarget(db.reservations, db.checkouts, ReservationCheckout, SameCheckoutOwner, id);
    DeletedTarget(db.attempts, db.checkouts, AttemptCheckout, QuotedExactly, id);
  }

  lemma CheckoutWriteProbes(db: Db, c: Change<Checkout>)
    requires CheckoutsOk(db) && Triggers(db, OnCheckout(c)) && !c.Delete?
    ensures OwnProbes(db, OnCheckout(c)) <==> CheckoutsOk(Post(db, OnCheckout(c)))
  {
    WrittenSource(db.checkouts, db.mandates, CheckoutMandate, SameMandateOwner, c.id, c.row);
    assert Post(db, OnCheckout(c)).checkouts[c.id] == c.row;
  }

  // What points at a quote still finds it on the terms it was taken on.
  lemma CheckoutWriteKeepsTheRest(db: Db, c: Change<Checkout>)
    requires ReservationsOk(db) && AttemptsOk(db) && Triggers(db, OnCheckout(c)) && !c.Delete?
    ensures ReservationsOk(Post(db, OnCheckout(c))) && AttemptsOk(Post(db, OnCheckout(c)))
  {
    WrittenTarget(db.reservations, db.checkouts, ReservationCheckout, SameCheckoutOwner, c.id, c.row);
    WrittenTarget(db.attempts, db.checkouts, AttemptCheckout, QuotedExactly, c.id, c.row);
  }

  lemma ReservationDeleteProbes(db: Db, id: Id)
    requires ReservationsOk(db) && LinesOk(db) && AttemptsOk(db)
    ensures var post := Post(db, OnReservation(Delete(id)));
      && ReservationsOk(post) && LinesOk(post)
      && (OwnProbes(db, OnReservation(Delete(id))) <==> AttemptsOk(post))
  {
    UniqueAfterDelete(db.reservations, HoldingCheckout, {id});
    UniqueAfterDelete(db.lines, LineVariant, LinesOf(db, id));
    DeletedTarget(db.attempts, db.reservations, AttemptReservation, HeldForCheckout, id);
    LinesGoWithTheirReservation(db, id);
  }

  lemma LinesGoWithTheirReservation(db: Db, id: Id)
    requires References(db.lines, db.reservations, LineReservation, SameReservationOwner)
    ensures References(db.lines - LinesOf(db, id), db.reservations - {id}, LineReservation, SameReservationOwner)
  {
    var kept := db.lines - LinesOf(db, id);
    forall i | i in kept ensures Resolves(kept[i], db.reservations - {id}, LineReservation, SameReservationOwner) {
      assert Resolves(db.lines[i], db.reservations, LineReservation, SameReservationOwner);
    }
  }

  lemma ReservationWriteProbes(db: Db, c: Change<Reservation>)
    requires ReservationsOk(db) && Triggers(db, OnReservation(c)) && !c.Delete?
    ensures OwnProbes(db, OnReservation(c)) <==> ReservationsOk(Post(db, OnReservation(c)))
  {
    ProbeIsEnough(db.reservations, HoldingCheckout, c.id, c.row);
    WrittenSource(db.reservations, db.checkouts, ReservationCheckout, SameCheckoutOwner, c.id, c.row);
    assert Post(db, OnReservation(c)).reservations[c.id] == c.row;
  }

  lemma ReservationWriteKeepsTheRest(db: Db, c: Change<Reservation>)
    requires LinesOk(db) && AttemptsOk(db) && Triggers(db, OnReservation(c)) && !c.Delete?
    ensures LinesOk(Post(db, OnReservation(c))) && AttemptsOk(Post(db, OnReservation(c)))
  {
    WrittenTarget(db.lines, db.reservations, LineReservation, SameReservationOwner, c.id, c.row);
    WrittenTarget(db.attempts, db.reservations, AttemptReservation, HeldForCheckout, c.id, c.row);
  }

  lemma LineProbes(db: Db, c: Change<Line>)
    requires LinesOk(db) && Triggers(db, OnLine(c))
    ensures OwnProbes(db, OnLine(c)) <==> LinesOk(Post(db, OnLine(c)))
  {
    if c.Delete? {
      UniqueAfterDelete(db.lines, LineVariant, {c.id});
    } else {
      ProbeIsEnough(db.lines, LineVariant, c.id, c.row);
      WrittenSource(db.lines, db.reservations, LineReservation, SameReservationOwner, c.id, c.row);
      assert Post(db, OnLine(c)).lines[c.id] == c.row;
    }
  }

  lemma AttemptDeleteProbes(db: Db, id: Id)
    requires AttemptsOk(db) && BindingsOk(db) && id in db.attempts
    ensures AttemptsOk(Post(db, OnAttempt(Delete(id))))
    ensures OwnProbes(db, OnAttempt(Delete(id))) <==> BindingsOk(Post(db, OnAttempt(Delete(id))))
  {
    UniqueAfterDelete(db.attempts, AttemptIdentity, {id});
    UniqueAfterDelete(db.attempts, SucceededCheckout, {id});
    UniqueAfterDelete(db.attempts, SucceededMandate, {id});
    UniqueAfterDelete(db.attempts, OpenMandate, {id});
    DeletedTarget(db.bindings, db.attempts, BindingAttempt, AdmittedExactly, id);
  }

  lemma AttemptWriteProbes(db: Db, c: Change<Attempt>)
    requires AttemptsOk(db) && Triggers(db, OnAttempt(c)) && !c.Delete?
    ensures OwnProbes(db, OnAttempt(c)) <==> AttemptsOk(Post(db, OnAttempt(c)))
  {
    ProbeIsEnough(db.attempts, AttemptIdentity, c.id, c.row);
    ProbeIsEnough(db.attempts, SucceededCheckout, c.id, c.row);
    ProbeIsEnough(db.attempts, SucceededMandate, c.id, c.row);
    ProbeIsEnough(db.attempts, OpenMandate, c.id, c.row);
    WrittenSource(db.attempts, db.checkouts, AttemptCheckout, QuotedExactly, c.id, c.row);
    WrittenSource(db.attempts, db.reservations, AttemptReservation, HeldForCheckout, c.id, c.row);
    assert Post(db, OnAttempt(c)).attempts[c.id] == c.row;
  }

  lemma AttemptWriteKeepsBindings(db: Db, c: Change<Attempt>)
    requires BindingsOk(db) && Triggers(db, OnAttempt(c)) && !c.Delete?
    ensures BindingsOk(Post(db, OnAttempt(c)))
  {
    WrittenTarget(db.bindings, db.attempts, BindingAttempt, AdmittedExactly, c.id, c.row);
  }

  lemma BindingProbes(db: Db, c: Change<Binding>)
    requires BindingsOk(db) && Triggers(db, OnBinding(c))
    ensures OwnProbes(db, OnBinding(c)) <==> BindingsOk(Post(db, OnBinding(c)))
  {
    if c.Delete? {
      UniqueAfterDelete(db.bindings, BindingAttempt, {c.id});
      UniqueAfterDelete(db.bindings, BindingReceipt, {c.id});
      UniqueAfterDelete(db.bindings, BindingOrder, {c.id});
    } else {
      ProbeIsEnough(db.bindings, BindingAttempt, c.id, c.row);
      ProbeIsEnough(db.bindings, BindingReceipt, c.id, c.row);
      ProbeIsEnough(db.bindings, BindingOrder, c.id, c.row);
      WrittenSource(db.bindings, db.attempts, BindingAttempt, AdmittedExactly, c.id, c.row);
      assert Post(db, OnBinding(c)).bindings[c.id] == c.row;
    }
  }

  lemma LeafProbes(db: Db, s: Statement)
    requires Consistent(db) && Triggers(db, s) && (s.OnMandate? || s.OnLine? || s.OnBinding? || s.Elsewhere?)
    ensures Probes(db, s) <==> Consistent(Post(db, s))
  {
    hide Grounded, OutsideProbes;
    GroundProbes(db, s);
    match s
    case OnMandate(c) => MandateProbes(db, c);
    case OnLine(c) => LineProbes(db, c);
    case OnBinding(c) => BindingProbes(db, c);
    case Elsewhere(_) =>
  }

  lemma CheckoutProbes(db: Db, c: Change<Checkout>)
    requires Consistent(db) && Triggers(db, OnCheckout(c))
    ensures Probes(db, OnCheckout(c)) <==> Consistent(Post(db, OnCheckout(c)))
  {
    hide Grounded, OutsideProbes;
    GroundProbes(db, OnCheckout(c));
    if c.Delete? {
      CheckoutDeleteProbes(db, c.id);
    } else {
      CheckoutWriteProbes(db, c);
      CheckoutWriteKeepsTheRest(db, c);
    }
  }

  lemma ReservationProbes(db: Db, c: Change<Reservation>)
    requires Consistent(db) && Triggers(db, OnReservation(c))
    ensures Probes(db, OnReservation(c)) <==> Consistent(Post(db, OnReservation(c)))
  {
    hide Grounded, OutsideProbes;
    GroundProbes(db, OnReservation(c));
    if c.Delete? {
      ReservationDeleteProbes(db, c.id);
    } else {
      ReservationWriteProbes(db, c);
      ReservationWriteKeepsTheRest(db, c);
    }
  }

  lemma AttemptProbes(db: Db, c: Change<Attempt>)
    requires Consistent(db) && Triggers(db, OnAttempt(c))
    ensures Probes(db, OnAttempt(c)) <==> Consistent(Post(db, OnAttempt(c)))
  {
    hide Grounded, OutsideProbes;
    GroundProbes(db, OnAttempt(c));
    if c.Delete? {
      AttemptDeleteProbes(db, c.id);
    } else {
      AttemptWriteProbes(db, c);
      AttemptWriteKeepsBindings(db, c);
    }
  }

  lemma ProbesAreEnough(db: Db, s: Statement)
    requires Consistent(db)
    ensures Triggers(db, s) && Probes(db, s) <==> Accepts(db, s)
  {
    hide Consistent, Triggers, Probes, Post;
    if Triggers(db, s) {
      match s
      case OnCheckout(c) => CheckoutProbes(db, c);
      case OnReservation(c) => ReservationProbes(db, c);
      case OnAttempt(c) => AttemptProbes(db, c);
      case _ => LeafProbes(db, s);
    }
  }

  class PaymentTables {
    var mandates: map<Id, Mandate>
    var checkouts: map<Id, Checkout>
    var reservations: map<Id, Reservation>
    var lines: map<Id, Line>
    var attempts: map<Id, Attempt>
    var bindings: map<Id, Binding>
    var outside: Outside

    function Contents(): Db
      reads this
    {
      Db(mandates, checkouts, reservations, lines, attempts, bindings, outside)
    }

    ghost predicate Valid()
      reads this
    {
      Consistent(Contents())
    }

    constructor ()
      ensures Valid() && Contents() == EMPTY
    {
      mandates, checkouts, reservations := map[], map[], map[];
      lines, attempts, bindings := map[], map[], map[];
      outside := EMPTY.outside;
    }

    // One statement. It takes effect exactly when it may leave every constraint standing.
    method Execute(s: Statement) returns (done: bool)
      requires Valid()
      modifies this
      ensures Valid()
      ensures done <==> Accepts(old(Contents()), s)
      ensures Contents() == Step(old(Contents()), s)
    {
      hide Consistent, Triggers, Probes;
      ProbesAreEnough(Contents(), s);
      done := Triggers(Contents(), s) && Probes(Contents(), s);
      if !done {
        return;
      }
      match s
      case OnMandate(c) => mandates := Written(mandates, c);
      case OnCheckout(c) => checkouts := Written(checkouts, c);
      case OnReservation(c) =>
        if c.Delete? {
          lines := lines - LinesOf(Contents(), c.id);
        }
        reservations := Written(reservations, c);
      case OnLine(c) => lines := Written(lines, c);
      case OnAttempt(c) => attempts := Written(attempts, c);
      case OnBinding(c) => bindings := Written(bindings, c);
      case Elsewhere(o) => outside := o;
    }

    // A script of statements, each judged where the one before left things.
    method ExecuteAll(statements: seq<Statement>)
      requires Valid()
      modifies this
      ensures Valid()
      ensures Contents() == Run(old(Contents()), statements)
    {
      for n := 0 to |statements|
        invariant Valid()
        invariant Run(Contents(), statements[n..]) == Run(old(Contents()), statements)
      {
        var done := Execute(statements[n]);
        assert statements[n..][1..] == statements[n + 1..];
      }
    }
  }
}
