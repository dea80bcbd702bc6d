/** Payment rows settle: however long a run of statements is, each row changes status a bounded
    number of times, and the times of an attempt are written exactly once. */
module PaymentLifecycles {
  import opened Relational
  import opened PaymentSchema
  import opened Lifecycles

  lemma {:induction false} TraceEndsAtRun(db: Db, ss: seq<Statement>)
    ensures Trace(Step, db, ss)[|ss|] == Run(db, ss)
    decreases |ss|
  {
    if ss != [] {
      hide Accepts;
      TraceEndsAtRun(Step(db, ss[0]), ss[1..]);
    }
  }

  function MandateStatusAt(i: Id): Db -> Option<MandateStatus> {
    (db: Db) => if i in db.mandates then Some(db.mandates[i].status) else None
  }
  function CheckoutStatusAt(i: Id): Db -> Option<CheckoutStatus> {
    (db: Db) => if i in db.checkouts then Some(db.checkouts[i].status) else None
  }
  function ReservationStatusAt(i: Id): Db -> Option<ReservationStatus> {
    (db: Db) => if i in db.reservations then Some(db.reservations[i].status) else None
  }
  function AttemptStatusAt(i: Id): Db -> Option<AttemptStatus> {
    (db: Db) => if i in db.attempts then Some(db.attempts[i].status) else None
  }
  function BindingStatusAt(i: Id): Db -> Option<BindingStatus> {
    (db: Db) => if i in db.bindings then Some(db.bindings[i].status) else None
  }

  function MandateRank(i: Id): Db -> int { (db: Db) => MandateStage(MandateStatusAt(i)(db)) }
  function CheckoutRank(i: Id): Db -> int { (db: Db) => CheckoutStage(CheckoutStatusAt(i)(db)) }
  function ReservationRank(i: Id): Db -> int { (db: Db) => ReservationStage(ReservationStatusAt(i)(db)) }
  function AttemptRank(i: Id): Db -> int { (db: Db) => AttemptStage(AttemptStatusAt(i)(db)) }
  function BindingRank(i: Id): Db -> int { (db: Db) => BindingStage(BindingStatusAt(i)(db)) }

  // If every row change the triggers let through climbs, a run moves no more than it can climb.
  lemma RowSettles<T>(db: Db, ss: seq<Statement>, seen: Db -> T, rank: Db -> int)
    requires forall a, s :: Triggers(a, s) && s in ss ==> Climbs(a, Post(a, s), seen, rank)
    ensures Moves(Trace(Step, db, ss), seen) <= rank(Run(db, ss)) - rank(db)
  {
    hide Consistent, Triggers, Post;
    forall a, s | s in ss ensures Climbs(a, Step(a, s), seen, rank) {
      assert Accepts(a, s) ==> Triggers(a, s);
    }
    var any := (a: Db) => true;
    RunClimbs(Step, db, ss, any, seen, rank);
    TraceEndsAtRun(db, ss);
  }

  lemma MandateClimbs(db: Db, s: Statement, i: Id)
    requires Triggers(db, s) && s != OnMandate(Delete(i))
    ensures Climbs(db, Post(db, s), MandateStatusAt(i), MandateRank(i))
  {
    var o, n := MandateStatusAt(i)(db), MandateStatusAt(i)(Post(db, s));
    assert o == n || MandateStage(o) < MandateStage(n);
  }

  // No table here guards DELETE, so a row's history is over statements that do not delete it.
  // Whatever else is attempted and however often, a mandate changes status at most once after
  // it is written, and not at all once revoked.
  lemma MandateSettles(db: Db, ss: seq<Statement>, i: Id)
    requires OnMandate(Delete(i)) !in ss
    ensures Moves(Trace(Step, db, ss), MandateStatusAt(i)) <= 2 - MandateRank(i)(db)
  {
    forall a, s | Triggers(a, s) && s in ss ensures Climbs(a, Post(a, s), MandateStatusAt(i), MandateRank(i)) {
      MandateClimbs(a, s, i);
    }
    RowSettles(db, ss, MandateStatusAt(i), MandateRank(i));
  }

  lemma CheckoutClimbs(db: Db, s: Statement, i: Id)
    requires Triggers(db, s) && s != OnCheckout(Delete(i))
    ensures Climbs(db, Post(db, s), CheckoutStatusAt(i), CheckoutRank(i))
  {
    var o, n := CheckoutStatusAt(i)(db), CheckoutStatusAt(i)(Post(db, s));
    assert o == n || CheckoutStage(o) < CheckoutStage(n);
  }

  // A quote is closed once, as PAID or as CANCELLED.
  lemma CheckoutSettles(db: Db, ss: seq<Statement>, i: Id)
    requires OnCheckout(Delete(i)) !in ss
    ensures Moves(Trace(Step, db, ss), CheckoutStatusAt(i)) <= 2 - CheckoutRank(i)(db)
  {
    forall a, s | Triggers(a, s) && s in ss ensures Climbs(a, Post(a, s), CheckoutStatusAt(i), CheckoutRank(i)) {
      CheckoutClimbs(a, s, i);
    }
    RowSettles(db, ss, CheckoutStatusAt(i), CheckoutRank(i));
  }

  lemma ReservationClimbs(db: Db, s: Statement, i: Id)
    requires Triggers(db, s) && s != OnReservation(Delete(i))
    ensures Climbs(db, Post(db, s), ReservationStatusAt(i), ReservationRank(i))
  {
    var o, n := ReservationStatusAt(i)(db), ReservationStatusAt(i)(Post(db, s));
    assert o == n || ReservationStage(o) < ReservationStage(n);
  }

  // A reservation changes status at most twice.
  lemma ReservationSettles(db: Db, ss: seq<Statement>, i: Id)
    requires OnReservation(Delete(i)) !in ss
    ensures Moves(Trace(Step, db, ss), ReservationStatusAt(i)) <= 3 - ReservationRank(i)(db)
  {
    forall a, s | Triggers(a, s) && s in ss ensures Climbs(a, Post(a, s), ReservationStatusAt(i), ReservationRank(i)) {
      ReservationClimbs(a, s, i);
    }
    RowSettles(db, ss, ReservationStatusAt(i), ReservationRank(i));
  }

  lemma AttemptClimbs(db: Db, s: Statement, i: Id)
    requires Triggers(db, s) && s != OnAttempt(Delete(i))
    ensures Climbs(db, Post(db, s), AttemptStatusAt(i), AttemptRank(i))
  {
    var o, n := AttemptStatusAt(i)(db), AttemptStatusAt(i)(Post(db, s));
    assert o == n || AttemptStage(o) < AttemptStage(n);
  }

  // A payment attempt changes status at most three times, fewer by each stage it is past.
  lemma AttemptSettles(db: Db, ss: seq<Statement>, i: Id)
    requires OnAttempt(Delete(i)) !in ss
    ensures Moves(Trace(Step, db, ss), AttemptStatusAt(i)) <= 4 - AttemptRank(i)(db)
  {
    forall a, s | Triggers(a, s) && s in ss ensures Climbs(a, Post(a, s), AttemptStatusAt(i), AttemptRank(i)) {
      AttemptClimbs(a, s, i);
    }
    RowSettles(db, ss, AttemptStatusAt(i), AttemptRank(i));
  }

  lemma BindingClimbs(db: Db, s: Statement, i: Id)
    requires Triggers(db, s) && s != OnBinding(Delete(i))
    ensures Climbs(db, Post(db, s), BindingStatusAt(i), BindingRank(i))
  {
    var o, n := BindingStatusAt(i)(db), BindingStatusAt(i)(Post(db, s));
    assert o == n || BindingStage(o) < BindingStage(n);
  }

  // A provider order binding changes status at most twice.
  lemma BindingSettles(db: Db, ss: seq<Statement>, i: Id)
    requires OnBinding(Delete(i)) !in ss
    ensures Moves(Trace(Step, db, ss), BindingStatusAt(i)) <= 3 - BindingRank(i)(db)
  {
    forall a, s | Triggers(a, s) && s in ss ensures Climbs(a, Post(a, s), BindingStatusAt(i), BindingRank(i)) {
      BindingClimbs(a, s, i);
    }
    RowSettles(db, ss, BindingStatusAt(i), BindingRank(i));
  }

  /* ---- write-once times ---- */

  function DispatchedAt(i: Id): Db -> Option<Time> {
    (db: Db) => if i in db.attempts then db.attempts[i].dispatchedAt else None
  }
  function ResolvedAt(i: Id): Db -> Option<Time> {
    (db: Db) => if i in db.attempts then db.attempts[i].resolvedAt else None
  }
  predicate Dispatched(db: Db, i: Id) { i in db.attempts && db.attempts[i].status != ADMITTED }
  predicate Resolved(db: Db, i: Id) { i in db.attempts && Settled(db.attempts[i].status) }

  lemma PostFlips(db: Db, s: Statement, i: Id)
    requires Triggers(db, s) && s != OnAttempt(Delete(i))
    requires i in db.attempts ==> AttemptCheck(db.attempts[i])
    requires i in Post(db, s).attempts ==> AttemptCheck(Post(db, s).attempts[i])
    ensures FlipsWith(db, Post(db, s), DispatchedAt(i), (a: Db) => Dispatched(a, i))
    ensures FlipsWith(db, Post(db, s), ResolvedAt(i), (a: Db) => Resolved(a, i))
  {
  }

  lemma StepFlips(db: Db, s: Statement, i: Id)
    requires Consistent(db) && s != OnAttempt(Delete(i))
    ensures FlipsWith(db, Step(db, s), DispatchedAt(i), (a: Db) => Dispatched(a, i))
    ensures FlipsWith(db, Step(db, s), ResolvedAt(i), (a: Db) => Resolved(a, i))
  {
    if Accepts(db, s) {
      assert i in db.attempts ==> AttemptCheck(db.attempts[i]);
      assert i in Post(db, s).attempts ==> AttemptCheck(Post(db, s).attempts[i]);
      PostFlips(db, s, i);
    }
  }

  // dispatched_at changes exactly once if the attempt leaves ADMITTED along the way, and never
  // otherwise; resolved_at likewise when it reaches SUCCEEDED or FAILED.
  lemma TimesAreWrittenOnce(db: Db, ss: seq<Statement>, i: Id)
    requires Consistent(db) && OnAttempt(Delete(i)) !in ss
    ensures Moves(Trace(Step, db, ss), DispatchedAt(i))
         == if Dispatched(Run(db, ss), i) && !Dispatched(db, i) then 1 else 0
    ensures Moves(Trace(Step, db, ss), ResolvedAt(i))
         == if Resolved(Run(db, ss), i) && !Resolved(db, i) then 1 else 0
  {
    var dispatched, resolved := (a: Db) => Dispatched(a, i), (a: Db) => Resolved(a, i);
    forall a, s | Consistent(a)
      ensures Consistent(Step(a, s))
      ensures s in ss ==> FlipsWith(a, Step(a, s), DispatchedAt(i), dispatched)
      ensures s in ss ==> FlipsWith(a, Step(a, s), ResolvedAt(i), resolved)
    {
      StepStaysConsistent(a, s);
      if s in ss {
        StepFlips(a, s, i);
      }
    }
    TraceEndsAtRun(db, ss);
    RunFlipsOnce(Step, db, ss, Consistent, DispatchedAt(i), dispatched);
    RunFlipsOnce(Step, db, ss, Consistent, ResolvedAt(i), resolved);
  }
}
