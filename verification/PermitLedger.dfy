/** The provider permits as a ledger: what a benchmark run has been charged is what was granted
    to it less what was handed back, however statements are interleaved. */
module PermitLedger {
  import opened Relational
  import opened BenchmarkSchema

  ghost function ChargeTo(run: Id): Permit -> int {
    (p: Permit) => if p.pins.run == run then Charge(p) else 0
  }

  // The total of charged_requests over a run's permits.
  ghost function Charged(db: Db, run: Id): int { SumBy(db.permits, ChargeTo(run)) }

  ghost predicate Grants(db: Db, s: Statement, run: Id) {
    Accepts(db, s) && s.OnPermit? && s.permit.Insert? && s.permit.row.pins.run == run
  }

  ghost predicate Settles(db: Db, s: Statement, run: Id) {
    Accepts(db, s) && s.OnPermit? && s.permit.Update? && s.permit.row.pins.run == run
  }

  ghost function Granted(db: Db, s: Statement, run: Id): int {
    if Grants(db, s, run) then s.permit.row.pins.granted else 0
  }

  // A reconciled permit hands back what it did not consume, a released one everything, and an
  // assumed spent one nothing.
  function HandedBack(p: Permit): int {
    match p.state
    case RECONCILED => if p.consumed.Some? then p.pins.granted - p.consumed.value else p.pins.granted
    case RELEASED => p.pins.granted
    case RESERVED => 0
    case ASSUMED_SPENT => 0
  }

  ghost function Returned(db: Db, s: Statement, run: Id): int {
    if Settles(db, s, run) then HandedBack(s.permit.row) else 0
  }

  ghost function AllGranted(db: Db, ss: seq<Statement>, run: Id): int
    decreases |ss|
  {
    if ss == [] then 0 else Granted(db, ss[0], run) + AllGranted(Step(db, ss[0]), ss[1..], run)
  }

  ghost function AllReturned(db: Db, ss: seq<Statement>, run: Id): int
    decreases |ss|
  {
    if ss == [] then 0 else Returned(db, ss[0], run) + AllReturned(Step(db, ss[0]), ss[1..], run)
  }

  /* ---- one permit ---- */

  predicate PermitOnward(o: Permit, n: Permit) {
    && n.pins == o.pins
    && 0 <= Charge(n) <= Charge(o) <= o.pins.granted
    && (o.state != RESERVED ==> n == o)
  }

  lemma PostKeepsPermit(db: Db, s: Statement, p: Id)
    requires p in db.permits && PermitCheck(db.permits[p]) && Triggers(db, s)
    ensures p in Post(db, s).permits
    ensures PermitCheck(Post(db, s).permits[p]) ==> PermitOnward(db.permits[p], Post(db, s).permits[p])
  {
  }

  lemma StepKeepsPermit(db: Db, s: Statement, p: Id)
    requires PermitsOk(db) && p in db.permits
    ensures p in Step(db, s).permits && PermitOnward(db.permits[p], Step(db, s).permits[p])
  {
    assert PermitCheck(db.permits[p]);
    if Accepts(db, s) {
      PostKeepsPermit(db, s, p);
    }
  }

  // A permit is never deleted or rewritten, its charge stays within its grant and only falls,
  // a settled one is final, and the run it was charged to cannot be deleted from under it.
  lemma {:induction false} PermitsArePermanent(db: Db, ss: seq<Statement>, p: Id)
    requires Consistent(db) && p in db.permits
    ensures p in Run(db, ss).permits && PermitOnward(db.permits[p], Run(db, ss).permits[p])
    ensures db.permits[p].pins.run in Run(db, ss).runs
    decreases |ss|
  {
    PermitStands(db, p);
    if ss != [] {
      StepKeepsPermit(db, ss[0], p);
      PermitsArePermanent(Step(db, ss[0]), ss[1..], p);
    }
  }

  lemma PermitStands(db: Db, p: Id)
    requires Consistent(db) && p in db.permits
    ensures PermitOnward(db.permits[p], db.permits[p]) && db.permits[p].pins.run in db.runs
  {
    assert PermitCheck(db.permits[p]);
    assert Resolves(db.permits[p], db.runs, PermitRun, PermitOwnsRun);
  }

  lemma KeyIsTaken(permits: map<Id, Permit>, p: Id, q: Id, row: Permit)
    requires p in permits && p != q
    ensures Unique(permits[q := row], PermitAttempt) ==> PermitAttempt(permits[p]) != PermitAttempt(row)
  {
    var post := permits[q := row];
    assert post[p] == permits[p] && post[q] == row;
  }

  // A retry is never charged twice: once a run holds a permit for an attempt key, no later
  // statement grants another one for it, whatever happened to the first.
  lemma OneGrantPerAttempt(db: Db, ss: seq<Statement>, p: Id, q: Id, row: Permit)
    requires Consistent(db) && p in db.permits
    requires row.pins.run == db.permits[p].pins.run && row.pins.attemptKey == db.permits[p].pins.attemptKey
    ensures !Accepts(Run(db, ss), OnPermit(Insert(q, row)))
  {
    PermitsArePermanent(db, ss, p);
    if p != q {
      KeyIsTaken(Run(db, ss).permits, p, q, row);
    }
  }

  /* ---- the ledger ---- */

  lemma SettlingHandsBack(o: Permit, n: Permit)
    requires PermitCheck(o) && PermitCheck(n) && PermitGuard(o, n)
    ensures Charge(n) == Charge(o) - HandedBack(n) && 0 <= HandedBack(n) <= n.pins.granted
  {
  }

  lemma StepBalances(db: Db, s: Statement, run: Id)
    requires PermitsOk(db)
    ensures Charged(Step(db, s), run) == Charged(db, run) + Granted(db, s, run) - Returned(db, s, run)
    ensures Granted(db, s, run) >= 0 && Returned(db, s, run) >= 0
  {
    if Accepts(db, s) && s.OnPermit? {
      var c := s.permit;
      SumWritten(db.permits, ChargeTo(run), c.id, c.row);
      assert PermitCheck(Post(db, s).permits[c.id]);
      if c.Update? {
        SettlingHandsBack(db.permits[c.id], c.row);
      }
    }
  }

  // Conservation over any run of statements.
  lemma {:induction false} LedgerBalances(db: Db, ss: seq<Statement>, run: Id)
    requires Consistent(db)
    ensures Charged(Run(db, ss), run) == Charged(db, run) + AllGranted(db, ss, run) - AllReturned(db, ss, run)
    decreases |ss|
  {
    if ss != [] {
      StepBalances(db, ss[0], run);
      LedgerBalances(Step(db, ss[0]), ss[1..], run);
    }
  }

  // From an empty database the books start at nothing, and no run is ever handed back more
  // than it was granted.
  lemma BooksNeverOverdrawn(ss: seq<Statement>, run: Id)
    ensures 0 <= AllReturned(EMPTY, ss, run) <= AllGranted(EMPTY, ss, run)
    ensures Charged(Run(EMPTY, ss), run) == AllGranted(EMPTY, ss, run) - AllReturned(EMPTY, ss, run)
  {
    LedgerBalances(EMPTY, ss, run);
    RunStaysConsistent(EMPTY, ss);
    ChargesAreNotNegative(Run(EMPTY, ss), run);
    ReturnsAreNotNegative(EMPTY, ss, run);
  }

  lemma ChargesAreNotNegative(db: Db, run: Id)
    requires PermitsOk(db)
    ensures Charged(db, run) >= 0
  {
    var nothing := (p: Permit) => 0;
    SumZero(db.permits, nothing);
    assert forall i :: i in db.permits ==> PermitCheck(db.permits[i]);
    SumOrdered(db.permits, nothing, ChargeTo(run));
  }

  lemma {:induction false} ReturnsAreNotNegative(db: Db, ss: seq<Statement>, run: Id)
    requires PermitsOk(db)
    ensures AllReturned(db, ss, run) >= 0
    decreases |ss|
  {
    if ss != [] {
      StepBalances(db, ss[0], run);
      ReturnsAreNotNegative(Step(db, ss[0]), ss[1..], run);
    }
  }

  // Exactly when a run's charge rises: a statement grants it a permit under an attempt key it
  // holds no permit for, and the rise is that grant.
  lemma ChargeRisesOnlyByAFreshGrant(db: Db, s: Statement, run: Id)
    requires Consistent(db)
    ensures Charged(Step(db, s), run) > Charged(db, run) <==> Grants(db, s, run)
    ensures Grants(db, s, run) ==> Charged(Step(db, s), run) == Charged(db, run) + s.permit.row.pins.granted
    ensures Grants(db, s, run) ==> FreshAttempt(db, run, s.permit.row.pins.attemptKey)
  {
    StepBalances(db, s, run);
    if Grants(db, s, run) {
      var post := Post(db, s).permits;
      assert PermitCheck(post[s.permit.id]);
      forall p | p in db.permits && db.permits[p].pins.run == run
        ensures db.permits[p].pins.attemptKey != s.permit.row.pins.attemptKey
      {
        KeyIsTaken(db.permits, p, s.permit.id, s.permit.row);
      }
    }
  }

  predicate FreshAttempt(db: Db, run: Id, attemptKey: string) {
    forall p :: p in db.permits && db.permits[p].pins.run == run ==> db.permits[p].pins.attemptKey != attemptKey
  }

  // Exactly what settling a permit does to its run's charge: reconciling leaves what was
  // consumed, releasing leaves nothing, and an unknown outcome leaves the whole grant.
  lemma SettlingMovesTheCharge(db: Db, p: Id, n: Permit)
    requires Consistent(db) && p in db.permits && Accepts(db, OnPermit(Update(p, n)))
    ensures n.state == RECONCILED ==> n.consumed.Some?
    ensures Charged(Step(db, OnPermit(Update(p, n))), n.pins.run) == Charged(db, n.pins.run) - n.pins.granted
      + match n.state
        case RECONCILED => n.consumed.value
        case RELEASED => 0
        case _ => n.pins.granted
    ensures forall run :: run != n.pins.run ==>
      Charged(Step(db, OnPermit(Update(p, n))), run) == Charged(db, run)
  {
    assert PermitCheck(db.permits[p]) && PermitCheck(Post(db, OnPermit(Update(p, n))).permits[p]);
    hide Consistent;
    forall run ensures Charged(Step(db, OnPermit(Update(p, n))), run)
      == Charged(db, run) + ChargeTo(run)(n) - ChargeTo(run)(db.permits[p])
    {
      SumWritten(db.permits, ChargeTo(run), p, n);
    }
  }
}
