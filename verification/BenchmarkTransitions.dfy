/** Exactly which writes the benchmark tables accept, column by column: what a row may be inserted
    as, what an update may change it to, and which other rows can stand in the way. */
module BenchmarkTransitions {
  import opened Relational
  import opened BenchmarkSchema
  import opened BenchmarkDatabase

  const INTEGER_LIMIT := 0x8000_0000

  // A statement is judged by its triggers and its probes.
  lemma IsJudged(db: Db, s: Statement)
    requires Consistent(db)
    ensures Accepts(db, s) <==> Triggers(db, s) && OwnProbes(db, s) && OutsideProbes(db, s)
  {
    hide Consistent, Accepts, Triggers, OwnProbes, OutsideProbes;
    ProbesAreEnough(db, s);
  }

  // The merchant's row of another table, or none.
  predicate OwnedOrNone(rows: map<Id, Id>, link: Option<Id>, merchant: Id) {
    link == None || (link.value in rows && rows[link.value] == merchant)
  }

  /* ---- runs ---- */

  predicate RunColumns(r: BenchmarkRun) {
    && (match r.status
        case PENDING => r.startedAt.None? && r.completedAt.None?
        case RUNNING => r.startedAt.Some? && r.completedAt.None?
        case _ => r.startedAt.Some? && r.completedAt.Some? && r.startedAt.value <= r.completedAt.value)
    && (if r.pins.executorKind.None? then r.pins.executorVersion.None? && r.pins.executorRevision.None?
        else r.pins.executorVersion.Some? && 0 < r.pins.executorVersion.value < INTEGER_LIMIT)
  }

  lemma RunColumnsAreTheChecks(r: BenchmarkRun)
    ensures RunColumns(r) <==> RunCheck(r)
  {
  }

  predicate AnotherRuns(db: Db, r: Id, merchant: Id) {
    exists k :: k in db.runs && k != r && db.runs[k].status == RunStatus.RUNNING && db.runs[k].pins.merchant == merchant
  }

  // In whatever status: only a merchant's second RUNNING run is kept out.
  lemma RunInserts(db: Db, r: Id, n: BenchmarkRun)
    requires Consistent(db)
    ensures Accepts(db, OnRun(Insert(r, n))) <==>
      && r !in db.runs && RunColumns(n)
      && n.pins.merchant in db.outside.merchants && n.pins.suite in db.outside.suites
      && OwnedOrNone(db.outside.environments, n.pins.environment, n.pins.merchant)
      && OwnedOrNone(db.outside.representations, n.representation, n.pins.merchant)
      && !(n.status == RunStatus.RUNNING && AnotherRuns(db, r, n.pins.merchant))
  {
    RunColumnsAreTheChecks(n);
    IsJudged(db, OnRun(Insert(r, n)));
    hide Consistent, Accepts, RunCheck, RunColumns;
  }

  predicate RunMoves(o: BenchmarkRun, n: BenchmarkRun) {
    match o.status
    case PENDING =>
      || n == o.(representation := n.representation)
      || (n.startedAt.Some?
          && n == o.(representation := n.representation, status := RunStatus.RUNNING, startedAt := n.startedAt))
    case RUNNING =>
      || n == o.(representation := n.representation)
      || (n.completedAt.Some? && o.startedAt.Some? && o.startedAt.value <= n.completedAt.value
          && n.status in {RunStatus.COMPLETED, ABORTED}
          && n == o.(representation := n.representation, status := n.status, completedAt := n.completedAt))
    case _ => false
  }

  // A run starts once, while no other of its merchant runs, and then finishes once, either way.
  lemma RunUpdates(db: Db, r: Id, n: BenchmarkRun)
    requires Consistent(db) && r in db.runs
    ensures var o := db.runs[r];
      Accepts(db, OnRun(Update(r, n))) <==>
        && RunMoves(o, n) && OwnedOrNone(db.outside.representations, n.representation, n.pins.merchant)
        && !(o.status == RunStatus.PENDING && n.status == RunStatus.RUNNING && AnotherRuns(db, r, n.pins.merchant))
  {
    RunMovesAsJudged(db, r, n);
    RunColumnsAreTheChecks(n);
    IsJudged(db, OnRun(Update(r, n)));
    hide Consistent, Accepts, RunMoves, RunGuard, RunCheck, RunColumns;
  }

  lemma RunMovesAsGuarded(o: BenchmarkRun, n: BenchmarkRun)
    requires RunColumns(o)
    ensures RunMoves(o, n) <==> RunGuard(o, n) && RunColumns(n)
  {
  }

  lemma RunMovesAsJudged(db: Db, r: Id, n: BenchmarkRun)
    requires Consistent(db) && r in db.runs
    ensures RunMoves(db.runs[r], n) <==> RunGuard(db.runs[r], n) && RunColumns(n)
    ensures RunMoves(db.runs[r], n) ==>
      && n.pins == db.runs[r].pins && RunGrounded(db.outside, db.runs[r])
      && (db.runs[r].status == RunStatus.RUNNING ==> !AnotherRuns(db, r, n.pins.merchant))
  {
    var o := db.runs[r];
    assert RunCheck(o) && RunGrounded(db.outside, o);
    RunColumnsAreTheChecks(o);
    RunMovesAsGuarded(o, n);
    hide RunMoves, RunCheck, RunColumns;
    forall k | k in db.runs && RunningMerchant(o).Some? && RunningMerchant(db.runs[k]) == RunningMerchant(o)
      ensures k == r
    {
    }
  }

  // A run goes only while PENDING, and only if none but its own mission runs name it.
  lemma RunDeletes(db: Db, r: Id)
    requires Consistent(db)
    ensures Accepts(db, OnRun(Delete(r))) <==>
      && r in db.runs && db.runs[r].status == RunStatus.PENDING && r !in db.outside.namedRuns
      && (forall l :: l in db.launches ==> db.launches[l].run != Some(r) && db.launches[l].pins.baseline != Some(r))
      && (forall p :: p in db.permits ==> db.permits[p].pins.run != r)
      && forall m :: m in db.missions && db.missions[m].pins.run == r ==> m !in db.outside.namedMissions
  {
    IsJudged(db, OnRun(Delete(r)));
    hide Consistent, Accepts;
  }

  /* ---- mission runs ---- */

  predicate MissionColumns(m: MissionRun) {
    && (match m.status
        case PENDING => m.startedAt.None? && m.completedAt.None?
        case RUNNING => m.startedAt.Some? && m.completedAt.None?
        case _ => m.startedAt.Some? && m.completedAt.Some? && m.startedAt.value <= m.completedAt.value)
    && (match m.status
        case FAILED => m.failureReason.Some? && m.failureReason.value !in m.additionalReasons
        case ABSTAINED =>
          if m.failureReason.None? then m.additionalReasons == [] else m.failureReason.value !in m.additionalReasons
        case _ => m.failureReason.None? && m.additionalReasons == [])
    && (m.status == SUCCEEDED ==> !m.unsafeAttempt && !m.unverifiedAttempt)
    && (m.unsafeCompletion ==> m.status == MissionStatus.FAILED && (m.unsafeAttempt || m.unverifiedAttempt))
    && (if m.selectedVariant.None? then m.selectedQuantity.None?
        else m.selectedQuantity.Some? && 0 < m.selectedQuantity.value < INTEGER_LIMIT)
  }

  lemma MissionColumnsAreTheChecks(m: MissionRun)
    ensures MissionColumns(m) <==> MissionCheck(m)
  {
  }

  // What a mission run may have selected and bought is its merchant's.
  predicate MissionOwns(o: Outside, m: MissionRun) {
    && OwnedOrNone(o.variants, m.selectedVariant, m.pins.merchant)
    && OwnedOrNone(o.checkouts, m.checkout, m.pins.merchant)
    && OwnedOrNone(o.payments, m.payment, m.pins.merchant)
  }

  lemma MissionProbed(db: Db, m: Id, n: MissionRun)
    ensures OwnProbes(db, OnMission(Update(m, n))) && OutsideProbes(db, OnMission(Update(m, n))) <==>
      && MissionColumns(n) && MissionOwns(db.outside, n) && Free(db.missions, RunMission, m, n)
      && Resolves(n, db.runs, MissionsRun, BoundToRun)
      && Names(db.outside.definitions, Some(n.pins.mission), n.pins.suite)
    ensures OwnProbes(db, OnMission(Insert(m, n))) && OutsideProbes(db, OnMission(Insert(m, n))) <==>
      OwnProbes(db, OnMission(Update(m, n))) && OutsideProbes(db, OnMission(Update(m, n)))
  {
    MissionColumnsAreTheChecks(n);
    hide MissionColumns, MissionCheck;
  }

  // A run takes its missions PENDING, while it is PENDING itself, each once and of its own suite.
  lemma MissionInserts(db: Db, m: Id, n: MissionRun)
    requires Consistent(db)
    ensures Accepts(db, OnMission(Insert(m, n))) <==>
      && m !in db.missions && n.status == MissionStatus.PENDING && MissionColumns(n) && MissionOwns(db.outside, n)
      && n.pins.run in db.runs && db.runs[n.pins.run].status == RunStatus.PENDING
      && db.runs[n.pins.run].pins.merchant == n.pins.merchant && db.runs[n.pins.run].pins.suite == n.pins.suite
      && n.pins.mission in db.outside.definitions && db.outside.definitions[n.pins.mission] == n.pins.suite
      && forall k :: k in db.missions && db.missions[k].pins.run == n.pins.run ==>
           db.missions[k].pins.mission != n.pins.mission
  {
    MissionProbed(db, m, n);
    hide Consistent, Accepts, OwnProbes, OutsideProbes, MissionOwns, MissionColumns;
    IsJudged(db, OnMission(Insert(m, n)));
  }

  // The statuses a mission run goes through.
  predicate MissionMoves(o: MissionRun, n: MissionRun) {
    && n.pins == o.pins && MissionColumns(n)
    && match o.status
       case PENDING => n.status == MissionStatus.PENDING || n.status == MissionStatus.RUNNING
       case RUNNING => n.status != MissionStatus.PENDING && n.startedAt == o.startedAt
       case _ => false
  }

  lemma MissionMovesAsGuarded(runs: map<Id, BenchmarkRun>, o: MissionRun, n: MissionRun)
    requires MissionColumns(o) && o.pins.run in runs
    ensures MissionMoves(o, n) && runs[o.pins.run].status !in {RunStatus.COMPLETED, ABORTED} <==>
      MissionGuard(runs, o, n) && MissionColumns(n)
  {
    hide MissionColumns;
    StartWithStatus(o);
  }

  lemma StartWithStatus(m: MissionRun)
    requires MissionColumns(m)
    ensures m.status == MissionStatus.PENDING <==> m.startedAt.None?
  {
  }

  // A mission run starts and gets its result once, until its run has finished.
  lemma MissionUpdates(db: Db, m: Id, n: MissionRun)
    requires Consistent(db) && m in db.missions
    ensures db.missions[m].pins.run in db.runs
    ensures Accepts(db, OnMission(Update(m, n))) <==>
      && db.runs[db.missions[m].pins.run].status in {RunStatus.PENDING, RunStatus.RUNNING}
      && MissionMoves(db.missions[m], n) && MissionOwns(db.outside, n)
  {
    MissionKeepsItsKeys(db, m, n);
    MissionProbed(db, m, n);
    hide Consistent, Accepts, OwnProbes, OutsideProbes, MissionMoves, MissionOwns, MissionGuard, MissionColumns;
    IsJudged(db, OnMission(Update(m, n)));
  }

  lemma MissionKeepsItsKeys(db: Db, m: Id, n: MissionRun)
    requires Consistent(db) && m in db.missions
    ensures var o := db.missions[m];
      && o.pins.run in db.runs && BoundToRun(o, db.runs[o.pins.run])
      && (MissionMoves(o, n) && db.runs[o.pins.run].status !in {RunStatus.COMPLETED, ABORTED} <==>
            MissionGuard(db.runs, o, n) && MissionColumns(n))
      && (MissionMoves(o, n) ==> n.pins == o.pins && Names(db.outside.definitions, Some(n.pins.mission), n.pins.suite))
      && (n.pins == o.pins ==> Free(db.missions, RunMission, m, n))
  {
    var o := db.missions[m];
    assert MissionCheck(o) && MissionGrounded(db.outside, o) && Resolves(o, db.runs, MissionsRun, BoundToRun);
    MissionColumnsAreTheChecks(o);
    MissionMovesAsGuarded(db.runs, o, n);
    hide MissionGuard, MissionCheck, MissionColumns;
    forall k | k in db.missions && RunMission(db.missions[k]) == RunMission(o) ensures k == m {
    }
  }

  // No mission run is ever deleted by itself.
  lemma MissionDeletes(db: Db, m: Id)
    requires Consistent(db)
    ensures !Accepts(db, OnMission(Delete(m)))
  {
    if m in db.missions {
      assert Resolves(db.missions[m], db.runs, MissionsRun, BoundToRun);
    }
  }

  /* ---- launches ---- */

  predicate LaunchColumns(l: Launch) {
    && (match l.status
        case QUEUED => l.run.None? && l.startedAt.None? && l.settledAt.None? && l.failureCode.None?
        case EXECUTING => l.run.Some? && l.startedAt.Some? && l.settledAt.None? && l.failureCode.None?
        case COMPLETED => l.run.Some? && l.startedAt.Some? && l.settledAt.Some? && l.failureCode.None?
        case FAILED => (l.run.Some? ==> l.startedAt.Some?) && l.settledAt.Some? && l.failureCode.Some?)
    && (l.startedAt.Some? ==> l.pins.requestedAt <= l.startedAt.value)
    && (l.settledAt.Some? ==> l.pins.requestedAt <= l.settledAt.value)
    && (l.startedAt.Some? && l.settledAt.Some? ==> l.startedAt.value <= l.settledAt.value)
    && (l.run.Some? ==> l.pins.baseline != l.run)
  }

  lemma LaunchColumnsAreTheChecks(l: Launch)
    ensures LaunchColumns(l) <==> LaunchShape(l)
  {
  }

  // What an evaluation may be of, who buys in it, and on what budget.
  predicate LaunchTerms(p: LaunchPins) {
    && (match p.purpose
        case INITIAL => p.sourceSnapshot.Some? && p.representation.None? && p.compilerRun.None? && p.baseline.None?
        case REEVALUATION => p.sourceSnapshot.None? && p.representation.Some? && p.compilerRun.Some?)
    && (match p.buyer
        case AI_BUYER => p.buyerConfiguration.Some? && p.buyerDigest.Some?
        case REFERENCE_BUYER => p.buyerConfiguration.None? && p.buyerDigest.None?)
    && (match (p.budgetVersion, p.maxRequests, p.maxPerMission)
        case (None, None, None) => true
        case (Some(version), Some(all), Some(each)) => 1 <= each <= all < INTEGER_LIMIT && 1 <= version < INTEGER_LIMIT
        case _ => false)
  }

  lemma LaunchTermsAreTheChecks(p: LaunchPins)
    ensures LaunchTerms(p) <==> LaunchPinsCheck(p)
  {
  }

  predicate LaunchOwns(o: Outside, p: LaunchPins) {
    && p.merchant in o.merchants && p.suite in o.suites
    && p.environment in o.environments && o.environments[p.environment] == p.merchant
    && OwnedOrNone(o.representations, p.representation, p.merchant)
    && OwnedOrNone(o.compilerRuns, p.compilerRun, p.merchant)
    && OwnedOrNone(o.snapshots, p.sourceSnapshot, p.merchant)
  }

  predicate OwnedRun(db: Db, run: Option<Id>, merchant: Id) {
    run == None || (run.value in db.runs && db.runs[run.value].pins.merchant == merchant)
  }

  predicate LaunchFits(db: Db, l: Id, n: Launch) {
    && LaunchOwns(db.outside, n.pins) && OwnedRun(db, n.pins.baseline, n.pins.merchant)
    && forall k :: k in db.launches && db.launches[k].pins.merchant == n.pins.merchant ==>
         db.launches[k].status in {LaunchStatus.COMPLETED, LaunchStatus.FAILED}
         && db.launches[k].pins.requestKey != n.pins.requestKey
  }

  lemma LaunchProbed(db: Db, l: Id, n: Launch)
    requires l !in db.launches && n.status == QUEUED
    ensures OwnProbes(db, OnLaunch(Insert(l, n))) && OutsideProbes(db, OnLaunch(Insert(l, n))) <==>
      LaunchColumns(n) && LaunchTerms(n.pins) && LaunchFits(db, l, n)
  {
    LaunchColumnsAreTheChecks(n);
    LaunchTermsAreTheChecks(n.pins);
    assert LaunchColumns(n) ==> n.run.None?;
    hide LaunchColumns, LaunchShape, LaunchPinsCheck, LaunchTerms;
  }

  // A launch is admitted queued, with a budget exactly when a model buys, while no other of the
  // merchant is pending, and once under a request key.
  lemma LaunchInserts(db: Db, l: Id, n: Launch)
    requires Consistent(db)
    ensures Accepts(db, OnLaunch(Insert(l, n))) <==>
      && l !in db.launches && n.status == QUEUED && LaunchColumns(n) && LaunchTerms(n.pins)
      && (n.pins.buyer == AI_BUYER <==> n.pins.maxRequests.Some?)
      && LaunchFits(db, l, n)
  {
    if l !in db.launches && n.status == QUEUED {
      LaunchProbed(db, l, n);
    }
    hide Consistent, Accepts, OwnProbes, OutsideProbes, LaunchColumns, LaunchTerms, LaunchFits;
    IsJudged(db, OnLaunch(Insert(l, n)));
  }

  // Whether the launch may name the run it names: a run of the merchant that no other launch has.
  predicate RunIsToHand(db: Db, l: Id, n: Launch) {
    && OwnedRun(db, n.run, n.pins.merchant)
    && forall k :: k in db.launches && k != l ==> n.run == None || db.launches[k].run != n.run
  }

  // A launch may start on a run, and settles as the run it names has: COMPLETED only with a
  // completed one, FAILED only with an aborted one or none.
  predicate LaunchMoves(db: Db, o: Launch, n: Launch) {
    && n.pins == o.pins && LaunchColumns(n)
    && (match o.status
        case QUEUED => n.status != LaunchStatus.COMPLETED
        case EXECUTING => n.status != QUEUED && n.run == o.run
        case _ => false)
    && (n.status == LaunchStatus.COMPLETED ==> SettledAs(db, n.run, RunStatus.COMPLETED))
    && (n.status == LaunchStatus.FAILED ==> SettledAs(db, n.run, ABORTED))
  }

  predicate SettledAs(db: Db, run: Option<Id>, status: RunStatus) {
    run == None || (run.value in db.runs && db.runs[run.value].status == status)
  }

  lemma LaunchMovesAsGuarded(db: Db, o: Launch, n: Launch)
    requires LaunchColumns(o)
    ensures LaunchMoves(db, o, n) <==> LaunchGuard(db.runs, o, n) && LaunchColumns(n)
  {
  }

  lemma LaunchUpdateProbed(db: Db, l: Id, n: Launch)
    requires l in db.launches
    ensures OwnProbes(db, OnLaunch(Update(l, n))) && OutsideProbes(db, OnLaunch(Update(l, n))) <==>
      && LaunchColumns(n) && LaunchPinsCheck(n.pins) && LaunchGrounded(db.outside, n.pins) && RunIsToHand(db, l, n)
      && Free(db.launches, LaunchRequest, l, n) && Free(db.launches, PendingMerchant, l, n)
      && Resolves(n, db.runs, LaunchBaseline, LaunchOwnsRun)
  {
    LaunchColumnsAreTheChecks(n);
    hide LaunchColumns, LaunchShape, LaunchPinsCheck, LaunchGrounded;
  }

  // A launch is never deleted.
  lemma LaunchUpdates(db: Db, l: Id, n: Launch)
    requires Consistent(db) && l in db.launches
    ensures Accepts(db, OnLaunch(Update(l, n))) <==> LaunchMoves(db, db.launches[l], n) && RunIsToHand(db, l, n)
    ensures !Accepts(db, OnLaunch(Delete(l)))
  {
    LaunchKeepsItsKeys(db, l, n);
    LaunchUpdateProbed(db, l, n);
    hide Consistent, OwnProbes, OutsideProbes, LaunchMoves, RunIsToHand, LaunchGuard;
    hide LaunchColumns, LaunchPinsCheck, LaunchGrounded;
    IsJudged(db, OnLaunch(Update(l, n)));
  }

  lemma LaunchKeepsItsKeys(db: Db, l: Id, n: Launch)
    requires Consistent(db) && l in db.launches
    ensures var o := db.launches[l];
      && (LaunchMoves(db, o, n) <==> LaunchGuard(db.runs, o, n) && LaunchColumns(n))
      && (LaunchMoves(db, o, n) ==>
            && n.pins == o.pins && LaunchPinsCheck(n.pins) && LaunchGrounded(db.outside, n.pins)
            && Free(db.launches, LaunchRequest, l, n) && Free(db.launches, PendingMerchant, l, n)
            && Resolves(n, db.runs, LaunchBaseline, LaunchOwnsRun))
  {
    var o := db.launches[l];
    assert LaunchCheck(o) && LaunchGrounded(db.outside, o.pins) && Resolves(o, db.runs, LaunchBaseline, LaunchOwnsRun);
    LaunchColumnsAreTheChecks(o);
    LaunchMovesAsGuarded(db, o, n);
    assert LaunchMoves(db, o, n) ==> n.pins == o.pins && (Pending(n.status) ==> Pending(o.status));
    hide LaunchMoves, LaunchGuard, LaunchShape, LaunchColumns, LaunchPinsCheck;
    forall k | k in db.launches && k != l
      ensures LaunchRequest(db.launches[k]) != LaunchRequest(o)
      ensures PendingMerchant(o).Some? ==> PendingMerchant(db.launches[k]) != PendingMerchant(o)
    {
    }
  }

  /* ---- permits ---- */

  predicate PermitColumns(p: Permit) {
    && 1 <= p.pins.granted < INTEGER_LIMIT && 1 <= p.pins.attempt && 1 <= p.pins.policyVersion
    && match p.state
       case RESERVED => p.consumed.None? && p.closedAt.None?
       case RECONCILED =>
         && p.consumed.Some? && 0 <= p.consumed.value <= p.pins.granted
         && p.closedAt.Some? && p.pins.openedAt <= p.closedAt.value
       case _ => p.consumed.None? && p.closedAt.Some? && p.pins.openedAt <= p.closedAt.value
  }

  predicate PermitFits(db: Db, p: Id, n: Permit) {
    && n.pins.merchant in db.outside.merchants && OwnedRun(db, Some(n.pins.run), n.pins.merchant)
    && (n.pins.launch.Some? ==>
          n.pins.launch.value in db.launches && db.launches[n.pins.launch.value].pins.merchant == n.pins.merchant)
    && forall k :: k in db.permits && k != p && db.permits[k].pins.run == n.pins.run ==>
         db.permits[k].pins.attemptKey != n.pins.attemptKey
  }

  lemma PermitColumnsAreTheChecks(p: Permit)
    ensures PermitColumns(p) <==> PermitCheck(p)
  {
  }

  lemma PermitProbed(db: Db, p: Id, n: Permit)
    ensures OwnProbes(db, OnPermit(Insert(p, n))) && OutsideProbes(db, OnPermit(Insert(p, n))) <==>
      PermitColumns(n) && PermitFits(db, p, n)
    ensures OwnProbes(db, OnPermit(Update(p, n))) && OutsideProbes(db, OnPermit(Update(p, n))) <==>
      PermitColumns(n) && PermitFits(db, p, n)
  {
    PermitColumnsAreTheChecks(n);
    hide PermitColumns, PermitCheck;
  }

  // A permit is written reserved, once for an attempt of a run, on the run's merchant.
  lemma PermitInserts(db: Db, p: Id, n: Permit)
    requires Consistent(db)
    ensures Accepts(db, OnPermit(Insert(p, n))) <==>
      p !in db.permits && n.state == RESERVED && PermitColumns(n) && PermitFits(db, p, n)
  {
    PermitProbed(db, p, n);
    hide Consistent, Accepts, OwnProbes, OutsideProbes, PermitColumns, PermitFits;
    IsJudged(db, OnPermit(Insert(p, n)));
  }

  // A reserved permit is settled once: against what was consumed, as all spent, or as released.
  // It is never deleted.
  lemma PermitUpdates(db: Db, p: Id, n: Permit)
    requires Consistent(db) && p in db.permits
    ensures Accepts(db, OnPermit(Update(p, n))) <==>
      db.permits[p].state == RESERVED && n.pins == db.permits[p].pins && PermitColumns(n)
    ensures !Accepts(db, OnPermit(Delete(p)))
  {
    PermitKeepsItsKeys(db, p, n);
    PermitProbed(db, p, n);
    hide Consistent, Accepts, OwnProbes, OutsideProbes, PermitColumns, PermitFits;
    IsJudged(db, OnPermit(Update(p, n)));
    IsJudged(db, OnPermit(Delete(p)));
  }

  lemma PermitKeepsItsKeys(db: Db, p: Id, n: Permit)
    requires Consistent(db) && p in db.permits
    ensures n.pins == db.permits[p].pins ==> PermitFits(db, p, n)
  {
    var o := db.permits[p];
    assert PermitGrounded(db.outside, o) && Resolves(o, db.runs, PermitRun, PermitOwnsRun);
    assert Resolves(o, db.launches, PermitLaunch, PermitOwnsLaunch);
    forall k | k in db.permits && PermitAttempt(db.permits[k]) == PermitAttempt(o) ensures k == p {
    }
  }
}
