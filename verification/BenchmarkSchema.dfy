/** The benchmark tables at the newest revision: runs, mission runs, evaluation launches and
    provider permits, whose triggers read one another's state. */
module BenchmarkSchema {
  import opened Relational

  /* ---- benchmark_run ---- */

  datatype RunStatus = PENDING | RUNNING | COMPLETED | ABORTED

  // The columns frozen at insert: ownership, the suite and world measured, and the pins
  // saying what code and configuration did the measuring.
  datatype RunPins = RunPins(
    merchant: Id, suite: Id, environment: Option<Id>, representationLabel: Option<string>,
    catalogHash: Option<string>, evaluatorVersion: Option<string>,
    executorKind: Option<string>, executorVersion: Option<int>, executorRevision: Option<string>,
    agentConfiguration: Option<string>, createdAt: Time)

  datatype BenchmarkRun = BenchmarkRun(
    pins: RunPins, representation: Option<Id>,
    status: RunStatus, startedAt: Option<Time>, completedAt: Option<Time>)

  predicate Finished(s: RunStatus) { s == RunStatus.COMPLETED || s == ABORTED }

  predicate RunCheck(r: BenchmarkRun) {
    && (r.status == RunStatus.PENDING) == r.startedAt.None?
    && Finished(r.status) == r.completedAt.Some?
    && (r.completedAt.Some? && r.startedAt.Some? ==> r.completedAt.value >= r.startedAt.value)
    && r.pins.executorKind.None? == r.pins.executorVersion.None?
    && (r.pins.executorVersion.Some? ==> Integer(r.pins.executorVersion.value) && r.pins.executorVersion.value > 0)
    && (r.pins.executorRevision.Some? ==> r.pins.executorKind.Some?)
  }

  // Both BEFORE UPDATE triggers. Neither mentions representation.
  predicate RunGuard(o: BenchmarkRun, n: BenchmarkRun) {
    && n.pins == o.pins
    && (o.startedAt.Some? ==> n.startedAt == o.startedAt)
    && !Finished(o.status)
    && (o.status, n.status) in {
         (RunStatus.PENDING, RunStatus.PENDING),
         (RunStatus.PENDING, RunStatus.RUNNING),
         (RunStatus.RUNNING, RunStatus.RUNNING),
         (RunStatus.RUNNING, RunStatus.COMPLETED),
         (RunStatus.RUNNING, ABORTED)}
  }

  predicate RunDeleteGuard(o: BenchmarkRun) { o.status == RunStatus.PENDING }

  /* ---- benchmark_mission_run ---- */

  datatype MissionStatus = PENDING | RUNNING | SUCCEEDED | FAILED | ABSTAINED | ERRORED

  datatype MissionPins = MissionPins(run: Id, merchant: Id, suite: Id, mission: Id, createdAt: Time)

  datatype MissionRun = MissionRun(
    pins: MissionPins, status: MissionStatus, failureReason: Option<string>, additionalReasons: seq<string>,
    unsafeAttempt: bool, unverifiedAttempt: bool, unsafeCompletion: bool, oracleConfirmed: Option<bool>,
    selectedVariant: Option<Id>, selectedQuantity: Option<int>,
    checkout: Option<Id>, payment: Option<Id>,
    startedAt: Option<Time>, completedAt: Option<Time>)

  predicate Recorded(s: MissionStatus) { s != MissionStatus.PENDING && s != MissionStatus.RUNNING }

  predicate MissionCheck(m: MissionRun) {
    && (m.status == MissionStatus.PENDING) == m.startedAt.None?
    && Recorded(m.status) == m.completedAt.Some?
    && (m.completedAt.Some? && m.startedAt.Some? ==> m.completedAt.value >= m.startedAt.value)
    && (m.status == MissionStatus.FAILED ==> m.failureReason.Some?)
    && (m.status != MissionStatus.FAILED && m.status != ABSTAINED ==> m.failureReason.None?)
    && (m.failureReason.None? ==> m.additionalReasons == [])
    && (m.failureReason.Some? ==> m.failureReason.value !in m.additionalReasons)
    && (m.unsafeAttempt || m.unverifiedAttempt ==> m.status != SUCCEEDED)
    && (m.unsafeCompletion ==> m.status == MissionStatus.FAILED && (m.unsafeAttempt || m.unverifiedAttempt))
    && m.selectedVariant.None? == m.selectedQuantity.None?
    && (m.selectedQuantity.Some? ==> Integer(m.selectedQuantity.value) && m.selectedQuantity.value > 0)
  }

  // The status a subquery on benchmark_run reads: NULL when there is no such run.
  function StatusOf(runs: map<Id, BenchmarkRun>, id: Id): Option<RunStatus> {
    if id in runs then Some(runs[id].status) else None
  }

  predicate MissionInsertGuard(runs: map<Id, BenchmarkRun>, n: MissionRun) {
    && n.status == MissionStatus.PENDING
    && (StatusOf(runs, n.pins.run) == None || StatusOf(runs, n.pins.run) == Some(RunStatus.PENDING))
  }

  predicate MissionGuard(runs: map<Id, BenchmarkRun>, o: MissionRun, n: MissionRun) {
    && n.pins == o.pins
    && (o.startedAt.Some? ==> n.startedAt == o.startedAt)
    && !(StatusOf(runs, n.pins.run).Some? && Finished(StatusOf(runs, n.pins.run).value))
    && !Recorded(o.status)
    && (o.status, n.status) in {
         (MissionStatus.PENDING, MissionStatus.PENDING),
         (MissionStatus.PENDING, MissionStatus.RUNNING),
         (MissionStatus.RUNNING, MissionStatus.RUNNING),
         (MissionStatus.RUNNING, SUCCEEDED),
         (MissionStatus.RUNNING, MissionStatus.FAILED),
         (MissionStatus.RUNNING, ABSTAINED),
         (MissionStatus.RUNNING, ERRORED)}
  }

  // Passes only once the parent is gone, which is how a cascade looks from here.
  predicate MissionDeleteGuard(runs: map<Id, BenchmarkRun>, o: MissionRun) { o.pins.run !in runs }

  /* ---- benchmark_evaluation_launch ---- */

  datatype LaunchStatus = QUEUED | EXECUTING | COMPLETED | FAILED
  datatype Purpose = INITIAL | REEVALUATION
  datatype BuyerProfile = AI_BUYER | REFERENCE_BUYER

  datatype LaunchPins = LaunchPins(
    merchant: Id, requestKey: string, purpose: Purpose,
    representation: Option<Id>, compilerRun: Option<Id>, sourceSnapshot: Option<Id>,
    suite: Id, environment: Id,
    buyer: BuyerProfile, buyerConfiguration: Option<string>, buyerDigest: Option<string>, executorKind: string,
    budgetVersion: Option<int>, maxRequests: Option<int>, maxPerMission: Option<int>,
    baseline: Option<Id>, requestedAt: Time)

  datatype Launch = Launch(
    pins: LaunchPins, status: LaunchStatus, failureCode: Option<string>,
    run: Option<Id>, startedAt: Option<Time>, settledAt: Option<Time>)

  predicate Pending(s: LaunchStatus) { s == QUEUED || s == EXECUTING }

  predicate LaunchShape(l: Launch) {
    && (l.status == QUEUED ==> l.run.None? && l.startedAt.None? && l.settledAt.None? && l.failureCode.None?)
    && (l.status == EXECUTING || l.status == LaunchStatus.COMPLETED ==>
          l.run.Some? && l.startedAt.Some? && l.failureCode.None?)
    && (l.status == EXECUTING ==> l.settledAt.None?)
    && (!Pending(l.status)) == l.settledAt.Some?
    && (l.status == LaunchStatus.FAILED) == l.failureCode.Some?
    && (l.run.Some? ==> l.startedAt.Some?)
    && (l.startedAt.Some? ==> l.startedAt.value >= l.pins.requestedAt)
    && (l.settledAt.Some? ==> l.settledAt.value >= l.pins.requestedAt)
    && (l.settledAt.Some? && l.startedAt.Some? ==> l.settledAt.value >= l.startedAt.value)
    && (l.pins.baseline.Some? && l.run.Some? ==> l.pins.baseline != l.run)
  }

  predicate LaunchPinsCheck(p: LaunchPins) {
    && (match p.purpose
        case INITIAL => p.representation.None? && p.compilerRun.None? && p.sourceSnapshot.Some? && p.baseline.None?
        case REEVALUATION => p.representation.Some? && p.compilerRun.Some? && p.sourceSnapshot.None?)
    && (p.buyer == AI_BUYER) == p.buyerConfiguration.Some?
    && p.buyerConfiguration.None? == p.buyerDigest.None?
    && p.maxRequests.None? == p.maxPerMission.None? == p.budgetVersion.None?
    && (p.maxRequests.Some? ==>
          && 1 <= p.maxPerMission.value <= p.maxRequests.value && Integer(p.maxRequests.value)
          && 1 <= p.budgetVersion.value && Integer(p.budgetVersion.value))
  }

  predicate LaunchCheck(l: Launch) { LaunchShape(l) && LaunchPinsCheck(l.pins) }

  // The part of the guard that runs on insert and on update alike.
  predicate LaunchAgrees(runs: map<Id, BenchmarkRun>, n: Launch) {
    && (n.status == LaunchStatus.COMPLETED ==>
          n.run.Some? && StatusOf(runs, n.run.value) == Some(RunStatus.COMPLETED))
    && (n.status == LaunchStatus.FAILED && n.run.Some? ==> StatusOf(runs, n.run.value) == Some(ABORTED))
  }

  predicate LaunchInsertGuard(runs: map<Id, BenchmarkRun>, n: Launch) {
    && n.status == QUEUED
    && (n.pins.buyer == AI_BUYER) == n.pins.maxRequests.Some?
    && LaunchAgrees(runs, n)
  }

  predicate LaunchGuard(runs: map<Id, BenchmarkRun>, o: Launch, n: Launch) {
    && n.pins == o.pins
    && (o.run.Some? ==> n.run == o.run)
    && (o.status, n.status) in {
         (QUEUED, QUEUED),
         (QUEUED, EXECUTING),
         (QUEUED, LaunchStatus.FAILED),
         (EXECUTING, EXECUTING),
         (EXECUTING, LaunchStatus.COMPLETED),
         (EXECUTING, LaunchStatus.FAILED)}
    && LaunchAgrees(runs, n)
  }

  /* ---- provider_execution_permit ---- */

  datatype PermitState = RESERVED | RECONCILED | ASSUMED_SPENT | RELEASED

  datatype PermitPins = PermitPins(
    merchant: Id, launch: Option<Id>, run: Id, missionKey: string, attempt: int, attemptKey: string,
    provider: string, requestedModel: string, policyVersion: int, granted: int, openedAt: Time)

  datatype Permit = Permit(pins: PermitPins, state: PermitState, consumed: Option<int>, closedAt: Option<Time>)

  predicate PermitCheck(p: Permit) {
    && 1 <= p.pins.granted && Integer(p.pins.granted) && 1 <= p.pins.attempt && 1 <= p.pins.policyVersion
    && (p.state == RECONCILED) == p.consumed.Some?
    && (p.consumed.Some? ==> 0 <= p.consumed.value <= p.pins.granted)
    && (p.state != RESERVED) == p.closedAt.Some?
    && (p.closedAt.Some? ==> p.closedAt.value >= p.pins.openedAt)
  }

  // The generated column charged_requests.
  function Charge(p: Permit): int {
    match p.state
    case RECONCILED => if p.consumed.Some? then p.consumed.value else 0
    case RELEASED => 0
    case RESERVED => p.pins.granted
    case ASSUMED_SPENT => p.pins.granted
  }

  predicate PermitGuard(o: Permit, n: Permit) { n.pins == o.pins && o.state == RESERVED }

  /* ---- the database ---- */

  // What the tables beside these contribute: the rows that keys here point at, with the merchant
  // a composite key compares (for a mission definition, its suite); and the rows here that keys
  // there point at, all RESTRICT: credentials and experiment samples name runs, trace events
  // name mission runs.
  datatype Outside = Outside(
    merchants: set<Id>, suites: set<Id>, definitions: map<Id, Id>,
    environments: map<Id, Id>, representations: map<Id, Id>, snapshots: map<Id, Id>, compilerRuns: map<Id, Id>,
    variants: map<Id, Id>, checkouts: map<Id, Id>, payments: map<Id, Id>,
    namedRuns: set<Id>, namedMissions: set<Id>)

  datatype Db = Db(
    runs: map<Id, BenchmarkRun>, missions: map<Id, MissionRun>,
    launches: map<Id, Launch>, permits: map<Id, Permit>, outside: Outside)

  function MissionsRun(m: MissionRun): Option<Id> { Some(m.pins.run) }
  predicate BoundToRun(m: MissionRun, r: BenchmarkRun) {
    m.pins.merchant == r.pins.merchant && m.pins.suite == r.pins.suite
  }

  function LaunchRun(l: Launch): Option<Id> { l.run }
  function LaunchBaseline(l: Launch): Option<Id> { l.pins.baseline }
  predicate LaunchOwnsRun(l: Launch, r: BenchmarkRun) { l.pins.merchant == r.pins.merchant }

  function PermitRun(p: Permit): Option<Id> { Some(p.pins.run) }
  predicate PermitOwnsRun(p: Permit, r: BenchmarkRun) { p.pins.merchant == r.pins.merchant }
  function PermitLaunch(p: Permit): Option<Id> { p.pins.launch }
  predicate PermitOwnsLaunch(p: Permit, l: Launch) { p.pins.merchant == l.pins.merchant }

  function RunningMerchant(r: BenchmarkRun): Option<Id> {
    if r.status == RunStatus.RUNNING then Some(r.pins.merchant) else None
  }
  function RunMission(m: MissionRun): Option<(Id, Id)> { Some((m.pins.run, m.pins.mission)) }
  function LaunchRequest(l: Launch): Option<(Id, string)> { Some((l.pins.merchant, l.pins.requestKey)) }
  function PendingMerchant(l: Launch): Option<Id> { if Pending(l.status) then Some(l.pins.merchant) else None }
  function PermitAttempt(p: Permit): Option<(Id, string)> { Some((p.pins.run, p.pins.attemptKey)) }

  ghost predicate RunsOk(db: Db) {
    && (forall i :: i in db.runs ==> RunCheck(db.runs[i]))
    && Unique(db.runs, RunningMerchant)
  }

  ghost predicate MissionsOk(db: Db) {
    && (forall i :: i in db.missions ==> MissionCheck(db.missions[i]))
    && Unique(db.missions, RunMission)
    && References(db.missions, db.runs, MissionsRun, BoundToRun)
  }

  ghost predicate LaunchesOk(db: Db) {
    && (forall i :: i in db.launches ==> LaunchCheck(db.launches[i]))
    && Unique(db.launches, LaunchRequest)
    && Unique(db.launches, LaunchRun)
    && Unique(db.launches, PendingMerchant)
    && References(db.launches, db.runs, LaunchRun, LaunchOwnsRun)
    && References(db.launches, db.runs, LaunchBaseline, LaunchOwnsRun)
  }

  ghost predicate PermitsOk(db: Db) {
    && (forall i :: i in db.permits ==> PermitCheck(db.permits[i]))
    && Unique(db.permits, PermitAttempt)
    && References(db.permits, db.runs, PermitRun, PermitOwnsRun)
    && References(db.permits, db.launches, PermitLaunch, PermitOwnsLaunch)
  }

  // A key into another table: nothing to check when NULL.
  predicate Names(targets: map<Id, Id>, link: Option<Id>, owner: Id) {
    link.Some? ==> link.value in targets && targets[link.value] == owner
  }

  predicate RunGrounded(o: Outside, r: BenchmarkRun) {
    && r.pins.merchant in o.merchants && r.pins.suite in o.suites
    && Names(o.environments, r.pins.environment, r.pins.merchant)
    && Names(o.representations, r.representation, r.pins.merchant)
  }

  predicate MissionGrounded(o: Outside, m: MissionRun) {
    && Names(o.definitions, Some(m.pins.mission), m.pins.suite)
    && Names(o.variants, m.selectedVariant, m.pins.merchant)
    && Names(o.checkouts, m.checkout, m.pins.merchant)
    && Names(o.payments, m.payment, m.pins.merchant)
  }

  predicate LaunchGrounded(o: Outside, p: LaunchPins) {
    && p.merchant in o.merchants && p.suite in o.suites
    && Names(o.environments, Some(p.environment), p.merchant)
    && Names(o.representations, p.representation, p.merchant)
    && Names(o.compilerRuns, p.compilerRun, p.merchant)
    && Names(o.snapshots, p.sourceSnapshot, p.merchant)
  }

  predicate PermitGrounded(o: Outside, p: Permit) { p.pins.merchant in o.merchants }

  // The keys to and from other tables.
  predicate Grounded(db: Db) {
    && (forall i :: i in db.runs ==> RunGrounded(db.outside, db.runs[i]))
    && (forall i :: i in db.missions ==> MissionGrounded(db.outside, db.missions[i]))
    && (forall i :: i in db.launches ==> LaunchGrounded(db.outside, db.launches[i].pins))
    && (forall i :: i in db.permits ==> PermitGrounded(db.outside, db.permits[i]))
    && db.outside.namedRuns <= db.runs.Keys
    && db.outside.namedMissions <= db.missions.Keys
  }

  ghost predicate Consistent(db: Db) {
    RunsOk(db) && MissionsOk(db) && LaunchesOk(db) && PermitsOk(db) && Grounded(db)
  }

  /* ---- statements ---- */

  datatype Statement =
    | OnRun(run: Change<BenchmarkRun>)
    | OnMission(mission: Change<MissionRun>)
    | OnLaunch(launch: Change<Launch>)
    | OnPermit(permit: Change<Permit>)
    | Elsewhere(outside: Outside)  // any change to the tables beside these

  predicate Triggers(db: Db, s: Statement) {
    match s
    case OnRun(c) => Addressed(db.runs, c) && RunTriggers(db, c)
    case OnMission(c) => Addressed(db.missions, c) && MissionTriggers(db, c)
    case OnLaunch(c) => Addressed(db.launches, c) && LaunchTriggers(db, c)
    case OnPermit(c) => Addressed(db.permits, c) && PermitTriggers(db, c)
    case Elsewhere(_) => true
  }

  predicate MissionTriggers(db: Db, c: Change<MissionRun>)
    requires Addressed(db.missions, c)
  {
    match c
    case Insert(_, n) => MissionInsertGuard(db.runs, n)
    case Update(id, n) => MissionGuard(db.runs, db.missions[id], n)
    case Delete(id) => MissionDeleteGuard(db.runs, db.missions[id])
  }

  // A launch is evidence and is never deleted; nor is a permit.
  predicate LaunchTriggers(db: Db, c: Change<Launch>)
    requires Addressed(db.launches, c)
  {
    match c
    case Insert(_, n) => LaunchInsertGuard(db.runs, n)
    case Update(id, n) => LaunchGuard(db.runs, db.launches[id], n)
    case Delete(_) => false
  }

  predicate PermitTriggers(db: Db, c: Change<Permit>)
    requires Addressed(db.permits, c)
  {
    match c
    case Insert(_, n) => n.state == RESERVED
    case Update(id, n) => PermitGuard(db.permits[id], n)
    case Delete(_) => false
  }

  // A run has no INSERT trigger. Deleting one cascades, and every mission run's own delete
  // guard must then pass, read after the run has gone.
  predicate RunTriggers(db: Db, c: Change<BenchmarkRun>)
    requires Addressed(db.runs, c)
  {
    match c
    case Insert(_, _) => true
    case Update(id, n) => RunGuard(db.runs[id], n)
    case Delete(id) =>
      && RunDeleteGuard(db.runs[id])
      && forall m :: m in MissionsOf(db, id) ==> MissionDeleteGuard(db.runs - {id}, db.missions[m])
  }

  function MissionsOf(db: Db, run: Id): (ms: set<Id>)
    ensures forall m :: m in ms <==> m in db.missions && db.missions[m].pins.run == run
  {
    set m | m in db.missions && db.missions[m].pins.run == run
  }

  function Post(db: Db, s: Statement): Db {
    match s
    case OnRun(c) =>
      db.(runs := Written(db.runs, c),
          missions := if c.Delete? then db.missions - MissionsOf(db, c.id) else db.missions)
    case OnMission(c) => db.(missions := Written(db.missions, c))
    case OnLaunch(c) => db.(launches := Written(db.launches, c))
    case OnPermit(c) => db.(permits := Written(db.permits, c))
    case Elsewhere(o) => db.(outside := o)
  }

  ghost predicate Accepts(db: Db, s: Statement) {
    Triggers(db, s) && Consistent(Post(db, s))
  }

  ghost function Step(db: Db, s: Statement): Db {
    if Accepts(db, s) then Post(db, s) else db
  }

  ghost function Run(db: Db, statements: seq<Statement>): Db
    decreases |statements|
  {
    if statements == [] then db else Run(Step(db, statements[0]), statements[1..])
  }

  const EMPTY :=
    Db(map[], map[], map[], map[],
       Outside({}, {}, map[], map[], map[], map[], map[], map[], map[], map[], {}, {}))

  lemma StepStaysConsistent(db: Db, s: Statement)
    requires Consistent(db)
    ensures Consistent(Step(db, s))
  {
  }

  lemma {:induction false} RunStaysConsistent(db: Db, statements: seq<Statement>)
    requires Consistent(db)
    ensures Consistent(Run(db, statements))
    decreases |statements|
  {
    if statements != [] {
      RunStaysConsistent(Step(db, statements[0]), statements[1..]);
    }
  }
}
