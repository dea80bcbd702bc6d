/** Benchmark rows settle: however statements are interleaved, a run, a mission run, a launch
    and a permit each change state a bounded number of times. */
module BenchmarkLifecycles {
  import opened Relational
  import opened BenchmarkSchema
  import opened Lifecycles

  function RunStatusAt(r: Id): Db -> Option<RunStatus> {
    (db: Db) => if r in db.runs then Some(db.runs[r].status) else None
  }
  function MissionStatusAt(m: Id): Db -> Option<MissionStatus> {
    (db: Db) => if m in db.missions then Some(db.missions[m].status) else None
  }
  function LaunchStatusAt(l: Id): Db -> Option<LaunchStatus> {
    (db: Db) => if l in db.launches then Some(db.launches[l].status) else None
  }
  function PermitStateAt(p: Id): Db -> Option<PermitState> {
    (db: Db) => if p in db.permits then Some(db.permits[p].state) else None
  }

  // 0 before the row exists, then how far along its lifecycle it is.
  function RunStage(s: Option<RunStatus>): (n: int)
    ensures 0 <= n <= 3
  {
    match s case None => 0 case Some(PENDING) => 1 case Some(RUNNING) => 2 case Some(_) => 3
  }
  function MissionStage(s: Option<MissionStatus>): (n: int)
    ensures 0 <= n <= 3
  {
    match s case None => 0 case Some(PENDING) => 1 case Some(RUNNING) => 2 case Some(_) => 3
  }
  function LaunchStage(s: Option<LaunchStatus>): (n: int)
    ensures 0 <= n <= 3
  {
    match s case None => 0 case Some(QUEUED) => 1 case Some(EXECUTING) => 2 case Some(_) => 3
  }
  function PermitStage(s: Option<PermitState>): (n: int)
    ensures 0 <= n <= 2
  {
    match s case None => 0 case Some(RESERVED) => 1 case Some(_) => 2
  }

  function RunRank(r: Id): Db -> int { (db: Db) => RunStage(RunStatusAt(r)(db)) }
  function MissionRank(m: Id): Db -> int { (db: Db) => MissionStage(MissionStatusAt(m)(db)) }
  function LaunchRank(l: Id): Db -> int { (db: Db) => LaunchStage(LaunchStatusAt(l)(db)) }
  function PermitRank(p: Id): Db -> int { (db: Db) => PermitStage(PermitStateAt(p)(db)) }

  lemma BenchmarkRunClimbs(db: Db, s: Statement, r: Id)
    requires Triggers(db, s) && s != OnRun(Delete(r))
    ensures Climbs(db, Post(db, s), RunStatusAt(r), RunRank(r))
  {
    var o, n := RunStatusAt(r)(db), RunStatusAt(r)(Post(db, s));
    assert o == n || RunStage(o) < RunStage(n);
  }

  // A benchmark run changes status at most twice while nobody deletes it, which can only be
  // before it starts.
  lemma BenchmarkRunSettles(db: Db, ss: seq<Statement>, r: Id)
    requires OnRun(Delete(r)) !in ss
    ensures Moves(Trace(Step, db, ss), RunStatusAt(r)) <= 3 - RunRank(r)(db)
  {
    hide Consistent, Triggers, Post;
    forall a, s | s in ss ensures Climbs(a, Step(a, s), RunStatusAt(r), RunRank(r)) {
      if Accepts(a, s) {
        BenchmarkRunClimbs(a, s, r);
      }
    }
    var any := (a: Db) => true;
    RunClimbs(Step, db, ss, any, RunStatusAt(r), RunRank(r));
  }

  // The runs in rs are all that mission run m is, or is ever written, under, and stay.
  ghost predicate HangsOn(db: Db, ss: seq<Statement>, m: Id, rs: set<Id>) {
    && UnderOneOf(db, m, rs)
    && (forall row :: OnMission(Insert(m, row)) in ss ==> row.pins.run in rs)
    && (forall r :: r in rs ==> OnRun(Delete(r)) !in ss)
  }

  predicate UnderOneOf(db: Db, m: Id, rs: set<Id>) { m in db.missions ==> db.missions[m].pins.run in rs }

  // A mission run cannot be deleted while its run stands.
  lemma MissionStays(db: Db, s: Statement, m: Id)
    requires MissionsOk(db) && m in db.missions && Triggers(db, s) && s != OnRun(Delete(db.missions[m].pins.run))
    ensures m in Post(db, s).missions
    ensures var o, n := db.missions[m], Post(db, s).missions[m]; n == o || MissionGuard(db.runs, o, n)
  {
    assert Resolves(db.missions[m], db.runs, MissionsRun, BoundToRun);
  }

  lemma MissionArrives(db: Db, s: Statement, m: Id)
    requires m !in db.missions && Triggers(db, s) && m in Post(db, s).missions
    ensures s == OnMission(Insert(m, Post(db, s).missions[m]))
  {
  }

  lemma MissionStaysUnder(db: Db, s: Statement, m: Id, rs: set<Id>)
    requires MissionsOk(db) && Triggers(db, s) && UnderOneOf(db, m, rs)
    requires forall row :: s == OnMission(Insert(m, row)) ==> row.pins.run in rs
    requires forall r :: r in rs ==> s != OnRun(Delete(r))
    ensures UnderOneOf(Post(db, s), m, rs)
    ensures m in db.missions ==> m in Post(db, s).missions
    ensures m in db.missions ==>
      var o, n := db.missions[m], Post(db, s).missions[m]; n == o || MissionGuard(db.runs, o, n)
  {
    hide MissionsOk, Triggers, Post;
    if m in db.missions {
      MissionStays(db, s, m);
    } else if m in Post(db, s).missions {
      MissionArrives(db, s, m);
    }
  }

  lemma MissionGuardClimbs(runs: map<Id, BenchmarkRun>, o: MissionRun, n: MissionRun)
    requires n == o || MissionGuard(runs, o, n)
    ensures o.status == n.status || MissionStage(Some(o.status)) < MissionStage(Some(n.status))
  {
  }

  lemma MissionClimbs(db: Db, s: Statement, m: Id, rs: set<Id>)
    requires Consistent(db) && Triggers(db, s) && UnderOneOf(db, m, rs)
    requires forall row :: s == OnMission(Insert(m, row)) ==> row.pins.run in rs
    requires forall r :: r in rs ==> s != OnRun(Delete(r))
    ensures Climbs(db, Post(db, s), MissionStatusAt(m), MissionRank(m)) && UnderOneOf(Post(db, s), m, rs)
  {
    assert MissionsOk(db);
    MissionStaysUnder(db, s, m, rs);
    if m in db.missions {
      MissionGuardClimbs(db.runs, db.missions[m], Post(db, s).missions[m]);
    }
    hide Consistent, MissionsOk, MissionGuard, Triggers, Post, UnderOneOf;
    var o, n := MissionStatusAt(m)(db), MissionStatusAt(m)(Post(db, s));
    assert o == n || MissionStage(o) < MissionStage(n);
  }

  // A mission run changes status at most twice, as long as the run it hangs on is not deleted.
  lemma MissionSettles(db: Db, ss: seq<Statement>, m: Id, rs: set<Id>)
    requires Consistent(db) && HangsOn(db, ss, m, rs)
    ensures Moves(Trace(Step, db, ss), MissionStatusAt(m)) <= 3 - MissionRank(m)(db)
  {
    hide Consistent, Triggers, Post, UnderOneOf;
    var inv := (a: Db) => Consistent(a) && UnderOneOf(a, m, rs);
    forall a, s | inv(a) && s in ss
      ensures inv(Step(a, s)) && Climbs(a, Step(a, s), MissionStatusAt(m), MissionRank(m))
    {
      StepStaysConsistent(a, s);
      if Accepts(a, s) {
        MissionClimbs(a, s, m, rs);
      }
    }
    RunClimbs(Step, db, ss, inv, MissionStatusAt(m), MissionRank(m));
  }

  lemma LaunchClimbs(db: Db, s: Statement, l: Id)
    requires Triggers(db, s)
    ensures Climbs(db, Post(db, s), LaunchStatusAt(l), LaunchRank(l))
  {
    var o, n := LaunchStatusAt(l)(db), LaunchStatusAt(l)(Post(db, s));
    assert o == n || LaunchStage(o) < LaunchStage(n);
  }

  lemma PermitClimbs(db: Db, s: Statement, p: Id)
    requires Triggers(db, s)
    ensures Climbs(db, Post(db, s), PermitStateAt(p), PermitRank(p))
  {
    var o, n := PermitStateAt(p)(db), PermitStateAt(p)(Post(db, s));
    assert o == n || PermitStage(o) < PermitStage(n);
  }

  // Launches and permits are never deleted, so for them any statements at all may follow: at
  // most two changes for a launch, and one for a permit.
  lemma LaunchAndPermitSettle(db: Db, ss: seq<Statement>, l: Id, p: Id)
    ensures Moves(Trace(Step, db, ss), LaunchStatusAt(l)) <= 3 - LaunchRank(l)(db)
    ensures Moves(Trace(Step, db, ss), PermitStateAt(p)) <= 2 - PermitRank(p)(db)
  {
    hide Consistent, Triggers, Post;
    forall a, s
      ensures Climbs(a, Step(a, s), LaunchStatusAt(l), LaunchRank(l))
      ensures Climbs(a, Step(a, s), PermitStateAt(p), PermitRank(p))
    {
      if Accepts(a, s) {
        LaunchClimbs(a, s, l);
        PermitClimbs(a, s, p);
      }
    }
    var any := (a: Db) => true;
    RunClimbs(Step, db, ss, any, LaunchStatusAt(l), LaunchRank(l));
    RunClimbs(Step, db, ss, any, PermitStateAt(p), PermitRank(p));
  }
}
