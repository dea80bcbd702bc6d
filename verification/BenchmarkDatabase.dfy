/** The benchmark tables as they are enforced: triggers, then probes for the one row written. */
module BenchmarkDatabase {
  import opened Relational
  import opened BenchmarkSchema

  // The probes for a row about to be written, or for a key about to go.
  predicate Probes(db: Db, s: Statement) { OwnProbes(db, s) && OutsideProbes(db, s) }

  // Within these tables.
  predicate OwnProbes(db: Db, s: Statement) {
    match s
    case OnRun(Delete(id)) =>
      && Unreferenced(db.launches, LaunchRun, id)
      && Unreferenced(db.launches, LaunchBaseline, id)
      && Unreferenced(db.permits, PermitRun, id)
    case OnRun(c) => RunCheck(c.row) && Free(db.runs, RunningMerchant, c.id, c.row)
    case OnMission(Delete(id)) => true
    case OnMission(c) =>
      && MissionCheck(c.row)
      && Free(db.missions, RunMission, c.id, c.row)
      && Resolves(c.row, db.runs, MissionsRun, BoundToRun)
    case OnLaunch(Delete(id)) => Unreferenced(db.permits, PermitLaunch, id)
    case OnLaunch(c) =>
      && LaunchCheck(c.row)
      && Free(db.launches, LaunchRequest, c.id, c.row)
      && Free(db.launches, LaunchRun, c.id, c.row)
      && Free(db.launches, PendingMerchant, c.id, c.row)
      && Resolves(c.row, db.runs, LaunchRun, LaunchOwnsRun)
      && Resolves(c.row, db.runs, LaunchBaseline, LaunchOwnsRun)
    case OnPermit(Delete(id)) => true
    case OnPermit(c) =>
      && PermitCheck(c.row)
      && Free(db.permits, PermitAttempt, c.id, c.row)
      && Resolves(c.row, db.runs, PermitRun, PermitOwnsRun)
      && Resolves(c.row, db.launches, PermitLaunch, PermitOwnsLaunch)
    case Elsewhere(_) => true
  }

  // To and from the tables beside these. Deleting a run takes its mission runs with it.
  predicate OutsideProbes(db: Db, s: Statement) {
    match s
    case OnRun(Delete(id)) => id !in db.outside.namedRuns && MissionsOf(db, id) !! db.outside.namedMissions
    case OnRun(c) => RunGrounded(db.outside, c.row)
    case OnMission(Delete(id)) => id !in db.outside.namedMissions
    case OnMission(c) => MissionGrounded(db.outside, c.row)
    case OnLaunch(c) => c.Delete? || LaunchGrounded(db.outside, c.row.pins)
    case OnPermit(c) => c.Delete? || PermitGrounded(db.outside, c.row)
    case Elsewhere(o) => Grounded(db.(outside := o))
  }

  lemma GroundProbes(db: Db, s: Statement)
    requires Grounded(db) && Triggers(db, s)
    ensures OutsideProbes(db, s) <==> Grounded(Post(db, s))
  {
    var post := Post(db, s);
    match s
    case OnRun(c) =>
      if c.Delete? {
        RunDeleteGround(db, c.id);
      } else {
        assert post.runs[c.id] == c.row;
      }
    case OnMission(c) => assert c.Delete? || post.missions[c.id] == c.row;
    case OnLaunch(c) => assert c.Delete? || post.launches[c.id] == c.row;
    case OnPermit(c) => assert c.Delete? || post.permits[c.id] == c.row;
    case Elsewhere(_) =>
  }

  lemma RunDeleteGround(db: Db, id: Id)
    requires Grounded(db)
    ensures OutsideProbes(db, OnRun(Delete(id))) <==> Grounded(Post(db, OnRun(Delete(id))))
  {
    var post := Post(db, OnRun(Delete(id)));
    assert post.missions.Keys == db.missions.Keys - MissionsOf(db, id);
    assert post.runs.Keys == db.runs.Keys - {id};
    if db.outside.namedMissions <= post.missions.Keys {
      assert MissionsOf(db, id) !! db.outside.namedMissions;
    }
  }

  lemma RunDeleteProbesMissions(db: Db, id: Id)
    requires MissionsOk(db)
    ensures MissionsOk(Post(db, OnRun(Delete(id))))
  {
    var kept := db.missions - MissionsOf(db, id);
    UniqueAfterDelete(db.missions, RunMission, MissionsOf(db, id));
    forall m | m in kept
      ensures Resolves(kept[m], db.runs - {id}, MissionsRun, BoundToRun)
    {
      assert Resolves(db.missions[m], db.runs, MissionsRun, BoundToRun);
    }
  }

  lemma RunDeleteProbes(db: Db, id: Id)
    requires RunsOk(db) && MissionsOk(db) && LaunchesOk(db) && PermitsOk(db)
    ensures var post := Post(db, OnRun(Delete(id)));
      && RunsOk(post) && MissionsOk(post)
      && (OwnProbes(db, OnRun(Delete(id))) <==> LaunchesOk(post) && PermitsOk(post))
  {
    RunDeleteProbesMissions(db, id);
    UniqueAfterDelete(db.runs, RunningMerchant, {id});
    DeletedTarget(db.launches, db.runs, LaunchRun, LaunchOwnsRun, id);
    DeletedTarget(db.launches, db.runs, LaunchBaseline, LaunchOwnsRun, id);
    DeletedTarget(db.permits, db.runs, PermitRun, PermitOwnsRun, id);
  }

  lemma RunWriteProbes(db: Db, c: Change<BenchmarkRun>)
    requires RunsOk(db) && !c.Delete?
    ensures OwnProbes(db, OnRun(c)) <==> RunsOk(Post(db, OnRun(c)))
  {
    ProbeIsEnough(db.runs, RunningMerchant, c.id, c.row);
    assert Post(db, OnRun(c)).runs[c.id] == c.row;
  }

  // What points at a run still finds it on the terms it was bound by: the pins are frozen.
  lemma RunWriteKeepsTheRest(db: Db, c: Change<BenchmarkRun>)
    requires Consistent(db) && Triggers(db, OnRun(c)) && !c.Delete?
    ensures var post := Post(db, OnRun(c)); MissionsOk(post) && LaunchesOk(post) && PermitsOk(post)
  {
    WrittenTarget(db.missions, db.runs, MissionsRun, BoundToRun, c.id, c.row);
    WrittenTarget(db.launches, db.runs, LaunchRun, LaunchOwnsRun, c.id, c.row);
    WrittenTarget(db.launches, db.runs, LaunchBaseline, LaunchOwnsRun, c.id, c.row);
    WrittenTarget(db.permits, db.runs, PermitRun, PermitOwnsRun, c.id, c.row);
  }

  lemma MissionProbes(db: Db, c: Change<MissionRun>)
    requires MissionsOk(db)
    ensures OwnProbes(db, OnMission(c)) <==> MissionsOk(Post(db, OnMission(c)))
  {
    if c.Delete? {
      UniqueAfterDelete(db.missions, RunMission, {c.id});
    } else {
      ProbeIsEnough(db.missions, RunMission, c.id, c.row);
      WrittenSource(db.missions, db.runs, MissionsRun, BoundToRun, c.id, c.row);
      assert Post(db, OnMission(c)).missions[c.id] == c.row;
    }
  }

  lemma LaunchWriteProbes(db: Db, c: Change<Launch>)
    requires LaunchesOk(db) && !c.Delete?
    ensures OwnProbes(db, OnLaunch(c)) <==> LaunchesOk(Post(db, OnLaunch(c)))
  {
    ProbeIsEnough(db.launches, LaunchRequest, c.id, c.row);
    ProbeIsEnough(db.launches, LaunchRun, c.id, c.row);
    ProbeIsEnough(db.launches, PendingMerchant, c.id, c.row);
    WrittenSource(db.launches, db.runs, LaunchRun, LaunchOwnsRun, c.id, c.row);
    WrittenSource(db.launches, db.runs, LaunchBaseline, LaunchOwnsRun, c.id, c.row);
    assert Post(db, OnLaunch(c)).launches[c.id] == c.row;
  }

  lemma LaunchWriteKeepsPermits(db: Db, c: Change<Launch>)
    requires PermitsOk(db) && Triggers(db, OnLaunch(c))
    ensures PermitsOk(Post(db, OnLaunch(c)))
  {
    WrittenTarget(db.permits, db.launches, PermitLaunch, PermitOwnsLaunch, c.id, c.row);
  }

  lemma PermitProbes(db: Db, c: Change<Permit>)
    requires PermitsOk(db) && Triggers(db, OnPermit(c))
    ensures OwnProbes(db, OnPermit(c)) <==> PermitsOk(Post(db, OnPermit(c)))
  {
    ProbeIsEnough(db.permits, PermitAttempt, c.id, c.row);
    WrittenSource(db.permits, db.runs, PermitRun, PermitOwnsRun, c.id, c.row);
    WrittenSource(db.permits, db.launches, PermitLaunch, PermitOwnsLaunch, c.id, c.row);
    assert Post(db, OnPermit(c)).permits[c.id] == c.row;
  }

  lemma ProbesAreEnough(db: Db, s: Statement)
    requires Consistent(db)
    ensures Triggers(db, s) && Probes(db, s) <==> Accepts(db, s)
  {
    hide Grounded, OutsideProbes;
    if Triggers(db, s) {
      GroundProbes(db, s);
      match s
      case OnRun(c) =>
        if c.Delete? {
          RunDeleteProbes(db, c.id);
        } else {
          RunWriteProbes(db, c);
          RunWriteKeepsTheRest(db, c);
        }
      case OnMission(c) => MissionProbes(db, c);
      case OnLaunch(c) =>
        LaunchWriteProbes(db, c);
        LaunchWriteKeepsPermits(db, c);
      case OnPermit(c) => PermitProbes(db, c);
      case Elsewhere(_) =>
    }
  }

  class BenchmarkTables {
    var runs: map<Id, BenchmarkRun>
    var missions: map<Id, MissionRun>
    var launches: map<Id, Launch>
    var permits: map<Id, Permit>
    var outside: Outside

    function Contents(): Db
      reads this
    {
      Db(runs, missions, launches, permits, outside)
    }

    ghost predicate Valid()
      reads this
    {
      Consistent(Contents())
    }

    constructor ()
      ensures Valid() && Contents() == EMPTY
    {
      outside := EMPTY.outside;
      runs, missions, launches, permits := map[], map[], map[], map[];
    }

    // One statement. It takes effect exactly when the triggers accept it and it leaves every
    // constraint standing.
    method Execute(s: Statement) returns (done: bool)
      requires Valid()
      modifies this
      ensures Valid()
      ensures done <==> Accepts(old(Contents()), s)
      ensures Contents() == Step(old(Contents()), s)
    {
      hide Consistent, Triggers, Probes;
      ProbesAreEnough(Contents(), s);
      done := Triggers(Contents(), s) && Probes(Contents(), s);
      if !done {
        return;
      }
      match s
      case OnRun(c) =>
        if c.Delete? {
          missions := missions - MissionsOf(Contents(), c.id);
        }
        runs := Written(runs, c);
      case OnMission(c) => missions := Written(missions, c);
      case OnLaunch(c) => launches := Written(launches, c);
      case OnPermit(c) => permits := Written(permits, c);
      case Elsewhere(o) => outside := o;
    }

    method ExecuteAll(statements: seq<Statement>)
      requires Valid()
      modifies this
      ensures Valid()
      ensures Contents() == Run(old(Contents()), statements)
    {
      for n := 0 to |statements|
        invariant Valid()
        invariant Run(Contents(), statements[n..]) == Run(old(Contents()), statements)
      {
        var done := Execute(statements[n]);
        assert statements[n..][1..] == statements[n + 1..];
      }
    }
  }
}
