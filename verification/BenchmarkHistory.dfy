/** What the benchmark tables keep over whole runs of statements: a started run keeps its
    missions, a finished one keeps every result, and a launch never drifts from its run. */
module BenchmarkHistory {
  import opened Relational
  import opened BenchmarkSchema
  import opened BenchmarkDatabase

  predicate MissionOnward(o: MissionRun, n: MissionRun) {
    && n.pins == o.pins
    && (o.startedAt.Some? ==> n.startedAt == o.startedAt)
    && (Recorded(o.status) ==> n == o)
  }

  predicate RunOnward(o: BenchmarkRun, n: BenchmarkRun) {
    && n.pins == o.pins && n.startedAt == o.startedAt
    && n.status != RunStatus.PENDING
    && (Finished(o.status) ==> n == o)
  }

  // Between two states: run r, once started, is still there with the same mission runs, each
  // no earlier in its lifecycle; and once finished, it and all of them are untouched.
  ghost predicate StartedOnward(a: Db, b: Db, r: Id) {
    && r in a.runs && r in b.runs && RunOnward(a.runs[r], b.runs[r])
    && MissionsOf(b, r) == MissionsOf(a, r)
    && (forall m :: m in MissionsOf(a, r) ==> MissionOnward(a.missions[m], b.missions[m]))
    && (Finished(a.runs[r].status) ==> forall m :: m in MissionsOf(a, r) ==> b.missions[m] == a.missions[m])
  }

  ghost predicate Started(db: Db, r: Id) { r in db.runs && db.runs[r].status != RunStatus.PENDING }

  lemma RunStepStarted(db: Db, c: Change<BenchmarkRun>, r: Id)
    requires RunsOk(db) && Started(db, r) && Triggers(db, OnRun(c))
    ensures StartedOnward(db, Post(db, OnRun(c)), r)
  {
    assert RunCheck(db.runs[r]);
    var post := Post(db, OnRun(c));
    assert forall m :: m in MissionsOf(post, r) <==> m in MissionsOf(db, r);
  }

  // A new mission run of r would have to be PENDING under a PENDING run, a standalone delete
  // finds its run still there, and an update finds a finished run.
  lemma MissionStepStarted(db: Db, c: Change<MissionRun>, r: Id)
    requires RunsOk(db) && Started(db, r) && Triggers(db, OnMission(c))
    ensures StartedOnward(db, Post(db, OnMission(c)), r)
  {
    assert RunCheck(db.runs[r]);
    var post := Post(db, OnMission(c));
    assert forall m :: m in MissionsOf(post, r) <==> m in MissionsOf(db, r);
  }

  lemma StepStarted(db: Db, s: Statement, r: Id)
    requires Consistent(db) && Started(db, r)
    ensures StartedOnward(db, Step(db, s), r)
  {
    var next := Step(db, s);
    if Accepts(db, s) && s.OnRun? {
      RunStepStarted(db, s.run, r);
    } else if Accepts(db, s) && s.OnMission? {
      MissionStepStarted(db, s.mission, r);
    } else {
      SameRunsSameMissions(db, next, r);
    }
  }

  lemma SameRunsSameMissions(a: Db, b: Db, r: Id)
    requires RunsOk(a) && Started(a, r) && a.runs == b.runs && a.missions == b.missions
    ensures StartedOnward(a, b, r)
  {
  }

  lemma StartedComposes(a: Db, b: Db, c: Db, r: Id)
    requires StartedOnward(a, b, r) && StartedOnward(b, c, r)
    ensures StartedOnward(a, c, r)
  {
  }

  lemma {:induction false} RunStarted(db: Db, ss: seq<Statement>, r: Id)
    requires Consistent(db) && Started(db, r)
    ensures Consistent(Run(db, ss)) && StartedOnward(db, Run(db, ss), r)
    decreases |ss|
  {
    if ss == [] {
      SameRunsSameMissions(db, db, r);
    } else {
      StepStarted(db, ss[0], r);
      RunStarted(Step(db, ss[0]), ss[1..], r);
      StartedComposes(db, Step(db, ss[0]), Run(db, ss), r);
    }
  }

  // From the moment a run has finished, whatever statements follow: the run row, the set of
  // its mission runs and every column of each are what they were.
  lemma FinishedRunIsFrozen(db: Db, ss: seq<Statement>, r: Id)
    requires Consistent(db) && r in db.runs && Finished(db.runs[r].status)
    ensures var end := Run(db, ss);
      && r in end.runs && end.runs[r] == db.runs[r]
      && MissionsOf(end, r) == MissionsOf(db, r)
      && forall m :: m in MissionsOf(db, r) ==> end.missions[m] == db.missions[m]
  {
    RunStarted(db, ss, r);
  }

  // From the moment it starts it takes no mission and loses none, recorded results stay as
  // recorded, and the row itself cannot go away.
  lemma StartedRunKeepsItsMissions(db: Db, ss: seq<Statement>, r: Id)
    requires Consistent(db) && Started(db, r)
    ensures Started(Run(db, ss), r) && MissionsOf(Run(db, ss), r) == MissionsOf(db, r)
    ensures forall m :: m in MissionsOf(db, r) && Recorded(db.missions[m].status) ==>
      Run(db, ss).missions[m] == db.missions[m]
    ensures Run(db, ss).runs[r].pins == db.runs[r].pins
  {
    RunStarted(db, ss, r);
  }

  // benchmark_run has no INSERT trigger, so whether a run may be written does not depend on the
  // status it is written in: started and finished ones are accepted on the terms of any other.
  lemma RunsAreBornInAnyStatus(db: Db, r: Id, row: BenchmarkRun)
    requires Consistent(db)
    ensures Accepts(db, OnRun(Insert(r, row))) <==>
      && r !in db.runs && RunCheck(row) && RunGrounded(db.outside, row)
      && Free(db.runs, RunningMerchant, r, row)
  {
    hide Consistent;
    ProbesAreEnough(db, OnRun(Insert(r, row)));
  }

  // One born started never has a mission run, so no fabricated result can hang on it.
  lemma RunBornStartedStaysEmpty(db: Db, r: Id, row: BenchmarkRun, ss: seq<Statement>)
    requires Consistent(db) && Accepts(db, OnRun(Insert(r, row))) && row.status != RunStatus.PENDING
    ensures MissionsOf(Run(Step(db, OnRun(Insert(r, row))), ss), r) == {}
  {
    var next := Step(db, OnRun(Insert(r, row)));
    forall m | m in db.missions ensures db.missions[m].pins.run != r {
      assert Resolves(db.missions[m], db.runs, MissionsRun, BoundToRun);
    }
    assert MissionsOf(next, r) == {};
    RunStarted(next, ss, r);
  }

  // Nothing but its mission runs names run r, and nothing names those.
  predicate RunUnnamed(db: Db, r: Id) {
    && Unreferenced(db.launches, LaunchRun, r) && Unreferenced(db.launches, LaunchBaseline, r)
    && Unreferenced(db.permits, PermitRun, r)
    && r !in db.outside.namedRuns && MissionsOf(db, r) !! db.outside.namedMissions
  }

  // Exactly when a run can be deleted.
  lemma RunGoesOnlyPendingAndUnnamed(db: Db, r: Id)
    requires Consistent(db)
    ensures Accepts(db, OnRun(Delete(r))) <==>
      r in db.runs && db.runs[r].status == RunStatus.PENDING && RunUnnamed(db, r)
  {
    hide Consistent;
    ProbesAreEnough(db, OnRun(Delete(r)));
  }

  // A mission run's own delete guard passes only once its run is gone.
  lemma MissionGoesOnlyWithItsRun(db: Db, s: Statement, m: Id)
    requires MissionsOk(db) && m in db.missions && Triggers(db, s)
    ensures m !in Post(db, s).missions <==> s == OnRun(Delete(db.missions[m].pins.run))
  {
    assert Resolves(db.missions[m], db.runs, MissionsRun, BoundToRun);
  }

  // Exactly when a mission run disappears: with its run, while that is PENDING and nothing else
  // names it or its mission runs. Whether a result has been recorded makes no difference.
  lemma MissionGoesOnlyWithAPendingRun(db: Db, s: Statement, m: Id)
    requires Consistent(db) && m in db.missions
    ensures var r := db.missions[m].pins.run;
      m !in Step(db, s).missions <==>
        s == OnRun(Delete(r)) && r in db.runs && db.runs[r].status == RunStatus.PENDING && RunUnnamed(db, r)
  {
    if Accepts(db, s) {
      MissionGoesOnlyWithItsRun(db, s, m);
    }
    hide Consistent, Triggers, RunUnnamed;
    RunGoesOnlyPendingAndUnnamed(db, db.missions[m].pins.run);
  }

  // A well-formed result of a RUNNING mission run is accepted exactly while its run has not
  // finished; that the run has started is not asked.
  lemma ResultsCanBeRecordedBeforeTheRunStarts(db: Db, m: Id, n: MissionRun)
    requires Consistent(db) && m in db.missions && db.missions[m].status == MissionStatus.RUNNING
    requires n.pins == db.missions[m].pins && n.startedAt == db.missions[m].startedAt
    requires Recorded(n.status) && MissionCheck(n) && MissionGrounded(db.outside, n)
    ensures db.missions[m].pins.run in db.runs
    ensures Accepts(db, OnMission(Update(m, n))) <==> !Finished(db.runs[db.missions[m].pins.run].status)
  {
    assert Resolves(db.missions[m], db.runs, MissionsRun, BoundToRun);
    assert RunMission(n) == RunMission(db.missions[m]);
    assert Probes(db, OnMission(Update(m, n)));
    hide Consistent;
    ProbesAreEnough(db, OnMission(Update(m, n)));
  }

  // The merchant has a representation for the run to move to, or the run has one to drop.
  predicate RepresentationToHand(db: Db, r: Id)
    requires r in db.runs
  {
    || db.runs[r].representation.Some?
    || exists k :: k in db.outside.representations && db.outside.representations[k] == db.runs[r].pins.merchant
  }

  // Of a run's columns outside its lifecycle, the representation is the one no trigger names:
  // a statement can move it exactly as long as the run has not finished, given somewhere to go.
  lemma RepresentationMovesUntilFinished(db: Db, r: Id)
    requires Consistent(db) && r in db.runs
    ensures (exists s :: MovesRepresentation(db, s, r)) <==> !Finished(db.runs[r].status) && RepresentationToHand(db, r)
  {
    var o := db.runs[r];
    if !Finished(o.status) && RepresentationToHand(db, r) {
      var to := None;
      if o.representation.None? {
        var k :| k in db.outside.representations && db.outside.representations[k] == o.pins.merchant;
        to := Some(k);
      }
      RepresentationMoves(db, r, to);
      assert MovesRepresentation(db, OnRun(Update(r, o.(representation := to))), r);
    }
    forall s | MovesRepresentation(db, s, r) ensures !Finished(o.status) && RepresentationToHand(db, r) {
      RepresentationMoved(db, s, r);
    }
  }

  ghost predicate MovesRepresentation(db: Db, s: Statement, r: Id)
    requires r in db.runs
  {
    r in Step(db, s).runs && Step(db, s).runs[r].representation != db.runs[r].representation
  }

  lemma RepresentationMoves(db: Db, r: Id, to: Option<Id>)
    requires Consistent(db) && r in db.runs && !Finished(db.runs[r].status)
    requires Names(db.outside.representations, to, db.runs[r].pins.merchant)
    ensures var n := db.runs[r].(representation := to); Step(db, OnRun(Update(r, n))) == db.(runs := db.runs[r := n])
  {
    var o := db.runs[r];
    var n := o.(representation := to);
    assert RunCheck(n) && RunGrounded(db.outside, n) && RunningMerchant(n) == RunningMerchant(o);
    assert Probes(db, OnRun(Update(r, n)));
    hide Consistent;
    ProbesAreEnough(db, OnRun(Update(r, n)));
  }

  lemma RepresentationMoved(db: Db, s: Statement, r: Id)
    requires r in db.runs && MovesRepresentation(db, s, r)
    ensures !Finished(db.runs[r].status) && RepresentationToHand(db, r)
  {
    assert RunGrounded(Post(db, s).outside, Post(db, s).runs[r]);
  }

  predicate BothRunningFor(db: Db, r1: Id, r2: Id)
    requires r1 in db.runs && r2 in db.runs
  {
    && db.runs[r1].status == RunStatus.RUNNING && db.runs[r2].status == RunStatus.RUNNING
    && db.runs[r1].pins.merchant == db.runs[r2].pins.merchant
  }

  // A run never carries a result for a mission of another suite: two composite keys share the
  // suite column. And a merchant's world is claimed by one run at a time.
  lemma ResultsBelongToTheirSuite(ss: seq<Statement>, m: Id, r1: Id, r2: Id)
    requires m in Run(EMPTY, ss).missions
    requires r1 in Run(EMPTY, ss).runs && r2 in Run(EMPTY, ss).runs
    ensures var db := Run(EMPTY, ss); var pins := db.missions[m].pins;
      && pins.run in db.runs && pins.mission in db.outside.definitions
      && db.outside.definitions[pins.mission] == db.runs[pins.run].pins.suite
      && pins.merchant == db.runs[pins.run].pins.merchant
    ensures BothRunningFor(Run(EMPTY, ss), r1, r2) ==> r1 == r2
  {
    var db := Run(EMPTY, ss);
    RunStaysConsistent(EMPTY, ss);
    assert Resolves(db.missions[m], db.runs, MissionsRun, BoundToRun);
    assert MissionGrounded(db.outside, db.missions[m]);
    if BothRunningFor(db, r1, r2) {
      assert RunningMerchant(db.runs[r1]) == RunningMerchant(db.runs[r2]);
    }
  }

  /* ---- launches ---- */

  // Every settled launch agrees with the run it names.
  ghost predicate Agreement(db: Db) {
    forall l :: l in db.launches ==> LaunchAgrees(db.runs, db.launches[l])
  }

  // Triggers read the run only when the launch is written. Agreement lasts because the run a
  // settled launch names is finished, and finished runs neither change nor go.
  lemma PostKeepsAgreement(db: Db, s: Statement)
    requires Agreement(db) && Triggers(db, s)
    ensures Agreement(Post(db, s))
  {
    var next := Post(db, s);
    forall l | l in next.launches ensures LaunchAgrees(next.runs, next.launches[l]) {
      if l in db.launches && next.launches[l] == db.launches[l] {
        assert LaunchAgrees(db.runs, db.launches[l]);
      }
    }
  }

  lemma StepKeepsAgreement(db: Db, s: Statement)
    requires Agreement(db)
    ensures Agreement(Step(db, s))
  {
    if Accepts(db, s) {
      PostKeepsAgreement(db, s);
    }
  }

  lemma {:induction false} RunKeepsAgreement(db: Db, ss: seq<Statement>)
    requires Agreement(db)
    ensures Agreement(Run(db, ss))
    decreases |ss|
  {
    if ss != [] {
      StepKeepsAgreement(db, ss[0]);
      RunKeepsAgreement(Step(db, ss[0]), ss[1..]);
    }
  }

  // What a launch says about its run, in one state.
  ghost predicate TrueToItsRun(db: Db, l: Id)
    requires l in db.launches
  {
    var launch := db.launches[l];
    && (launch.run.Some? ==>
          launch.run.value in db.runs && db.runs[launch.run.value].pins.merchant == launch.pins.merchant)
    && (launch.status == EXECUTING ==> launch.run.Some?)
    && (launch.status == LaunchStatus.COMPLETED ==>
          launch.run.Some? && db.runs[launch.run.value].status == RunStatus.COMPLETED)
    && (launch.status == LaunchStatus.FAILED && launch.run.Some? ==> db.runs[launch.run.value].status == ABORTED)
  }

  predicate BothPendingFor(l: Launch, k: Launch) {
    Pending(l.status) && Pending(k.status) && l.pins.merchant == k.pins.merchant
  }

  // In every state that any interleaving of statements reaches: no launch has drifted from
  // its run, no run has two launches, and no merchant has two pending.
  lemma LaunchNeverDrifts(ss: seq<Statement>, l: Id, k: Id)
    requires l in Run(EMPTY, ss).launches && k in Run(EMPTY, ss).launches
    ensures var db := Run(EMPTY, ss);
      && TrueToItsRun(db, l)
      && (db.launches[l].run.Some? && db.launches[l].run == db.launches[k].run ==> l == k)
      && (BothPendingFor(db.launches[l], db.launches[k]) ==> l == k)
  {
    var db := Run(EMPTY, ss);
    RunStaysConsistent(EMPTY, ss);
    RunKeepsAgreement(EMPTY, ss);
    assert LaunchAgrees(db.runs, db.launches[l]) && LaunchCheck(db.launches[l]);
    assert Resolves(db.launches[l], db.runs, LaunchRun, LaunchOwnsRun);
    assert db.launches[l].run == db.launches[k].run ==> LaunchRun(db.launches[l]) == LaunchRun(db.launches[k]);
    if BothPendingFor(db.launches[l], db.launches[k]) {
      assert PendingMerchant(db.launches[l]) == PendingMerchant(db.launches[k]);
    }
  }

  predicate LaunchOnward(o: Launch, n: Launch) {
    && n.pins == o.pins
    && (o.run.Some? ==> n.run == o.run)
    && (!Pending(o.status) ==> n == o)
  }

  lemma PostKeepsLaunch(db: Db, s: Statement, l: Id)
    requires l in db.launches && Triggers(db, s)
    ensures l in Post(db, s).launches && LaunchOnward(db.launches[l], Post(db, s).launches[l])
  {
  }

  lemma StepKeepsLaunch(db: Db, s: Statement, l: Id)
    requires l in db.launches
    ensures l in Step(db, s).launches && LaunchOnward(db.launches[l], Step(db, s).launches[l])
  {
    if Accepts(db, s) {
      PostKeepsLaunch(db, s, l);
    }
  }

  lemma {:induction false} LaunchesArePermanent(db: Db, ss: seq<Statement>, l: Id)
    requires l in db.launches
    ensures l in Run(db, ss).launches && LaunchOnward(db.launches[l], Run(db, ss).launches[l])
    decreases |ss|
  {
    if ss != [] {
      StepKeepsLaunch(db, ss[0], l);
      LaunchesArePermanent(Step(db, ss[0]), ss[1..], l);
    }
  }

  // "Agreement when written is agreement forever": once a launch has settled against a run,
  // the launch, the run and every mission result stay as they were settled.
  lemma SettledLaunchIsForever(db: Db, ss: seq<Statement>, l: Id)
    requires Consistent(db) && Agreement(db) && l in db.launches
    requires !Pending(db.launches[l].status) && db.launches[l].run.Some?
    ensures var end := Run(db, ss); var r := db.launches[l].run.value;
      && l in end.launches && end.launches[l] == db.launches[l]
      && r in db.runs && r in end.runs && end.runs[r] == db.runs[r] && Finished(end.runs[r].status)
      && MissionsOf(end, r) == MissionsOf(db, r)
      && forall m :: m in MissionsOf(db, r) ==> end.missions[m] == db.missions[m]
  {
    assert LaunchAgrees(db.runs, db.launches[l]);
    LaunchesArePermanent(db, ss, l);
    FinishedRunIsFrozen(db, ss, db.launches[l].run.value);
  }

  /* ---- budgets ---- */

  predicate BudgetFits(p: LaunchPins) { (p.buyer == AI_BUYER) == p.maxRequests.Some? }

  lemma PostBudgets(db: Db, s: Statement, l: Id)
    requires Triggers(db, s) && l in Post(db, s).launches && l !in db.launches
    ensures BudgetFits(Post(db, s).launches[l].pins)
  {
  }

  // Over any statements, whatever launches there were: every launch written since carries a
  // budget exactly when a model buys, and one written before keeps the terms it had, budget or
  // none. Only the insert trigger asks; the pins being frozen makes it last.
  lemma {:induction false} ModelBuyersHaveBudgets(db: Db, ss: seq<Statement>, l: Id)
    requires l in Run(db, ss).launches
    ensures if l in db.launches then Run(db, ss).launches[l].pins == db.launches[l].pins
            else BudgetFits(Run(db, ss).launches[l].pins)
    decreases |ss|
  {
    if l in db.launches {
      LaunchesArePermanent(db, ss, l);
    } else if ss != [] {
      hide Consistent, Triggers;
      var next := Step(db, ss[0]);
      if l in next.launches {
        PostBudgets(db, ss[0], l);
        LaunchesArePermanent(next, ss[1..], l);
      } else {
        ModelBuyersHaveBudgets(next, ss[1..], l);
      }
    }
  }
}
