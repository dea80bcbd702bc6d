/** A queued launch on a free run, from start to settlement: the four statements every evaluation
    comes down to, accepted whatever else the database holds. */
module BenchmarkEvaluation {
  import opened Relational
  import opened BenchmarkSchema
  import opened BenchmarkTransitions

  // Run r is free for launch l to execute on.
  predicate Executable(db: Db, l: Id, r: Id) {
    && l in db.launches && r in db.runs
    && db.launches[l].status == QUEUED && db.runs[r].status == RunStatus.PENDING
    && db.launches[l].pins.merchant == db.runs[r].pins.merchant && db.launches[l].pins.baseline != Some(r)
    && !AnotherRuns(db, r, db.runs[r].pins.merchant)
    && forall k :: k in db.launches ==> db.launches[k].run != Some(r)
  }

  function Begun(o: BenchmarkRun, t: Time): BenchmarkRun { o.(status := RunStatus.RUNNING, startedAt := Some(t)) }

  function Ended(o: BenchmarkRun, status: RunStatus, t: Time): BenchmarkRun {
    o.(status := status, completedAt := Some(t))
  }

  function Executing(o: Launch, r: Id, t: Time): Launch {
    o.(status := EXECUTING, run := Some(r), startedAt := Some(t))
  }

  function SettledLaunch(o: Launch, status: RunStatus, t: Time): Launch {
    if status == RunStatus.COMPLETED then o.(status := LaunchStatus.COMPLETED, settledAt := Some(t))
    else o.(status := LaunchStatus.FAILED, settledAt := Some(t), failureCode := Some("aborted"))
  }

  lemma RunStep(db: Db, r: Id, n: BenchmarkRun)
    requires Consistent(db) && r in db.runs && RunMoves(db.runs[r], n) && n.representation == db.runs[r].representation
    requires n.status == RunStatus.RUNNING ==> !AnotherRuns(db, r, n.pins.merchant)
    ensures Step(db, OnRun(Update(r, n))) == db.(runs := db.runs[r := n])
    ensures Consistent(db.(runs := db.runs[r := n]))
  {
    assert RunGrounded(db.outside, db.runs[r]) && n.pins == db.runs[r].pins;
    hide Consistent, Accepts, RunMoves, AnotherRuns;
    RunUpdates(db, r, n);
    StepStaysConsistent(db, OnRun(Update(r, n)));
  }

  lemma LaunchStep(db: Db, l: Id, n: Launch)
    requires Consistent(db) && l in db.launches && LaunchMoves(db, db.launches[l], n) && RunIsToHand(db, l, n)
    ensures Step(db, OnLaunch(Update(l, n))) == db.(launches := db.launches[l := n])
    ensures Consistent(db.(launches := db.launches[l := n]))
  {
    hide Consistent, Accepts, LaunchMoves, RunIsToHand;
    LaunchUpdates(db, l, n);
    StepStaysConsistent(db, OnLaunch(Update(l, n)));
  }

  // The run starts and the launch names it.
  function BegunOn(db: Db, l: Id, r: Id, t: Time): Db
    requires l in db.launches && r in db.runs
  {
    db.(runs := db.runs[r := Begun(db.runs[r], t)], launches := db.launches[l := Executing(db.launches[l], r, t)])
  }

  // The run ends and the launch settles with it.
  function SettledOn(db: Db, l: Id, r: Id, status: RunStatus, t: Time): Db
    requires l in db.launches && r in db.runs
  {
    db.(runs := db.runs[r := Ended(db.runs[r], status, t)],
        launches := db.launches[l := SettledLaunch(db.launches[l], status, t)])
  }

  // The two statements that lead to such a state.
  function Writes(to: Db, l: Id, r: Id): seq<Statement>
    requires l in to.launches && r in to.runs
  {
    [OnRun(Update(r, to.runs[r])), OnLaunch(Update(l, to.launches[l]))]
  }

  lemma RunThenLaunch(db: Db, r: Id, run: BenchmarkRun, l: Id, launch: Launch)
    requires Consistent(db) && r in db.runs && l in db.launches
    requires RunMoves(db.runs[r], run) && run.representation == db.runs[r].representation
    requires run.status == RunStatus.RUNNING ==> !AnotherRuns(db, r, run.pins.merchant)
    requires var next := db.(runs := db.runs[r := run]);
      LaunchMoves(next, db.launches[l], launch) && RunIsToHand(next, l, launch)
    ensures var end := db.(runs := db.runs[r := run], launches := db.launches[l := launch]);
      Run(db, [OnRun(Update(r, run)), OnLaunch(Update(l, launch))]) == end && Consistent(end)
  {
    hide Consistent, RunMoves, AnotherRuns, LaunchMoves, RunIsToHand, Step;
    RunStep(db, r, run);
    var next := db.(runs := db.runs[r := run]);
    LaunchStep(next, l, launch);
    var first, second := OnRun(Update(r, run)), OnLaunch(Update(l, launch));
    assert [first, second][1..] == [second] && [second][1..] == [];
    assert Run(db, [first, second]) == Run(next, [second]) == Run(Step(next, second), []);
  }

  lemma StartMoves(db: Db, l: Id, r: Id, t: Time)
    requires Executable(db, l, r) && db.launches[l].pins.requestedAt <= t && LaunchColumns(db.launches[l])
    ensures var run, launch := Begun(db.runs[r], t), Executing(db.launches[l], r, t);
      var next := db.(runs := db.runs[r := run]);
      RunMoves(db.runs[r], run) && LaunchMoves(next, db.launches[l], launch) && RunIsToHand(next, l, launch)
  {
  }

  lemma EvaluationStarts(db: Db, l: Id, r: Id, t: Time)
    requires Consistent(db) && Executable(db, l, r) && db.launches[l].pins.requestedAt <= t
    ensures var next := BegunOn(db, l, r, t); Run(db, Writes(next, l, r)) == next && Consistent(next)
  {
    assert LaunchCheck(db.launches[l]);
    LaunchColumnsAreTheChecks(db.launches[l]);
    StartMoves(db, l, r, t);
    hide Consistent, Run, RunMoves, LaunchMoves, RunIsToHand, LaunchColumns, LaunchCheck;
    RunThenLaunch(db, r, Begun(db.runs[r], t), l, Executing(db.launches[l], r, t));
  }

  // Run r and launch l both began at t, and only l has r.
  predicate Executes(db: Db, l: Id, r: Id, t: Time) {
    && l in db.launches && r in db.runs
    && db.runs[r].status == RunStatus.RUNNING && db.runs[r].startedAt == Some(t)
    && db.launches[l].status == EXECUTING && db.launches[l].run == Some(r) && db.launches[l].startedAt == Some(t)
  }

  lemma SettlingMoves(db: Db, l: Id, r: Id, status: RunStatus, t: Time)
    requires Executes(db, l, r, t) && status in {RunStatus.COMPLETED, ABORTED} && LaunchColumns(db.launches[l])
    requires RunIsToHand(db, l, db.launches[l])
    ensures var run, launch := Ended(db.runs[r], status, t), SettledLaunch(db.launches[l], status, t);
      var next := db.(runs := db.runs[r := run]);
      RunMoves(db.runs[r], run) && LaunchMoves(next, db.launches[l], launch) && RunIsToHand(next, l, launch)
  {
  }

  lemma EvaluationEnds(db: Db, l: Id, r: Id, status: RunStatus, t: Time)
    requires Consistent(db) && Executes(db, l, r, t) && status in {RunStatus.COMPLETED, ABORTED}
    ensures var end := SettledOn(db, l, r, status, t); Run(db, Writes(end, l, r)) == end && Consistent(end)
  {
    assert LaunchCheck(db.launches[l]);
    LaunchColumnsAreTheChecks(db.launches[l]);
    HasItsRun(db, l);
    SettlingMoves(db, l, r, status, t);
    hide Consistent, Run, RunMoves, LaunchMoves, RunIsToHand, LaunchColumns, LaunchCheck;
    RunThenLaunch(db, r, Ended(db.runs[r], status, t), l, SettledLaunch(db.launches[l], status, t));
  }

  lemma HasItsRun(db: Db, l: Id)
    requires Consistent(db) && l in db.launches
    ensures RunIsToHand(db, l, db.launches[l])
  {
    assert Resolves(db.launches[l], db.runs, LaunchRun, LaunchOwnsRun);
    forall k | k in db.launches && k != l
      ensures LaunchRun(db.launches[l]).Some? ==> LaunchRun(db.launches[k]) != LaunchRun(db.launches[l])
    {
    }
  }

  lemma {:induction false} RunsCompose(db: Db, before: seq<Statement>, after: seq<Statement>)
    ensures Run(db, before + after) == Run(Run(db, before), after)
    decreases |before|
  {
    hide Step;
    if before == [] {
      assert before + after == after;
    } else {
      assert (before + after)[1..] == before[1..] + after;
      RunsCompose(Step(db, before[0]), before[1..], after);
    }
  }

  // Whatever the rest of the database holds, a queued launch can be executed on such a run and
  // settle with it, COMPLETED or FAILED, in four statements that change nothing else.
  lemma EvaluationCanSettle(db: Db, l: Id, r: Id, status: RunStatus, t: Time)
    requires Consistent(db) && Executable(db, l, r) && db.launches[l].pins.requestedAt <= t
    requires status in {RunStatus.COMPLETED, ABORTED}
    ensures var begun := BegunOn(db, l, r, t);
      var end := SettledOn(begun, l, r, status, t);
      && Run(db, Writes(begun, l, r) + Writes(end, l, r)) == end
      && end.runs[r].status == status && end.launches[l].run == Some(r)
      && end.launches[l].status == if status == RunStatus.COMPLETED then LaunchStatus.COMPLETED else LaunchStatus.FAILED
  {
    hide Consistent, Run;
    var begun := BegunOn(db, l, r, t);
    EvaluationStarts(db, l, r, t);
    EvaluationEnds(begun, l, r, status, t);
    RunsCompose(db, Writes(begun, l, r), Writes(SettledOn(begun, l, r, status, t), l, r));
  }
}
