/** The compiler impact experiment plan: n pairs, each run once RAW and once COMPILED, in an
    order a trigger dictates. The trigger's revision that counterbalances pair order, the one
    before it, and the sample table they guard. */
module Experiment {
  import opened Relational

  datatype Experiment = Experiment(
    merchant: Id, sampleCount: int, pairOrder: Option<string>, source: Id, compiled: Id)

  // representation_kind is text, so a row can arrive naming neither kind.
  datatype Kind = RAW | COMPILED | Unknown(text: string)

  datatype Sample = Sample(
    experiment: Id, merchant: Id, pair: int, execution: int, kind: Kind,
    source: Option<Id>, representation: Option<Id>, run: Option<Id>)

  // methodology->>'pair_order', NULL when the key is missing.
  predicate Counterbalanced(e: Experiment) { e.pairOrder == Some("counterbalanced") }

  predicate SampleCheck(s: Sample) {
    && s.pair > 0 && s.execution > 0
    && !s.kind.Unknown?
    && (s.kind == RAW ==> s.source.Some? && s.representation.None?)
    && (s.kind == COMPILED ==> s.source.None? && s.representation.Some?)
  }

  /* ---- the two insert triggers ---- */

  // SQL truth values, None for NULL: <> of anything with NULL is NULL, and an IF is taken only
  // on true.
  function Differs<T(==)>(a: Option<T>, b: Option<T>): Option<bool> {
    if a.None? || b.None? then None else Some(a.value != b.value)
  }

  function Either(a: Option<bool>, b: Option<bool>): Option<bool> {
    if a == Some(true) || b == Some(true) then Some(true)
    else if a.None? || b.None? then None
    else Some(false)
  }

  predicate BoundToExperiment(experiments: map<Id, Experiment>, s: Sample) {
    s.experiment in experiments && experiments[s.experiment].merchant == s.merchant
  }

  predicate SourcesAgree(e: Experiment, s: Sample) {
    && (s.kind == RAW ==> Differs(s.source, Some(e.source)) != Some(true))
    && (s.kind == COMPILED ==> Differs(s.representation, Some(e.compiled)) != Some(true))
  }

  // CASE without ELSE yields NULL.
  function OldSlot(s: Sample): Option<int> {
    if s.kind == RAW then Some(s.pair * 2 - 1)
    else if s.kind == COMPILED then Some(s.pair * 2)
    else None
  }

  predicate OldInsertGuard(experiments: map<Id, Experiment>, s: Sample) {
    BoundToExperiment(experiments, s) &&
    var e := experiments[s.experiment];
    && Either(Some(s.pair > e.sampleCount), Differs(Some(s.execution), OldSlot(s))) != Some(true)
    && SourcesAgree(e, s)
  }

  function ExpectedKind(e: Experiment, s: Sample): Kind {
    var firstSlot := s.execution == s.pair * 2 - 1;
    if Counterbalanced(e) && s.pair % 2 == 0 then
      if firstSlot then COMPILED else RAW
    else
      if firstSlot then RAW else COMPILED
  }

  predicate InsertGuard(experiments: map<Id, Experiment>, s: Sample) {
    BoundToExperiment(experiments, s) &&
    var e := experiments[s.experiment];
    && !(s.pair > e.sampleCount || s.kind != ExpectedKind(e, s) || s.execution !in {s.pair * 2 - 1, s.pair * 2})
    && SourcesAgree(e, s)
  }

  // Only an unset run may change, and only to a value. Deletes are refused.
  predicate UpdateGuard(o: Sample, n: Sample) { n == o.(run := n.run) && o.run.None? && n.run.Some? }

  /* ---- what the plan is ---- */

  // The kind executed in slot x: R C R C ..., or with counterbalancing R C C R, R C C R, ...
  function KindAt(e: Experiment, x: int): Kind {
    if Counterbalanced(e) then
      if x % 4 == 1 || x % 4 == 0 then RAW else COMPILED
    else
      if x % 2 == 1 then RAW else COMPILED
  }

  predicate InPlan(e: Experiment, s: Sample) {
    && 1 <= s.execution <= 2 * e.sampleCount
    && s.pair == (s.execution + 1) / 2
    && s.kind == KindAt(e, s.execution)
    && s.source == (if s.kind == RAW then Some(e.source) else None)
    && s.representation == (if s.kind == RAW then None else Some(e.compiled))
  }

  predicate CompiledFirst(e: Experiment, p: int) { Counterbalanced(e) && p % 2 == 0 }

  function OpeningKind(e: Experiment, p: int): Kind { if CompiledFirst(e, p) then COMPILED else RAW }

  function OtherKind(kind: Kind): Kind { if kind == RAW then COMPILED else RAW }

  lemma RemainderByFour(a: int, q: int, r: int)
    requires a == 4 * q + r && 0 <= r < 4
    ensures a % 4 == r
  {
  }

  lemma RemainderByTwo(a: int, q: int, r: int)
    requires a == 2 * q + r && 0 <= r < 2
    ensures a % 2 == r
  {
  }

  lemma SlotsByFour(p: int)
    ensures (2 * p - 1) % 4 == if p % 2 == 0 then 3 else 1
    ensures (2 * p) % 4 == if p % 2 == 0 then 0 else 2
    ensures (2 * p - 1) % 2 == 1 && (2 * p) % 2 == 0
  {
    var q, odd := p / 2, p % 2;
    assert p == 2 * q + odd;
    RemainderByTwo(2 * p, p, 0);
    RemainderByTwo(2 * p - 1, p - 1, 1);
    if odd == 0 {
      RemainderByFour(2 * p - 1, q - 1, 3);
      RemainderByFour(2 * p, q, 0);
    } else {
      RemainderByFour(2 * p - 1, q, 1);
      RemainderByFour(2 * p, q, 2);
    }
  }

  lemma KindsOfAPair(e: Experiment, p: int)
    ensures KindAt(e, 2 * p - 1) == OpeningKind(e, p) && KindAt(e, 2 * p) == OtherKind(OpeningKind(e, p))
  {
    SlotsByFour(p);
  }

  lemma PairOfSlot(p: int, x: int)
    ensures p == (x + 1) / 2 <==> x == 2 * p - 1 || x == 2 * p
  {
  }

  lemma KindOfSlot(e: Experiment, s: Sample)
    requires s.execution == 2 * s.pair - 1 || s.execution == 2 * s.pair
    ensures ExpectedKind(e, s) == KindAt(e, s.execution)
  {
    KindsOfAPair(e, s.pair);
  }

  // The execution slot settles the whole row, and the rows let in are exactly the plan's.
  lemma GuardAdmitsExactlyThePlan(experiments: map<Id, Experiment>, s: Sample)
    ensures InsertGuard(experiments, s) && SampleCheck(s) <==>
      BoundToExperiment(experiments, s) && InPlan(experiments[s.experiment], s)
  {
    if BoundToExperiment(experiments, s) {
      PairOfSlot(s.pair, s.execution);
      if s.execution == 2 * s.pair - 1 || s.execution == 2 * s.pair {
        KindOfSlot(experiments[s.experiment], s);
      }
    }
  }

  // Without counterbalancing the two triggers differ only where the old one's CASE is NULL, on
  // a kind that is neither, and there the CHECK refuses the row.
  lemma GuardsAgreeWithoutCounterbalancing(experiments: map<Id, Experiment>, s: Sample)
    requires s.experiment in experiments && !Counterbalanced(experiments[s.experiment])
    ensures InsertGuard(experiments, s) ==> OldInsertGuard(experiments, s)
    ensures OldInsertGuard(experiments, s) && !InsertGuard(experiments, s) <==>
      s.kind.Unknown? && BoundToExperiment(experiments, s) && s.pair <= experiments[s.experiment].sampleCount
    ensures SampleCheck(s) ==> (InsertGuard(experiments, s) <==> OldInsertGuard(experiments, s))
  {
  }

  /* ---- the table ---- */

  // runs says which merchant each benchmark run belongs to.
  datatype Around = Around(experiments: map<Id, Experiment>, runs: map<Id, Id>)

  function PairArm(s: Sample): Option<(Id, int, Kind)> { Some((s.experiment, s.pair, s.kind)) }
  function ExecutionSlot(s: Sample): Option<(Id, int)> { Some((s.experiment, s.execution)) }
  function SampleRun(s: Sample): Option<Id> { s.run }
  predicate RunOwner(s: Sample, merchant: Id) { s.merchant == merchant }
  function SampleExperiment(s: Sample): Option<Id> { Some(s.experiment) }
  predicate ExperimentOwner(s: Sample, e: Experiment) { s.merchant == e.merchant }

  ghost predicate SamplesOk(f: Around, samples: map<Id, Sample>) {
    && (forall i :: i in samples ==> SampleCheck(samples[i]))
    && Unique(samples, PairArm)
    && Unique(samples, ExecutionSlot)
    && Unique(samples, SampleRun)
    && References(samples, f.experiments, SampleExperiment, ExperimentOwner)
    && References(samples, f.runs, SampleRun, RunOwner)
  }

  datatype Db = Db(around: Around, samples: map<Id, Sample>)

  ghost predicate Consistent(db: Db) {
    && SamplesOk(db.around, db.samples)
    && forall e :: e in db.around.experiments ==> db.around.experiments[e].sampleCount > 0
  }

  // Experiments refuse every update and delete, so they are only ever written. A sample's guard
  // does not compare id, so an UPDATE may set the key along with the run.
  datatype Statement =
    | NewExperiment(id: Id, experiment: Experiment)
    | OnSample(sample: Change<Sample>)
    | Move(from: Id, to: Id, row: Sample)
    | Elsewhere(runs: map<Id, Id>)

  predicate Triggers(db: Db, s: Statement) {
    match s
    case NewExperiment(id, _) => id !in db.around.experiments
    case OnSample(c) => Addressed(db.samples, c) && SampleTriggers(db, c)
    case Move(i, j, row) => i in db.samples && j !in db.samples && UpdateGuard(db.samples[i], row)
    case Elsewhere(_) => true
  }

  predicate SampleTriggers(db: Db, c: Change<Sample>)
    requires Addressed(db.samples, c)
  {
    match c
    case Insert(_, row) => InsertGuard(db.around.experiments, row)
    case Update(i, row) => UpdateGuard(db.samples[i], row)
    case Delete(_) => false
  }

  function Post(db: Db, s: Statement): Db {
    match s
    case NewExperiment(id, e) => db.(around := db.around.(experiments := db.around.experiments[id := e]))
    case OnSample(c) => db.(samples := Written(db.samples, c))
    case Move(i, j, row) => db.(samples := (db.samples - {i})[j := row])
    case Elsewhere(runs) => db.(around := db.around.(runs := runs))
  }

  ghost predicate Accepts(db: Db, s: Statement) { Triggers(db, s) && Consistent(Post(db, s)) }

  ghost function Step(db: Db, s: Statement): Db { if Accepts(db, s) then Post(db, s) else db }

  ghost function Run(db: Db, ss: seq<Statement>): Db
    decreases |ss|
  {
    if ss == [] then db else Run(Step(db, ss[0]), ss[1..])
  }

  const EMPTY := Db(Around(map[], map[]), map[])

  // For one row about to stand under a key beside the others.
  predicate RowProbes(f: Around, others: map<Id, Sample>, id: Id, row: Sample) {
    && SampleCheck(row)
    && Free(others, PairArm, id, row)
    && Free(others, ExecutionSlot, id, row)
    && Free(others, SampleRun, id, row)
    && Resolves(row, f.experiments, SampleExperiment, ExperimentOwner)
    && Resolves(row, f.runs, SampleRun, RunOwner)
  }

  predicate Probes(db: Db, s: Statement) {
    match s
    case NewExperiment(_, e) => e.sampleCount > 0
    case OnSample(c) => c.Delete? || RowProbes(db.around, db.samples, c.id, c.row)
    case Move(i, j, row) => RowProbes(db.around, db.samples - {i}, j, row)
    case Elsewhere(runs) => forall i :: i in db.samples ==> Resolves(db.samples[i], runs, SampleRun, RunOwner)
  }

  lemma RowProbesAreEnough(f: Around, samples: map<Id, Sample>, id: Id, row: Sample)
    requires SamplesOk(f, samples)
    ensures RowProbes(f, samples, id, row) <==> SamplesOk(f, samples[id := row])
  {
    ProbeIsEnough(samples, PairArm, id, row);
    ProbeIsEnough(samples, ExecutionSlot, id, row);
    ProbeIsEnough(samples, SampleRun, id, row);
    WrittenSource(samples, f.experiments, SampleExperiment, ExperimentOwner, id, row);
    WrittenSource(samples, f.runs, SampleRun, RunOwner, id, row);
    assert samples[id := row][id] == row;
  }

  lemma OneRowLess(f: Around, samples: map<Id, Sample>, i: Id)
    requires SamplesOk(f, samples)
    ensures SamplesOk(f, samples - {i})
  {
    UniqueAfterDelete(samples, PairArm, {i});
    UniqueAfterDelete(samples, ExecutionSlot, {i});
    UniqueAfterDelete(samples, SampleRun, {i});
  }

  lemma NewExperimentKeepsSamples(f: Around, samples: map<Id, Sample>, id: Id, e: Experiment)
    requires SamplesOk(f, samples) && id !in f.experiments
    ensures SamplesOk(f.(experiments := f.experiments[id := e]), samples)
  {
  }

  lemma ProbesAreEnough(db: Db, s: Statement)
    requires Consistent(db)
    ensures Triggers(db, s) && Probes(db, s) <==> Accepts(db, s)
  {
    if Triggers(db, s) {
      match s
      case NewExperiment(id, e) =>
        NewExperimentKeepsSamples(db.around, db.samples, id, e);
        assert Post(db, s).around.experiments[id] == e;
      case OnSample(c) => RowProbesAreEnough(db.around, db.samples, c.id, c.row);
      case Move(i, j, row) =>
        OneRowLess(db.around, db.samples, i);
        RowProbesAreEnough(db.around, db.samples - {i}, j, row);
      case Elsewhere(_) =>
    }
  }

  class ExperimentTables {
    var experiments: map<Id, Experiment>
    var samples: map<Id, Sample>
    var runs: map<Id, Id>

    function Contents(): Db
      reads this
    {
      Db(Around(experiments, runs), samples)
    }

    ghost predicate Valid()
      reads this
    {
      Consistent(Contents())
    }

    constructor ()
      ensures Valid() && Contents() == EMPTY
    {
      experiments, samples, runs := map[], map[], map[];
    }

    method Execute(s: Statement) returns (done: bool)
      requires Valid()
      modifies this
      ensures Valid()
      ensures done <==> Accepts(old(Contents()), s)
      ensures Contents() == Step(old(Contents()), s)
    {
      ProbesAreEnough(Contents(), s);
      done := Triggers(Contents(), s) && Probes(Contents(), s);
      if !done {
        return;
      }
      match s
      case NewExperiment(id, e) => experiments := experiments[id := e];
      case OnSample(c) => samples := Written(samples, c);
      case Move(i, j, row) => samples := (samples - {i})[j := row];
      case Elsewhere(rs) => runs := rs;
    }
  }

  /* ---- what any run of statements leaves ---- */

  ghost predicate Planned(f: Around, samples: map<Id, Sample>) {
    forall i :: i in samples ==>
      BoundToExperiment(f.experiments, samples[i]) && InPlan(f.experiments[samples[i].experiment], samples[i])
  }

  lemma PostStaysPlanned(db: Db, s: Statement)
    requires Planned(db.around, db.samples) && Triggers(db, s)
    requires SamplesOk(Post(db, s).around, Post(db, s).samples)
    ensures Planned(Post(db, s).around, Post(db, s).samples)
  {
    if s.OnSample? {
      assert Post(db, s).samples[s.sample.id] == s.sample.row;
      GuardAdmitsExactlyThePlan(db.around.experiments, s.sample.row);
    }
  }

  lemma {:induction false} RunStaysPlanned(db: Db, ss: seq<Statement>)
    requires Consistent(db) && Planned(db.around, db.samples)
    ensures Consistent(Run(db, ss)) && Planned(Run(db, ss).around, Run(db, ss).samples)
    decreases |ss|
  {
    if ss != [] {
      if Accepts(db, ss[0]) {
        PostStaysPlanned(db, ss[0]);
      }
      RunStaysPlanned(Step(db, ss[0]), ss[1..]);
    }
  }

  /* ---- what becomes of one sample ---- */

  // Sample o stands as row j: the same but for its run, and once that is set, the same and
  // under the same key.
  ghost predicate StandsAs(o: Sample, i: Id, samples: map<Id, Sample>, j: Id) {
    && j in samples && samples[j] == o.(run := samples[j].run)
    && (o.run.Some? ==> j == i && samples[j] == o)
  }

  // Where one statement leaves the row under key i.
  function KeyAfter(s: Statement, i: Id): Id { if s.Move? && s.from == i then s.to else i }

  lemma PostKeepsSample(db: Db, s: Statement, i: Id)
    requires i in db.samples && Triggers(db, s)
    ensures StandsAs(db.samples[i], i, Post(db, s).samples, KeyAfter(s, i))
  {
  }

  // Over any statements, no sample is lost or changed: some row is that sample but for its run,
  // and the run is bound once, for good, the key with it.
  lemma {:induction false} SamplesArePermanent(db: Db, ss: seq<Statement>, i: Id)
    requires i in db.samples
    ensures exists j :: StandsAs(db.samples[i], i, Run(db, ss).samples, j)
    decreases |ss|
  {
    if ss == [] {
      assert Run(db, ss) == db && StandsAs(db.samples[i], i, Run(db, ss).samples, i);
    } else {
      hide Consistent, Triggers;
      var next := Step(db, ss[0]);
      var k := if Accepts(db, ss[0]) then KeyAfter(ss[0], i) else i;
      if Accepts(db, ss[0]) {
        PostKeepsSample(db, ss[0], i);
      }
      SamplesArePermanent(next, ss[1..], k);
      var j :| StandsAs(next.samples[k], k, Run(next, ss[1..]).samples, j);
      assert StandsAs(db.samples[i], i, Run(db, ss).samples, j);
    }
  }

  lemma FreeBeside(samples: map<Id, Sample>, i: Id, j: Id, row: Sample)
    requires i in samples && j !in samples
    ensures Free(samples - {i}, SampleRun, j, row) <==> Free(samples, SampleRun, i, row)
  {
    var others := samples - {i};
    if Free(others, SampleRun, j, row) {
      forall k | k in samples && k != i ensures SampleRun(row).Some? ==> SampleRun(samples[k]) != SampleRun(row) {
        assert others[k] == samples[k];
      }
    }
    if Free(samples, SampleRun, i, row) {
      forall k | k in others ensures SampleRun(row).Some? ==> SampleRun(others[k]) != SampleRun(row) {
        assert others[k] == samples[k];
      }
    }
  }

  // Of a moved row's constraints only those on the run are new.
  lemma SameColumnsProbe(db: Db, i: Id, j: Id, row: Sample)
    requires SamplesOk(db.around, db.samples) && i in db.samples && j !in db.samples && UpdateGuard(db.samples[i], row)
    ensures RowProbes(db.around, db.samples - {i}, j, row) <==>
      Free(db.samples, SampleRun, i, row) && Resolves(row, db.around.runs, SampleRun, RunOwner)
  {
    var o, others := db.samples[i], db.samples - {i};
    FreeBeside(db.samples, i, j, row);
    forall k | k in others
      ensures PairArm(others[k]) != PairArm(row) && ExecutionSlot(others[k]) != ExecutionSlot(row)
    {
      assert PairArm(row) == PairArm(o) && ExecutionSlot(row) == ExecutionSlot(o);
      assert PairArm(db.samples[k]) == PairArm(o) ==> k == i;
      assert ExecutionSlot(db.samples[k]) == ExecutionSlot(o) ==> k == i;
    }
    assert SampleCheck(o) && Resolves(o, db.around.experiments, SampleExperiment, ExperimentOwner);
  }

  lemma SameColumnsFit(db: Db, i: Id, row: Sample)
    requires SamplesOk(db.around, db.samples) && i in db.samples && UpdateGuard(db.samples[i], row)
    ensures RowProbes(db.around, db.samples, i, row) <==>
      Free(db.samples, SampleRun, i, row) && Resolves(row, db.around.runs, SampleRun, RunOwner)
  {
    var o := db.samples[i];
    assert SampleCheck(o) && Resolves(o, db.around.experiments, SampleExperiment, ExperimentOwner);
    forall k | k in db.samples && k != i
      ensures PairArm(db.samples[k]) != PairArm(row) && ExecutionSlot(db.samples[k]) != ExecutionSlot(row)
    {
      assert PairArm(row) == PairArm(o) && ExecutionSlot(row) == ExecutionSlot(o);
    }
  }

  // The one change a sample's columns can see, of whichever kind it is: a run of its merchant
  // that no other sample has, where there was none.
  predicate BindsItsRun(db: Db, i: Id, n: Sample)
    requires i in db.samples
  {
    db.samples[i].run == None && n.run.Some? && n == db.samples[i].(run := n.run)
    && n.run.value in db.around.runs && db.around.runs[n.run.value] == n.merchant
    && forall k :: k in db.samples ==> db.samples[k].run != n.run
  }

  // Exactly when an update of a sample that keeps its key is accepted.
  lemma SampleUpdates(db: Db, i: Id, n: Sample)
    requires Consistent(db) && i in db.samples
    ensures Accepts(db, OnSample(Update(i, n))) <==> BindsItsRun(db, i, n)
    ensures !Accepts(db, OnSample(Delete(i)))
  {
    if UpdateGuard(db.samples[i], n) {
      SameColumnsFit(db, i, n);
    }
    hide Consistent;
    ProbesAreEnough(db, OnSample(Update(i, n)));
  }

  // Its identifier is another matter. Exactly when a key leaves the table: the statement that
  // binds the sample's run gives it a fresh key too.
  lemma KeysLeaveOnlyByMoving(db: Db, s: Statement, i: Id)
    requires Consistent(db) && i in db.samples
    ensures i !in Step(db, s).samples <==>
      s.Move? && s.from == i && s.to !in db.samples && BindsItsRun(db, i, s.row)
  {
    if s.Move? && s.from == i && Triggers(db, s) {
      SameColumnsProbe(db, i, s.to, s.row);
    }
    hide Consistent;
    ProbesAreEnough(db, s);
  }

  /* ---- which inserts are accepted ---- */

  // The rows of the plan, arm by arm: the slot an arm runs in, and what it runs on.
  predicate PlannedRow(e: Experiment, n: Sample) {
    var compiledFirst := e.pairOrder == Some("counterbalanced") && n.pair % 2 == 0;
    && 1 <= n.pair <= e.sampleCount
    && match n.kind
       case RAW =>
         && n.execution == (if compiledFirst then 2 * n.pair else 2 * n.pair - 1)
         && n.source == Some(e.source) && n.representation == None
       case COMPILED =>
         && n.execution == (if compiledFirst then 2 * n.pair - 1 else 2 * n.pair)
         && n.source == None && n.representation == Some(e.compiled)
       case Unknown(_) => false
  }

  lemma PlannedByArm(e: Experiment, n: Sample)
    ensures PlannedRow(e, n) <==> InPlan(e, n)
  {
    PairOfSlot(n.pair, n.execution);
    KindsOfAPair(e, n.pair);
  }

  // A pair's arm is a slot: two planned rows of an arm are in one slot.
  lemma SlotsDetermineArms(db: Db, n: Sample)
    requires Planned(db.around, db.samples)
    ensures BoundToExperiment(db.around.experiments, n) && InPlan(db.around.experiments[n.experiment], n) ==>
      forall k :: k in db.samples && PairArm(db.samples[k]) == PairArm(n) ==> db.samples[k].execution == n.execution
  {
    if BoundToExperiment(db.around.experiments, n) && InPlan(db.around.experiments[n.experiment], n) {
      forall k | k in db.samples && PairArm(db.samples[k]) == PairArm(n)
        ensures db.samples[k].execution == n.execution
      {
        var e := db.around.experiments[n.experiment];
        PairOfSlot(n.pair, n.execution);
        PairOfSlot(n.pair, db.samples[k].execution);
        KindsOfAPair(e, n.pair);
      }
    }
  }

  // Nobody has the slot, or the run.
  predicate TakesItsOwn(db: Db, n: Sample) {
    && (forall k :: k in db.samples && db.samples[k].experiment == n.experiment ==>
          db.samples[k].execution != n.execution)
    && (n.run.Some? ==>
          && n.run.value in db.around.runs && db.around.runs[n.run.value] == n.merchant
          && forall k :: k in db.samples ==> db.samples[k].run != n.run)
  }

  lemma PlannedInserts(db: Db, i: Id, n: Sample)
    requires Consistent(db) && Planned(db.around, db.samples)
    ensures Accepts(db, OnSample(Insert(i, n))) <==>
      && i !in db.samples && n.experiment in db.around.experiments
      && n.merchant == db.around.experiments[n.experiment].merchant
      && PlannedRow(db.around.experiments[n.experiment], n) && TakesItsOwn(db, n)
  {
    GuardAdmitsExactlyThePlan(db.around.experiments, n);
    SlotsDetermineArms(db, n);
    if n.experiment in db.around.experiments {
      PlannedByArm(db.around.experiments[n.experiment], n);
    }
    hide Consistent, Planned, InPlan, PlannedRow, InsertGuard, SampleCheck;
    ProbesAreEnough(db, OnSample(Insert(i, n)));
  }

  // Exactly when a sample can be written, in any state statements lead to: it is a row of the
  // plan, and neither its slot nor, if it has one, its run is taken.
  lemma SampleInserts(ss: seq<Statement>, i: Id, n: Sample)
    ensures var db := Run(EMPTY, ss);
      Accepts(db, OnSample(Insert(i, n))) <==>
        && i !in db.samples && n.experiment in db.around.experiments
        && n.merchant == db.around.experiments[n.experiment].merchant
        && PlannedRow(db.around.experiments[n.experiment], n) && TakesItsOwn(db, n)
  {
    RunStaysPlanned(EMPTY, ss);
    hide *;
    PlannedInserts(Run(EMPTY, ss), i, n);
  }

  // An experiment is written once, with a sample count above zero, and nothing else is asked.
  lemma NewExperimentIsAccepted(db: Db, id: Id, e: Experiment)
    requires Consistent(db)
    ensures Accepts(db, NewExperiment(id, e)) <==> id !in db.around.experiments && e.sampleCount > 0
  {
    hide Consistent;
    ProbesAreEnough(db, NewExperiment(id, e));
  }

  /* ---- what a complete experiment is ---- */

  function SamplesOf(samples: map<Id, Sample>, e: Id): (ids: set<Id>)
    ensures forall i :: i in ids <==> i in samples && samples[i].experiment == e
  {
    set i | i in samples && samples[i].experiment == e
  }

  ghost function Slots(samples: map<Id, Sample>, e: Id): (xs: set<int>)
    ensures forall x :: x in xs <==> exists i :: i in SamplesOf(samples, e) && samples[i].execution == x
  {
    set i | i in SamplesOf(samples, e) :: samples[i].execution
  }

  function Between(n: nat): (xs: set<int>)
    ensures |xs| == n && forall x :: x in xs <==> 1 <= x <= n
  {
    if n == 0 then {} else Between(n - 1) + {n}
  }

  lemma {:induction false} DistinctSlots(samples: map<Id, Sample>, ids: set<Id>)
    requires ids <= samples.Keys
    requires forall i, j :: i in ids && j in ids && samples[i].execution == samples[j].execution ==> i == j
    ensures |set i | i in ids :: samples[i].execution| == |ids|
    decreases |ids|
  {
    var xs := set i | i in ids :: samples[i].execution;
    if ids == {} {
      assert xs == {};
    } else {
      var k :| k in ids;
      DistinctSlots(samples, ids - {k});
      var rest := set i | i in ids - {k} :: samples[i].execution;
      assert xs == rest + {samples[k].execution};
      assert samples[k].execution !in rest;
    }
  }

  lemma SubsetOfSameSize<T>(a: set<T>, b: set<T>)
    requires a <= b
    ensures |a| <= |b| && (|a| == |b| <==> a == b)
  {
    assert b == a + (b - a);
    assert |b| == |a| + |b - a|;
  }

  // An experiment of n pairs never has more than 2n rows, and has 2n exactly when its slots
  // are 1 to 2n.
  lemma CompleteMeansEverySlot(f: Around, samples: map<Id, Sample>, e: Id)
    requires SamplesOk(f, samples) && Planned(f, samples)
    requires e in f.experiments && f.experiments[e].sampleCount >= 0
    ensures |SamplesOf(samples, e)| <= 2 * f.experiments[e].sampleCount
    ensures |SamplesOf(samples, e)| == 2 * f.experiments[e].sampleCount <==>
      Slots(samples, e) == Between(2 * f.experiments[e].sampleCount)
  {
    var rows := SamplesOf(samples, e);
    forall i, j | i in rows && j in rows && samples[i].execution == samples[j].execution
      ensures i == j
    {
      assert ExecutionSlot(samples[i]) == ExecutionSlot(samples[j]);
    }
    DistinctSlots(samples, SamplesOf(samples, e));
    SubsetOfSameSize(Slots(samples, e), Between(2 * f.experiments[e].sampleCount));
  }

  lemma PlannedSlot(e: Experiment, s: Sample, p: int)
    requires InPlan(e, s)
    ensures s.execution == 2 * p - 1 ==> s.pair == p && s.kind == OpeningKind(e, p)
    ensures s.execution == 2 * p ==> s.pair == p && s.kind == OtherKind(OpeningKind(e, p))
    ensures 1 <= s.pair <= e.sampleCount
  {
    KindsOfAPair(e, p);
    PairOfSlot(s.pair, s.execution);
  }

  // In a complete experiment, the row in slot x.
  lemma RowInSlot(f: Around, samples: map<Id, Sample>, e: Id, x: int) returns (i: Id)
    requires Planned(f, samples) && e in f.experiments && 1 <= x <= 2 * f.experiments[e].sampleCount
    requires Slots(samples, e) == Between(2 * f.experiments[e].sampleCount)
    ensures i in SamplesOf(samples, e) && samples[i].execution == x && InPlan(f.experiments[e], samples[i])
  {
    assert x in Slots(samples, e);
    i :| i in SamplesOf(samples, e) && samples[i].execution == x;
  }

  // Which rows are the given kind of the given pair.
  ghost function Arm(samples: map<Id, Sample>, e: Id, pair: int, kind: Kind): set<Id> {
    set i | i in SamplesOf(samples, e) && samples[i].pair == pair && samples[i].kind == kind
  }

  lemma OneRowPerArm(f: Around, samples: map<Id, Sample>, e: Id, i: Id)
    requires SamplesOk(f, samples) && i in SamplesOf(samples, e)
    ensures Arm(samples, e, samples[i].pair, samples[i].kind) == {i}
  {
    forall j | j in Arm(samples, e, samples[i].pair, samples[i].kind) ensures j == i {
      assert PairArm(samples[j]) == PairArm(samples[i]);
    }
  }

  // Exactly one row of pair p is of the given kind, and it ran in the given slot.
  ghost predicate ArmRanIn(samples: map<Id, Sample>, e: Id, p: int, kind: Kind, x: int) {
    exists i :: i in samples && Arm(samples, e, p, kind) == {i} && samples[i].execution == x
  }

  // All the rows there can be.
  predicate Complete(db: Db, e: Id) {
    e in db.around.experiments && |SamplesOf(db.samples, e)| == 2 * db.around.experiments[e].sampleCount
  }

  // 2n accepted rows of one experiment of n pairs, however they got there: each pair has one
  // RAW row and one COMPILED row, in slots 2p - 1 and 2p and in the order the plan gives.
  lemma CompleteMeansEveryPair(ss: seq<Statement>, e: Id, p: int)
    requires var db := Run(EMPTY, ss); Complete(db, e) && 1 <= p <= db.around.experiments[e].sampleCount
    ensures var db := Run(EMPTY, ss);
      var compiledFirst := db.around.experiments[e].pairOrder == Some("counterbalanced") && p % 2 == 0;
      && ArmRanIn(db.samples, e, p, if compiledFirst then COMPILED else RAW, 2 * p - 1)
      && ArmRanIn(db.samples, e, p, if compiledFirst then RAW else COMPILED, 2 * p)
  {
    var f, samples := Run(EMPTY, ss).around, Run(EMPTY, ss).samples;
    RunStaysPlanned(EMPTY, ss);
    CompleteMeansEverySlot(f, samples, e);
    var i := RowInSlot(f, samples, e, 2 * p - 1);
    var j := RowInSlot(f, samples, e, 2 * p);
    PlannedSlot(f.experiments[e], samples[i], p);
    PlannedSlot(f.experiments[e], samples[j], p);
    OneRowPerArm(f, samples, e, i);
    OneRowPerArm(f, samples, e, j);
  }

  /* ---- order effects ---- */

  predicate Opens(s: Sample, kind: Kind) { s.execution == 2 * s.pair - 1 && s.kind == kind }

  // The pairs whose first slot was taken by the given kind.
  ghost function OpenedBy(samples: map<Id, Sample>, e: Id, kind: Kind): set<int> {
    set i | i in SamplesOf(samples, e) && Opens(samples[i], kind) :: samples[i].pair
  }

  // The pairs of the plan that open COMPILED, or that open RAW.
  function PlannedOpenings(e: Experiment, n: nat, compiled: bool): (ps: set<int>)
    ensures forall p :: p in ps <==> 1 <= p <= n && CompiledFirst(e, p) == compiled
    ensures |ps| == if !Counterbalanced(e) then (if compiled then 0 else n) else if compiled then n / 2 else (n + 1) / 2
  {
    if n == 0 then {} else PlannedOpenings(e, n - 1, compiled) + if CompiledFirst(e, n) == compiled then {n} else {}
  }

  lemma OpenerIsPlanned(f: Around, samples: map<Id, Sample>, e: Id, compiled: bool, p: int)
    requires Planned(f, samples) && e in f.experiments && f.experiments[e].sampleCount >= 0
    requires Slots(samples, e) == Between(2 * f.experiments[e].sampleCount)
    ensures p in OpenedBy(samples, e, if compiled then COMPILED else RAW) <==>
      1 <= p <= f.experiments[e].sampleCount && CompiledFirst(f.experiments[e], p) == compiled
  {
    var plan, kind := f.experiments[e], if compiled then COMPILED else RAW;
    if p in OpenedBy(samples, e, kind) {
      var i :| i in SamplesOf(samples, e) && Opens(samples[i], kind) && samples[i].pair == p;
      PlannedSlot(plan, samples[i], p);
    } else if 1 <= p <= plan.sampleCount {
      var i := RowInSlot(f, samples, e, 2 * p - 1);
      PlannedSlot(plan, samples[i], p);
      assert !Opens(samples[i], kind);
    }
  }

  lemma OpenersArePlanned(f: Around, samples: map<Id, Sample>, e: Id, compiled: bool)
    requires Planned(f, samples) && e in f.experiments && f.experiments[e].sampleCount >= 0
    requires Slots(samples, e) == Between(2 * f.experiments[e].sampleCount)
    ensures OpenedBy(samples, e, if compiled then COMPILED else RAW)
         == PlannedOpenings(f.experiments[e], f.experiments[e].sampleCount, compiled)
  {
    var openers := OpenedBy(samples, e, if compiled then COMPILED else RAW);
    var planned := PlannedOpenings(f.experiments[e], f.experiments[e].sampleCount, compiled);
    forall p ensures p in openers <==> p in planned {
      OpenerIsPlanned(f, samples, e, compiled, p);
    }
  }

  // A complete counterbalanced experiment opens as many pairs with one kind as with the other,
  // give or take the odd one out. One that is not counterbalanced opens every pair RAW.
  lemma PairOrderIsBalanced(ss: seq<Statement>, e: Id)
    requires Complete(Run(EMPTY, ss), e)
    ensures var db := Run(EMPTY, ss); var plan := db.around.experiments[e];
      |OpenedBy(db.samples, e, RAW)| - |OpenedBy(db.samples, e, COMPILED)|
      == if plan.pairOrder == Some("counterbalanced") then plan.sampleCount % 2 else plan.sampleCount
  {
    var f, samples := Run(EMPTY, ss).around, Run(EMPTY, ss).samples;
    RunStaysPlanned(EMPTY, ss);
    CompleteMeansEverySlot(f, samples, e);
    OpenersArePlanned(f, samples, e, false);
    OpenersArePlanned(f, samples, e, true);
  }

  // The downgrade refuses while a counterbalanced experiment exists. When it does not, every
  // row on the table is one the restored trigger would have let in.
  lemma DowngradeLeavesLegalRows(ss: seq<Statement>, i: Id)
    requires i in Run(EMPTY, ss).samples
    requires var es := Run(EMPTY, ss).around.experiments;
      forall e :: e in es ==> es[e].pairOrder != Some("counterbalanced")
    ensures OldInsertGuard(Run(EMPTY, ss).around.experiments, Run(EMPTY, ss).samples[i])
  {
    RunStaysPlanned(EMPTY, ss);
    GuardAdmitsExactlyThePlan(Run(EMPTY, ss).around.experiments, Run(EMPTY, ss).samples[i]);
  }
}
