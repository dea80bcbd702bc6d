/** Reserving provider requests: what a benchmark run may spend, counted under one lock per
    provider, however reservations and settlements interleave. */
module ProviderBudget {
  import opened Relational
  import opened BenchmarkSchema
  import opened PermitLedger

  // What a run may spend in all, what one mission may take of it, and the least a mission runs on.
  datatype Budget = Budget(max: int, perMission: int, floor: int)

  predicate Sane(b: Budget) { 1 <= b.floor <= b.perMission <= b.max && Integer(b.max) }

  function Least(a: int, b: int): int { if a < b then a else b }
  function Most(a: int, b: int): int { if a < b then b else a }

  // An allowance is a percentage of the turns on top of them.
  function FrozenBudget(missions: int, turns: int, allowance: int, multiplier: int): Option<Budget> {
    if missions < 1 || turns < 1 then None
    else
      var base := missions * turns;
      var max := Most((base * (100 + allowance) + 99) / 100, base);
      Some(Budget(max, Least(Most(turns * multiplier, turns), max), turns))
  }

  // The ceiling is the least number of requests that covers every turn and is no less than the
  // percentage says. One mission may take the policy's multiple of its turns, but never less than
  // its turns and never more than the ceiling.
  lemma FrozenBudgetCoversThePercentage(missions: int, turns: int, allowance: int, multiplier: int)
    ensures FrozenBudget(missions, turns, allowance, multiplier).Some? <==> missions >= 1 && turns >= 1
    ensures FrozenBudget(missions, turns, allowance, multiplier).Some? ==>
      var b := FrozenBudget(missions, turns, allowance, multiplier).value;
      && b.floor == turns <= b.perMission <= b.max
      && (forall n :: b.max <= n <==> missions * turns <= n && missions * turns * (100 + allowance) <= 100 * n)
      && (turns * multiplier < turns ==> b.perMission == turns)
      && (turns <= turns * multiplier <= b.max ==> b.perMission == turns * multiplier)
      && (b.max < turns * multiplier ==> b.perMission == b.max)
  {
    if missions >= 1 && turns >= 1 {
      assert (missions - 1) * turns >= 0;
    }
  }

  /* ---- transactions over the permits ---- */

  // The permits of every run, of which one has this budget and reserves at these providers; who
  // holds the lock of a provider, and what a transaction has decided to insert.
  datatype World = World(
    budget: Budget, run: Id, providers: set<string>,
    permits: map<Id, Permit>, locks: map<string, Id>, pending: map<Id, Permit>)

  datatype Event =
    | Lock(txn: Id, provider: string)
    | Decide(txn: Id, row: Permit, window: Option<int>)
    | Commit(txn: Id, newId: Id)
    | GiveUp(txn: Id)
    | Settle(permit: Id, row: Permit)

  ghost function Spent(w: World): int { SumBy(w.permits, ChargeTo(w.run)) }

  // The smallest of what a mission may take, what the run has left and what the window has left,
  // or a halt when either is below the floor.
  ghost function Grant(w: World, window: Option<int>): Option<int> {
    var left := w.budget.max - Spent(w);
    if left < w.budget.floor || (window.Some? && window.value < w.budget.floor) then None
    else
      var granted := Least(w.budget.perMission, left);
      Some(if window.Some? then Least(granted, window.value) else granted)
  }

  // What is granted is no more than any of the three, and is one of them; and a run is halted
  // exactly when it or the window has less left than one mission needs.
  lemma GrantIsTheSmallest(w: World, window: Option<int>)
    ensures var left := w.budget.max - Spent(w);
      Grant(w, window).None? <==> left < w.budget.floor || (window.Some? && window.value < w.budget.floor)
    ensures Grant(w, window).Some? ==>
      var g, left := Grant(w, window).value, w.budget.max - Spent(w);
      && g <= w.budget.perMission && g <= left && (window.Some? ==> g <= window.value)
      && (g == w.budget.perMission || g == left || window == Some(g))
    ensures Grant(w, window).Some? && w.budget.floor <= w.budget.perMission ==>
      Grant(w, window).value >= w.budget.floor
  {
  }

  predicate Unused(permits: map<Id, Permit>, row: Permit) {
    forall p :: p in permits ==> PermitAttempt(permits[p]) != PermitAttempt(row)
  }

  // Other runs are granted what their own budgets allow, which may be anything.
  ghost predicate Enabled(w: World, e: Event) {
    match e
    case Lock(txn, provider) => provider !in w.locks && txn !in w.pending
    case Decide(txn, row, window) =>
      && txn !in w.pending && row.pins.provider in w.locks && w.locks[row.pins.provider] == txn
      && PermitCheck(row) && row.state == RESERVED && Unused(w.permits, row)
      && (row.pins.run == w.run ==>
            row.pins.provider in w.providers && Grant(w, window) == Some(row.pins.granted))
    case Commit(txn, newId) => txn in w.pending && newId !in w.permits
    case GiveUp(txn) => true
    case Settle(p, row) => p in w.permits && PermitGuard(w.permits[p], row) && PermitCheck(row)
  }

  // A lock ends with its transaction.
  function Ended(w: World, txn: Id): World {
    w.(locks := map p | p in w.locks && w.locks[p] != txn :: w.locks[p], pending := w.pending - {txn})
  }

  // An insert that finds its attempt taken does nothing.
  function Wrote(w: World, row: Permit, newId: Id): World {
    if Unused(w.permits, row) then w.(permits := w.permits[newId := row]) else w
  }

  function After(w: World, e: Event): World {
    match e
    case Lock(txn, provider) => w.(locks := w.locks[provider := txn])
    case Decide(txn, row, _) => w.(pending := w.pending[txn := row])
    case Commit(txn, newId) => if txn in w.pending then Ended(Wrote(w, w.pending[txn], newId), txn) else w
    case GiveUp(txn) => Ended(w, txn)
    case Settle(p, row) => w.(permits := w.permits[p := row])
  }

  ghost function Happen(w: World, e: Event): World { if Enabled(w, e) then After(w, e) else w }

  ghost function Run(w: World, es: seq<Event>): World
    decreases |es|
  {
    if es == [] then w else Run(Happen(w, es[0]), es[1..])
  }

  function Opening(budget: Budget, run: Id, providers: set<string>): World {
    World(budget, run, providers, map[], map[], map[])
  }

  /* ---- one provider ---- */

  // What the transaction that holds the lock has decided to charge to the run.
  function Due(w: World, provider: string): int {
    if provider in w.locks && w.locks[provider] in w.pending && w.pending[w.locks[provider]].pins.run == w.run
    then w.pending[w.locks[provider]].pins.granted else 0
  }

  predicate LockHeld(w: World, txn: Id)
    requires txn in w.pending
  {
    var pins := w.pending[txn].pins;
    && PermitCheck(w.pending[txn]) && w.pending[txn].state == RESERVED
    && pins.provider in w.locks && w.locks[pins.provider] == txn
    && (pins.run == w.run ==> pins.provider in w.providers)
  }

  ghost predicate Orderly(w: World, provider: string) {
    && w.providers <= {provider}
    && (forall p :: p in w.permits ==> PermitCheck(w.permits[p]))
    && (forall t :: t in w.pending ==> LockHeld(w, t))
  }

  ghost predicate Sound(w: World, provider: string) {
    Orderly(w, provider) && Spent(w) + Due(w, provider) <= w.budget.max
  }

  lemma DueIsNotNegative(w: World, provider: string)
    requires Orderly(w, provider)
    ensures Due(w, provider) >= 0
  {
    if provider in w.locks && w.locks[provider] in w.pending {
      assert LockHeld(w, w.locks[provider]);
    }
  }

  lemma EndSound(w: World, provider: string, txn: Id)
    requires Sound(w, provider)
    ensures Sound(Ended(w, txn), provider)
  {
    var next := Ended(w, txn);
    forall t | t in next.pending ensures LockHeld(next, t) {
      assert LockHeld(w, t);
    }
    DueIsNotNegative(w, provider);
  }

  // What was due becomes spent, or was reserved by somebody else already.
  lemma CommitSound(w: World, provider: string, txn: Id, newId: Id)
    requires Sound(w, provider) && Enabled(w, Commit(txn, newId))
    ensures Sound(After(w, Commit(txn, newId)), provider)
  {
    var row := w.pending[txn];
    assert LockHeld(w, txn);
    EndSound(w, provider, txn);
    if Unused(w.permits, row) {
      var ended := Ended(w, txn);
      var next := ended.(permits := w.permits[newId := row]);
      assert next == Ended(Wrote(w, row, newId), txn);
      SumWritten(w.permits, ChargeTo(w.run), newId, row);
      forall t | t in next.pending ensures LockHeld(next, t) {
        assert LockHeld(ended, t);
      }
    }
  }

  lemma EventSound(w: World, provider: string, e: Event)
    requires Sound(w, provider)
    ensures Sound(Happen(w, e), provider)
  {
    if Enabled(w, e) {
      var next := Happen(w, e);
      match e
      case GiveUp(txn) => EndSound(w, provider, txn);
      case Commit(txn, newId) => CommitSound(w, provider, txn, newId);
      case Settle(p, row) =>
        SettlingHandsBack(w.permits[p], row);
        SumWritten(w.permits, ChargeTo(w.run), p, row);
        assert forall t :: t in next.pending ==> LockHeld(w, t);
      case _ =>
        forall t | t in next.pending ensures LockHeld(next, t) {
          assert t in w.pending ==> LockHeld(w, t);
        }
    }
  }

  // A run that reserves at one provider never spends more than its budget.
  lemma {:induction false} BudgetHolds(w: World, provider: string, es: seq<Event>)
    requires Sound(w, provider)
    ensures Spent(Run(w, es)) <= w.budget.max
    decreases |es|
  {
    DueIsNotNegative(w, provider);
    if es != [] {
      EventSound(w, provider, es[0]);
      BudgetHolds(Happen(w, es[0]), provider, es[1..]);
    }
  }

  /* ---- two providers ---- */

  // Nobody at work, and n is above every identifier and every attempt key's length.
  predicate Quiet(w: World, n: nat) {
    && w.locks == map[] && w.pending == map[]
    && forall p :: p in w.permits ==> p < n && |w.permits[p].pins.attemptKey| < n
  }

  function Reservation(w: World, provider: string, n: nat): Permit {
    var key := seq(n, i => 'k');
    Permit(PermitPins(0, None, w.run, "", 1, key, provider, "", 1, w.budget.perMission, 0), RESERVED, None, None)
  }

  lemma ThreeSteps(w: World, a: Event, b: Event, c: Event, rest: seq<Event>)
    ensures Run(w, [a, b, c] + rest) == Run(Happen(Happen(Happen(w, a), b), c), rest)
  {
    hide Happen;
    var es := [a, b, c] + rest;
    assert es[1..] == [b, c] + rest && ([b, c] + rest)[1..] == [c] + rest && ([c] + rest)[1..] == rest;
    var w1 := Happen(w, a);
    assert Run(w, es) == Run(w1, [b, c] + rest) == Run(Happen(w1, b), [c] + rest);
  }

  function Reserving(w: World, provider: string, n: nat): seq<Event> {
    [Lock(0, provider), Decide(0, Reservation(w, provider, n), None), Commit(0, n)]
  }

  function Reserved(w: World, provider: string, n: nat): World {
    w.(permits := w.permits[n := Reservation(w, provider, n)])
  }

  lemma ReservedSpends(w: World, provider: string, n: nat)
    requires Quiet(w, n)
    ensures Quiet(Reserved(w, provider, n), n + 1)
    ensures Spent(Reserved(w, provider, n)) == Spent(w) + w.budget.perMission
  {
    SumWritten(w.permits, ChargeTo(w.run), n, Reservation(w, provider, n));
  }

  // With enough left, a mission takes all it may.
  lemma OneReservation(w: World, provider: string, n: nat, rest: seq<Event>)
    requires Quiet(w, n) && Sane(w.budget) && provider in w.providers
    requires w.budget.max - Spent(w) >= w.budget.perMission
    ensures Run(w, Reserving(w, provider, n) + rest) == Run(Reserved(w, provider, n), rest)
  {
    var es := Reserving(w, provider, n);
    ThreeSteps(w, es[0], es[1], es[2], rest);
    var locked := w.(locks := map[provider := 0]);
    var decided := locked.(pending := map[0 := Reservation(w, provider, n)]);
    assert Happen(w, es[0]) == locked;
    assert Happen(locked, es[1]) == decided;
    assert Happen(decided, es[2]) == Reserved(w, provider, n);
  }

  // Two missions, at two providers, that count before either has written.
  function Together(w: World, p: string, q: string, n: nat): seq<Event> {
    [Lock(0, p), Decide(0, Reservation(w, p, n), None), Lock(1, q)] +
    [Decide(1, Reservation(w, q, n + 1), None), Commit(0, n), Commit(1, n + 1)]
  }

  function BothDecided(w: World, p: string, q: string, n: nat): World {
    w.(locks := map[p := 0, q := 1], pending := map[0 := Reservation(w, p, n), 1 := Reservation(w, q, n + 1)])
  }

  function OneLeft(w: World, p: string, q: string, n: nat): World {
    Reserved(w, p, n).(locks := map[q := 1], pending := map[1 := Reservation(w, q, n + 1)])
  }

  // Neither count sees the other's decision, so both find the same amount left.
  lemma BothDecide(w: World, p: string, q: string, n: nat)
    requires Quiet(w, n) && Sane(w.budget) && p in w.providers && q in w.providers && p != q
    requires w.budget.max - Spent(w) >= w.budget.perMission
    ensures var es := Together(w, p, q, n);
      Happen(Happen(Happen(Happen(w, es[0]), es[1]), es[2]), es[3]) == BothDecided(w, p, q, n)
  {
    var es := Together(w, p, q, n);
    var w1 := w.(locks := map[p := 0]);
    var w2 := w1.(pending := map[0 := Reservation(w, p, n)]);
    var w3 := w2.(locks := map[p := 0, q := 1]);
    assert Happen(w, es[0]) == w1;
    assert Happen(w1, es[1]) == w2;
    assert Happen(w2, es[2]) == w3;
    assert Happen(w3, es[3]) == BothDecided(w, p, q, n);
  }

  lemma BothCommit(w: World, p: string, q: string, n: nat)
    requires Quiet(w, n) && p != q
    ensures Happen(BothDecided(w, p, q, n), Commit(0, n)) == OneLeft(w, p, q, n)
    ensures Happen(OneLeft(w, p, q, n), Commit(1, n + 1)) == Reserved(Reserved(w, p, n), q, n + 1)
  {
    var both, one := BothDecided(w, p, q, n), OneLeft(w, p, q, n);
    assert Ended(Wrote(both, both.pending[0], n), 0) == one;
    assert Ended(Wrote(one, one.pending[1], n + 1), 1) == Reserved(Reserved(w, p, n), q, n + 1);
  }

  lemma TwoReservations(w: World, p: string, q: string, n: nat)
    requires Quiet(w, n) && Sane(w.budget) && p in w.providers && q in w.providers && p != q
    requires w.budget.max - Spent(w) >= w.budget.perMission
    ensures Run(w, Together(w, p, q, n)) == Reserved(Reserved(w, p, n), q, n + 1)
  {
    BothDecide(w, p, q, n);
    BothCommit(w, p, q, n);
    hide Happen, Reservation, BothDecided, OneLeft, Reserved;
    var es := Together(w, p, q, n);
    ThreeSteps(w, es[0], es[1], es[2], es[3..]);
    ThreeSteps(Happen(Happen(Happen(w, es[0]), es[1]), es[2]), es[3], es[4], es[5], []);
    assert es == [es[0], es[1], es[2]] + es[3..] && es[3..] == [es[3], es[4], es[5]] + [];
  }

  // Missions reserve until less than two shares are left, and then two take one each.
  lemma {:induction false} TwoProvidersOverspend(w: World, p: string, q: string, n: nat)
    requires Quiet(w, n) && Sane(w.budget) && p in w.providers && q in w.providers && p != q
    requires w.budget.max - Spent(w) >= w.budget.perMission
    ensures exists es :: Spent(Run(w, es)) > w.budget.max
    decreases w.budget.max - Spent(w)
  {
    hide Happen, Reservation, ChargeTo;
    ReservedSpends(w, p, n);
    var next := Reserved(w, p, n);
    if w.budget.max - Spent(w) >= 2 * w.budget.perMission {
      TwoProvidersOverspend(next, p, q, n + 1);
      var es :| Spent(Run(next, es)) > w.budget.max;
      OneReservation(w, p, n, es);
    } else {
      TwoReservations(w, p, q, n);
      ReservedSpends(next, q, n + 1);
    }
  }

  ghost predicate NeverOverspends(w: World) { forall es :: Spent(Run(w, es)) <= w.budget.max }

  // The charge is summed over every provider and the lock is one provider's, so the budget holds,
  // whatever happens, exactly for a run that reserves at no more than one.
  lemma OneProviderIsExactlyWhatIsNeeded(budget: Budget, run: Id, providers: set<string>)
    requires Sane(budget)
    ensures NeverOverspends(Opening(budget, run, providers)) <==>
      forall p, q :: p in providers && q in providers ==> p == q
  {
    var w := Opening(budget, run, providers);
    if p, q :| p in providers && q in providers && p != q {
      TwoProvidersOverspend(w, p, q, 0);
    } else {
      var provider := "";
      if providers != {} {
        provider :| provider in providers;
      }
      forall es ensures Spent(Run(w, es)) <= budget.max {
        BudgetHolds(w, provider, es);
      }
    }
  }

  /* ---- one permit an attempt ---- */

  predicate SameAttempt(a: Permit, b: Permit) {
    a.pins.run == b.pins.run && a.pins.attemptKey == b.pins.attemptKey
  }

  ghost predicate OnePermitEach(permits: map<Id, Permit>) {
    forall i, j :: i in permits && j in permits && SameAttempt(permits[i], permits[j]) ==> i == j
  }

  // Permit p is still there on its terms, and final once settled.
  predicate StaysPermitted(before: map<Id, Permit>, after: map<Id, Permit>, p: Id) {
    && p in before && p in after && after[p].pins == before[p].pins
    && (before[p].state != RESERVED ==> after[p] == before[p])
  }

  lemma EventKeepsPermits(w: World, e: Event)
    requires OnePermitEach(w.permits)
    ensures OnePermitEach(Happen(w, e).permits)
    ensures forall p :: p in w.permits ==> StaysPermitted(w.permits, Happen(w, e).permits, p)
  {
  }

  // Two callers that reserve the same attempt at once get one permit between them, whatever they
  // counted and whichever providers they locked; and it stays, on the terms it was granted.
  lemma {:induction false} OnePermitPerAttempt(w: World, es: seq<Event>)
    requires OnePermitEach(w.permits)
    ensures OnePermitEach(Run(w, es).permits)
    ensures forall p :: p in w.permits ==> StaysPermitted(w.permits, Run(w, es).permits, p)
    decreases |es|
  {
    if es != [] {
      EventKeepsPermits(w, es[0]);
      OnePermitPerAttempt(Happen(w, es[0]), es[1..]);
      assert forall p :: p in w.permits ==> StaysPermitted(w.permits, Happen(w, es[0]).permits, p);
    }
  }
}
