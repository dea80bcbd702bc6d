# AgentRank: what the layer that cannot be bypassed keeps

AgentRank lets AI buyers shop at merchants under spending mandates, and benchmarks how well they
do. Its services sit on a layer that holds whatever they do: the order rows are locked in, the
bound on every request body, and database state machines written as triggers, CHECKs, unique
indexes and composite foreign keys. This project models that layer and proves what it keeps over
every run, every input and every interleaving.

Verify it with `dafny verify dfyconfig.toml`.

## Modules

- `LockOrder`, `Deadlock`: the check on one transaction's lock sequence, and the concurrent claim
  it exists for. Transactions are sequences of (class, identifier) rows, each held to commit.
- `Scanner`, `JsonDepth`, `BodyLimiter`: the byte scan, its agreement with JSON nesting, and the
  middleware around it: drain, refuse or replay.
- `Refusals`: error bodies built from a caller's own text.
- `Relational`: tables as finite maps, with unique indexes, foreign keys and sums over rows.
- `PaymentSchema`, `PaymentDatabase`: mandate, checkout, reservation and lines, payment attempt and
  Razorpay binding. `PaymentTransitions` says exactly which writes they accept, and `PaymentPurchase`
  that a purchase can be completed. `PaymentHistory`, `PaymentMoney`, `PaymentHolds` and
  `PaymentLifecycles` prove what runs of statements keep; `PaymentMigration` covers the guard rewrite
  and the downgrade.
- `BenchmarkSchema`, `BenchmarkDatabase`: benchmark run, mission run, launch and provider permit.
  `BenchmarkTransitions` says exactly which writes they accept, and `BenchmarkEvaluation` that an
  evaluation can settle. `BenchmarkHistory`, `BenchmarkLifecycles` and `PermitLedger` prove what runs
  of statements keep.
- `ProviderBudget`: transactions that count what a run was charged under one provider's lock and
  reserve the rest.
- `Experiment`, `WriteOrder`: the counterbalanced sample plan, and the identity-column backfill.
- `Inventory`, `InventoryAlone`: transactions that lock variants, count what is held and write
  reservations; why they never promise more than there is, and how exact their clocks must be.
- `Lifecycles`: counting changes along a sequence of states.

## How a database is modelled

A state is one map per table, from primary key to row. NULL is `None` and `IS DISTINCT FROM` is
`!=`. A statement inserts, updates or deletes one row. `Accepts` says when it takes effect: it
addresses a row (or a fresh key), its triggers let the old and new row through, and every CHECK,
unique index and foreign key holds afterwards; otherwise nothing changes. Each class keeps the maps
and decides the same thing from the one row written, as an index probe and a key lookup would, and
`ProbesAreEnough` is the proof that this suffices. Statements run one at a time with triggers on.

Keys to and from tables a model does not hold are part of its state: `Outside` carries the rows those
keys can point at and the rows here that other tables name, so that a delete they would refuse is
refused. `Elsewhere` is a statement that changes the tables beside these in any way the keys allow.

Theorems over runs take every statement the schema accepts, not only those the services issue.

What those statements are is stated twice. The schema modules follow the source: triggers, CHECKs,
indexes and keys, each by itself. The transition modules say what they come to together, statement by
statement and with every column and status written out, and prove that this is exactly what is accepted.

Each guard is a predicate. Their sources are:

- `MandateGuard`, `CheckoutGuard`, `ReservationGuard`, `AttemptGuard`: 20260821_2155 lines 83-312,
  and the blacklists they replaced beside them; `BindingGuard`: 20260822_0620 lines 47-89;
  `LineGuard`: 20260821_1846 lines 86-98.
- `RunGuard`: 20260823_1420 lines 42-81; `RunDeleteGuard`: 20260823_1610 lines 36-46;
  `MissionInsertGuard`, `MissionGuard`, `MissionDeleteGuard`: 20260822_1458 lines 61-173;
  `LaunchInsertGuard`, `LaunchGuard`: 20260826_0900 lines 71-144; `LaunchCheck`: 20260825_0900 lines
  168-215 and 20260825_1900 lines 299-339; `PermitGuard` and `Charge`: 20260826_0900 lines 60-66 and
  205-248.
- `InsertGuard`, `OldInsertGuard`: 20260824_1800 lines 20-90.

## Where the code and its prose differ

The model follows the code. In each case a lemma says exactly when the code does what the prose says.

- The lock order check sees tables, not rows. Together with "variant rows in ascending identifier"
  it still admits a deadlock, because a second variant locked after a reservation belongs to a class
  already seen (`DocumentedPremiseIsNotEnough`). What is missing is stated by
  `TableCheckPlusNewRows`.
- `_drain` bounds a body by `max_bytes`, not by the length it declared, so a body never exceeds its
  declaration exactly when that is at least `max_bytes` (`DeclarationBoundsOnlyAtTheLimit`).
- `shortened` exceeds a limit below three, because the slice bound turns negative (`ShortenedFits`).
  Every limit in use is larger.
- The payment tables guard UPDATE but neither INSERT nor DELETE. A success is lost exactly when it is
  deleted while nothing names it (`SuccessIsLostOnlyByDelete`), and quantity is returned or sold
  without having been held exactly when its line is inserted under a finished hold
  (`BornSettledExactlyUnderAFinishedHold`).
- 20260822_1458 line 19 says runs and mission runs both gain an INSERT guard; only mission runs do.
  A run is accepted in any status (`RunsAreBornInAnyStatus`), and one born started stays without
  mission runs (`RunBornStartedStaysEmpty`).
- A result can be recorded under a PENDING run and then go with it
  (`ResultsCanBeRecordedBeforeTheRunStarts`, `MissionGoesOnlyWithAPendingRun`). Freezing starts when
  the run does.
- `representation_id`, added to runs by 20260824_0900, is in no guard's frozen list
  (`RepresentationMovesUntilFinished`).
- The original experiment trigger compares with a NULL slot when a row's kind is unknown and lets it
  through; only the CHECK refuses it (`GuardsAgreeWithoutCounterbalancing`).
- The sample trigger calls sample identity immutable but does not compare `id`, so the update that
  binds a run may also move the key. A sample is never lost (`SamplesArePermanent`); its key goes
  exactly in that way (`KeysLeaveOnlyByMoving`).
- The admission instant is called the real clock, but each process reads its own, and the accounting
  instant is an argument. Stock is safe from overselling exactly when those clocks agree and no count
  is taken ahead of them (`OneClockIsExactlyWhatIsNeeded`).
- `reserve` locks one provider and sums a run's charge over all of them. That keeps a run within its
  budget exactly when it reserves at one (`OneProviderIsExactlyWhatIsNeeded`), which is how the
  services open it.

## Model

| member | source | states |
|---|---|---|
| `LockOrder.RespectsLockOrder` | apps/api/src/agentrank_api/locking.py:75-97 | the loop answers true exactly when the ordered classes are first locked in strictly increasing `LOCK_ORDER` |
| `LockOrder.PrefixesStayInOrder` | apps/api/src/agentrank_api/locking.py:89-97 | closed under prefixes: an obeyed order was obeyed at every earlier moment |
| `LockOrder.OtherLocksAreIgnored` | apps/api/src/agentrank_api/locking.py:81-91 | unknown tables and re-acquisitions may be inserted anywhere (after the first, for the latter) without changing the verdict |
| `LockOrder.SubsequenceOfLockOrder` | apps/api/src/agentrank_api/locking.py:76-79 | the verdict is true exactly when the classes locked, each once, form a subsequence of `LOCK_ORDER` |
| `LockOrder.TheOnlyOrderOfAllSix` | apps/api/src/agentrank_api/locking.py:56-72 | a transaction that needs all six classes obeys the order exactly when it first locks them as mandate, checkout, variant, reservation, payment attempt, Razorpay checkout |
| `Deadlock.NoWaitCycle` | apps/api/src/agentrank_api/locking.py:3-6 | any number of ordered transactions, any interleaving: no wait-for cycle of any length in any reachable state |
| `Deadlock.OrderedTransactionsFinish` | apps/api/src/agentrank_api/locking.py:29-32 | from every reachable state somebody unfinished can step, every run is bounded by a measure fixed at the start, and every run extends to one where all have committed |
| `Deadlock.OrderIsExactlyWhatIsNeeded` | apps/api/src/agentrank_api/locking.py:3-6 | a transaction is safe beside every ordered partner exactly when it is itself ordered |
| `Deadlock.DisorderDeadlocks` | apps/api/src/agentrank_api/locking.py:3-6 | for every transaction out of order, an ordered partner and a schedule that deadlock with it |
| `Deadlock.TableCheckPlusNewRows` | apps/api/src/agentrank_api/locking.py:75-97 | row order holds exactly when the table-level check passes and every new row of a class already locked has a higher identifier and precedes later classes |
| `Deadlock.DocumentedPremiseIsNotEnough` | apps/api/src/agentrank_api/locking.py:16-18 | the table check plus "variant rows ascending" alone admit a deadlock: a second variant taken after a reservation is skipped by the check |
| `Scanner.WithinDepth` | apps/api/src/agentrank_api/limits.py:189-219 | the byte scan is true exactly when no window ending at an opening bracket holds more than the bound of openings over closings outside strings, for every bound |
| `Scanner.ShallowMeansEveryWindow` | apps/api/src/agentrank_api/limits.py:214-218 | for a bound of zero or more that is every contiguous window, so surplus closers never buy headroom |
| `Scanner.TooDeepStaysTooDeep` | apps/api/src/agentrank_api/limits.py:210-213 | a body cut off as too deep cannot be rescued by what follows, which is why returning early is right |
| `JsonDepth.ScanMeasuresNesting` | apps/api/src/agentrank_api/limits.py:189-219 | on every JSON text (RFC 8259 sections 2, 4, 5 and 7), with any whitespace, escapes and string contents, the scan passes exactly when nesting depth is within the bound |
| `JsonDepth.ScanOfValue` | apps/api/src/agentrank_api/limits.py:196-219 | scanning one printed value, from any level, returns to that level outside any string, or stops at exactly the depth of the value |
| `JsonDepth.FeedAllIsShallow` | apps/api/src/agentrank_api/limits.py:196-219 | an independent state machine for the scan agrees with the window specification on all bytes |
| `BodyLimiter.Drain` | apps/api/src/agentrank_api/limits.py:165-186 | returns the whole body exactly when it is within the bound, consuming exactly its messages; otherwise stops at the first message that goes over |
| `BodyLimiter.Replay.Receive` | apps/api/src/agentrank_api/limits.py:222-233 | hands the body over once, in one piece and marked final, then reports disconnection for ever |
| `BodyLimiter.RequestBodyLimit.Call` | apps/api/src/agentrank_api/limits.py:87-134 | the application is entered untouched exactly when the scope is not http, or its route has no limit and its method takes no default; a named route is held to its own limit and every other POST, PUT and PATCH to the default; what is bounded arrives with its complete body, of legal length and depth, or not at all after exactly one refusal, and which one; a refused declaration reads nothing |
| `BodyLimiter.LimitsFollowTheRoute` | apps/api/src/agentrank_api/limits.py:137-148 | the limit found for a route is the same wherever the application is mounted, and with or without one trailing slash |
| `BodyLimiter.DeclaredByOneHeader` | apps/api/src/agentrank_api/limits.py:151-162 | a body is declared exactly when one header and only one is spelled Content-Length, in any case, and its value reads as a number of zero or more |
| `BodyLimiter.WhereABodyEnds` | apps/api/src/agentrank_api/limits.py:165-186 | a body goes on only after a request message that says more follows, and a message without a body adds nothing |
| `BodyLimiter.ChunkingChangesNothing` | apps/api/src/agentrank_api/limits.py:173-186 | splitting a chunk anywhere leaves the body, and so the verdict, unchanged |
| `BodyLimiter.TruncationNeverRefuses` | apps/api/src/agentrank_api/limits.py:168-171 | a disconnect mid-body never turns an acceptable request into a refusal |
| `BodyLimiter.DeclarationBoundsOnlyAtTheLimit` | apps/api/src/agentrank_api/limits.py:165-186 | no body larger than it declared is ever served exactly when the declaration is at least `max_bytes`: draining compares with that, not with the declaration its docstring mentions |
| `Refusals.ShortenedFits` | apps/api/src/agentrank_api/errors.py:160-162 | the cut respects its limit exactly when the limit is at least 3 or nothing is cut |
| `Refusals.ShortenedSaysSo` | apps/api/src/agentrank_api/errors.py:160-162 | a cut text is a prefix of the original ending in dots, and cutting again changes nothing |
| `Refusals.BoundingIsStable` | apps/api/src/agentrank_api/errors.py:165-180 | bounding always fits the four limits; bounding what was bounded is the identity, and only on what fits |
| `Refusals.ValidationFieldsSurvive` | apps/api/src/agentrank_api/errors.py:207-217 | the second bounding in `InvalidRequestError` loses none of the first twenty fields of a validation report |
| `Refusals.FirstTwentyAreKept` | apps/api/src/agentrank_api/errors.py:165-180 | of a validation report the first twenty entries are kept in order, each with its first twelve location parts and its message, cut at 64 and 200 characters |
| `Refusals.SentencesArePassedOn` | apps/api/src/agentrank_api/errors.py:230-233 | any other refusal passes its sentence on, whole up to 400 characters and cut there, with no fields |
| `Refusals.RefusalNamesTheFirstThree` | apps/api/src/agentrank_api/errors.py:183-188 | the sentence names the first three fields, and says the body could not be read when there are none |
| `Refusals.FieldIsNamedByItsPlace` | apps/api/src/agentrank_api/errors.py:183-188 | a field is named by its dotted location, or as the body when that is blank |
| `Refusals.RefusalsAreBounded` | apps/api/src/agentrank_api/errors.py:207-217 | whatever the request, an error carries at most 400 + 20 * (12 * 64 + 200) characters |
| `Refusals.RefusalDetailFits` | apps/api/src/agentrank_api/errors.py:183-188 | the sentence built from bounded fields has at most 2947 characters |
| `Refusals.RefusalDetailCanBeThatLong` | apps/api/src/agentrank_api/errors.py:183-188 | and there are bounded fields for which it has exactly that many |
| `PaymentDatabase.ProbesAreEnough` | migrations/versions/20260821_2155_create_payment_attempt.py:470-524 | checking the one row written (CHECKs, index probes, key lookups, rows that name the one deleted) is the same as checking every constraint on the whole database |
| `PaymentDatabase.PaymentTables.Execute` | migrations/versions/20260821_2155_create_payment_attempt.py:83-318 | a statement takes effect exactly when the triggers accept it and every constraint holds afterwards, and otherwise changes nothing |
| `PaymentDatabase.PaymentTables.ExecuteAll` | migrations/versions/20260821_2155_create_payment_attempt.py:83-318 | running a list of statements ends in exactly the state `Run` gives, so every theorem over runs is one about these tables |
| `PaymentSchema.RunStaysConsistent` | migrations/versions/20260821_2155_create_payment_attempt.py:321-530 | every constraint holds after any run of statements |
| `PaymentTransitions.MandateInserts` | migrations/versions/20260821_1639_create_spending_mandate.py:71-126 | exactly which mandates are accepted, column by column |
| `PaymentTransitions.MandateUpdates` | migrations/versions/20260821_2155_create_payment_attempt.py:205-233 | an update of a mandate is accepted exactly when it revokes an active one, or changes nothing in one |
| `PaymentTransitions.CheckoutInserts` | migrations/versions/20260821_1724_create_checkout_session_and_line.py:98-171 | exactly which quotes are accepted: the mandate's merchant, a total that is subtotal + shipping - discount without overflow, and times that go with the status |
| `PaymentTransitions.CheckoutUpdates` | migrations/versions/20260821_2155_create_payment_attempt.py:83-112 | an update is accepted exactly when it cancels or pays an open quote, or changes nothing in one |
| `PaymentTransitions.ReservationInserts` | migrations/versions/20260821_1846_create_inventory_reservation.py:105-164 | exactly which reservations are accepted; a standing one only while no other stands for the checkout |
| `PaymentTransitions.ReservationUpdates` | migrations/versions/20260821_2155_create_payment_attempt.py:146-176 | an update is accepted exactly when it commits an active hold, releases a standing one or consumes a committed one, or changes nothing in a standing one |
| `PaymentTransitions.LineInserts` | migrations/versions/20260821_1846_create_inventory_reservation.py:166-200 | exactly which lines are accepted, in whatever status their reservation is; no line is ever updated |
| `PaymentTransitions.AttemptInserts` | migrations/versions/20260821_2155_create_payment_attempt.py:398-524 | exactly which attempts are accepted: on the quote's terms and the quote's hold, a fresh key, the columns of their status, and no other attempt under the mandate open (for an open one) or succeeded (for a success) |
| `PaymentTransitions.AttemptUpdates` | migrations/versions/20260821_2155_create_payment_attempt.py:266-312 | exactly which updates are accepted: dispatch of an admitted attempt, an outcome of a dispatched or unknown one, with the columns of the new status; only an earlier success under the mandate can stop one |
| `PaymentTransitions.BindingInserts` | migrations/versions/20260822_0620_create_razorpay_checkout.py:118-193 | exactly which bindings are accepted: the attempt's terms, and an attempt, receipt and order no other binding has |
| `PaymentTransitions.BindingUpdates` | migrations/versions/20260822_0620_create_razorpay_checkout.py:47-89 | exactly which updates are accepted: naming an order no other binding names, then confirming its payment |
| `PaymentTransitions.Deletes` | migrations/versions/20260821_2155_create_payment_attempt.py:314-318 | exactly which rows of each table can be deleted: those nothing names, whatever their status |
| `PaymentTransitions.OneOpenAttempt` | migrations/versions/20260821_2155_create_payment_attempt.py:512-516 | in every reachable state at most one attempt under a mandate is ADMITTED, IN_FLIGHT or UNKNOWN |
| `PaymentTransitions.OpenAttemptShutsOutOthers` | migrations/versions/20260821_2155_create_payment_attempt.py:512-516 | while one is, every other attempt under the mandate is settled after any statement |
| `PaymentPurchase.HeldQuoteCanBeBought` | migrations/versions/20260821_2155_create_payment_attempt.py:260-265 | in any consistent state, a held open quote on a mandate with no open or successful attempt can be bought, ending paid, consumed and succeeded with exactly its total spent; or declined, ending open, released and failed with nothing spent |
| `PaymentHistory.SinglePurchase` | migrations/versions/20260821_2155_create_payment_attempt.py:504-524 | once an attempt under a mandate has succeeded, no later statements short of deleting it change it, undo it or let another succeed, and the money spent stays that quote's total |
| `PaymentHistory.SpentIsOneQuoteOrNothing` | migrations/versions/20260821_2155_create_payment_attempt.py:470-481 | in every consistent state the money succeeded under a mandate is zero or exactly one quote's total |
| `PaymentHistory.AttemptsOnlyMoveOn` | migrations/versions/20260821_2155_create_payment_attempt.py:266-312 | an attempt keeps its identity and money, only moves forward, keeps the times it has, and never succeeds beside another for the same quote |
| `PaymentHistory.SuccessIsLostOnlyByDelete` | migrations/versions/20260821_2155_create_payment_attempt.py:314-318 | a success disappears exactly when it is deleted while no binding and no mission run names it; no trigger guards DELETE |
| `PaymentHistory.DeletedSuccessCanBeRepeated` | migrations/versions/20260821_2155_create_payment_attempt.py:314-318 | whenever that delete is possible, it and one insert pay for the same quote again |
| `PaymentMoney.BoundMoneyIsQuotedMoney` | migrations/versions/20260822_0620_create_razorpay_checkout.py:172-187 | in every reachable state a binding's amount, currency and merchant are its attempt's and its quote's, and that is subtotal + shipping - discount |
| `PaymentMoney.BoundMoneyNeverMoves` | migrations/versions/20260822_0620_create_razorpay_checkout.py:47-89 | while a binding stands its attempt and quote stand on the same terms, its order never changes once named, and no other binding names that order |
| `PaymentHolds.HoldsAreConserved` | migrations/versions/20260821_1846_create_inventory_reservation.py:166-200 | over any statements at all, held + returned + sold of a variant is what there was, plus exactly what accepted inserts put on lines, less exactly what deletions (cascades included) took off |
| `PaymentHolds.EveryUnitHasOneFate` | migrations/versions/20260821_2155_create_payment_attempt.py:146-176 | the quantity on lines is the disjoint sum of what is held, returned and sold |
| `PaymentHolds.FateIsFinal` | migrations/versions/20260821_2155_create_payment_attempt.py:158-160 | over any run that deletes neither the line nor its own hold, a line whose hold was returned or sold stays so, unchanged |
| `PaymentHolds.UnitsNeverComeBack` | migrations/versions/20260821_2155_create_payment_attempt.py:146-176 | over any statements at all, returned and sold quantity fall only by what is deleted from the record, so nothing is held again |
| `PaymentHolds.ClosingAHoldMovesItsUnits` | migrations/versions/20260821_2155_create_payment_attempt.py:146-176 | releasing a standing hold moves exactly the units on its lines from held to returned, and consuming it moves them from held to sold |
| `PaymentHolds.HeldOnce` | migrations/versions/20260821_2155_create_payment_attempt.py:370-376 | one checkout holds a variant through at most one line, in every reachable state |
| `PaymentHolds.BornSettledExactlyUnderAFinishedHold` | migrations/versions/20260821_1846_create_inventory_reservation.py:94-98 | quantity appears as returned or sold beyond what left the held state exactly when a line is inserted under a hold already released or consumed |
| `PaymentHolds.QuantityCanBeBornSold` | migrations/versions/20260821_1846_create_inventory_reservation.py:94-98 | such an insert is accepted on the same terms as any other, and adds exactly its quantity to the fate of its hold |
| `PaymentMigration.WhitelistsKeepMandateHistories` | migrations/versions/20260821_2155_create_payment_attempt.py:205-258 | the two guards admit the same mandate histories once updates of a terminal row that change nothing are taken out |
| `PaymentMigration.WhitelistsKeepCheckoutHistories` | migrations/versions/20260821_2155_create_payment_attempt.py:83-141 | the same for two-status checkouts |
| `PaymentMigration.WhitelistsKeepReservationHistories` | migrations/versions/20260821_2155_create_payment_attempt.py:146-200 | the same for two-status reservations |
| `PaymentMigration.BlacklistsWouldUndoASale` | migrations/versions/20260821_2155_create_payment_attempt.py:79-82 | on the widened statuses the blacklists let any paid quote reopen and any consumed hold go back; the whitelists let neither row change |
| `PaymentMigration.RequireReversible` | migrations/versions/20260821_2155_create_payment_attempt.py:666-687 | names exactly the tables holding irreversible rows, with their counts, and finds none exactly when the database is reversible |
| `PaymentMigration.Downgrade` | migrations/versions/20260821_2155_create_payment_attempt.py:559-663 | the whole reversal happens exactly when the database is reversible |
| `PaymentMigration.AcceptedDowngradeIsLossless` | migrations/versions/20260821_2155_create_payment_attempt.py:559-663 | an accepted downgrade meets every narrowed constraint; upgrading again gives back everything except attempts that were never dispatched |
| `PaymentMigration.UpgradeIsReversible` | migrations/versions/20260821_2155_create_payment_attempt.py:321-376 | upgrading any database of the previous schema is consistent and downgrades to exactly that database |
| `PaymentMigration.RefusalIsExact` | migrations/versions/20260821_2155_create_payment_attempt.py:538-556 | the refusal comes exactly when no previous-schema database says the same or an attempt was dispatched |
| `PaymentLifecycles.MandateSettles` | migrations/versions/20260821_2155_create_payment_attempt.py:220-226 | at most one status change after a mandate is written, none once revoked, over any run that does not delete it |
| `PaymentLifecycles.CheckoutSettles` | migrations/versions/20260821_2155_create_payment_attempt.py:100-107 | at most one for a quote |
| `PaymentLifecycles.ReservationSettles` | migrations/versions/20260821_2155_create_payment_attempt.py:158-171 | at most two for a reservation |
| `PaymentLifecycles.AttemptSettles` | migrations/versions/20260821_2155_create_payment_attempt.py:291-307 | at most three for a payment attempt, fewer by each stage passed |
| `PaymentLifecycles.BindingSettles` | migrations/versions/20260822_0620_create_razorpay_checkout.py:73-84 | at most two for a binding |
| `PaymentLifecycles.TimesAreWrittenOnce` | migrations/versions/20260821_2155_create_payment_attempt.py:432-443 | `dispatched_at` changes exactly once if the attempt leaves ADMITTED along a run and never otherwise; `resolved_at` likewise at SUCCEEDED or FAILED |
| `BenchmarkDatabase.ProbesAreEnough` | migrations/versions/20260822_1458_harden_benchmark_run_integrity.py:210-237 | checking the one row written is the same as checking every constraint on the whole database, cascades included |
| `BenchmarkDatabase.BenchmarkTables.Execute` | migrations/versions/20260822_1458_harden_benchmark_run_integrity.py:61-194 | a statement takes effect exactly when the triggers accept it, reading each other's tables, and every constraint holds afterwards |
| `BenchmarkDatabase.BenchmarkTables.ExecuteAll` | migrations/versions/20260822_1458_harden_benchmark_run_integrity.py:61-194 | running a list of statements ends in exactly the state `Run` gives, so every theorem over runs is one about these tables |
| `BenchmarkSchema.RunStaysConsistent` | migrations/versions/20260822_1344_create_benchmark_runs.py:149-387 | every constraint holds after any run of statements |
| `BenchmarkTransitions.RunInserts` | migrations/versions/20260822_1344_create_benchmark_runs.py:149-214 | exactly which runs are accepted: in any status with its columns, of its merchant, and not RUNNING while another of the merchant is |
| `BenchmarkTransitions.RunUpdates` | migrations/versions/20260823_1420_record_the_benchmark_executor_revision.py:42-81 | exactly which updates are accepted: starting a PENDING run while no other of the merchant runs, completing or aborting a RUNNING one no earlier than it started, and moving the representation |
| `BenchmarkTransitions.RunDeletes` | migrations/versions/20260823_1610_keep_a_running_benchmark_run.py:36-46 | a run can be deleted exactly while it is PENDING and nothing but its own mission runs names it, and nothing names those |
| `BenchmarkTransitions.MissionInserts` | migrations/versions/20260822_1458_harden_benchmark_run_integrity.py:144-158 | exactly which mission runs are accepted: PENDING, under a PENDING run of the same merchant and suite, a mission of that suite the run does not have yet |
| `BenchmarkTransitions.MissionUpdates` | migrations/versions/20260822_1458_harden_benchmark_run_integrity.py:61-104 | exactly which updates are accepted: starting, and then one result with the columns it comes with, until the run has finished |
| `BenchmarkTransitions.MissionDeletes` | migrations/versions/20260822_1458_harden_benchmark_run_integrity.py:160-171 | a mission run is never deleted by itself |
| `BenchmarkTransitions.LaunchInserts` | migrations/versions/20260826_0900_govern_provider_execution.py:112-127 | exactly which launches are accepted: queued, on terms that fit their purpose and buyer, with a budget exactly when a model buys, while the merchant has none pending and under a key it has not used |
| `BenchmarkTransitions.LaunchUpdates` | migrations/versions/20260826_0900_govern_provider_execution.py:71-144 | exactly which updates are accepted: executing on a run of the merchant no other launch has, completing with a completed run, failing with an aborted run or none; launches are never deleted |
| `BenchmarkTransitions.PermitInserts` | migrations/versions/20260826_0900_govern_provider_execution.py:315-389 | exactly which permits are accepted: reserved, of at least one request, on a run and launch of its merchant, once an attempt of the run |
| `BenchmarkTransitions.PermitUpdates` | migrations/versions/20260826_0900_govern_provider_execution.py:205-248 | a permit is updated exactly while reserved, on unchanged terms, with the columns its new state comes with; never deleted |
| `BenchmarkEvaluation.EvaluationCanSettle` | migrations/versions/20260826_0900_govern_provider_execution.py:129-139 | in any consistent state, a queued launch and a PENDING run of its merchant that nobody has, while no other runs, can be taken in four statements to COMPLETED and COMPLETED, or to FAILED and ABORTED, changing nothing else |
| `BenchmarkHistory.FinishedRunIsFrozen` | migrations/versions/20260822_1458_harden_benchmark_run_integrity.py:61-104 | once a run is COMPLETED or ABORTED, its row, its set of mission runs and every column of each are identical in every later state |
| `BenchmarkHistory.StartedRunKeepsItsMissions` | migrations/versions/20260823_1610_keep_a_running_benchmark_run.py:36-46 | once started a run cannot be deleted, gains and loses no mission run, keeps its pins, and recorded results stay as recorded |
| `BenchmarkHistory.RunsAreBornInAnyStatus` | migrations/versions/20260822_1458_harden_benchmark_run_integrity.py:187-194 | no INSERT trigger is attached to runs: whether one is accepted depends on CHECKs, keys and the running index alone, so it may be born started or finished |
| `BenchmarkHistory.RunBornStartedStaysEmpty` | migrations/versions/20260822_1458_harden_benchmark_run_integrity.py:144-158 | one born non-PENDING never has a mission run |
| `BenchmarkHistory.MissionGoesOnlyWithAPendingRun` | migrations/versions/20260822_1458_harden_benchmark_run_integrity.py:160-185 | a mission run disappears exactly when its PENDING run is deleted and no launch, permit, credential or sample names the run and no trace event names its mission runs, whether or not a result had been recorded |
| `BenchmarkHistory.ResultsCanBeRecordedBeforeTheRunStarts` | migrations/versions/20260822_1458_harden_benchmark_run_integrity.py:78-82 | a well-formed result of a RUNNING mission run is accepted exactly while its run has not finished, started or not |
| `BenchmarkHistory.RepresentationMovesUntilFinished` | migrations/versions/20260824_0900_add_merchant_representations.py:90-97 | `representation_id` is in no guard's frozen list: a statement can move it exactly while the run has not finished and there is a representation to drop or to take |
| `BenchmarkHistory.ResultsBelongToTheirSuite` | migrations/versions/20260822_1458_harden_benchmark_run_integrity.py:222-237 | in every reachable state a mission run, its run and its mission definition share suite and merchant, and a merchant has at most one RUNNING run |
| `BenchmarkHistory.LaunchNeverDrifts` | migrations/versions/20260826_0900_govern_provider_execution.py:71-144 | in every reachable state a COMPLETED launch names a COMPLETED run, a FAILED launch naming a run names an ABORTED one, an EXECUTING launch has a run, no run has two launches and no merchant two pending |
| `BenchmarkHistory.RunKeepsAgreement` | migrations/versions/20260826_0900_govern_provider_execution.py:129-139 | triggers read the run only when the launch is written, yet agreement lasts over any statements |
| `BenchmarkHistory.LaunchesArePermanent` | migrations/versions/20260825_1900_generalize_evaluation_launches.py:212-218 | a launch is never deleted, keeps its pins and its run, and never changes once settled |
| `BenchmarkHistory.SettledLaunchIsForever` | migrations/versions/20260826_0900_govern_provider_execution.py:129-139 | once a launch has settled against a run, the launch, the run and every mission result stay as they were |
| `BenchmarkHistory.ModelBuyersHaveBudgets` | migrations/versions/20260826_0900_govern_provider_execution.py:118-126 | over any statements, every launch written since carries an execution budget exactly when a model buys, and one written before keeps its terms, budget or none |
| `BenchmarkLifecycles.BenchmarkRunSettles` | migrations/versions/20260823_1420_record_the_benchmark_executor_revision.py:64-76 | at most two status changes for a run, over any statements that do not delete it |
| `BenchmarkLifecycles.MissionSettles` | migrations/versions/20260822_1458_harden_benchmark_run_integrity.py:84-99 | at most two for a mission run, over any statements that do not delete the run it hangs on |
| `BenchmarkLifecycles.LaunchAndPermitSettle` | migrations/versions/20260825_0900_add_benchmark_reevaluations.py:67-80 | at most two for a launch and one for a permit, over any statements at all |
| `PermitLedger.LedgerBalances` | migrations/versions/20260826_0900_govern_provider_execution.py:60-66 | over any statements, a run's total charge is what it was plus every grant inserted, less what reconciled and released permits hand back |
| `PermitLedger.BooksNeverOverdrawn` | migrations/versions/20260826_0900_govern_provider_execution.py:60-66 | from an empty database the charge is grants less returns, and returns never exceed grants |
| `PermitLedger.ChargeRisesOnlyByAFreshGrant` | migrations/versions/20260826_0900_govern_provider_execution.py:351 | the charge rises exactly when an accepted insert grants the run a permit under an attempt key it has none for, and by exactly that grant |
| `PermitLedger.SettlingMovesTheCharge` | migrations/versions/20260826_0900_govern_provider_execution.py:60-66 | settling a permit replaces its grant in its run's charge by what was consumed, by nothing when released, and by the whole grant when the outcome is unknown; no other run's charge moves |
| `PermitLedger.PermitsArePermanent` | migrations/versions/20260826_0900_govern_provider_execution.py:205-248 | a permit is never deleted or rewritten, its charge stays in 0 to granted and only falls, a settled one never changes, and its run cannot be deleted |
| `PermitLedger.OneGrantPerAttempt` | migrations/versions/20260826_0900_govern_provider_execution.py:351 | once a run holds a permit for an attempt key, no later statement grants another for it |
| `ProviderBudget.OneProviderIsExactlyWhatIsNeeded` | apps/api/src/agentrank_api/benchmark/permits.py:405-487 | for every budget: over any interleaving of reservations that count under their provider's lock, settlements and abandoned transactions, a run's charge never exceeds its budget exactly when it reserves at no more than one provider |
| `ProviderBudget.BudgetHolds` | apps/api/src/agentrank_api/benchmark/permits.py:755-760 | from any state in which what is spent and decided fits the budget, whoever is at work |
| `ProviderBudget.FrozenBudgetCoversThePercentage` | apps/api/src/agentrank_api/benchmark/capacity.py:331-351 | the ceiling is the least number that covers every turn and is never below the percentage; one mission's share is the multiple of its turns, raised to its turns and cut to the ceiling; only counts below one are refused |
| `ProviderBudget.GrantIsTheSmallest` | apps/api/src/agentrank_api/benchmark/permits.py:443-465 | a reservation is halted exactly when the run or the window has less left than the floor, and is otherwise granted the smallest of the mission's share and what the two have left |
| `ProviderBudget.OnePermitPerAttempt` | apps/api/src/agentrank_api/benchmark/permits.py:466-506 | however reservations interleave, an attempt of a run has one permit, which stays on its terms and is final once settled |
| `Experiment.GuardAdmitsExactlyThePlan` | migrations/versions/20260824_1800_counterbalance_experiment_pair_order.py:20-48 | the rows the trigger and CHECKs let in are exactly the plan's: slot 1 to 2n, pair half of it, kind by the R C C R pattern (R C without counterbalancing) |
| `Experiment.GuardsAgreeWithoutCounterbalancing` | migrations/versions/20260824_1800_counterbalance_experiment_pair_order.py:67-89 | without counterbalancing the new trigger accepts what the old did, except rows of unknown kind, where the old comparison is NULL; there the CHECK refuses |
| `Experiment.ProbesAreEnough` | migrations/versions/20260824_1200_add_compiler_impact_experiments.py:82-90 | checking the one row written, or moved to another key, is the same as checking every constraint on the whole database |
| `Experiment.ExperimentTables.Execute` | migrations/versions/20260824_1200_add_compiler_impact_experiments.py:137-149 | a statement, a key-moving update among them, takes effect exactly when trigger and constraints allow, and otherwise changes nothing |
| `Experiment.SamplesArePermanent` | migrations/versions/20260824_1200_add_compiler_impact_experiments.py:137-149 | over any statements some row stays that is the sample in all but its run, and once that is set, the same row under the same key |
| `Experiment.KeysLeaveOnlyByMoving` | migrations/versions/20260824_1200_add_compiler_impact_experiments.py:137-149 | a key leaves the table exactly when the update that gives its sample a run moves it to a fresh one too |
| `Experiment.SampleUpdates` | migrations/versions/20260824_1200_add_compiler_impact_experiments.py:137-149 | an update that keeps the key is accepted, for either kind, exactly when it gives a sample without a run one of its merchant that no other sample has, and changes nothing else; no sample is deleted |
| `Experiment.SampleInserts` | migrations/versions/20260824_1800_counterbalance_experiment_pair_order.py:20-48 | in every reachable state a sample is accepted exactly when it is a row of the plan, arm by arm, and neither its slot nor its run is taken |
| `Experiment.CompleteMeansEverySlot` | migrations/versions/20260824_1200_add_compiler_impact_experiments.py:88-90 | an experiment of n pairs never has more than 2n rows, and has 2n exactly when its slots are 1 to 2n |
| `Experiment.CompleteMeansEveryPair` | migrations/versions/20260824_1200_add_compiler_impact_experiments.py:82-90 | then each pair has exactly one RAW and one COMPILED row, in slots 2p - 1 and 2p and in the planned order |
| `Experiment.PairOrderIsBalanced` | migrations/versions/20260824_1800_counterbalance_experiment_pair_order.py:27-33 | RAW-first less COMPILED-first pairs is n mod 2 when counterbalanced, and n when not |
| `Experiment.DowngradeLeavesLegalRows` | migrations/versions/20260824_1800_counterbalance_experiment_pair_order.py:53-65 | when the downgrade is not refused, every row is one the restored trigger would have let in |
| `WriteOrder.AppendOnlyTable.Backfill` | migrations/versions/20260825_2100_order_source_history_in_the_database.py:72-80 | numbers every row by its position in primary key order |
| `WriteOrder.AppendOnlyTable.Upgrade` | migrations/versions/20260825_2100_order_source_history_in_the_database.py:63-96 | leaves the trigger on, every row numbered by position and the identity one past the highest |
| `WriteOrder.UpgradeAll` | migrations/versions/20260825_2100_order_source_history_in_the_database.py:63-96 | does so for each table of a list, leaving the rows as they were |
| `WriteOrder.PositionsFollowIds` | migrations/versions/20260825_2100_order_source_history_in_the_database.py:72-80 | positions lie in 1 to n and compare exactly as identifiers do |
| `WriteOrder.PositionsAreContiguous` | migrations/versions/20260825_2100_order_source_history_in_the_database.py:72-80 | every number from 1 to n is used |
| `WriteOrder.UpgradeKeepsHistory` | migrations/versions/20260825_2100_order_source_history_in_the_database.py:30-32 | no two rows change order and no merchant's current row changes |
| `WriteOrder.InsertsOnlyExtend` | migrations/versions/20260825_2100_order_source_history_in_the_database.py:86-96 | however many inserts follow, landing or not: numbers stay unique, none moves, later rows come above all earlier |
| `WriteOrder.NumbersCountInserts` | migrations/versions/20260825_2100_order_source_history_in_the_database.py:82-96 | every insert spends one number, landing or not, so a row is numbered by how many were tried since the identity was restarted |
| `WriteOrder.HistoryIsKeptFromTheUpgradeOn` | migrations/versions/20260825_2100_order_source_history_in_the_database.py:63-96 | after the upgrade and any inserts, every old row keeps its place in primary key order and every new one is numbered above them all |
| `WriteOrder.CurrentFollowsTheDatabase` | migrations/versions/20260825_2100_order_source_history_in_the_database.py:14-17 | a row that lands becomes its merchant's current row whatever its identifier, and nobody else's answer moves |
| `WriteOrder.WithoutRestartTheFirstInsertCollides` | migrations/versions/20260825_2100_order_source_history_in_the_database.py:86-88 | left at 1, the identity collides exactly when the table had a row |
| `Inventory.NeverOversold` | apps/api/src/agentrank_api/inventory/service.py:190-265 | with one exact clock, over any interleaving of preparations, admissions, sales, releases and restocks that lock their variants before they look at the clock and count, effective reservations of a variant nobody cuts never exceed its stock, now or at any later instant |
| `Inventory.OnlyCutsLeaveSalesShort` | apps/api/src/agentrank_api/inventory/service.py:302-334 | a sale is short, and `inventory.oversold` due, only of variants whose stock somebody has cut |
| `Inventory.UnitsAreAccountedFor` | apps/api/src/agentrank_api/inventory/repository.py:373-429 | every unit a variant was given and nobody cut is on its shelf or was sold, once |
| `InventoryAlone.OneClockIsExactlyWhatIsNeeded` | apps/api/src/agentrank_api/checkout/execution.py:250-265 | no run of events oversells exactly when no process's clock runs fast or slow and no count is taken ahead of the instant read under the locks |
| `InventoryAlone.StandingHoldCanBeSold` | apps/api/src/agentrank_api/inventory/service.py:267-300 | in any sound state with nobody at work, a hold that stands can be admitted and sold, which takes exactly its units off the shelf |
| `Inventory.OneHoldPerCheckout` | apps/api/src/agentrank_api/inventory/service.py:224-246 | over any interleaving a checkout never has two standing holds |
| `Inventory.HoldsOnlyMoveOn` | migrations/versions/20260821_2155_create_payment_attempt.py:146-176 | over any interleaving a hold is of something, keeps its checkout, units and time, and is never reopened |
| `Inventory.ShelvesNeverGoNegative` | apps/api/src/agentrank_api/inventory/repository.py:386-396 | over any interleaving of events no stock falls below zero, however short a sale falls |
| `Inventory.AdmissionNeedsBothInstants` | apps/api/src/agentrank_api/checkout/execution.py:250-275 | an admission is decided on exactly under the hold's locks and while it is committed or stands at both the accounting instant and the one read under them |
| `Inventory.Shortfalls` | apps/api/src/agentrank_api/inventory/service.py:395-425 | reports exactly the lines that do not fit, in quoted order, each under its own variant and quantity and with the number of units that would have fitted; nothing exactly when every line fits |
| `Inventory.ConsumeStock` | apps/api/src/agentrank_api/inventory/repository.py:413-429 | what each line asked for left the shelf or is reported missing, and is missing only from an emptied shelf; nothing else moves |

## Left out

- SinglePurchase: assumes that no statement along the run deletes the succeeded attempt itself, because DELETE is unguarded; SuccessIsLostOnlyByDelete and DeletedSuccessCanBeRepeated say exactly what such a deletion does. AttemptsOnlyMoveOn assumes the same of its attempt.
- AttemptSettles: like the other lifecycle bounds of the payment tables and TimesAreWrittenOnce, assumes that the row itself is not deleted from its table, and nothing about other rows; BenchmarkRunSettles that the run is not, and MissionSettles that the run it hangs on is not, which the schema allows only while that is PENDING.
- HeldQuoteCanBeBought: like EvaluationCanSettle, says what the tables accept at one instant; that a quote or a mandate has not expired, that the stock is there and that a provider answers are for the services, not the tables.
- BoundMoneyNeverMoves: assumes that no statement deletes the binding itself; any other deletion may occur.
- OrderedTransactionsFinish: locks are exclusive and belong to the six ordered classes; rows of other tables, shared modes and locks PostgreSQL takes by itself are not part of this model.
- PairOrderIsBalanced: proved for every n; the CHECK that caps sample_count at 3, and with it integer overflow of the ordinals, is not part of this model.
- RequestBodyLimit.Call: a request is a finite sequence of messages followed by disconnects; how int() reads a header is a parameter; the refusal's prose and its JSON encoding are left out.
- AcceptedDowngradeIsLossless: holds at its own revision, when the tables of later ones are gone, so there are no Razorpay bindings and no mission runs to name an attempt; audit_event is outside the check in the code too.
- PaymentTables.Execute: like BenchmarkTables.Execute, one statement at a time; isolation levels, concurrent statements, statements over several rows, TRUNCATE, disabled triggers and replica mode are not modelled. An UPDATE or DELETE of no row has no effect.
- Primary keys of the payment and benchmark tables never change on UPDATE: their guards freeze them. A sample's may, and Experiment covers it.
- Regular expressions, not-blank and JSON shape CHECKs, text lengths, hashes and JSON contents: opaque values.
- Merchants, variants, environments, snapshots, representations, compiler runs, credentials and trace events are known by the keys between them and the modelled tables, not by their own rows. The experiment's keys to snapshots and representations are left out: they only refuse more.
- checkout_line, audit_event and provider_capacity_policy: no cross-table claim beyond those above.
- Outcome sources are those of the newest revision; the revisions that added them are not modelled one by one.
- Nothing ties a permit's launch to its run, in the code or here.
- Mandate revocation alone, credentials, sessions, source imports, append-only evidence tables: the same single-row shape, more weakly.
- NeverOversold: like OnlyCutsLeaveSalesShort, for one exact clock; OneClockIsExactlyWhatIsNeeded says that nothing less will do. Variants are locked one by one in any order, so deadlock is LockOrder's and Deadlock's business; the two authorization gates, the audit trail and the idempotent answer to a repeated preparation are left out, and a read under the locks sees what is committed.
- OneProviderIsExactlyWhatIsNeeded: what the provider's rolling window has left is an input to each reservation; the window cap itself, pausing a provider and the gate on concurrent launches are not part of this model. A run has one budget, which fits the columns a launch freezes it in.
- LimitsFollowTheRoute: for requests under the mount point; a path that merely shares its leading characters loses them too, as in the code, and nothing is claimed about it.
- The rest of the payment and execution services, the web console, the framework wiring and the seed scripts: not part of this model.
