# Verified model of the attribute daemon

`satan-attrd` turns broker messages into clamped deltas on eight attributes, appends every delta to an event log,
keeps a live projection of the log, lets four attributes decay when nothing happens, and can rebuild the projection
by replaying the log. This project models that daemon in Dafny and proves what it keeps: over every run, under every
interleaving of its two actors, and across failures and crashes at any statement.

Check it with `dafny verify dfyconfig.toml`.

## How it is organised

- **Values.** `types.dfy`, `tuning.dfy`, `event_id.dfy` and `store.dfy` hold the entities, the delta tables, the text
  form of ids, the tables of the database as a value with the effect of each SQL statement, and replay.
- **Dispatch.** `dispatcher.dfy` holds the delta arithmetic over exact reals with `f64::EPSILON` as the constant 2^-52,
  where a planned value lands and which caps it records, and the dispatch loops as methods, each proved equal to one batch
  planned from one frozen reading. `tables.dfy` reads the delta tables by column, in plain numbers, with the effect of
  confidence.
- **The daemon as a state machine.** In `machine.dfy` a step is the work between two await points: at most one SQL
  statement and the synchronous code around it. Steps of the run loop and of the decay scheduler interleave freely;
  either may be cut off by an error before any statement; the process may crash and restart anywhere; the operator may
  toggle updates and rebuild at any time. A run is a sequence of steps, and the main results are about every run from
  the seeded tables.
- **Invariants of every run.** `safety.dfy`, `shapes.dfy`, `explained.dfy`, `trace.dfy`, `keys.dfy`, `contribution.dfy`,
  `contribution_bound.dfy`, `coherence.dfy`.
- **Results that need more.** `agreement.dfy` (keys in order, actors apart), `telescope.dfy` (actors apart on one
  attribute), `undisturbed.dfy` (no row moves one attribute), `decay_rate.dfy` (no tick cut off before the stamp of one
  target). Each states its condition as a predicate on the step about to be taken; the last two are about the stretch of a
  run that starts in any reachable state. `races.dfy` and `decay_limits.dfy` have runs from the seeded tables that miss one
  condition each.
- **Disabled work.** `stutter.dfy` runs the daemon beside itself without its disabled rows and ticks, over any
  interleaving, failure and crash; `numbering.dfy` has the condition on sequence numbers this takes, and
  `stutter_limits.dfy` a run without it.
- **Chains of revisions.** `revision_chain.dfy` has one row on any log, `chains.dfy` whole runs, `chain_limits.dfy` runs
  that miss a condition.
- **Whole rows and ticks.** `rows.dfy` takes a row from claim to deletion, or to its loss; `completion.dfy` says exactly
  when a row is lost, in every reachable state; `dueness.dfy` says which targets a
  tick finds due and `tick_events.dfy` what it logs.
- **Counters.** `counters.dfy` compares the bounded LRU with an unbounded map; `lru_counter_map.dfy` is the object.
- **The objects.** `database.dfy`, `run_loop.dfy` and `decay_scheduler.dfy` are classes with the daemon's fields and
  loops. An arbitrary function says which statements fail. Every method takes a machine state that shows the object
  (`Reflects`), and returns a state that shows it afterwards together with the machine steps that lead there, so all
  results about runs hold of the objects. Successful calls are also given in closed form (`RowDone`, `TickDone`).

## What holds when

| needs nothing (every interleaving, failure, crash and rebuild) | needs more |
|---|---|
| range, lattice, friction at 0; each logged event is its old value plus what its reason asks for, clamped, and its caps say so | replay agrees with live: keys in order, actors apart on an attribute, no include-disabled rebuild |
| one claim per inbox id; audits follow the log | an attribute is the sum of its deltas: neither actor writes it while the other holds a reading of it, no rebuild, no cut between insert and upsert there |
| rows come from logged events | rows come from enabled events: no include-disabled rebuild |
| a batch is planned from the projection as one step read it | n decays take v to max(0, v - 0.01 n): from any state, no row moves the attribute, no rebuild, no decay of it cut off before its upsert |
| net contribution within 0.30 for each first emit | the latest classification alone counts: rows of the intervention enabled, in time order and not cut off half-way; then exactly where the last row fits |
| decay keys never collide (broker keeps off `maintenance:` ids) | run-loop keys never collide: each dispatched run retained or new to the log |
| one batch, one snapshot, any order of upserts | decays of a target 24 hours apart: from any state, no rebuild, no tick cut before the stamp of that target, clock not going back inside a tick |
| a row is refused exactly when it revises an intervention without events or one of its numbers is persisted | disabled work changes nothing else: revisions of interventions without disabled events, numbers of enabled events free and in order |

## What the proofs turned up

- The tolerance in `plan_for` (`src/dispatcher.rs:165`) lets an overshoot of up to 2^-52 through. That never happens
  in exact arithmetic, because every reachable value is a multiple of 1/400; it is an invariant of runs, not of the function.
- A disabled link in a chain of revisions changes the derived prior classification but not the applied sums, so a later
  revision can leave a residue for ever. So can a link whose time is older than its predecessor's. A revision settles an
  attribute exactly when what is missing fits, or, outside the union, when nothing was applied before.
- A neutral first emit logs nothing, so its intervention can never be revised: the row fails and stays claimed.
- A run that was evicted from the LRU map, or forgotten by a restart, counts from 1 again. If one of the numbers its next
  row needs is persisted, the row logs the events before it, fails there and is lost: unlike the scheduler's, these
  counters do not resume.
- So disabled work is not without effect on enabled work: a disabled row takes numbers, and after a restart an enabled row
  of the same run is lost to them.
- The comment at `src/decay.rs:44-51` calls a sequence collision reachable by a restart while updates are disabled. With
  the counter resumed from the log (`src/decay.rs:233-255`) it is unreachable, and the proof covers that restart.
- A tick that read its targets before a row's upsert overwrites that row: the projection falls short of the sum of deltas
  by exactly the lost one. This is the stale read `src/decay.rs:197-201` accepts. When the two upserts cross, the row
  disagrees with replay although nothing failed.
- At its limit a counter returns 2^31 - 1 twice before its assertion fails, where its comment promises a panic at once.
- An LRU map of capacity 0 behaves as one of capacity 1.
- The 0.30 bound is for each first emit: three of one intervention move shame by 0.90.
- The 24-hour rest of a target is forgotten by a rebuild, by a tick cut off before the stamp, and by a clock that goes back
  between the due check and the time of the tick (`src/decay.rs:156-195`, `src/decay.rs:269-280`).

## Model

| member | source | states |
|---|---|---|
| `EventId.EventIdRoundTrip` | src/store.rs:80-82 | an event id can be parsed back to its run id and number, whatever the run id contains |
| `EventId.EventIdInjective` | src/decay.rs:44-62 | two ids are equal exactly when run id and number are: a primary-key clash is a clash of (run_id, seq) |
| `EventId.DateRoundTrip` | src/decay.rs:76-78 | every day number has a calendar date of its own, from which it can be computed back |
| `EventId.NumberRoundTrip` | src/decay.rs:76-78 | every date of the calendar is the date of its number and of no other |
| `EventId.DayIsCivil` | src/decay.rs:76-78 | the date of a day is the Gregorian one, by the closed formula with years from March, day 0 being 1 January 1970 |
| `EventId.MaintenanceRunIdInjective` | src/decay.rs:76-78 | one synthetic run id per UTC day, all with the `maintenance:` prefix, for days written `%Y-%m-%d` in any year |
| `EventId.IdsInFull` | src/store.rs:80-82 | event ids with three and four digits, and the synthetic run id of a day, in full |
| `Counters.Counter.Next` | src/store.rs:55-59 | the number after the last one; at the limit that number once more, and from then on a panic |
| `Counters.Counter.ResumingFrom` | src/store.rs:67-71 | the next number follows the persisted maximum |
| `Counters.TouchWf` | src/run_loop.rs:60-78 | the LRU order stays duplicate-free, equal to the key set, and no longer than the cap |
| `Counters.RetainedIff` | src/run_loop.rs:60-78 | a run is held exactly when fewer than cap other runs were touched since its last touch |
| `Counters.RefinesUnbounded` | src/run_loop.rs:60-78 | the bounded map hands out what an unbounded map would exactly when no run is reused after eviction |
| `Counters.EmittedOnce` | src/run_loop.rs:60-78 | without a lost reuse no (run, number) pair is emitted twice |
| `Counters.LostReuseCollides` | src/run_loop.rs:60-78 | a lost reuse that emits anything emits (run, 1) a second time |
| `LruCounterMaps.LruCounterMap.GetOrCreate` | src/run_loop.rs:60-78 | the object's order, keys and counts move as the LRU value does, and the counter returned is the run's own |
| `LruCounterMaps.LruCounterMap.TouchOrder` | src/run_loop.rs:61-76 | position, removal, push and eviction amount to one touch |
| `Keys.LruFollowsUses` | src/run_loop.rs:572-602 | in every reachable state the map is what the dispatches since the last restart made of a fresh one |
| `Keys.RetainedByDistance` | src/run_loop.rs:35-78 | in every reachable state a counter is in memory exactly when the run was dispatched since the last restart and fewer than 64 other runs after it |
| `Machine.RestartIsFresh` | src/run_loop.rs:35-58 | after a crash only the tables are left: counters, cached day and work under way are those of a new process |
| `Machine.CutsAreCounted` | src/run_loop.rs:457-477 | an error cuts off the row or tick it hits, a crash both, and each one cut off is counted once |
| `Dispatcher.PlanFor` | src/dispatcher.rs:145-179 | the mutating plan computes friction cap, tolerance test and clamp as specified; an overshoot beyond the tolerance lands on its bound and is recorded |
| `Dispatcher.PlanLands` | src/dispatcher.rs:163-168 | a value sent outside [0, 1] by more than the tolerance lands on the bound it crossed, any other stays |
| `Dispatcher.PlanIsNearest` | src/dispatcher.rs:163-168 | no value in range lies between where the plan was sent and where it lands |
| `Dispatcher.HeldAt` | src/dispatcher.rs:151-161 | a raise of friction that would take friction, doubt and shame above 1 is held where they sum to 1, or at 0; nothing else is held |
| `Dispatcher.CapsRecorded` | src/dispatcher.rs:151-179 | the friction cap, then the range clamp, each exactly when it applies |
| `Dispatcher.ToleranceIsUlp` | src/dispatcher.rs:165 | the tolerance is one halved 52 times |
| `Tables.OutcomeTable` | src/tuning.rs:59-68 | each attribute's column of the outcome table, in plain numbers |
| `Tables.HippocampusTable` | src/tuning.rs:82-94 | the same for hippocampus reasons |
| `Tables.SensorTable` | src/tuning.rs:103-116 | the same for sensor reasons |
| `Tables.ConfidenceScales` | src/dispatcher.rs:119-125 | low confidence halves the delta, medium leaves it, high multiplies it by one and a half up to 0.30, and none turns it round |
| `Tables.TheoreticalIsWeighted` | src/tuning.rs:22-27 | the full effect of a classification is its column scaled by confidence |
| `Tables.UnweightedNames` | src/dispatcher.rs:328-357 | a hippocampus or sensor payload names exactly the attributes with an entry in its column |
| `Tables.NamesInOrder` | src/dispatcher.rs:237-299 | the events of a dispatch come in table order |
| `Dispatcher.PlanUncapped` | src/dispatcher.rs:145-179 | no cap is recorded exactly when the whole requested delta is applied |
| `Dispatcher.PlanInRange` | src/dispatcher.rs:163-168 | the new value is in range exactly when the overshoot is zero or beyond the tolerance |
| `Dispatcher.PlanCanOvershoot` | src/dispatcher.rs:165 | an input for which the tolerance lets an out-of-range value through |
| `Dispatcher.PlanBetween` | src/dispatcher.rs:151-168 | the applied delta lies between nothing and the request exactly unless friction starts above its bound |
| `Dispatcher.NamesDistinct` | src/dispatcher.rs:265-277 | a dispatch names each attribute at most once |
| `Dispatcher.EmitPlanned` | src/dispatcher.rs:511-533 | one turn of a dispatch loop emits the planned event under the counter's next number |
| `Dispatcher.DispatchOutcome` | src/dispatcher.rs:237-257 | one event per affected attribute, all from the frozen reading, numbered consecutively |
| `Dispatcher.DispatchRevision` | src/dispatcher.rs:265-299 | one event per attribute in the union, each asking for what the logged deltas leave missing |
| `Dispatcher.DispatchHippocampus` | src/dispatcher.rs:328-357 | one event per affected attribute, unweighted |
| `Dispatcher.DispatchSensor` | src/dispatcher.rs:387-417 | one event per affected attribute, unweighted |
| `Dispatcher.DispatchMaintenance` | src/dispatcher.rs:449-481 | one decay event of -0.01, stopped at 0 with the range clamp recorded exactly then |
| `Safety.AlwaysSafe` | src/dispatcher.rs:145-179 | every reachable value, logged or projected, is a multiple of 1/400 in [0, 1] and friction is 0 |
| `Explained.AlwaysExplained` | src/dispatcher.rs:237-481 | every logged event took its attribute from the old value to what its reason asks for, in plain numbers, or to the bound it would have crossed, and records a cap exactly then |
| `Explained.EventRecordsPayload` | src/dispatcher.rs:237-417 | each event of a dispatch gives back the whole payload, the value read and the prior actual |
| `Safety.ValidateNeverRejects` | src/store.rs:177-185 | in every reachable state no pending event is refused for its range |
| `Safety.FrictionStaysZero` | src/dispatcher.rs:154-161 | friction stays at its seeded 0, no event moves it, and its cap is never recorded |
| `Contribution.AlwaysContributes` | src/dispatcher.rs:265-299 | every logged outcome event moves its intervention's sum to a point between the old sum and the new theoretical delta |
| `ContributionBound.AlwaysBounded` | src/run_loop.rs:553-574 | what every step keeps: with l of k first emits on an attribute still outstanding its sum is within 0.30 (k - l), and an intervention never emitted has no event |
| `ContributionBound.NetContributionBounded` | src/dispatcher.rs:552-564 | in every reachable state an intervention emitted k times has moved each attribute by at most 0.30 k, for any confidences, disabled links, cut-off rows and other traffic |
| `ChainLimits.FirstEmitsAddUp` | src/dispatcher.rs:237-257 | a run from the seeded tables of three harmful first emits that move shame by 0.90: the bound is attained |
| `RevisionChain.RowSettles` | src/run_loop.rs:628-666 | after an enabled row a planned attribute's sum is the theoretical delta exactly when its event carries no cap |
| `RevisionChain.RowSettlesIff` | src/run_loop.rs:553-605 | what an enabled row, first emit or revision, does to each applied sum, by a condition known before the dispatch |
| `RevisionChain.RevisionSettlesIff` | src/run_loop.rs:628-690 | on any log an enabled revision brings the sum to the new theoretical delta exactly when, in the union, what is missing fits, and outside it the sum was zero |
| `Chains.AlwaysChained` | src/run_loop.rs:524-626 | what every step keeps of a chain: the settled log between its rows, and each half-logged row's outstanding events |
| `Chains.ChainForgets` | src/run_loop.rs:628-690 | in any run whose rows about an intervention are enabled, in time order and not cut off half-way, all eight sums are those of the latest classification exactly where the last row fitted |
| `ChainLimits.NeutralCannotBeRevised` | src/run_loop.rs:684-688 | a neutral first emit logs nothing and a revision without prior events is refused |
| `Shapes.AlwaysShaped` | src/decay.rs:276-326 | in every reachable state events carry their classification as their reason, and each logged decay takes 0.01 off a target, stops at 0, records a cap exactly then, and belongs to the run of the day its time falls in |
| `Shapes.DayOfTime` | src/decay.rs:276-278 | the UTC day of a time is the stretch of 86400 seconds it falls in |
| `Shapes.ClassifiedIff` | src/run_loop.rs:673-690 | so a prior classification can be derived exactly when the intervention has an event |
| `ChainLimits.DisabledLinkLeavesResidue` | src/run_loop.rs:673-690 | a run of three rows from the seeded tables, the second disabled, that leaves 0.05 the latest classification does not ask for |
| `ChainLimits.OlderLinkLeavesResidue` | src/run_loop.rs:673-690 | such a run with all rows enabled, the second stamped before the first |
| `Store.InsertErrors` | src/store.rs:209-239 | an insert is refused exactly for a value out of range or a taken (run_id, seq) |
| `Databases.PriorActualIsSum` | src/dispatcher.rs:557-562 | the sum over any permutation of the intervention's events on one attribute is the sum over the log |
| `Databases.MatchingExact` | src/store.rs:332-386 | exactly the intervention's events on the attribute, each as often as it is logged |
| `RevisionChain.UnionMember` | src/run_loop.rs:721-731 | an attribute is in the union exactly when one of the two classifications has a non-zero entry for it |
| `Replay.OrderBySorts` | src/store.rs:532-549 | the replay order is a sorted permutation of the log |
| `Replay.UpsertedAllRow` | src/store.rs:552-568 | the replay loop leaves in each row its last event |
| `Replay.RebuiltRow` | src/store.rs:513-572 | after a rebuild each row is given by the log's last matching event, or is zero, with its stamp cleared |
| `Replay.RebuiltFields` | src/store.rs:513-572 | the same field by field |
| `Replay.RebuildOfNothing` | src/store.rs:521-530 | replaying an empty log gives the seeded rows without their stamps |
| `Store.TextLessIff` | src/store.rs:532-549 | run ids are ordered by their first difference, a prefix first |
| `Replay.RebuildIsCanonical` | src/store.rs:513-572 | the result depends on the set of events only |
| `Replay.RebuildIsIdempotent` | src/store.rs:501-506 | rebuilding twice is rebuilding once |
| `Trace.AlwaysAudited` | src/run_loop.rs:607-622 | keys in the log are unique, and announced and pending events are distinct occurrences in it |
| `Trace.AuditsFollowTheLog` | src/run_loop.rs:607-622 | audits are distinct logged events, and logged events without audit number at most one per interruption or busy actor |
| `Trace.ClaimedAtMostOnce` | src/run_loop.rs:524-536 | each inbox id is claimed at most once, and none leaves the inbox unclaimed |
| `Trace.NothingFromThinAir` | src/run_loop.rs:609-619 | every row is zero or was written by a logged event, an enabled one without include-disabled rebuild |
| `Keys.MaxSeqBounds` | src/store.rs:474-481 | the maximum bounds every persisted number of the run and is attained |
| `Keys.AlwaysDaySafe` | src/decay.rs:233-255 | the cached day counter is never below what is persisted for its day |
| `Keys.DecayNeverCollides` | src/decay.rs:306-326 | the event a tick is about to insert has a fresh key, over restarts, toggles and clock movements |
| `Keys.AlwaysFresh` | src/run_loop.rs:572-608 | while every dispatched run is retained or new, each counter and each batch in flight is ahead of the log |
| `Keys.RunNeverClashes` | src/run_loop.rs:572-608 | no insert of the run loop clashes while every dispatched run is retained or new to the log |
| `Completion.RefusableIff` | src/store.rs:209-239 | a batch is refused at some event exactly when one of its numbers is persisted for its run beforehand |
| `Completion.ForgottenRunLosesRow` | src/run_loop.rs:60-78 | the next row of a forgotten run is lost exactly when one of the numbers 1 to n it needs is persisted; it logs the events before that number and stays claimed, and otherwise it runs to its end |
| `Rows.RunRow` | src/run_loop.rs:524-626 | a row none of whose events is refused is a run of the machine that applies its whole batch and deletes the row |
| `Rows.LoseRow` | src/run_loop.rs:607-622 | a row with a refused event is a run of the machine that applies the events before it and leaves the row claimed |
| `Coherence.UpsertsCommute` | src/run_loop.rs:607-619 | a batch with distinct attributes may be upserted in any order |
| `Coherence.SnapshotCoherence` | src/run_loop.rs:553-605 | every batch in flight was planned by one step from the projection as one earlier step read it, and may be upserted in any permutation |
| `Agreement.AlwaysLive` | src/run_loop.rs:607-622 | every row outside the stale and pending ones says what the log's last enabled event says, and stale rows number at most one per interruption |
| `Agreement.ReplayAgreesWithLive` | src/store.rs:513-572 | replay and projection differ only on stale or pending attributes, at most one per interruption and busy actor |
| `Agreement.UninterruptedAgrees` | src/run_loop.rs:607-622 | they agree on every attribute after any uninterrupted run |
| `Agreement.UpsertHeals` | src/run_loop.rs:609-619 | the next upsert of an enabled event on an attribute makes them agree there again |
| `Agreement.AppliedAgreesIff` | src/store.rs:532-549 | after an event is applied its row agrees with replay exactly when no earlier event there has a greater key, or it says the same |
| `Agreement.RebuildSets` | src/store.rs:513-572 | right after a rebuild each row says what the last matching event says, or is zero as of the rebuild, without a stamp |
| `Agreement.CrossedUpsertsIff` | src/decay.rs:327-337 | when two upserts on one attribute cross, row and replay agree exactly when both events say the same |
| `Races.CrossedRun` | src/decay.rs:197-202 | a run from the seeded tables, nothing failing, after which doubt shows 0.025 and replay 0 |
| `Telescope.ChainTelescopes` | src/store.rs:172-174 | where the enabled events of an attribute are chained their deltas sum to where the last one left it |
| `Telescope.AlwaysTelescoped` | src/run_loop.rs:553-622 | while the actors stay apart on an attribute every reading of it in memory is current and its row is at the tip of its chain |
| `Telescope.ProjectionIsSum` | src/run_loop.rs:553-622 | while the actors stay apart on an attribute its enabled events form a chain and its row is the sum of their deltas, whatever happens on the others |
| `Telescope.SerialIsApart` | src/run_loop.rs:553-622 | taking turns by whole rows and ticks keeps the actors apart on every attribute |
| `Telescope.AppliedIsSumIff` | src/run_loop.rs:607-619 | after an event is applied its row is the sum of deltas exactly when the event was planned from the sum, and is otherwise off by as much as the reading was |
| `Races.StaleReadRun` | src/decay.rs:197-202 | a run from the seeded tables, nothing failing, after which doubt is 0 and its deltas sum to 0.025 |
| `Undisturbed.UndisturbedDecay` | src/dispatcher.rs:454-462 | from any reachable state in which no write to the attribute is under way, n decays that no row disturbs take v to max(0, v - 0.01 n), whatever happens elsewhere and happened before |
| `DecayRate.SpacedRate` | src/decay.rs:86-93 | decays of a target a day apart number at most W / 24h + 1 in a stretch W |
| `DecayRate.AlwaysRated` | src/decay.rs:269-343 | from any reachable state on, the stamp of a target is no earlier than the decays applied since, and while it is due it has rested for a day |
| `DecayRate.DecayRateBound` | src/decay.rs:156-195 | from any reachable state on, applied decays of a target are at least 24 hours apart, whatever the run loop does and however other targets' ticks end |
| `DecayRate.RestIsForgotten` | src/store.rs:521-530 | after a rebuild every target is due, and a decay without its stamp leaves its target as due as before |
| `DecayLimits.CutTickDecaysAgain` | src/decay.rs:331-343 | a run that decays doubt twice within a microsecond, the first tick cut off before its stamp |
| `DecayLimits.RebuildDecaysAgain` | src/store.rs:521-530 | such a run with a whole first tick and a rebuild |
| `DecayLimits.ClockDecaysAgain` | src/decay.rs:269-280 | such a run with two whole ticks, the clock of the second going back after its check |
| `Numbering.LatestIsByStamp` | src/store.rs:532-549 | where numbers rise within each run and time, the greatest enabled event of a selection is the last inserted of those with the greatest time and run id |
| `Numbering.RetainedRises` | src/run_loop.rs:572-608 | enabled events find their numbers free and in order while every dispatched run is retained or new to the log |
| `Stutter.EveryRunThins` | src/decay.rs:269-353 | from every run the disabled rows and ticks can be deleted |
| `Stutter.RowInsertMatchesIff` | src/run_loop.rs:607-608 | two matching runs go on to match after an insert of the run loop exactly when both accept the event or both refuse it |
| `Stutter.ThinnedRunMatches` | src/decay.rs:327-342 | step by step the full and the thinned run keep equal rows, equal enabled events up to numbering, and the same enabled work at the same statement |
| `Stutter.DisabledWorkStutters` | src/run_loop.rs:609-619 | over any interleaving, failure, crash and rebuild, deleting all disabled rows and ticks leaves rows, stamps, applied sums, announcements of enabled events and replay unchanged |
| `Stutter.RetainedWorkStutters` | src/run_loop.rs:572-608 | the same with the condition on numbers replaced by runs retained or new to the log |
| `StutterLimits.DisabledRowCostsEnabledRow` | src/run_loop.rs:60-78 | a run in which an enabled row is lost to the numbers a disabled one took |
| `Databases.Database.ClaimInboxRow` | src/run_loop.rs:524-536 | claims exactly an unclaimed row, and fails exactly when its statement fails |
| `Databases.Database.PendingIds` | src/run_loop.rs:457-464 | exactly the unclaimed ids, in increasing order |
| `Databases.Database.InsertEvent` | src/store.rs:209-239 | appends the event or refuses it without effect, with the cause |
| `Databases.Database.UpsertAttribute` | src/store.rs:253-282 | replaces value, evidence and time, keeps the decay stamp, rejects a value out of range |
| `Databases.Database.ReadProjection` | src/run_loop.rs:343-363 | all eight values and the (doubt, shame) snapshot of one reading |
| `Databases.Database.LatestEvent` | src/run_loop.rs:674-683 | the intervention's event with the greatest key |
| `Databases.Database.LookupPriorEvents` | src/store.rs:332-386 | exactly the intervention's events on one attribute, as a sorted permutation of those in the log |
| `Databases.Database.BumpLastDecayAt` | src/store.rs:449-463 | moves one decay stamp and nothing else |
| `Databases.Database.MaxSeqForRun` | src/store.rs:474-481 | the greatest persisted number of a run, or none exactly when the run has no event |
| `Databases.Database.RebuildProjection` | src/store.rs:513-572 | commits the canonical replay and its count, or rolls back without effect |
| `RunLoops.UnionAffectedNames` | src/run_loop.rs:721-731 | the union of affected attributes, in table order |
| `RunLoops.SumOfEnabled` | src/dispatcher.rs:560 | the loop sums exactly the enabled deltas |
| `RunLoops.RunLoop.DerivePriorClassification` | src/run_loop.rs:673-690 | the reason of the intervention's latest event, or an error when there is none |
| `RunLoops.RunLoop.GatherPriorActuals` | src/dispatcher.rs:552-564 | for each name the sum of enabled deltas already logged |
| `RunLoops.RunLoop.BuildEvents` | src/run_loop.rs:555-605 | the batch of the payload against the log, with the run's counter advanced by its length; on error the counters are untouched |
| `RunLoops.RunLoop.ApplyEvents` | src/run_loop.rs:607-622 | applies the whole batch in order, or stops at the first failure with the inbox untouched; always a run of the machine |
| `RunLoops.RunLoop.ProcessOutcomeRow` | src/run_loop.rs:524-626 | success gives the closed form of an unrefused row, failure has a failed statement or a refused payload behind it, and only a failed claim leaves the row unclaimed; always a run of the machine |
| `RunLoops.RunLoop.DrainOutcomeInbox` | src/run_loop.rs:457-477 | each id unclaimed at the start is asked for by one claim query of this drain, in order, and is unclaimed afterwards exactly when that query failed |
| `RunLoops.DrainLeavesNone` | src/run_loop.rs:457-477 | no id that was unclaimed is left unclaimed exactly when no claim query of the drain failed |
| `DecaySchedulers.DecayScheduler.CheckDueRows` | src/decay.rs:156-195 | exactly the queried targets that are due, in the order the query returned them |
| `DecaySchedulers.DecayScheduler.AcquireDayCounter` | src/decay.rs:233-255 | the cached counter for the same day, else one resumed past everything persisted for the day |
| `DecaySchedulers.DecayScheduler.ApplyOne` | src/decay.rs:306-343 | insert, upsert, audit and stamp of one decay, the middle and last only when enabled |
| `Dueness.DueExactly` | src/decay.rs:156-195 | exactly the queried targets without a stamp or with one 24 hours old are due |
| `Dueness.DueInOrder` | src/decay.rs:172-194 | due targets come in the order of the query |
| `Dueness.DueContents` | src/decay.rs:183-191 | a due row holds the value, the stamp and the whole days since it |
| `Dueness.TickChecksAll` | src/decay.rs:269-275 | a tick starts exactly when some target is due, and then has all that are |
| `TickEvents.TickDecaysTheDue` | src/decay.rs:269-353 | a tick logs one decay for each due target in that order, however many days it missed, numbered on from the day's counter, and nothing else |
| `DecaySchedulers.DecayScheduler.Tick` | src/decay.rs:269-353 | success gives the closed form of the tick and its count; from a reachable state it fails only when a statement fails, and never for a collision |
| `Machine.ToggleDecides` | src/decay.rs:280 | the tick that reads the setting next goes by what it was last set to |
| `Completion.RowsAreAccepted` | src/run_loop.rs:607-608 | in every reachable state a row is refused exactly when it revises an intervention without events in the log or one of its numbers is persisted for its run |
| `Completion.RetainedIsFree` | src/run_loop.rs:572-602 | no number of a retained or new run is taken, while dispatched runs are retained or new |

## Left out

- IEEE rounding: values are exact reals, so the lattice result is about exact arithmetic.
- Message parsing, schema versions and enum texts: inbox payloads are parsed values or `Rejected`.
- Cue dimensions in the evidence of outcome events: carried through by the daemon and read by nothing.
- Scopes: only the global scope exists, so it is not stored, and rebuild and upsert are keyed by attribute alone.
- Dates: days are numbers with a date each, in all years; "no day cached" is `None`, not the least date.
- Text collation: run ids are ordered by code point.
- Postgres, LISTEN and NOTIFY, pools, migrations, timers, tracing and the command line: one SQL statement is one atomic
  step, rebuild one transaction. The notification after an audit's insert is part of the audit's step.
- Broker replies: logged and deleted by the daemon, with no other effect.
- Several daemons on one database: `src/run_loop.rs:5-9` rules them out.
- Interleaving inside the objects: the classes' methods run undisturbed; interleavings are the state machine's.
- Between deriving a prior classification and dispatching, the machine takes one step: only the scheduler could run there,
  and its events belong to no intervention.
- Dispatcher.EmitPlanned: asks for a counter below 2^31 - 1. What a counter does at the limit is stated by its own contract;
  no machine step models the repeated number and the panic.
- Dispatcher.DispatchOutcome: the same for all numbers of its batch.
- Dispatcher.DispatchRevision: the same for all numbers of its batch.
- Dispatcher.DispatchHippocampus: the same for all numbers of its batch.
- Dispatcher.DispatchSensor: the same for all numbers of its batch.
- Dispatcher.DispatchMaintenance: the same for its one number.
- RunLoops.RunLoop.BuildEvents: the same for the numbers of the planned batch.
- RunLoops.RunLoop.ProcessOutcomeRow: the same for the numbers of the planned batch.
- RunLoops.RunLoop.DrainOutcomeInbox: asks for room for eight numbers for each pending row.
- DecaySchedulers.DecayScheduler.Tick: asks for room for one number for each due row.
- Databases.Database.ClaimInboxRow: a failing statement has no effect; a claim committed before the connection breaks is the
  machine's claim step followed by an error.
