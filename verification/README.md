# A verified model of the RTN ads learning and action loop

This project models the deterministic core of the repository and proves what that core is for:

- **The audit log** (`Json`, `JsonUnique`, `JsonReader`, `AuditLog`, `AuditText`, `PgAudit`, `AuditSink`): canonical
  printing and reading back, the hash chain with its verifier, the Postgres appender as a protocol of any number of
  writers whose tip reads and inserts interleave freely over one table guarded only by its primary key, and the sink a
  component is given.
- **Flow E, the learning loop** (`EventBus`, `Clock`, `Ingestion`, `Duration`, `Outcome`, `FlowE`, `FlowEInvariant`,
  `FlowEProgress`, `FlowEAccount`, `FlowETallies`, `FlowETracing`, `Consumers`, `LearningStore`): a state machine over
  one bus and one virtual clock, with retries, dead letters, redeliveries, timers that arm timers and handlers that
  publish while the queue drains. Its invariants, tallies and causes are proved over every run, and the consumers are
  classes tied to the handlers of that machine.
- **Benchmarking, anomalies and decisions** (`Similarity`, `Cohort`, `CohortAccount`, `Benchmark`, `BenchmarkAccount`,
  `Anomaly`, `AnomalyAccount`, `Decision`, `DecisionAccount`): weighted order statistics over exact reals, and the
  decision rule that depends on them.
- **The mutation path** (`Rounding`, `Policy`, `PolicyRules`, `MetaWrite`, `Executor`, `MutationAccount`): policy
  arithmetic, preview, the Meta write connector over an adversarial platform, execution, rollback and the rollback of a
  rollback.
- **Text-to-number boundaries** (`Decimal`, `NumericGuard`): money parsing and the numeric-authorship guard.

`Wrappers`, `Digits`, `Reals` and `Sorting` hold what the others share. Code that updates state in place is a class or a
method proved against a specification function; the main results are lemmas about those functions. The `...Account`
modules, `PolicyRules`, `JsonReader` and `AuditText` say what those functions compute in terms of the data they are
given.

Idealisations: SHA-256 is an injective function that never returns the genesis value; numbers are exact reals or
integers; 0.5^x is any positive decreasing weight (that halves, where its
halving is the point); trimming and lower-casing, `Number` and `String` on integers,
target resolution and state capture are parameters; ids and times are arguments. The Meta platform answers each call
as an arbitrary schedule says: a success was carried out, a failure may or may not have been.

Where the code falls short of a promise or of its documentation, the model follows the code:

- Rollback "restores exactly what the pre-state captured" (services/connectors-ads/src/meta/write-connector.ts:22-23)
  only if the captured state holds exactly the kind of field the action changed; a captured status hides a captured
  budget (`Executor.RollbackRestoresIff`, `Executor.StatusHidesBudget`).
- A change can end without a record and an audit entry in two ways, and in no other: the platform carried out a
  write it reported as failed, or the audit sink refused the entry after the write, as the Postgres log does when
  another writer came first (`Executor.UntracedChangeIff`, `Executor.UnacknowledgedWrite`,
  `AuditSink.OvertakenIsStale`).
- The clock's time can move backwards in an advance, also when all timers pending at its start lie ahead: exactly
  when a callback leaves a timer in its past (`Clock.TimeFallsIff`, `Clock.NeverFallsIff`).
- With a neutral band of 0 or less an unchanged metric reads "regressed" in both senses
  (`Outcome.VerdictProperties`).
- A recurring sync with an interval below one millisecond never lets the clock's advance return, although the
  interval is accepted (`Ingestion.RecurringSettlesIff`).
- A window outside the years 0000 to 9999 is marked scheduled, its timer fires, and its event cannot be published
  (`FlowEInvariant.WindowBeyond9999IsLost`).
- Anomalies are a minority exactly for thresholds above 1.349; below, half the points can be flagged
  (`Anomaly.MinorityIff`).
- An absolute budget change of an entity without a budget is always denied, because its fraction is infinite
  (`Policy.AbsoluteNeedsBudget`), although the connector could set a first budget.
- services/action-executor/src/audit.ts:66-70 says that a Postgres chain starts at 1; the appender supplies the number
  itself, so its chain starts at 0.
- services/benchmark-engine/src/benchmark.ts:32 calls the quantile linear on cumulative weight; it is a step function
  that returns one of the values.
- services/ingestion-scheduler/src/duration.ts:10 accepts a `T` with nothing behind it after days or weeks (`P1DT`),
  and weeks together with other components.

## Model

| member | source | states |
|---|---|---|
| Json.StringifyPrintsCanon | services/action-executor/src/audit.ts:24-31 | the canonical text of a well-formed JSON value is the plain printing of that value with the keys of every object put in order, at every depth |
| JsonUnique.PrintUnique | services/action-executor/src/audit.ts:24-31 | unique readability: if two printed values, each followed by text that cannot continue a number, coincide, then the values and the rests coincide |
| JsonUnique.EquivIffCanon | services/action-executor/src/audit.ts:24-31 | two values are equal up to key order exactly when sorting their keys makes them equal |
| JsonUnique.StringifyIffEquiv | services/action-executor/src/audit.ts:24-31 | two values have the same canonical text if and only if they are equal up to object key order at every depth |
| JsonUnique.EquivIsEquivalence | services/action-executor/src/audit.ts:24-31 | equality up to key order is reflexive, symmetric and transitive |
| JsonReader.StringLeqIsInOrder | services/action-executor/src/audit.ts:27-27 | the order of keys, without recursion: a prefix comes first, otherwise the smaller character at the first difference |
| JsonReader.CanonIsInOrder | services/action-executor/src/audit.ts:24-31 | in the canonical form the keys of every object, at every depth, stand in that order |
| JsonReader.EscapeIsShortest | services/action-executor/src/audit.ts:24-31 | what each character of a string is written as: itself, a two-character escape or a four-digit one, whichever is the shortest allowed |
| JsonReader.CanonicalTextReadsBack | services/action-executor/src/audit.ts:24-31 | round trip: a reader of the JSON grammar (RFC 8259), written independently of the printer, reads the canonical text back as the canonical value with nothing left over |
| AuditText.HashedTextSays | services/action-executor/src/audit.ts:33-46 | the text that is hashed, read back, is an object with exactly the eight named fields of the entry and its predecessor's hash, `created_at` not among them |
| AuditText.AcceptedMeans | services/action-executor/src/audit.ts:71-82 | what an accepted chain is, entry by entry: numbers rise, each entry links the hash before it or 64 zeros, and each hash is that of the entry's own text |
| AuditLog.VerifyChain | services/action-executor/src/audit.ts:71-82 | the verifier's loop answers true exactly for the chains whose hashes recompute, whose links match and whose numbers increase |
| AuditLog.AppendKeepsChain | services/action-executor/src/audit.ts:48-63 | appending to an accepted chain keeps it accepted and keeps the numbering free of gaps |
| AuditLog.AppendsAreAccepted | services/action-executor/src/audit.ts:48-98 | every sequence of appends to the empty log is an accepted chain, numbered 0, 1, ..., recording exactly the inputs in order |
| AuditLog.PrefixAccepted | services/action-executor/src/audit.ts:71-82 | every prefix of an accepted chain is accepted |
| AuditLog.SealedAgree | services/action-executor/src/audit.ts:33-46 | with an injective hash, two entries carry the same hash exactly when they agree on everything but `created_at`, payloads up to key order |
| AuditLog.TipDeterminesChain | services/action-executor/src/audit.ts:33-82 | tamper evidence: two accepted chains with the same last hash have the same length and agree entry by entry on everything but `created_at`, payloads up to key order |
| AuditLog.ReloadedChain | services/action-executor/src/audit.ts:24-82 | reloading entries with payload keys reordered (or `created_at` changed) keeps a chain exactly as valid as it was |
| AuditLog.InMemoryAuditLog.Append | services/action-executor/src/audit.ts:90-98 | the log grows by one entry, linked to the last, and stays one gap-free accepted chain |
| AuditLog.InMemoryAuditLog.Verify | services/action-executor/src/audit.ts:104-106 | answers whether the stored entries are an accepted chain |
| PgAudit.StepKeepsChain | services/action-executor/src/pg-audit.ts:18-44 | one tip read or insert of any writer, at any stale tip, keeps the table one gap-free accepted chain of the successful appends |
| PgAudit.InsertSucceedsOnlyAtTip | services/action-executor/src/pg-audit.ts:18-44 | an insert succeeds if and only if the remembered tip is still the last committed entry; a stale tip can only fail |
| PgAudit.EveryInterleavingIsOneChain | services/action-executor/src/pg-audit.ts:18-63 | for any number of writers and every interleaving of their statements, the table read in order of `seq` is exactly the sequence of successful appends, one accepted chain |
| PgAudit.EveryReadingIsAccepted | services/action-executor/src/pg-audit.ts:47-63 | after any interleaving the verifier accepts every reading of the rows that returns payload keys in another order and any timestamps |
| PgAudit.CommittedForever | services/action-executor/src/pg-audit.ts:18-44 | whatever was once committed stays in place under every further run |
| PgAudit.UncontendedAppendSucceeds | services/action-executor/src/pg-audit.ts:18-44 | a writer that reads the newest row and is not overtaken commits its entry as the next of the chain |
| PgAudit.PgAuditLog.SelectTip | services/action-executor/src/pg-audit.ts:19-24 | returns the row with the greatest `seq`, or nothing for the empty table |
| PgAudit.PgAuditLog.InsertEntry | services/action-executor/src/pg-audit.ts:26-42 | adds the row unless its number is taken, in which case the table is unchanged |
| PgAudit.PgAuditLog.Append | services/action-executor/src/pg-audit.ts:18-44 | run by itself, an append succeeds and extends the chain by its entry |
| PgAudit.PgAuditLog.Verify | services/action-executor/src/pg-audit.ts:47-63 | answers whether the rows in order of `seq` are an accepted chain |
| Clock.NextDueIsLeast | services/ingestion-scheduler/src/clock.ts:72-82 | the timer that fires is the earliest due one, and among equals the one scheduled first |
| Clock.CallbackSeesFireTime | services/ingestion-scheduler/src/clock.ts:76-85 | the callback that runs is that of the earliest due timer, it sees that timer's own time, and the firing is noted with it |
| Clock.GranularityDoesNotMatter | services/ingestion-scheduler/src/clock.ts:72-87 | advancing to t1 and then to t2 returns if and only if advancing to t2 does, and ends in the same world, pending timers and firing history with the same `now()` at each firing |
| Clock.NothingDueAfterwards | services/ingestion-scheduler/src/clock.ts:72-87 | after an advance the clock shows the target and no pending timer is due |
| Clock.TimeFallsIff | services/ingestion-scheduler/src/clock.ts:72-87 | in an advance to a time not before now, `now()` moves backwards at the next turn after any number of turns if and only if some timer then lies before now |
| Clock.NeverFallsIff | services/ingestion-scheduler/src/clock.ts:44-87 | no advance from a clock without timers before now ever moves `now()` backwards if and only if no callback leaves a timer before the time it runs at |
| Clock.OpsStayAheadIff | services/ingestion-scheduler/src/clock.ts:44-57 | what a callback schedules and cancels leaves no timer before now exactly when it cancels every such timer that was pending or that it set itself |
| Clock.TimeNeverTurnsBack | services/ingestion-scheduler/src/clock.ts:72-87 | as long as no callback leaves a timer before now, every advance sees rising times |
| Clock.VirtualClock.ScheduleTimer | services/ingestion-scheduler/src/clock.ts:44-49 | adds the timer under a fresh id |
| Clock.VirtualClock.CancelTimer | services/ingestion-scheduler/src/clock.ts:52-57 | removes the timer with that id, and says whether there was one |
| Clock.VirtualClock.Pending | services/ingestion-scheduler/src/clock.ts:60-64 | all pending timers, ordered by fire time |
| Clock.VirtualClock.AdvanceClock | services/ingestion-scheduler/src/clock.ts:72-87 | refuses to go back; otherwise ends in the state the specification of the advance determines, whatever the callbacks do |
| Clock.VirtualClock.AdvanceClockBy | services/ingestion-scheduler/src/clock.ts:89-92 | advances by a non-negative duration and refuses a negative one |
| Clock.VirtualClock.FireOne | services/ingestion-scheduler/src/clock.ts:76-85 | one turn of the loop: takes the next due timer out, sets the time, runs its callback |
| Ingestion.ScheduleRecurring | services/ingestion-scheduler/src/ingestion.ts:38-62 | on a clock shared with any other timers: refuses a non-positive interval; otherwise arms exactly one timer for the first fire time, under the id it returns |
| Ingestion.NewSyncJoins | services/ingestion-scheduler/src/ingestion.ts:38-62 | a newly scheduled sync joins the family on the clock, with its one timer, and leaves the others theirs |
| Ingestion.NextStartRounds | services/ingestion-scheduler/src/ingestion.ts:59-59 | the step between starts is the interval rounded down, but rounded up where the next instant lies before 1970 |
| Ingestion.FamilySyncs | services/ingestion-scheduler/src/ingestion.ts:38-62 | for any family of syncs on one clock beside any timers that set none: after the advance each has published exactly its instants up to T, in order, and has exactly one timer, at its first instant after T |
| Ingestion.RecurringSyncCount | services/ingestion-scheduler/src/ingestion.ts:38-62 | for each sync of a family armed from 1970 on, or with a whole number of milliseconds: exactly max(0, floor((T-F)/i)+1) starts at F, F+i, ..., and one timer at the instant that follows |
| Ingestion.NeverSettles | services/ingestion-scheduler/src/ingestion.ts:45-60 | a sync below a millisecond that is due from 1970 on re-arms for the same instant, so no number of turns settles the advance, whatever else is on the clock |
| Ingestion.RecurringSettlesIff | services/ingestion-scheduler/src/ingestion.ts:38-62 | the advance over a family returns if and only if each sync's interval is at least a millisecond, or it is not due, or the target lies before 1970 |
| EventBus.FamilyWildcard | packages/eventbus/src/bus.ts:53-60 | `family.*` matches the family itself and everything below it, and nothing else |
| EventBus.TypeMatchesIff | packages/eventbus/src/bus.ts:53-60 | a pattern matches a type exactly when it is `*`, is equal to it, or is `p.*` with the type being `p` or beginning with `p.` |
| EventBus.DeliveryEnds | packages/eventbus/src/bus.ts:132-155 | a delivery ends at the first run that succeeds or at run maxRetries + 1, each run on the world the one before left; it queues what all runs published, and only a failed last run leaves a dead letter, with that run's error and the number of runs |
| EventBus.VisitsInOrder | packages/eventbus/src/bus.ts:114-130 | an event visits the subscriptions in the order they were made, and only those that match it and have not settled its id |
| EventBus.EveryRunKeepsInv | packages/eventbus/src/bus.ts:78-155 | in every reachable state: delivered followed by queued events are the published ones in order; each subscription has run for an event id at most maxRetries+1 times and settled it at most once; each dead letter records one parked run and all its attempts |
| EventBus.DrainSettlesEverything | packages/eventbus/src/bus.ts:114-130 | when `drain` returns, everything published was delivered in order and every matching subscription settled every event delivered since it was made, exactly once |
| EventBus.StagedDrainReturns | packages/eventbus/src/bus.ts:114-130 | if every handler publishes only events of later stages, `drain` returns from every state |
| EventBus.InMemoryEventBus.AddSubscription | packages/eventbus/src/bus.ts:78-87 | adds the subscription with nothing seen |
| EventBus.InMemoryEventBus.PublishEvent | packages/eventbus/src/bus.ts:90-94 | appends the event to the queue and changes nothing else |
| EventBus.InMemoryEventBus.DrainQueue | packages/eventbus/src/bus.ts:114-130 | a re-entrant call does nothing; otherwise the queue is worked off as specified and the invariant is kept |
| EventBus.InMemoryEventBus.DeliverOldest | packages/eventbus/src/bus.ts:118-125 | the oldest event goes in turn to every subscription that matches it and has not seen it |
| EventBus.InMemoryEventBus.DeliverTo | packages/eventbus/src/bus.ts:132-155 | runs the handler until it returns or the event is parked as a dead letter, and marks it seen either way |
| Duration.ParserAcceptsExactlyWritten | services/ingestion-scheduler/src/duration.ts:9-20 | the parser accepts exactly the texts that write weeks, days, hours, minutes and seconds in designator format, and returns their length in milliseconds |
| Duration.UnitsAddUp | services/ingestion-scheduler/src/duration.ts:9-20 | the length is the sum of the components at 7 days, 24 hours, 60 minutes, 60 seconds and 1000 milliseconds |
| Outcome.VerdictProperties | services/action-executor/src/outcome.ts:25-56 | for every band: never inconclusive, confidence in [0.1, 0.4], neutral exactly inside the band, and turning with the metric's sense if and only if there is a change or the band is positive |
| Outcome.EvaluationReports | services/action-executor/src/outcome.ts:25-56 | what an evaluation reports: the change, the change relative to the size of the value before, and the confidence 0.1, 0.2 or 0.4 by band and by a change of 15%; the default band is 5% |
| FlowEInvariant.NextKeeps | services/ingestion-scheduler/src/outcome-window.ts:35-70 | every step (publication, redelivery, re-open, timer, delivery with retries, decision) keeps the invariant of Flow E |
| FlowEInvariant.EveryRunOfFlowE | services/ingestion-scheduler/src/outcome-window.ts:35-70 | over every run each action has at most one opening and one verdict, each opening is stamped exactly `executed_at` plus the period, and the scheduled ids are the disjoint union of pending timers, opened windows and lost windows |
| FlowEProgress.DueWindowsOpen | services/ingestion-scheduler/src/outcome-window.ts:53-68 | progress, from every reachable state: once the timers due by T have fired, every window due by T that can be stamped is open at its time, every remaining timer lies after T, and every scheduled action is opened, pending or impossible to open |
| FlowEInvariant.NoWindowLost | services/ingestion-scheduler/src/outcome-window.ts:51-68 | a window is lost only if it lies outside the years an event can be stamped with; if no action asks for such a window, none is lost |
| FlowEInvariant.WindowBeyond9999IsLost | services/ingestion-scheduler/src/outcome-window.ts:48-68 | a concrete action whose window is scheduled, fires, and can never open |
| FlowEInvariant.SuggestionsFollowSnapshots | services/knowledge-service/src/sink.ts:22-29 | the k-th row ever written holds the k-th distinct delivered snapshot, which aggregates k evaluations and whose counts sum to k; a client's pending row holds the last snapshot delivered for that client |
| FlowETallies.SnapshotsTallyEvaluations | services/action-executor/src/outcome-consumer.ts:99-151 | in every reachable state each of the four counts is the number of distinct delivered evaluations with that result, and the mean times the sample size is the sum of their confidences; the k-th snapshot, and the k-th suggestion, has those of the first k of them |
| FlowETracing.EveryEventIsTraced | services/action-executor/src/outcome-consumer.ts:51-151 | over every run each opening answers a published executed action at the time that action asks for, each verdict answers a published opening of its action and is the evaluation of one reading, each snapshot answers a published verdict, for the same client and correlation id |
| FlowEAccount.ExecutedArms | services/ingestion-scheduler/src/outcome-window.ts:35-70 | an executed action that asks for a window, not scheduled before, arms exactly one timer, at its time plus the period |
| FlowEAccount.OtherwiseNothingArmed | services/ingestion-scheduler/src/outcome-window.ts:35-50 | every other executed action arms nothing and publishes nothing |
| FlowEAccount.BadWindowIsParked | services/ingestion-scheduler/src/outcome-window.ts:44-51 | an executed action whose period cannot be read, or whose window no date can hold, fails each of its runs, changes nothing, and ends as a dead letter with that error and the number of runs |
| FlowEAccount.StampableYears | services/ingestion-scheduler/src/outcome-window.ts:53-58 | what an event can be stamped with is exactly the Gregorian years 0000 to 9999, counted in days from 1970 |
| FlowEAccount.FiredWindow | services/ingestion-scheduler/src/outcome-window.ts:53-68 | the earliest due timer opens its window at its own time, in answer to the action that armed it, or loses it when that time cannot be written |
| FlowEAccount.OpenedIsJudged | services/action-executor/src/outcome-consumer.ts:51-84 | the first reading that does not fail, within the runs allowed, decides: a measurement is published as the verdict on those metrics, no measurement publishes nothing |
| FlowEAccount.EvaluatedDelivery | services/action-executor/src/outcome-consumer.ts:127-151 | an evaluation not delivered before is taken in and answered at once with the new snapshot |
| FlowEAccount.LearnedSuggests | services/knowledge-service/src/sink.ts:22-29 | a snapshot not delivered before becomes the client's one pending suggestion, of kind "calibration" and with this event as its source |
| FlowEInvariant.FlowDrainReturns | services/action-executor/src/outcome-consumer.ts:47-156 | with the four consumers registered `drain` returns from every reachable state with an empty queue, keeping the invariant |
| Consumers.OutcomeWindowScheduler.OnExecutedEvent | services/ingestion-scheduler/src/outcome-window.ts:35-70 | the scheduler's `scheduled` set and the clock change exactly as the handler of the loop says, on every branch |
| Consumers.OutcomeEvaluatorConsumer.OnOpenedEvent | services/action-executor/src/outcome-consumer.ts:51-84 | the evaluator's set, the source's reads, the ids drawn and the event published are those of the handler of the loop |
| Consumers.LearningAggregator.TakeSnapshot | services/action-executor/src/outcome-consumer.ts:119-125 | the snapshot is the running counts with the mean confidence, 0 when there is none |
| Consumers.LearningAggregator.OnEvaluatedEvent | services/action-executor/src/outcome-consumer.ts:127-151 | the aggregator's seen set, counts, sum and number change, and its snapshot is published, as the handler of the loop says |
| Consumers.LearningSuggestionSink.OnLearningUpdated | services/knowledge-service/src/sink.ts:22-29 | the store's rows change as the handler of the loop says, and stay valid |
| LearningStore.EveryRunKeeps | services/knowledge-service/src/memory.ts:17-61 | over every sequence of upserts and decisions: a client has at most one pending row and it is its newest, source events are unique per client, settled rows never change, and rows of clients that took no part are untouched |
| LearningStore.UpsertLeavesNewest | services/knowledge-service/src/memory.ts:17-39 | after an accepted upsert the client's one pending row is the last row, with the given snapshot |
| LearningStore.DecisionRecords | services/knowledge-service/src/memory.ts:52-61 | deciding a pending row: accepting makes it accepted, rejecting rejected, by the given person at the given time, with the given note or else the old one; content and source stay, and all other rows |
| LearningStore.IdleDecision | services/knowledge-service/src/memory.ts:52-55 | deciding a missing or settled row changes nothing |
| LearningStore.UpsertRecords | services/knowledge-service/src/memory.ts:17-39 | what an accepted upsert records: the given content, source and kind, pending, at the given time; older pending rows of the client are superseded and nothing else changes |
| LearningStore.ListedIsReversed | services/knowledge-service/src/memory.ts:41-46 | a listing is the client's rows of that status, last row first |
| LearningStore.PendingListedFirst | services/knowledge-service/src/memory.ts:41-46 | listing a client's pending rows gives at most one, and it is the first of the client's full list |
| LearningStore.InMemoryLearningStore.UpsertRow | services/knowledge-service/src/memory.ts:17-39 | supersedes in place and appends, or changes nothing when the source event is recorded; keeps the invariant |
| LearningStore.InMemoryLearningStore.DecideRow | services/knowledge-service/src/memory.ts:52-61 | decides exactly the pending row with that id; refuses a missing or settled one without changing anything |
| LearningStore.InMemoryLearningStore.List | services/knowledge-service/src/memory.ts:41-46 | the client's rows of that status, newest first |
| LearningStore.InMemoryLearningStore.Get | services/knowledge-service/src/memory.ts:48-50 | finds a row of that client with that id exactly when there is one |
| Similarity.TaxonomySimilarity | packages/domain/src/similarity.ts:24-35 | the loop counts exactly the shared leading segments and divides by the longer depth |
| Similarity.TaxonomyIsSimilarity | packages/domain/src/similarity.ts:24-35 | within [0,1], symmetric, and 1 exactly for paths with the same segments |
| Similarity.CombineSimilarity | packages/domain/src/similarity.ts:84-95 | the accumulating loop computes the clamped weighted mean, 0 for zero weight |
| Similarity.CombinedIsMean | packages/domain/src/similarity.ts:84-95 | the combined similarity lies between the scores of the dimensions that carry weight; the clamp has nothing to do |
| Similarity.InfluenceIsMonotone | packages/domain/src/similarity.ts:115-136 | a more similar, more recent, better sampled and cleaner observation never has less influence; the final clamp has nothing to do |
| Cohort.CompareIsSimilarity | services/benchmark-engine/src/cohort.ts:34-52 | every comparator scores within [0,1], is symmetric, and gives equal values 1 |
| Cohort.ScoreMembers | services/benchmark-engine/src/cohort.ts:58-96 | the loop and sort give the candidates other than the subject, scored, by descending influence |
| Cohort.ScoredIsSortedPermutation | services/benchmark-engine/src/cohort.ts:58-96 | the scored list is a permutation of the scored other candidates, sorted by influence with ties in input order, similarity and influence in [0,1], and never the subject itself |
| Cohort.CohortIgnoresOrder | services/benchmark-engine/src/cohort.ts:58-104 | scoring and filtering permuted candidates gives the same bag of members |
| CohortAccount.SegmentsSplitAtSlashes | packages/domain/src/similarity.ts:24-26 | the segments of a path are those of the two sides of any slash, in turn; a word is its own segment and the empty text has none |
| CohortAccount.TaxonomyCounts | packages/domain/src/similarity.ts:24-35 | the taxonomy score times the longer depth is the number of leading segments shared; two paths without segments score 1 |
| CohortAccount.ComparatorsSay | services/benchmark-engine/src/cohort.ts:34-52 | a missing value compares as 0; ordinals fall off linearly from 1 to 0 at the span, which is 1 unless given; a value without an ordinal compares as in the exact comparison |
| CohortAccount.SimilarityIsMean | services/benchmark-engine/src/cohort.ts:71-76 | a member's similarity times the total of the positive weights is the sum of weight times comparison; without a positive weight it is 0 |
| CohortAccount.RecencyHalves | packages/domain/src/similarity.ts:115-118 | the recency weight is 1 at no age and halves with every half-life; without a half-life only what has no age counts |
| CohortAccount.SampleShare | packages/domain/src/similarity.ts:121-124 | the sample weight is n of n + k, with k at least 10^-9 |
| CohortAccount.InfluenceIsProduct | packages/domain/src/similarity.ts:126-136 | a member's influence is the product of its similarity, recency, sample weight (k = 20 by default) and data quality |
| CohortAccount.EveryOtherIsScored | services/benchmark-engine/src/cohort.ts:58-96 | every candidate but the subject is scored, as often as it occurs, and its member carries its data; no other member is there |
| CohortAccount.FilterKeeps | services/benchmark-engine/src/cohort.ts:99-104 | the filter keeps exactly the members at or above the threshold, in their order |
| Benchmark.WeightedQuantile | services/benchmark-engine/src/benchmark.ts:33-51 | the scan over cumulative weight returns the specified quantile, none without weight |
| Benchmark.WeightedMean | services/benchmark-engine/src/benchmark.ts:53-62 | the loop returns the weighted mean, none without weight |
| Benchmark.WeightedPercentileOf | services/benchmark-engine/src/benchmark.ts:65-78 | the loop returns the fraction of weight strictly below the subject, none without weight |
| Benchmark.Adjunction | services/benchmark-engine/src/benchmark.ts:33-78 | for positive total weight and 0 < q <= 1, at least q of the weight lies below s if and only if the q-quantile is below s |
| Benchmark.QuantileIsAValue | services/benchmark-engine/src/benchmark.ts:33-51 | a quantile exists exactly when some value carries weight, and is one of those values |
| Benchmark.QuantileIsMonotone | services/benchmark-engine/src/benchmark.ts:33-51 | a later quantile is never smaller: p10 <= p50 <= p90 |
| Benchmark.MeanIsBetween | services/benchmark-engine/src/benchmark.ts:53-62 | the mean lies between any bounds on the values that carry weight |
| Benchmark.AssessmentMeansQuartile | services/benchmark-engine/src/benchmark.ts:84-96 | on a cost metric underperforming means exactly above the weighted 0.75-quantile, and outperforming exactly not above any quantile past 0.25 (the other way round otherwise) |
| BenchmarkAccount.QuantileIsPassed | services/benchmark-engine/src/benchmark.ts:33-51 | the q-quantile is where the cumulative weight passes q: less than q of it lies strictly below, and at least q of it up to there |
| BenchmarkAccount.PassingIsQuantile | services/benchmark-engine/src/benchmark.ts:33-51 | and no other weighted value has that property |
| BenchmarkAccount.MeanBalances | services/benchmark-engine/src/benchmark.ts:53-62 | the weighted deviations from the mean cancel |
| BenchmarkAccount.PercentileIsShare | services/benchmark-engine/src/benchmark.ts:65-78 | the percentile times the total weight is the weight strictly below the subject |
| BenchmarkAccount.ComparisonSays | services/benchmark-engine/src/benchmark.ts:103-126 | each member counts with its metric value and its influence; p10, p50 and p90 are where 10, 50 and 90 percent of the influence are passed, the mean balances, the percentile is the share below the subject |
| BenchmarkAccount.ComparisonGrows | services/benchmark-engine/src/benchmark.ts:103-126 | one more member adds one to the cohort's size and its own sample to the effective sample |
| Benchmark.CompareWithCohort | services/benchmark-engine/src/benchmark.ts:103-126 | returns the comparison of the specification |
| Benchmark.ComparisonIsCoherent | services/benchmark-engine/src/benchmark.ts:103-126 | with an influential member all statistics exist, are ordered and are values of influential members; without one all are absent and the assessment is within expected |
| Benchmark.ComparisonIgnoresOrder | services/benchmark-engine/src/cohort.ts:58-104 | scoring, filtering and comparing gives the same comparison for every permutation of the candidates |
| Decision.ConfidenceIsBounded | services/decision-engine/src/confidence.ts:43-66 | confidence always lies in [0.04, 0.97] |
| DecisionAccount.StrengthSays | services/decision-engine/src/confidence.ts:18-24 | the evidence is half the cohort's size, full at five members, and half the effective sample's share against 500; none without percentile or cohort |
| DecisionAccount.SupportSays | services/decision-engine/src/confidence.ts:31-41 | causal support is moderate exactly when the subject underperforms and a severe anomaly points the bad way |
| DecisionAccount.ConfidenceIsWeighted | services/decision-engine/src/confidence.ts:43-66 | the confidence is four parts evidence, three sample, two recency and one causal support; its clamp has nothing to do |
| Decision.GenerateCandidates | services/decision-engine/src/rules.ts:34-121 | the pushed drafts are the specified ones, in order; none on insufficient evidence |
| DecisionAccount.GapSays | services/decision-engine/src/rules.ts:13-16 | the gap times the subject's value is the distance from the median, 0 without a median or a positive value |
| DecisionAccount.DraftSays | services/decision-engine/src/rules.ts:18-121 | what each draft proposes, promises and carries over, and its risk: high for pauses and below a confidence of 0.4, low from 0.7, medium between; a pause names the first severe spike |
| DecisionAccount.PauseComesFirst | services/decision-engine/src/rules.ts:63-79 | a pause is the first of the drafts |
| Decision.DecreaseStopsAtMedian | services/decision-engine/src/rules.ts:81-99 | on evidence from a comparison every reallocation promises 0 <= lo <= hi <= 0.4, with lo > 0 exactly for a positive subject, and subject*(1-hi) >= p50 |
| Decision.ProposalsFollowQuartiles | services/decision-engine/src/rules.ts:34-121 | which drafts are proposed, exactly: reallocation above the 0.75-quantile, increase when at most every quantile past 0.25, pause on a high cost spike; only for a cost metric with enough influential cohort; at most two drafts |
| Anomaly.DetectAnomalies | services/benchmark-engine/src/anomaly.ts:47-83 | the loop reports exactly the flagged points, in order, none for short or dispersionless series |
| AnomalyAccount.MedianIsMiddle | services/benchmark-engine/src/anomaly.ts:30-35 | the median is half way between the two middle numbers of any ordering of the values |
| AnomalyAccount.NothingToReport | services/benchmark-engine/src/anomaly.ts:52-60 | fewer than four points, or a middle distance of 0, give no anomaly |
| AnomalyAccount.FarPointsAreReported | services/benchmark-engine/src/anomaly.ts:47-83 | otherwise exactly the points whose distance from the median, times 0.6745, reaches the threshold times the middle distance are reported, in order, each with its z-score, direction, band and severity (medium from 1.4 and high from 2 thresholds) |
| Anomaly.MinorityIff | services/benchmark-engine/src/anomaly.ts:47-83 | strictly fewer than half the points of every series are flagged if and only if the threshold exceeds 1.349 |
| Anomaly.MinorityFlagged | services/benchmark-engine/src/anomaly.ts:47-83 | for any series and any threshold above 1.349 strictly fewer than half the points are flagged |
| Anomaly.HalfFlagged | services/benchmark-engine/src/anomaly.ts:47-83 | at 1.349 or below the series -d, 0, 0, d has at least half its points flagged |
| Anomaly.FlaggedOutsideBand | services/benchmark-engine/src/anomaly.ts:63-80 | for a positive threshold a point is flagged exactly when it is on or outside the reported band, a spike exactly at or above it |
| Anomaly.RescalingKeepsAnomalies | services/benchmark-engine/src/anomaly.ts:30-83 | a positive affine rescaling keeps the same flags, z-scores and severities and rescales the reported values |
| Anomaly.NegationSwapsAnomalies | services/benchmark-engine/src/anomaly.ts:30-83 | for every threshold, negating the series keeps flags and severities, negates z and swaps spikes with drops, except points at the centre, which only a threshold that is not positive reports |
| Rounding.RoundShifts | services/connectors-ads/src/meta/write-connector.ts:113-127 | `Math.round` commutes with adding an integer |
| Rounding.RoundOfOpposite | services/policy-engine/src/evaluate.ts:42-43 | rounding the negative of x differs in size from rounding x by at most one, downward, and only at halves |
| Policy.Evaluate | services/policy-engine/src/evaluate.ts:52-130 | the pushed violations, the verdict and the flag are those of the specification, rule by rule in order |
| Policy.ViolationsAreExact | services/policy-engine/src/evaluate.ts:52-112 | the list names exactly the rules whose condition holds, each with its level |
| PolicyRules.GuardRules | services/policy-engine/src/evaluate.ts:61-76 | an excluded action on a protected account is listed, and any action but a new experiment on an entity under a protected active one; on the fields alone |
| PolicyRules.EvidenceRules | services/policy-engine/src/evaluate.ts:78-86 | too few days, too few conversions and too little spend are listed exactly for budget changes and pauses that fall short of the policy's numbers |
| PolicyRules.MaturityRule | services/policy-engine/src/evaluate.ts:88-92 | a budget change is listed exactly on a campaign known to be in an earlier state than the policy asks for |
| PolicyRules.CooldownRule | services/policy-engine/src/evaluate.ts:94-99 | the cooldown is listed exactly for a budget change within the budget hours and a pause within the pause hours of a known last change |
| PolicyRules.LimitRules | services/policy-engine/src/evaluate.ts:101-110 | a budget change is listed exactly when its fraction, its amount (a percentage to the nearest whole) or the daily spend an increase leads to exceeds the limit |
| PolicyRules.TierRules | services/policy-engine/src/evaluate.ts:112-118 | the tier of the action's category: disabled denies, requires approval asks for it, an unset one too |
| PolicyRules.ViolationsInOrder | services/policy-engine/src/evaluate.ts:58-118 | the list keeps the order of the rules and names each at most once |
| PolicyRules.VerdictFollowsList | services/policy-engine/src/engine.ts:14-32 | any deny-level entry denies, the tier's entry alone asks for approval, an empty list allows; without a policy the one entry NO_POLICY denies, at version 0 |
| Policy.VerdictIsExact | services/policy-engine/src/evaluate.ts:112-129 | deny exactly when a deny-level rule finds something; allow exactly when none does and the tier is automatic; otherwise approval |
| Policy.StricterNeverPermitsMore | services/policy-engine/src/evaluate.ts:52-130 | tightening any limits of a policy never makes the verdict more permissive |
| Policy.PermittedTargetIsBounded | services/policy-engine/src/evaluate.ts:34-110 | if the change is not denied, the rounded target differs from the context's budget by at most `max_absolute` and an increase keeps the daily spend within its limit, for percent and absolute changes of either sign |
| Policy.AbsoluteNeedsBudget | services/policy-engine/src/evaluate.ts:46-49 | an absolute change of an entity without a budget, or with budget 0, is always denied |
| Policy.Decide | services/policy-engine/src/engine.ts:14-32 | a missing policy denies; otherwise the verdict is the evaluation's |
| Policy.Gate | mcp-servers/ads-actions-mcp/src/tools.ts:52-78 | a denied change is rejected without an action id; queued if and only if no rule denies and the tier is automatic, pending if and only if no rule denies and the tier requires approval |
| Policy.PreviewBudgetChange | mcp-servers/ads-actions-mcp/src/tools.ts:112-131 | the previewed budget is the connector's target with its relative change, and is bounded whenever the verdict shown with it is not deny |
| MetaWrite.RequestIsAllOrNothing | services/connectors-ads/src/meta/write-source.ts:79-96 | under any schedule of replies a POST leaves its fields written if and only if one of the calls it makes is carried out, whatever is reported, and the entities untouched otherwise; it makes between one and maxRetries+1 calls |
| MetaWrite.RequestSucceedsIff | services/connectors-ads/src/meta/write-source.ts:79-96 | a request succeeds if and only if a success comes within the allowed attempts behind retriable failures only |
| MutationAccount.RequestEnds | services/connectors-ads/src/meta/write-source.ts:79-96 | the calls of a request: all but the last fail with 429 or from 500 up, the last decides what is reported, and it is a success, another failure or the call after `maxRetries` retries |
| MutationAccount.RequestWrites | services/connectors-ads/src/meta/write-source.ts:67-96 | the entity's fields afterwards, spelled out: the old ones with the posted ones over them exactly when some call took effect, and every other entity as before |
| MetaWrite.WritingTwice | services/connectors-ads/src/meta/write-source.ts:67-72 | repeating a POST of absolute values converges |
| MetaWrite.HttpMetaWriteSource.Call | services/connectors-ads/src/meta/write-source.ts:79-96 | the retry loop ends in the specified platform state with the specified result |
| MetaWrite.HttpMetaWriteSource.GetFields | services/connectors-ads/src/meta/write-source.ts:54-65 | returns exactly the asked fields that are present, without changing the entities |
| MetaWrite.HttpMetaWriteSource.UpdateEntity | services/connectors-ads/src/meta/write-source.ts:67-72 | issues one POST of the given fields through the retry loop |
| MetaWrite.MetaWriteConnector.ApplyMutation | services/connectors-ads/src/meta/write-connector.ts:66-80 | leaves the platform and returns the result that the specification of the mutation gives for the platform's replies, on every kind of action |
| MetaWrite.MetaWriteConnector.ApplyBudget | services/connectors-ads/src/meta/write-connector.ts:103-134 | resolves the change against a fresh read and writes the absolute target into the budget field in use, or fails as the source does on malformed, unresolvable and negative targets and failed calls |
| MutationAccount.BudgetPlanWrites | services/connectors-ads/src/meta/write-connector.ts:103-163 | an entity with a lifetime budget and no daily one has its lifetime budget written, any other its daily one: the whole number nearest to the amount asked, or to the share asked of the number in that same field; the state reported names that kind and number |
| MutationAccount.BudgetChangeWrites | services/connectors-ads/src/meta/write-connector.ts:103-163 | a budget change reported as done has changed that one budget and left the other as it was |
| MutationAccount.PlanFailsIff | services/connectors-ads/src/meta/write-connector.ts:66-129 | exactly when a mutation cannot be planned, with which error, on the entity's fields |
| PolicyRules.TargetIsNearest | services/connectors-ads/src/meta/write-connector.ts:113-127 | the target is the whole number nearest to the asked budget, halves upward |
| MetaWrite.MetaWriteConnector.ApplyStatus | services/connectors-ads/src/meta/write-connector.ts:137-140 | writes the status through the retry loop and reports it |
| MutationAccount.StatusPlanWrites | services/connectors-ads/src/meta/write-connector.ts:58-77 | pauses write PAUSED and activations ACTIVE into the status, of ads, ad sets and campaigns alike |
| MetaWrite.MetaWriteConnector.Revert | services/connectors-ads/src/meta/write-connector.ts:82-100 | writes the captured status if there is one, else the captured budget, else fails without a call |
| MutationAccount.RevertPlanWrites | services/connectors-ads/src/meta/write-connector.ts:82-100 | undoing writes the captured status, without one the captured number to the lifetime budget if that kind was captured and else to the daily one, and fails exactly without both |
| MetaWrite.AppliedEnds | services/connectors-ads/src/meta/write-connector.ts:66-140 | the entities end as the single-field plan made from them if and only if the mutation comes to its write and a call of that write is carried out, and untouched otherwise; success is reported if and only if there is a plan and the read of a budget change and the write are answered in time |
| MutationAccount.MutationFailure | services/connectors-ads/src/meta/write-connector.ts:66-140 | why a mutation fails: the error of its plan, or the status of the last call; nothing is called without a target, a change or a supported kind, and a budget is read before its plan can fail |
| MetaWrite.RevertedEnds | services/connectors-ads/src/meta/write-connector.ts:82-100 | the same for undoing |
| MetaWrite.PostedEnds | services/connectors-ads/src/meta/write-source.ts:67-96 | a write is in place exactly when one of its calls is carried out, and reported as done exactly when a success comes within the allowed attempts behind retriable failures only |
| MetaWrite.AnsweredMutationSucceeds | services/connectors-ads/src/meta/write-connector.ts:66-140 | on a platform that always answers, exactly what can be planned is carried out, and otherwise the reason is returned with nothing touched |
| MetaWrite.CarryTouchesOneField | services/connectors-ads/src/meta/write-connector.ts:66-100 | a carried-out write sets its one field; all other fields and entities are as before |
| MetaWrite.UndoRestoresIff | services/connectors-ads/src/meta/write-connector.ts:82-100 | undoing restores the entities if and only if it writes what was there, in the field the mutation changed (or the mutation changed nothing) |
| AuditSink.Auditor.Append | services/action-executor/src/audit.ts:84-87 | hands the entry to no sink, to the log in memory or to the Postgres log amid other writers' statements, and says whether it was taken |
| AuditSink.AppendedEnds | services/action-executor/src/pg-audit.ts:18-44 | whatever the sink and the traffic around it, an append keeps the log one sound chain and is refused if and only if it goes to Postgres with a tip that is no longer the last; taken, exactly its entry is added, refused, nothing |
| AuditSink.OvertakenIsStale | services/action-executor/src/pg-audit.ts:18-44 | an append that reads the newest row is refused when any idle writer does the same and inserts first |
| Executor.ActionExecutor.Execute | services/action-executor/src/executor.ts:49-78 | platform, audit sink and result are those the specification of an execution gives: refusal untouched, failed write without record and entry, refused entry without record, success with record and entry |
| Executor.ActionExecutor.Rollback | services/action-executor/src/executor.ts:81-107 | platform, audit sink and result are those the specification of a rollback gives, in the same way |
| Executor.ExecutionEnds | services/action-executor/src/executor.ts:39-78 | every end of an execution: the entity is changed if and only if the action is executable and its write is carried out; there is a record, and with a sink one entry, if and only if it is executable, the write is reported as done and the tip is not stale; the log stays a sound chain |
| MutationAccount.ExecutionRefusesIff | services/action-executor/src/executor.ts:39-78 | an execution is refused exactly when the policy denied the action, or asked for an approval that was not given; what is recorded was allowed or approved; each other error is the mutation's or the audit sink's |
| MutationAccount.ExecutionRecords | services/action-executor/src/executor.ts:55-66 | the record of an execution: its id, the action, the captured state, what was asked, what came of it, and when |
| MutationAccount.ExecutionIsLogged | services/action-executor/src/executor.ts:68-77 | the last entry of the log says who executed which action of which client, of what kind, under which record |
| Executor.RollbackEnds | services/action-executor/src/executor.ts:81-107 | every end of a rollback, in the same terms |
| MutationAccount.RollbackFailsIff | services/action-executor/src/executor.ts:81-107 | a rollback fails exactly as its write does, or when the audit sink refuses a finished one |
| MutationAccount.RollbackRecords | services/action-executor/src/executor.ts:84-94 | the record of a rollback goes back between the two states of the record it undoes and names that record |
| MutationAccount.RollbackIsLogged | services/action-executor/src/executor.ts:96-104 | the last entry of the log names the action and both records |
| Executor.AnsweredExecutionSucceeds | services/action-executor/src/executor.ts:39-78 | on a platform that always answers an action is executed if and only if it is executable, its mutation can be planned and the audit tip is not stale |
| Executor.UntracedChangeIff | services/action-executor/src/executor.ts:49-78 | an execution changes the entity and ends without record and entry if and only if its write, not an idle one, is carried out and is then reported as failed or refused by the audit sink |
| Executor.FailureLeavesNoTrace | services/action-executor/src/executor.ts:49-78 | a refused action touches nothing; a failed write leaves the sink alone; a refused entry leaves in the log only what other writers put there |
| Executor.RollbackRestoresIff | services/action-executor/src/executor.ts:49-107 | a successful rollback restores every entity if and only if the captured state was restorable before the execution |
| Executor.RollbackOfRollbackIff | services/action-executor/src/executor.ts:81-107 | rolling back the rollback returns to the executed state if and only if the first rollback wrote the executed field or had changed nothing |
| Executor.RoundTripForCapturedKind | services/action-executor/src/executor.ts:49-107 | when the captured state holds exactly the kind of field the action changes, one rollback restores the entities and two redo the mutation |
| Executor.RoundTripSucceedsIff | services/action-executor/src/executor.ts:49-107 | for an executable action with a plan and such a capture, execution, rollback and second rollback all succeed if and only if each write (and the read of a budget change) is answered in time and no step's tip is stale; then they restore the entities and redo the mutation |
| Executor.AnsweredRoundTrip | services/action-executor/src/executor.ts:49-107 | so on a platform that always answers, as long as no step is overtaken on its way to the log |
| Executor.StatusHidesBudget | services/connectors-ads/src/meta/write-connector.ts:86-97 | for a budget action whose captured state also has a status the changed budget stays after the rollback |
| Executor.StatusHidesBudgetOccurs | services/connectors-ads/src/meta/write-connector.ts:86-97 | a concrete execution and rollback, both successful, after which a budget of 3 set to 5 is still 5 |
| Executor.ExecutionTouchesOneField | services/action-executor/src/executor.ts:49-78 | whatever the outcome, only the one field the action is about can have changed |
| Executor.OneEntryPerStep | services/action-executor/src/executor.ts:68-107 | execution, rollback and second rollback append exactly one entry each, in order, on a log that stays one sound chain with any other writers' entries before, between and around them |
| Executor.ExecutedChangeIsBounded | services/action-executor/src/executor.ts:39-78 | when the action carries the policy's evaluation and the platform's budget is the context's, an executed change writes the rounded target, within the policy's limits; nothing is executed without a budget |
| Executor.UnacknowledgedWrite | services/connectors-ads/src/meta/write-source.ts:79-96 | a write that is carried out but always answered with 500 changes the entity and is reported as failed |
| Decimal.TruncatesTowardZero | services/connectors-ads/src/meta/mapper.ts:25-35 | on every well-formed decimal, in spaces or not, the result is the value times 10^m truncated toward zero |
| Decimal.ReadingIsMonotone | services/connectors-ads/src/meta/mapper.ts:25-35 | a larger decimal never gives a smaller amount |
| Decimal.PrintedReadsBack | services/connectors-ads/src/meta/mapper.ts:25-35 | printing any integer as a decimal with m fraction digits and reading it back returns it |
| NumericGuard.ExtractNumbers | services/orchestrator/src/numeric-guard.ts:12-21 | the loop collects the distinct normalised tokens of the text |
| NumericGuard.UngroundedNumbers | services/orchestrator/src/numeric-guard.ts:27-35 | the loop collects the narrative's numbers that are not in the evidence |
| NumericGuard.AcceptedIff | services/orchestrator/src/numeric-guard.ts:27-35 | a narrative is accepted if and only if all its numbers occur in the evidence, and the answer names exactly the missing ones |
| NumericGuard.NumbersAcrossSeparator | services/orchestrator/src/numeric-guard.ts:12-21 | across any separator the numbers of the whole are the union of both sides |
| NumericGuard.SeparatesIff | services/orchestrator/src/numeric-guard.ts:12-21 | a text keeps the numbers of all its surroundings apart and adds none if and only if it has no digit and is not merely commas with at most one dot behind them |
| NumericGuard.AcceptedTogether | services/orchestrator/src/numeric-guard.ts:27-35 | two separated narratives are accepted exactly when each is |
| NumericGuard.EvidenceOnlyGrows | services/orchestrator/src/numeric-guard.ts:27-35 | adding separated evidence removes exactly the numbers it contains from the missing ones |
| NumericGuard.WrittenReadsBack | services/orchestrator/src/numeric-guard.ts:12-21 | writing normal numbers with separators and extracting returns exactly those numbers, in order |
| NumericGuard.ExtractedReadsBack | services/orchestrator/src/numeric-guard.ts:12-21 | writing the extracted numbers of any text and extracting again changes nothing |

## Left out

- HTTP servers, MCP transport, the LLM provider, the console, scripts and deployment: input and output only.
- SQL text and the analytics and CRM repositories; of the database only the audit table's primary key is modelled.
- JWT verification, capabilities, RBAC and secret redaction.
- Floating point: rounding errors, overflow, `-0` and `NaN` inside inputs; all arithmetic is exact.
- SHA-256 itself, and collisions.
- Schema validation by Zod: inputs are well typed, and validation of a record after the write is taken to succeed.
- JSON values with `undefined` or function members, lone surrogates, and the UTF-16 order of keys outside the basic plane.
- What Postgres does to a payload beyond key order, and the format of its timestamps.
- Date strings: times are integer milliseconds; the range limit of `Date` is modelled in the outcome windows only.
- Callbacks of `advanceTo` that throw, outside Flow E's own timers.
- Timers beside recurring syncs whose callbacks set or cancel timers themselves; outcome windows do neither.
- Database outages: a query on the audit table answers, or refuses a number that is taken.
- Handlers that subscribe while the queue drains, and concurrent handlers of one delivery.
- `emit` and the default subscription names of the bus.
- The sync worker of services/ingestion-scheduler/src/ingestion.ts:71-96 and the sync windows of its start events.
- Aliasing: the store hands out its row objects, which a caller could keep; rows are values here.
- Collisions of event ids: ids drawn by the system are fresh; events from outside may share ids with each other.
- `cosineSimilarity`: no dimension of a cohort uses it.
- Prototype keys in context and ordinal lookups.
- Currencies and the wording of violation details in the policy engine, and entity references in its input.
- The raw platform response stored with a record, exponential backoff delays and URL building.
- A budget field's text that `Number` reads but that is not the canonical text of an integer is restored only as the captured number prints.
- Idempotence of applying a percentage change twice: it compounds; only the retried POST converges.
- `Number` on texts other than digit strings in money parsing, such as exponents, and inner spaces after a sign.
- The other mappers of services/connectors-ads/src/meta/mapper.ts, unit-economics ratios, classifiers and playbooks: single-function facts.
