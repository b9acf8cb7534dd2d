# The analytics ledger, modelled and proved

This project models the analytics ledger of lazyclash (`internal/analytics` and the
federated report of `internal/cli`): the path from raw counters and log bytes through a
deduplicating transactional store with minute and day rollups to retention, reports and
alert delivery. Dafny proves what the program's comments and documents promise of it.

`dafny verify dfyconfig.toml` checks the whole project.

## How it is built

| layer | modules |
|---|---|
| time, buckets, allocation | `Clock`, `Calendar`, `Split`, `Allocation` |
| store as values | `Ledger` (tables, one transaction, retention) |
| store as an object | `Store` (class `Store`, its loops, each tied to `Ledger`) |
| single rows and elements | `Rows`, `Expiry`, `Filing` |
| what the store means | `History`, `Rollup`, `Coverage`, `Replay`, `Once`, `Pinning`, `Drops`, `Accepting`, `Admission`, `Elsewhere` |
| reading | `Reports`, `Ranking`, `Listing`, `Federation`, `Answers` |
| counters | `SourceId`, `Counters` (class `CounterTracker`), `CounterRuns` |
| collecting | `Compact`, `Collector` (class `CollectionSource`), `CollectorRuns` |
| nothing lost, nothing twice | `Minting`, `Exact`, `Attribution`, `Steady`, `CollectorReplay`, `Health` |
| access logs | `Lines`, `Found`, `Tail` (class `AccessTail`), `TailRuns`, `Appending`, `Rotation`, `TailLedger`, `TailStatus`, `Blocked`, `CountedTwice`, `TwiceExample` |
| alerts | `Alerts` (class `AlertBook`), `AlertRuns`, `Delivery` |

The objects the program updates in place are classes whose methods are proved equal to
functions of the old state; the theorems are about those functions and about whole runs of
them. A metric table is a sequence of rows with a primary key, a transaction is computed on
a copy and committed as a whole, instants are integer nanoseconds (milliseconds for alerts).

The central theorem is `History.LedgerAnswersFromHistory`: after any sequence of ingests,
prunes and evictions, the sum of any column over any choice of sources and dimensions and
any range of whole buckets that retention has not reached equals what the accepted
observations themselves contribute to that range. Day rows equal minute rows, byte
conservation and exact reports follow from it.

What goes in and what comes out is said of the batches and the report rows themselves. A
committed batch puts on record exactly its fresh elements, each under the columns it came with
(`Filing.BatchRecorded`), the rows of one attribution hold what the elements filed under it
contribute (`Filing.TupleAnswers`), a report row gives the figures of the accepted observations
of its group over the asked range widened to whole buckets (`Answers.ReportTells`), and retention
takes exactly what lies below its horizons (`Expiry.PruneExpires`).

Two chains join it to the observers. For counters, identifiers name the instant of their poll
(`Minting.MintedOnce`), so the ledger holds exactly the bytes of the committed batches
(`Exact.LedgerIsCommitted`); where nothing is missed the rows of a source sum to exactly the
movement of its real counters (`Steady.TableIsMovement`, `Steady.TableIsAggregate`), and
whatever fails they never sum to more than what passed (`CollectorRuns.TableWithinTraffic`).
The same holds attribution by attribution (`Attribution.TableIsCommittedUnder`): what a poll
measures stays with whom it was measured for (`Attribution.WatchedUnder`).
For access logs, the position is saved by the transaction that counts the lines
(`TailLedger.PlayIsTail`), and on a file that only grows the rows count exactly the accepted
lines up to the checkpoint (`TailLedger.TableCountsLines`). An alert is marked as sent exactly
when a session that posted it finished it with success (`Delivery.SentIffDelivered`), and one
that failed comes up again after its wait (`Delivery.FailedComesUpAgain`).

## Hypotheses

- **Calendar.** `Regular` grids: every instant lies inside the bucket it is filed under, and
  buckets start on whole minutes. A location whose clocks skip midnight is not regular; there
  the cutting loop does not end (`Split.SkippedMidnightStalls`), and `Split.TerminatesIff` says
  for which intervals it ends. Historic offsets with seconds are not regular either. Regular
  speaks of every instant, but a run sees a location only where its observations and buckets
  lie. A location with such rules in its past, as the default Asia/Shanghai seems to have, may
  be replaced by a regular one that agrees with it there: the cutting loop, every transaction
  and the whole run are the same (`Elsewhere.LoopAgrees`, `Elsewhere.RunsAgree`), and the
  central theorem holds over it (`Elsewhere.AnswersElsewhere`).
- **Identifiers.** The digest and the textual form of instants are injective where a theorem
  asks for it (`SourceId.Injective`). Replay theorems ask that identifiers determine stamps
  (`Replay.StampsMatch`, `Once.DatedById`); for everything collected from counters this is
  proved (`CollectorReplay.CollectsOnce`, `CollectorReplay.PollReplaysNeutrally`). Connection
  events are the observations whose identifiers omit the time
  (`CollectorReplay.ConnectionCountsAgain`).
- **Clocks.** Replay and coverage theorems take clocks past the epoch
  (`Coverage.CoverageFallsIff` is the exact condition for the watermark). Exact byte counts ask
  that no two polls of a source read its counters at the same instant (`Exact.OwnInstants`).
  Counter theorems that need a clock that does not step back say so (`CounterRuns.Orderly`).
  Alert sessions share one clock and act only within their 25 seconds (`AlertRuns.Enabled`).
- **Checkpoints.** A position read back from the text it was written as is the same position
  (`TailLedger.Ready`). `TwiceExample.SceneFits` gives names and checkpoint texts of which all
  that is asked of them holds.

## Where the code does less than its comments promise

- **A failing read of an access log repeats or loses lines.** The poll that fails midway
  (`Lines.FailsIff` says when, in terms of the file) keeps the advanced offset but the anchor of
  the old one, and its status is still committed. The next poll resumes where the failed one
  began exactly when its first read was the one that failed (`TailRuns.FailedPollResumesIff`).
  Otherwise it goes on behind the lines it lost, or it takes the file for a rewritten one and
  commits it again from the first byte, exactly when an anchor was kept and other bytes precede
  the failing boundary (`TailRuns.FailedPollRereadsIff`; over runs, `Appending.RereadsIff`).
  `CountedTwice.TableCountsTwice` is such a run: the table counts the one accepted line of a file
  that is only appended to as two. `TwiceExample.AnyLineCountsTwice` builds the collector, the
  clock and the log for any line of 3 to 999 bytes that says something, and `TwiceExample.OneLineCountsTwice` for
  one line of the program's format. Without such a poll no byte is committed twice
  (`Appending.NoByteTwice`).
- **A line that the reader takes and the ledger refuses stops its log.** A line stamped with the
  first instant of year 1 is an event to the reader, but no valid one: its batch is refused as a
  whole, the position goes back, and the collector stops with the error, to meet the same line
  when it is started again. The stored position moves exactly when all events of the poll are
  valid (`Blocked.PositionMovesIff`), and it never passes such a line (`Blocked.BadLineBlocks`).
- **Drops of a refused poll are reported again.** A commit refused under storage pressure puts
  the position back but keeps the drops it reported, so a bad line is reported at every retry,
  and the next commit stores them. Only a restart before that commit forgets them. The status
  shows the drops of one pass exactly when every refused turn with drops was forgotten so
  (`TailStatus.DropsReportedOnceIff`).
- **A rename is followed after the old file is drained**, except when a poll stops at its 4000
  events before the last complete line: then lines are abandoned and reported as one drop
  (`Rotation.AbandonsIff`, `Rotation.EventLimitAbandons`).
- **A connection is charged its own counter at most**, unless it is sighted before its start or
  the clock steps back: then it can be measured from zero on top of what was measured before,
  as often as the clock crosses its start (`CounterRuns.FromZeroIff`,
  `CounterRuns.StaysWithinIff`, `CounterRuns.ClockBackCountsTwice`).
- **A connection is one event**, until retention passes the poll that stored it: sighted again
  after a restart or a gap, it is then counted once more (`CollectorReplay.ConnectionCountsAgain`).
- **A day row at the Unix epoch itself** is evicted without a watermark, because its stamp reads
  back as "no time" (`History.DayEvictionMarksIff`, `History.EpochDayUnmarked`); retained ranges
  exclude it (`History.Retained`).
- **A group literally called "(unattributed)"** and the renamed empty group carry one label;
  where they tie in bytes and connections as well, their order is left to the sorting algorithm.
  The report is fixed row by row exactly when they do not (`Listing.AllGroupsUntiedIff`); at each
  place it shows the same bytes, connections, source and key in any case (`Ranking.TopShows`).

## Model

| member | source | states |
|---|---|---|
| Allocation.Allocated | internal/analytics/store.go:558-568 | the 128-by-64 bit computation of a piece's share is the difference of two floors of elapsed time, lies between 0 and the total, and its division never panics for totals below 2^63 and spans up to 32 days |
| Allocation.DivisorExceedsHighWord | internal/analytics/store.go:560-567 | the divisor always exceeds the high word of the product, which is what keeps the 128-by-64 bit division from panicking |
| Allocation.CumulativeMonotone | internal/analytics/store.go:558-568 | the allocation up to an instant starts at 0, ends at the whole total and never falls back, so the shares of any cutting are non-negative and sum to the total |
| Allocation.ShareLaws | internal/analytics/store.go:558-559 | a range that covers the interval gets every byte, a range never gets less than nothing or more than all, and adjacent ranges add up |
| Split.SplitInterval | internal/analytics/store.go:537-556 | where no instant of the interval is the end of its own bucket the cutting loop ends and hands out exactly the pieces of the specification, in order |
| Split.PiecesTile | internal/analytics/store.go:537-556 | the pieces are non-empty, contiguous from start to end, and each lies inside the bucket it is filed under |
| Split.BucketsRise | internal/analytics/store.go:537-556 | no bucket receives two pieces of one interval: buckets strictly rise |
| Split.TerminatesIff | internal/analytics/store.go:533-556 | for any location whose days never run backwards and end in order, the loop ends if and only if no instant of the interval is the end of its own bucket |
| Split.SkippedMidnightStalls | internal/analytics/store.go:533-556 | where clocks skip midnight there is an interval on which the loop never ends |
| Store.AddMetric | internal/analytics/store.go:519-532 | the row with the same primary key is updated under the 64-bit guard, or the row is inserted, or the guard refuses and nothing is returned |
| Rows.UpsertNew | internal/analytics/store.go:519-532 | with a new key the addition goes behind the rows |
| Rows.UpsertOld | internal/analytics/store.go:519-532 | with a known key the sums, the earlier first and the later last stamp go into its row and no other row changes; refused if and only if one of the sums would leave 64 bits |
| Rows.RowsStamped | internal/analytics/store.go:321-390 | an event stamps its rows with its instant, an imported day with its ends, and an interval its rows with its start, its end and the cuts between, at both resolutions |
| Store.AddPieces | internal/analytics/store.go:378-390 | one resolution of a delta adds exactly the rows of its pieces, in order, or reports the first refusal |
| Store.IngestEvents | internal/analytics/store.go:303-330 | the event loop validates, skips below the cutoff, deduplicates and adds minute and day rows as specified, or fails at the first error |
| Store.IngestDeltas | internal/analytics/store.go:331-391 | the delta loop validates, imports native days or splits intervals, skips and deduplicates as specified, or fails at the first error |
| Store.CoverBatch | internal/analytics/store.go:392-413 | new coverage starts behind the watermark, is cut into both resolutions and moves the watermark, or is refused beyond 32 days |
| Admission.AdmittedIff | internal/analytics/store.go:193-242 | a batch is committed if and only if it is good by the listed limits, its zone is known, there is space for it and its transaction goes through; under pressure compact batches still pass, and want of space refuses with that error |
| Admission.BoundIff | internal/analytics/store.go:244-283 | binding succeeds if and only if zone, kind, scope, fingerprint and source metadata agree with what is recorded and a new source finds fewer than 128 |
| Admission.BoundRecords | internal/analytics/store.go:244-298 | binding records the zone, a new source and a first fingerprint, and nothing else |
| Admission.CommittedIsGood | internal/analytics/store.go:303-426 | every event, delta, native day and checkpoint of a committed batch is within the listed limits |
| Filing.NormalizeFiles | internal/analytics/store.go:321-506 | every column is filed as it came, the host without one trailing dot and with ASCII capitals lowered, character by character |
| Filing.BatchRecorded | internal/analytics/store.go:303-391 | a committed batch puts on record exactly its elements past the watermarks whose identifiers are neither stored nor carried by an earlier such element, once each and in order, with their own columns, instants, bytes and counts; those below the watermarks are counted as dropped |
| Filing.TupleAnswers | internal/analytics/store.go:303-391 | after any run, the rows of one source and one attribution hold over any aligned retained range exactly what the batch elements filed under it contribute |
| Store.Store.Ingest | internal/analytics/store.go:193-450 | an ingest commits the whole transaction or leaves tables and history as they were, with the error and the pressure flag the code sets |
| Store.Store.EvictOldest | internal/analytics/retention.go:123-182 | one eviction removes the oldest details, else the oldest minute, else the oldest day, raises the matching watermark in the same step, reports how many details, minute rows and day rows are gone, and answers false exactly when nothing was left |
| Store.Store.EvictWhileOver | internal/analytics/retention.go:79-98 | the eviction loop makes at most 32 passes and stops when under target or drained |
| Store.Store.Prune | internal/analytics/retention.go:28-121 | time-based deletion with watermarks, then evictions under pressure, then the new pressure flag: nothing is left below its own horizon; without evictions everything at or above it is still there, unchanged; the counts returned are exactly the details, minute rows and day rows the tables have lost |
| Expiry.PruneExpires | internal/analytics/retention.go:28-56 | a pass by time leaves no minute row, day row, coverage row, detail or import below its own horizon, keeps everything else unchanged, and raises each watermark to its horizon |
| Expiry.EvictTakes | internal/analytics/retention.go:125-182 | one eviction takes exactly the details up to its answer, else the rows of the oldest minute, else those of the oldest day with the imports before the next, and raises that watermark past them |
| Store.EvictionIsRun | internal/analytics/retention.go:79-98 | the eviction loop is a sequence of run steps, so every theorem about runs holds of it |
| Store.OldestAnswered | internal/analytics/retention.go:131-134 | the bounded oldest-details query always has an answer while details remain |
| History.UpsertAdds | internal/analytics/store.go:519-532 | an upsert raises any sum by exactly the added row, wherever the row was |
| History.PiecesSum | internal/analytics/store.go:378-390 | the floored shares of the pieces inside any range of whole buckets telescope to the interval's share of that range |
| History.RowsSum | internal/analytics/store.go:321-390 | the rows an observation adds sum, for every aligned question, to what the observation itself contributes |
| History.TransactAgrees | internal/analytics/store.go:193-450 | a committed batch keeps tables and accepted history in agreement on every aligned question |
| History.PruneKeeps | internal/analytics/retention.go:28-56 | pruning changes no answer about a range its watermarks leave retained |
| History.EvictKeeps | internal/analytics/retention.go:146-178 | eviction changes no answer about a range its watermarks leave retained |
| History.DayEvictionMarksIff | internal/analytics/retention.go:155-178 | the eviction of a day leaves a watermark above it if and only if the day does not begin at the epoch or one was there already |
| History.EpochDayUnmarked | internal/analytics/retention.go:155-178 | a concrete table whose only row, at the epoch, is evicted without a watermark |
| History.LedgerAnswersFromHistory | internal/analytics/store.go:193-450 | after any run of ingests, prunes and evictions the tables answer every aligned, retained question exactly as the accepted observations would |
| Rollup.RunHealthy | internal/analytics/store.go:303-391 | in every reachable ledger the metric key is unique, every row is filed under an existing bucket, and every source with imported days is marked |
| Rollup.DaysEqualMinutes | internal/analytics/store.go:303-391 | over whole retained days, day rows and minute rows hold equal totals for every choice of sources without imported days and of dimensions |
| Rollup.DayRowIsSumOfMinuteRows | internal/analytics/store.go:303-391 | the one day row of an attribution tuple equals the sum of that day's minute rows in up, down and events, despite floors and splitting |
| Rollup.LedgerConserves | internal/analytics/store.go:558-559 | retained rows sum to exactly the bytes and counts of the distinct accepted observations, native days in day rows only |
| Coverage.CoverageNeverExceedsTime | internal/analytics/store.go:392-413 | in every run on clocks past the epoch, a bucket range's coverage is between 0 and its length in milliseconds, although every piece is truncated separately |
| Coverage.CommitCovers | internal/analytics/store.go:392-413 | on clocks past the epoch a commit adds to each minute and day of its source exactly the whole milliseconds of what is newly covered of it, to other sources nothing, and moves the watermark to its instant if anything was new |
| Coverage.TransactEnds | internal/analytics/store.go:392-413 | a committed batch never moves any source's coverage watermark back |
| Coverage.CoverageFallsIff | internal/analytics/store.go:392-413 | the watermark falls exactly when it stood at zero and the batch covers time up to an instant before the epoch |
| Coverage.YearOneMovesCoverageBack | internal/analytics/store.go:392-413 | a concrete batch in year 1 that moves the watermark back |
| Replay.CommitRemembers | internal/analytics/store.go:299-413 | after a commit each of its observations is stored or below the cutoff, and its coverage is behind the watermark |
| Replay.StepRemembers | internal/analytics/retention.go:40-56 | every later ingest, prune or eviction keeps a stored identity or raises the matching cutoff past it |
| Replay.SettledForGood | internal/analytics/retention.go:123-182 | a batch once settled stays settled through every later step of a run |
| Replay.ReplayChangesNothing | internal/analytics/retention.go:123-124 | committing a batch again after any interleaved steps changes no metric, no stored identity and no coverage total |
| Replay.EventReplayProofIff | internal/analytics/store.go:310-320 | an ignored event stays ignored under every later prune if and only if it is below the cutoff or stored under a stamp no earlier than its own |
| Replay.IntervalReplayProofIff | internal/analytics/store.go:367-377 | the same for interval deltas, by their end |
| Replay.ImportReplayProofIff | internal/analytics/store.go:344-358 | the same for native daily deltas, by their day |
| Once.AcceptedOnce | internal/analytics/store.go:507-518 | in every run, no two accepted observations of a class whose identifiers determine stamps share an identity, whatever retention removed in between |
| Pinning.BindPins | internal/analytics/store.go:244-298 | binding a batch keeps the recorded time zone, kinds, scopes and fingerprints, gives a source the batch's own, and never makes more than 128 sources |
| Pinning.RunPins | internal/analytics/store.go:461-462 | what a database is bound to never changes in any run, and it never holds more than 128 sources |
| Pinning.CheckpointRides | internal/analytics/store.go:414-426 | the batch's checkpoint is saved by the same transaction as its observations, and no other checkpoint changes |
| Accepting.TakenIff | internal/analytics/store.go:303-330 | where nothing else hinders it, a batch of events is taken if and only if all its events are valid |
| Elsewhere.LoopAgrees | internal/analytics/store.go:533-556 | over any location the cutting loop visits what it visits over a regular one that agrees on the interval, and so ends as that does |
| Elsewhere.RunsAgree | internal/analytics/store.go:193-450 | over any locations, regular or not, a run leaves the tables and accepted observations it leaves over regular ones that agree with them at its instants |
| Elsewhere.AnswersElsewhere | internal/analytics/store.go:193-450 | over any locations that regular ones agree with at the instants of the run, every aligned retained question is answered by the accepted observations |
| Drops.CommitCounts | internal/analytics/store.go:427-448 | a commit adds exactly its retention drops to the source row and stores the collector's status brought up to them |
| Drops.DropsCountedOnce | internal/analytics/store.go:149-173 | over any sequence of own drops, polls, imports, failures, retention and restarts, a reader sees the collector's drops up to its last commit and every retention drop, each once |
| Drops.PollReportsEverything | internal/analytics/collector.go:328-397 | right after a committed poll the reported drops are all the collector's own plus all retention drops |
| SourceId.DecodeEncodes | internal/analytics/sources.go:347-354 | the length-prefixed byte string fed to the hash decodes back to exactly its parts, whatever they contain |
| SourceId.StableIdInjective | internal/analytics/sources.go:347-354 | under an injective hash, identifiers are equal only for equal part lists |
| Counters.CounterTracker.Observe | internal/analytics/sources.go:265-307 | the loop over sorted keys yields exactly the specified deltas, events and reset count, and the poll becomes the next baseline |
| Counters.CounterTracker.Measure | internal/analytics/sources.go:281-303 | one key yields nothing, a reset, or the growth over its baseline |
| Counters.CounterTracker.ObserveConnections | internal/analytics/sources.go:309-345 | connection deltas reconciled with the aggregate: passed on, remainder added, replaced by the aggregate, or dropped on an aggregate reset, with coverage and mismatch as specified |
| Counters.CounterTracker.Reset | internal/analytics/sources.go:263 | a reset forgets baseline, counters and aggregate |
| Attribution.DeltasAre | internal/analytics/sources.go:265-307 | a poll yields one interval for each counter that advanced since the last one or, for a new connection, since its start, with its own bytes, dimensions and window, and none for any other |
| Attribution.EventsAre | internal/analytics/sources.go:275-280 | one event for each connection not seen before, with its dimensions, also when the poll can measure nothing |
| Attribution.AttributionKept | internal/analytics/sources.go:326-344 | when the sums are within the growth every measured interval stays as it is and at most one more, on route "unattributed", carries exactly the rest; otherwise that one carries all of the growth |
| Attribution.WatchedCases | internal/analytics/sources.go:309-345 | coverage, mismatch, resets and deltas of a poll of connections in each case of continuity and aggregate |
| Attribution.WatchedUnder | internal/analytics/sources.go:309-345 | attribution by attribution, a poll within its aggregate brings what the counters of that attribution moved, and under "unattributed" what the aggregate grew beyond all of them |
| Counters.TakeOut | internal/analytics/sources.go:326-340 | subtracting the deltas one by one succeeds if and only if their sums are within the growth, and then leaves exactly the remainder |
| Counters.FitsSums | internal/analytics/sources.go:328-340 | the running check accepts if and only if both sums are within the growth |
| Counters.DeltasInWindow | internal/analytics/sources.go:275-304 | every emitted delta starts before it ends, lies inside the poll window, and measures something non-negative |
| Counters.WatchedBytes | internal/analytics/sources.go:309-345 | with both aggregate readings and no aggregate reset the deltas sum exactly to the aggregate growth in both directions, whichever branch is taken |
| Counters.ReconciledSumsToGrowth | internal/analytics/sources.go:326-344 | attributed, remainder and fallback branches all sum to the growth, and no delta is negative |
| Counters.DeltaIdNames | internal/analytics/sources.go:303 | under an injective hash a delta identifier determines source, key, start and end |
| CounterRuns.MeasuredWithinPassed | internal/analytics/sources.go:265-307 | over any run of polls, failures and rollbacks, with counters that restart at any time, a key is charged between nothing and what truly passed in the covered intervals |
| CounterRuns.SteadyMeasuresAll | internal/analytics/sources.go:265-307 | with no failure, gap, absence or restart the bytes charged are exactly the last reading minus the first |
| CounterRuns.FromZeroOnce | internal/analytics/sources.go:285-294 | with a clock that does not step back, a connection is measured from zero at most once in any run, and never once the clock is past its start |
| CounterRuns.AttributedWithinCounter | internal/analytics/sources.go:275-305 | a connection never sighted before its start is attributed no more than its own latest counter, however often it vanishes and returns |
| CounterRuns.StaysWithinIff | internal/analytics/sources.go:285-294 | after a sighting, attribution stays within the counter for good if and only if the clock is past the start, or stands at it with nothing attributed yet |
| CounterRuns.ClockBackCountsTwice | internal/analytics/sources.go:285-294 | a concrete run whose clock steps back measures one connection from zero twice |
| CounterRuns.FromZeroIff | internal/analytics/sources.go:285-294 | on a given schedule of polls, a connection is measured from zero at most k times in every run if and only if the clock crosses its start upward at most k times |
| CounterRuns.NoReturnCrossesOnce | internal/analytics/sources.go:285-294 | the clock crosses the start twice only if a poll at or before it follows one behind it |
| Compact.CompactBatch | internal/analytics/collector.go:401-436 | the accumulating loop yields exactly the specified compact batch, or none when a guard fails |
| Compact.CompactKeepsBytes | internal/analytics/collector.go:399-436 | the single compact delta carries exactly the original byte sums, spans exactly the hull of the originals, and passes the compact checks of Ingest |
| Compact.CompactIff | internal/analytics/collector.go:401-436 | a batch of plain intervals has a compact form if and only if its kind counts bytes and its sums fit in 64 bits |
| Collector.CollectionSource.Take | internal/analytics/collector.go:304-366 | a reading becomes the specified batch, status and tracker state; an unavailable source becomes an empty batch and a forgotten baseline |
| Collector.CollectionSource.Poll | internal/analytics/collector.go:250-397 | one poll measures, commits, retries compactly under storage pressure, and forgets its baseline if nothing was committed |
| Health.CountedState | internal/analytics/collector.go:304-362 | after a reading a source is collecting if and only if nothing was missing and an earlier poll is continued, at its baseline if nothing was missing and none is, partial otherwise; gaps, drops and resets gain what was missing |
| Health.TurnState | internal/analytics/collector.go:367-397 | the compact form is offered only for want of space; after a commit, a compact commit or none the status, baseline and counts are as listed |
| Health.AttributedAre | internal/analytics/collector.go:372-377 | the detail a compact batch owns up to is one for each interval that names somebody |
| Health.StatusStored | internal/analytics/store.go:427-448 | a commit stores state, gaps and resets as sent, the drops brought up to those of retention, and the message cut to 4096 characters |
| Health.StatusRead | internal/analytics/store.go:149-173 | a reader or a restarted collector sees state, gaps, resets and message as stored, with the drops of retention since then on top |
| CollectorRuns.MeasuredWithinTraffic | internal/analytics/sources.go:265-345 | over any run the bytes measured are at most what truly passed between polls that follow one another |
| CollectorRuns.TableWithinTraffic | internal/analytics/collector.go:250-397 | over any run with failing reads, refused commits, compact retries, restarts, retention and restarting counters, the rows of a source sum to no more than what truly passed while it was watched |
| Minting.MintedOnce | internal/analytics/sources.go:347-354 | under an injective hash the identifier of an interval, measured, unattributed or compact, names the instant of its poll |
| Minting.BatchEmitted | internal/analytics/sources.go:265-345 | the intervals of one batch end at its poll and have pairwise distinct identifiers minted there |
| Exact.TurnAddsAll | internal/analytics/collector.go:367-397 | a turn that commits, directly or in compact form, adds exactly the bytes it measured, none if its instant is at or below the watermark; a turn that fails adds nothing |
| Exact.RunRecorded | internal/analytics/store.go:367-377 | in every run each stored interval is stamped with the poll its identifier names, and each accepted one ends there |
| Exact.LedgerIsCommitted | internal/analytics/collector.go:250-397 | over any run whose polls have instants of their own the ledger holds exactly the bytes of the committed batches: deduplication never takes two measurements for one |
| Attribution.LedgerIsCommittedUnder | internal/analytics/collector.go:250-397 | over any run whose polls have instants of their own the ledger holds under each attribution exactly the bytes that committed turns sent under it |
| Attribution.TableIsCommittedUnder | internal/analytics/collector.go:250-397 | so do the rows of the table, over a range that retention has not reached |
| Steady.TableIsMovement | internal/analytics/sources.go:265-307 | where no poll fails, no gap opens and no counter restarts, the rows of a source sum to exactly how far its real counters moved since the first poll |
| Steady.TableIsAggregate | internal/analytics/sources.go:309-345 | for connections the rows sum to exactly the growth of the aggregate since the first poll, however the single connections are reconciled |
| CollectorReplay.CollectsOnce | internal/analytics/store.go:507-518 | in every run of a collector no interval is accepted twice, and for sources other than connections nothing is, whatever retention removes |
| CollectorReplay.ConnectionCountsAgain | internal/analytics/sources.go:278-280 | the event of a connection has one identifier at all polls; a prune past the poll that stored it lets the same connection be counted again |
| CollectorReplay.PollReplaysNeutrally | internal/analytics/retention.go:123-124 | for every source but connections, offering the batch of a committed poll again at any later time changes no metric, no stored identity and no coverage total |
| Lines.ScanIsOnePass | internal/analytics/access.go:139-183 | however window, event limit or a failing read cut the buffered loop short, it finds exactly what one pass over the consumed bytes finds |
| Found.PassFinds | internal/analytics/access.go:139-183 | one pass finds exactly the complete lines that fit the buffer, parse and lie no more than a minute ahead, with their own instants, dimensions and places, and drops exactly the others and a last incomplete one |
| Found.PassSkips | internal/analytics/access.go:145-171 | a pass that begins inside a dropped line finds what one behind that line finds |
| Lines.ScanPlaced | internal/analytics/access.go:145-171 | the loop leaves a position that is a line start or strictly inside an oversized line |
| Lines.PassesJoin | internal/analytics/access.go:145-171 | stopping at such a position and going on later finds what one pass over both stretches finds, an oversized line dropped once |
| Lines.PassKept | internal/analytics/access.go:115-205 | what a pass finds does not depend on what is appended later |
| Lines.FailsIff | internal/analytics/access.go:141-166 | a poll fails if and only if the first boundary at which reading fails lies within its bytes and before its last event, and it stops at that boundary |
| Lines.EventIdNames | internal/analytics/access.go:181 | under an injective hash an event identifier determines file identity, generation, line start and instant |
| Tail.AccessTail.Open | internal/analytics/access.go:84-113 | a new tail starts at the end of the file, a restored one where it was, or at the start of a new generation if the file is another one |
| Tail.AccessTail.ReadLines | internal/analytics/access.go:139-183 | the read loop ends in exactly the specified position, events, drops and bytes read |
| Tail.AccessTail.Poll | internal/analytics/access.go:115-205 | one poll opens, rechecks, reads, follows a rename or fixes the anchor, and reports gaps, drops and coverage as specified; a failed read keeps the advanced position |
| Health.PollBegins | internal/analytics/access.go:84-135 | a new tail begins at the end of the file; an old one where it was if identity, length and the 64 bytes before allow it, and otherwise at the first byte, as a new generation and with a gap |
| Health.PollEnds | internal/analytics/access.go:184-204 | only a poll without a gap that follows a successful one within the limit claims the time between; a rename is followed after less than a full window and costs a drop if something is left |
| Health.TailState | internal/analytics/collector.go:328-362 | a log is collecting if and only if its poll went through, missed nothing and continues an earlier one |
| TailRuns.CommittedAtMostOnce | internal/analytics/access.go:181 | in every run of polls, failed reads, refused commits, restarts, rotations and truncations, no two committed events share an identifier |
| TailRuns.CommittedExactlyOnce | internal/analytics/collector.go:382-390 | when no failing read lost its place, the committed polls of a generation found exactly what one pass over the file finds up to the committed offset |
| TailRuns.FailedPollResumesIff | internal/analytics/access.go:141-166 | after a failing read the next poll resumes where the failed one began if and only if its first read was the one that failed |
| TailRuns.FailedPollRereadsIff | internal/analytics/access.go:129-135 | after a failing read the next poll rereads the whole file as a new generation if and only if an anchor was kept and the bytes before it differ from those before the first failing boundary |
| Appending.NoByteTwice | internal/analytics/access.go:115-183 | on a file that only grows, unless a failing poll loses its place, the generation never changes and no two committed polls have read the same byte |
| Appending.RereadsIff | internal/analytics/access.go:129-135 | after a run that has kept its place, the next act loses it if and only if some later state of the growing file makes the tail commit it under a new generation |
| Appending.LostRereads | internal/analytics/access.go:129-135 | after a poll that lost its place the next successful one commits the whole file again from its first byte |
| Appending.FailedReadCommitsTwice | internal/analytics/access.go:141-166 | on a file that is only appended to, whatever the clock, one failing read makes the tail commit one accepted line twice under two identifiers |
| Appending.AppendedExactlyOnce | internal/analytics/access.go:115-205 | on a file that only grows, when reads fail only at a poll's first byte, all committed polls together found exactly what one pass over the file finds up to the committed offset |
| Rotation.AbandonsIff | internal/analytics/access.go:184-194 | a poll that finds another file under the path abandons complete lines of the old one if and only if, within its window, as many events as a poll takes lie before a complete line |
| Rotation.EventLimitAbandons | internal/analytics/access.go:184-194 | 4002 accepted lines: at the event limit a rename abandons the last two and reports one drop |
| TailLedger.PlayIsTail | internal/analytics/collector.go:382-390 | driven by real transactions, the tail in memory is the tail of its run and the stored checkpoint its committed position, through refused commits, restarts and retention |
| TailLedger.LedgerCountsEvents | internal/analytics/store.go:303-330 | the accepted events of a log are those of its committed polls, each once, those below the watermark for details excepted |
| TailLedger.TableCountsEvents | internal/analytics/collector.go:250-397 | the rows of a log count the committed events, each once, whatever fails, restarts or is removed on the way |
| TailLedger.TableCountsLines | internal/analytics/access.go:115-205 | on a file that only grows, when reads fail only at a poll's first byte, the rows count exactly the accepted lines between where tailing began and the stored checkpoint |
| CountedTwice.TableCountsTwice | internal/analytics/access.go:129-166 | with nothing refused and nothing removed, one failing read on a file that is only appended to makes the table count its one accepted line as two |
| TwiceExample.AnyLineCountsTwice | internal/analytics/access.go:129-166 | for every line of 3 to 999 bytes that says something, stamped from 1970 to 2286, there are a collector, a clock and a log on which that happens |
| TwiceExample.OneLineCountsTwice | internal/analytics/access.go:129-166 | it happens to one given line of the program's format: one accepted line, a table that counts two |
| TailStatus.RepeatedNoneIff | internal/analytics/collector.go:328-397 | no drop of a refused poll is left in the status if and only if each such poll was followed by a restart before the next commit, and none in the ledger if and only if a restart now would do |
| TailStatus.DropsReported | internal/analytics/collector.go:328-397 | through refusals, restarts and retention: the collector reports the drops of the committed polls and those of refused ones it has not forgotten, the ledger those it had stored |
| TailStatus.DropsReportedOnceIff | internal/analytics/collector.go:328-397 | they are those of one pass over the file up to the stored position if and only if every refused turn with drops was followed by a restart before the next commit |
| Blocked.PositionMovesIff | internal/analytics/collector.go:367-390 | where nothing else hinders the commit, the stored position moves to where the poll came if and only if the first events of the unread window, as many as a poll takes, are all valid |
| Blocked.BadLineBlocks | internal/analytics/collector.go:367-390 | on a file that only grows, the stored position never passes a line the ledger refuses, through refused commits, restarts and retention |
| Reports.Report | internal/analytics/report.go:12-152 | a query is refused exactly for the listed reasons; otherwise the rows are the first of everything collected, truncated exactly when there are more, and labelled with the resolutions that answered |
| Reports.MinuteCutoffWhole | internal/analytics/retention.go:29 | in every reachable ledger the minute watermark is a whole minute |
| Answers.RangeIsLeast | internal/analytics/report.go:65-76 | a report's range starts at the last bucket boundary not after the asked start and ends at the first not before the asked end; aligned ends are kept |
| Answers.MinuteRowTells | internal/analytics/report.go:48-67 | where nothing was imported by the day and retention has not passed the start, a group's row equals what the accepted observations of its source, filters and group put into that range at minute resolution, as if nothing had ever been removed |
| Answers.DayRowTells | internal/analytics/report.go:69-76 | the same at day resolution for days the day watermark has not reached |
| Answers.ReportTells | internal/analytics/report.go:12-152 | every row of a report is the row of a group of a source asked about, named by its value or "(unattributed)", with exactly those figures |
| Answers.EveryRowShown | internal/analytics/report.go:80-116 | no row of the table in the range and within the filters is left out: its group has its row |
| Answers.GroupRowStamped | internal/analytics/report.go:91-109 | a row's active minutes are the distinct minutes of its rows with bytes, its stamps the least first and the greatest last of them |
| Answers.RefusedIff | internal/analytics/report.go:16-37 | a query is refused if and only if its range, its limit or an asked filter is out of bounds |
| Reports.GroupsPartition | internal/analytics/report.go:95 | the groups of a source share out the matching rows: each row counts in exactly one group |
| Ranking.SortSorts | internal/analytics/report.go:138-147 | the report order yields a sorted permutation |
| Ranking.OrderMeans | internal/analytics/report.go:138-147 | more bytes first, then more connections, then source and key by the first character that differs |
| Ranking.SortUnique | internal/analytics/report.go:138-147 | every sorted list of the same rows, by a stable sort or not, shows the same bytes, connections, source and key at each place, and where no two rows tie it is the same list |
| Ranking.TopShows | internal/analytics/report.go:138-150 | two lists of first rows of one whole show the same bytes, connections, source and key at each place |
| Listing.CutBeforeRenaming | internal/analytics/report.go:95-113 | fetching one row more than the limit is enough: a group cut off before the renaming comes, once renamed, after limit rows that are kept |
| Listing.RenamingDistinctIff | internal/analytics/report.go:110-113 | after the renaming no two groups of a source tie if and only if the empty group does not tie with one literally called "(unattributed)" |
| Listing.AllGroupsUntiedIff | internal/analytics/report.go:95-147 | no two groups of a report tie, so that it is fixed row by row, if and only if that holds of every source asked about |
| Listing.ReportIsTopOfAllGroups | internal/analytics/report.go:95-152 | whatever sort is used, a report is the first rows of all groups of the sources asked about, in the report order, and truncated if and only if there are more |
| Listing.LedgerIsFaithful | internal/cli/analytics_federation.go:97 | a collector that answers with its ledger's report meets everything the federated merge assumes of it |
| Federation.Federate | internal/cli/analytics_federation.go:29-236 | validation, routing of a namespaced selector, merge, resolution and the refusals, in the order of the code |
| Federation.PlanReads | internal/cli/analytics_federation.go:41-76 | between one and eight collectors are read, none twice: all given, or exactly the one a namespaced selector names |
| Federation.PlannedIff | internal/cli/analytics_federation.go:37-76 | a query is planned if and only if its limit is in bounds once defaulted, every identifier is good, at most eight different ones are given, and it names one of them with a source or has no two colons |
| Federation.GatherMeans | internal/cli/analytics_federation.go:137-162 | what the merge appends are exactly the returned rows of the asked source, each under its collector |
| Federation.AnswersTogether | internal/cli/analytics_federation.go:31-206 | defaults of a query; the merge counts as cut if one answer was, as loaded if one was, and knows exactly the resolutions that were named |
| Federation.NamespaceKeepsOrder | internal/cli/analytics_federation.go:151-161 | naming the collector keeps a report's own order |
| Federation.NamespaceInjective | internal/cli/analytics_federation.go:138-156 | distinct collector and source pairs stay distinct when sources contain no colon |
| Federation.NamedLabels | internal/cli/analytics_federation.go:151-161 | in a federated report rows of different collectors never carry the same source and key, and rows of one collector only if they did in its own report |
| Federation.ColonsCollide | internal/cli/analytics_federation.go:138-156 | with a colon in the source two pairs can collide |
| Federation.GatherCount | internal/cli/analytics_federation.go:185-224 | the merge sees the whole union unless some collector cut its rows, and then the union is over the limit too |
| Federation.TopOfUnion | internal/cli/analytics_federation.go:208-224 | cutting each collector's report to its first rows loses none of the first rows of the union, whatever sorts are used |
| Federation.FederationIsExact | internal/cli/analytics_federation.go:127-224 | the federated rows are exactly the first rows of the full union in report order, and truncated if and only if the union has more |
| Alerts.AlertBook.Evaluate | internal/analytics/alerts.go:73-108 | for every source whose day crossed a higher threshold than any alert of that day, waiting alerts are superseded and one is raised |
| Alerts.AlertBook.SelectHighest | internal/analytics/alerts.go:90-93 | the highest threshold already raised for a source and day, zero if none |
| Alerts.AlertBook.Claim | internal/analytics/alerts.go:195-208 | the conditional update takes an alert exactly when it is due, and writes the snapshot's count plus one |
| Alerts.AlertBook.Finish | internal/analytics/alerts.go:210-231 | the unconditional update of the outcome with its backoff |
| Alerts.TierIsGreatest | internal/analytics/alerts.go:81-86 | over sorted thresholds the loop finds the greatest one crossed |
| Alerts.BackoffIsMinutes | internal/analytics/alerts.go:223-225 | the backoff is one minute at least, 64 at most, and doubles with every attempt |
| Delivery.SentIffDelivered | internal/analytics/alerts.go:195-231 | in every run of notifier sessions an alert is marked as sent if and only if a session that had posted it finished it with success |
| Delivery.FailureIsNoted | internal/analytics/alerts.go:209-231 | a finish leaves the attempt count, marks success as sent and failure as failed with the next attempt 1, 2, 4, 8 or 16 minutes on, and changes no other alert |
| Delivery.FailedComesUpAgain | internal/analytics/alerts.go:160-231 | whatever happens after it, until it is claimed, superseded or removed, a failed alert below six attempts comes up in the queue and can be claimed from that instant on and not before, and at six never |
| Delivery.ClaimLeases | internal/analytics/alerts.go:195-208 | a claim counts one attempt and hides the alert for two minutes, after which it comes up again |
| Delivery.EvaluateMeans | internal/analytics/alerts.go:70-114 | after an evaluation every crossed threshold has its alert or a higher one, alerts exist for crossed thresholds only, below a new alert none of its source and day is pending or failed, and no other row has changed |
| Delivery.PruneRemoves | internal/analytics/retention.go:40 | retention removes exactly the alerts raised before its cutoff |
| AlertRuns.NotifiersAreSafe | internal/analytics/alerts.go:158-231 | with any number of sessions, no two hold an alert at once, the stored count is the number of claims ever made, and no alert is claimed or posted more than six times |
| AlertRuns.ClaimIsCurrent | internal/analytics/alerts.go:195-208 | a claim succeeds only with a snapshot that is still current, and only while no session holds the alert |
| AlertRuns.FinishWritesOwnRow | internal/analytics/alerts.go:229-231 | the unconditional final update always meets the row its session claimed |
| AlertRuns.FinishKeepsQueues | internal/analytics/alerts.go:223-225 | a failed alert is not due again while any session that saw it before is alive |
| AlertRuns.TerminalIsFinal | internal/analytics/alerts.go:101-231 | sent and superseded are never left |
| AlertRuns.TiersRise | internal/analytics/alerts.go:90-106 | an alert is only raised above all alerts of its source and day |
| AlertRuns.RunOnePending | internal/analytics/alerts.go:100-103 | at most one alert of a source and day is pending in any run |

## Left out

- SQLite itself, pragmas, page and vacuum arithmetic, file sizes, locks, contexts and timeouts: their outcomes (over budget, full, under target, the answer of the oldest-details query) are parameters.
- JSON, TOML and regular expressions, subprocesses, sysfs, HTTP and webhooks: readings, parsed lines and responses are parameters; the hash, the text of checkpoints and of instants are uninterpreted functions.
- Payloads of detail rows, `source_config` and `config_identity`; the fingerprint of a source is an opaque string.
- Strings are byte sequences; lower-casing covers ASCII only.
- 64-bit wrap-around of the counts of skipped observations and of retention drops, and the error SQLite raises when a report's sum leaves 64 bits.
- The capabilities, coverage seconds and warnings of a report row or report.
- A federated report's coverage, warnings, time zone, cancellation and goroutines: each collector's answer is taken as given.
- A transaction whose cutting loop does not end has no result. The specification stops cutting there; `Elsewhere.LoopEnds` shows that the theorems that ask for no regular calendar never come to such an interval.
- The callback of the cutting loop is modelled by returning the pieces in the order the callback receives them; the library sorts are modelled by insertion sort, and what is proved of reports is proved of every sorted list of the same rows.
- Ledger queries by SQL are functions on whole tables; indexes and the order of the alert queue beyond its limit of four are not modelled.
- A file read by one poll is one text throughout; what is appended during the poll belongs to the next one. The buffer size is a parameter of the line reader; the program uses 64 KiB.
- `RunCollector`'s goroutines, tickers and health files, vnStat document validation, and the wizards and commands of `internal/cli`: plumbing around the modelled core.
- Store.Store.Prune: deletes no old alerts, which live in a table of their own; `AlertRuns` has that deletion as a step.
- Tail.AccessTail.Open: an anchor that cannot be read back is not modelled; the program then keeps the word "unreadable", which makes the next poll start over unless it cannot read it either.
- Tail.AccessTail.Poll: the same of the anchor a poll ends with. A Stat or Seek that fails on the open handle acts like a poll whose first read fails on the text last seen.
- TailRuns.CommittedAtMostOnce: speaks of identifiers; `Appending.NoByteTwice` speaks of the bytes of a growing file.
- TailRuns.CommittedExactlyOnce: speaks of one generation and of a commit flag; `Appending.AppendedExactlyOnce` speaks of whole runs and `TailLedger.TableCountsLines` of the table.
- Reports.Report: coverage, warnings and the refusal of an unknown time zone are not modelled.
- Federation.Federate: coverage, warnings, time zone and cancellation are not modelled.
- Replay.ReplayChangesNothing: says nothing about the source's stored status, checkpoint and drop count, which a repeated commit does update.
- CollectorRuns.TableWithinTraffic: an upper bound only, since what passes during gaps, restarts and failed commits is deliberately not estimated; `Steady.TableIsMovement` and `Steady.TableIsAggregate` are the exact cases.
- AlertRuns.NotifiersAreSafe: an evaluation is assumed not to lag behind retention's cutoff, which lies months back.
