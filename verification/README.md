# A verified model of the listing sync and valuation core

The project models four parts of the repository and proves what they are for.

1. **Market rates and value.** The price regression solves the normal equations by inverting XᵀX with
   Gauss-Jordan elimination. An accepted fit is shown to be the unique least-squares fit, and the inversion
   to be a two-sided inverse that succeeds, for some pivot tolerance, exactly when an inverse exists, which
   is exactly when the columns of the design are independent. The adjustment grid and the reconciliation are
   followed to the value range, the outlier filter to Chebyshev's bound, and the mortgage payment to a balance
   of exactly zero.
2. **Queue and staged replication.** The tables `jobs`, `failed_jobs`, `job_batches`, `replica_pages`,
   `listing_sync_cursors` and `listings` are values or fields of classes. Each SQL statement or transaction
   is one step of a state machine with any number of workers, which may crash or fail between two steps. The
   main result runs end to end: when a page's finalize job is enqueued, the mirror holds the whole page, for
   exactly the pages on which the order of the chunks makes no difference, and after a replication it holds all
   of its pages, applied in order.
3. **Payload split and merge.** A RESO row is split into raw data, four navigation columns and custom
   fields, and merged back. The round trips hold exactly under a stated condition on the expand list and on
   fields that come in two spellings.
4. **Sweeps.** The parcel sync replaces a generation of rows, exactly as far as its features agree; the FEMA
   enrichment walks the stale listings in self-chaining batches.

## How it is built

- Loops and in-place updates are methods over arrays, sequences and fields. Each is proved against a function
  of its inputs or of the old state, and the lemmas are about that function.
- The queue and the pipeline are in `JobTables`, `JobQueue`, `Scheduling` and `Persist*`. `PersistProtocol`
  gives one predicate per step, relating the state before to the state after. `PersistAccounting` and
  `PersistHydration` prove the invariants, and `PersistGuard` what the fetch guard rests on. `PersistSettled` says
  what a finalized page leaves in the mirror, `PersistUnsettled` has the runs that go wrong on all other pages, and
  `PersistReplication` goes from one page to a whole replication. `PersistRace` has the run that breaks the
  accounting without fail-stop, and `PersistCounting` says what holds of every run and when a batch is announced
  too early.
- `ListingMirror` says what one row does to one listing; the batched writer (`ListingMirrorWriting`), the
  chunks of a page (`ReplicaPages`, `ReplicaPageOrder`) and the pipeline are all stated through it. `PersistWriter`
  shows that the writer's transactions, in the order of its call, are the write steps of the pipeline, whatever is
  committed between them.

## What the code does not do

- `fitBpoOLS` lets a regression start from six usable comparables, the default minimum of
  `extractMarketRates`. With nine features and an intercept XᵀX is singular below ten rows, so over exact
  reals such a fit always fails (`RegressionRank.FitNeedsRows`). It also fails when a feature has one value
  in all rows, for instance when no comparable has a pool (`RegressionRank.FitNeedsVariation`). What is left
  then is the paired-sales or median fallback, or a fit that only floating-point error lets through.
- The equal-weight fallback of `reconcileBPO`, the clamp at 0 in `olsRSquared` for a fit, and the filling-in
  of custom fields after a split never act.

## Hypotheses

- *Fail-stop*: a stale reservation is taken over only when no living worker still holds the job. It is named
  as a hypothesis wherever it is used. `PersistRace.FinalizeOvertakesChunk` shows what happens without it:
  two workers count the same chunk down and finalize is enqueued with another chunk unwritten. That is the only
  way: in every run, an announced batch has counted all of its chunk jobs exactly when it has counted none of
  them twice, and then all are written (`PersistCounting`). "Finalize at most once"
  (`PersistProtocol.FinalizeAtMostOnce`) does not need fail-stop either.
- A database statement either takes effect or its worker crashes. The worker ignores the errors of `Delete`
  and `Release` (internal/queue/worker.go:130-132); a failed delete that leaves its job behind is outside
  these runs.
- The end-to-end result compares a page's listings with the mirror of the moment the page was stored, and
  asks that nobody else writes those listings in between (`PersistHydration.Undisturbed`). The one about a whole
  replication asks that its fetches do not overlap, each finding none of its pages active when it reads the guard,
  and that only its pages' chunk jobs write its listings. That each page was announced before the next one was
  stored, and that no chunk of it is written afterwards, is proved (`PersistGuard`). A listing may be on several of
  its pages.
- A page may hold a listing many times, and its chunks are hydrated in any order. It is in the mirror after every
  fail-stop run exactly when it settles (`ReplicaPageOrder.PageSettles`): every chunk says of each of its listings
  what the page says. That is, when the page never deletes the listing, each chunk ends its scalar columns and
  position, and each navigation column that it has a value for, as the whole page does, and if the chunk's last
  upsert of it has a position so have all of them. When the page does delete it, the delete comes last, and every
  chunk with rows of the listing has one. Pages without repeated keys settle. Upserts of one listing are taken to set
  the same low-risk flag, which BuildListingRecord leaves off on all of them (internal/service/mls/listing_row.go:155).
- `ListingMirrorOrder.HydratedIffOrderKept` says exactly when one call keeps the row order. A repeated key goes wrong
  in two ways: a delete overtakes a later upsert, and an upsert without a position clears that of a later one in its
  flush.
- A handler of the fetch side runs as one step in `ReplicationSync`. `FetchRace` takes it apart into the guard
  read and the insert: the active replication pages of a dataset never exceed its overlapping fetches, and
  every such number is reached. A cursor patch is one step of `SyncCursors`; `CursorRace` takes it apart into its
  read and its write, which changes nothing as long as no two patches of a dataset overlap.
- The parcel sync's statements fail when they hold a parcel id twice, as PostgreSQL's `ON CONFLICT DO
  UPDATE` does. `ParcelSync.SyncCompletesIff` says exactly when a sync completes. `ParcelSyncRuns` lets page jobs
  be retried, repeated by a second worker and cut off: then the last write of a parcel id is safe exactly when all
  features with that id agree.
- Numbers are exact reals. `math.Sqrt` does not occur: the z-score test is squared on both sides. `math.Round`
  is rounding half away from zero. The pivot test against 1e-12 is the success condition of the inversion.

Times, random identifiers, upstream answers, point queries, parsed dates, distances and string comparisons
are inputs. gzip, base64, JSON text and RFC 3339 text are inverse pairs, but for the fraction of a second
that the latter drops.

## Model

| member | source | states |
|---|---|---|
| GaussJordan.InvertMatrix | internal/service/comps/bpo_market.go:162-200 | the in-place elimination succeeds exactly when the specification does, and then its result is a left and a right inverse |
| GaussJordan.ReduceRows | internal/service/comps/bpo_market.go:170-194 | the loop over the columns, on the rows in place, is the elimination of the whole augmented matrix |
| GaussJordan.EliminateSound | internal/service/comps/bpo_market.go:170-194 | swaps, scaling and clearing keep the null space of the augmented matrix and end with unit columns on the left |
| GaussJordan.InvertSolves | internal/service/comps/bpo_market.go:162-200 | for all v and w, m v = w exactly when v = inverse w |
| GaussJordan.InvertIsInverse | internal/service/comps/bpo_market.go:162-200 | an accepted elimination yields a two-sided inverse, for every square size |
| GaussJordan.InvertibleIffAccepted | internal/service/comps/bpo_market.go:171-179 | a matrix has an inverse exactly when it has no kernel, and exactly when some positive pivot tolerance accepts it |
| GaussJordan.FindPivot | internal/service/comps/bpo_market.go:171-176 | partial pivoting picks the row that the specification picks |
| GaussJordan.RunStage | internal/service/comps/bpo_market.go:180-193 | swap, scale and clear in place are one stage of the elimination, and other rows are as specified |
| LeastSquares.SolveOLS | internal/service/comps/bpo_market.go:126-160 | fails exactly when XᵀX is rejected; otherwise the coefficients satisfy the normal equations and are the only ones with the least squared error |
| LeastSquares.AccumulateGram | internal/service/comps/bpo_market.go:133-148 | the triple loop computes XᵀX and Xᵀy of the design with its intercept column |
| LeastSquares.ErrorDecomposes | internal/service/comps/bpo_market.go:126-160 | away from a solution of the normal equations the squared error grows by the squared distance of the predictions |
| LeastSquares.NormalEquationsAreOptimal | internal/service/comps/bpo_market.go:126-160 | no coefficient vector does better, and with XᵀX invertible only one does as well |
| LeastSquares.InverseSolvesNormalEquations | internal/service/comps/bpo_market.go:149-159 | the inverse times Xᵀy solves the normal equations |
| LeastSquares.OlsRSquared | internal/service/comps/bpo_market.go:202-224 | the score is the explained share clamped at 0, and 0 without rows or with almost no variation |
| LeastSquares.FitScoreNeedsNoClamp | internal/service/comps/bpo_market.go:202-224 | for a fit the share lies in [0, 1] before the clamp, because of the intercept, and equals explained over total variation |
| RegressionRank.TooFewRows | internal/service/comps/bpo_market.go:126-160 | a matrix with more columns than rows sends some non-zero vector to zero |
| RegressionRank.FitExistsIffIndependent | internal/service/comps/bpo_market.go:126-160 | XᵀX is accepted, for some tolerance, exactly when the columns of X are independent |
| RegressionRank.FitNeedsRows | internal/service/comps/bpo_market.go:95-101 | with fewer rows than coefficients every fit fails, whatever the data and the tolerance |
| RegressionRank.FitNeedsVariation | internal/service/comps/bpo_market.go:126-160 | a feature that is the same in all rows makes every fit fail |
| MarketRates.FitBpoOLS | internal/service/comps/bpo_market.go:70-124 | rates come out exactly when six rows are usable, XᵀX is accepted and the best fit has a positive rate per square foot; they are those of that fit, with its score |
| MarketRates.SupportedMeans | internal/service/comps/bpo_market.go:70-124 | such rates rest on ten usable comparables and varying features, are scored in [0, 1], and are the only ones |
| MarketRates.ExtractMarketRates | internal/service/comps/bpo_market.go:16-63 | the regression is used exactly when enough comparables were sold and it gives rates, and then every rate is that of the fit brought into its range; otherwise they are those of the fallback |
| MarketRates.BpoMarketRates.Sanitize | internal/service/comps/bpo_market.go:304-319 | each rate on its own becomes the nearest value of its range, the time trend after losing its sign |
| MarketRates.MedianOf | internal/service/comps/bpo_market.go:375-385 | the slice is sorted in place and the result is its middle value, or the mean of the two middle ones |
| MarketRates.MedianHalves | internal/service/comps/bpo_market.go:375-385 | at least half of the values lie on either side of the median |
| MarketRates.MedianPPSF | internal/service/comps/bpo_market.go:355-363 | the median of the prices per square foot of the comparables that have one |
| Valuation.Rounding | internal/service/comps/adjustments.go:153-155 | rounding to cents moves a value by at most half a cent, keeps order and fixes cents |
| Valuation.ApplyURARGrid | internal/service/comps/bpo_grid.go:134-168 | every comparable gets the grid of the specification, cap included |
| Valuation.AdjustedPriceBounds | internal/service/comps/bpo_grid.go:146-156 | the cap keeps an adjusted price within 35% of a positive base, up to half a cent, and not negative |
| Valuation.WeightBounds | internal/service/comps/bpo_reconcile.go:61-127 | every weight lies in [0.065, 1], for any distances, areas, ages and adjustments |
| Valuation.WeightsArePositive | internal/service/comps/bpo_reconcile.go:32-37 | the weights never sum to zero, so the equal-weight fallback is unreachable |
| Valuation.MeanIsBetween | internal/service/comps/bpo_reconcile.go:38-42 | the weighted mean is a convex combination of the adjusted prices |
| Valuation.ReconcileBPO | internal/service/comps/bpo_reconcile.go:19-59 | the loops, with their fallback branch, compute the weighted mean and its spread |
| Valuation.ValueBounds | internal/service/comps/bpo_reconcile.go:38-42 | with positive bases in [lo, hi] the point lies in [0.65 lo - 0.01, 1.35 hi + 0.01] |
| Valuation.RangeIsOrdered | internal/service/comps/bpo_reconcile.go:43-46 | with positive bases 0 <= low <= point <= high |
| Valuation.CreditsKeepOrder | internal/service/comps/bpo.go:46-50 | the 90%, 100% and 110% credits keep that order |
| Valuation.RunBPO | internal/service/comps/bpo.go:38-50 | grid, reconciliation and credits together, with the range ordered whenever the bases are positive |
| Outliers.FilterOutlierZScore | internal/service/comps/outliers.go:5-38 | the loops are the filter of the specification, early returns and fallback included |
| Outliers.Chebyshev | internal/service/comps/outliers.go:5-38 | for threshold t the filter drops at most 1 in t² of the priced comparables, strictly fewer if any |
| Outliers.KeepsSome | internal/service/comps/outliers.go:34-37 | for t >= 1 something is always kept, so the fallback is not taken |
| Outliers.FallbackBelowOne | internal/service/comps/outliers.go:34-37 | for every t below 1 there are prices that all fall outside, and everything is returned |
| Mortgage.PaymentAmortises | internal/service/comps/rental.go:34-41 | the balance is positive before the last payment and exactly 0 after it |
| Mortgage.MonthlyMortgage | internal/service/comps/rental.go:34-41 | the computed payment amortises the loan over any whole number of payments, and is 0 without interest or payments |
| JobTables.InsertAllJobs | internal/queue/queue.go:98-158 | a batch insert adds one job per task in order, all linked to the batch, and changes no other job |
| JobTables.FirstEligible | internal/queue/queue.go:212-232 | the reserved job is the eligible one with the least id, and None means that none is eligible |
| JobTables.ReleaseConserves | internal/queue/queue.go:268-296 | a failed job is either queued again or in failed_jobs, exactly by its attempts, and no other job changes |
| JobQueue.Client.Enqueue | internal/queue/queue.go:44-68 | one new job, available after its delay |
| JobQueue.Client.EnqueueBatch | internal/queue/queue.go:98-158 | an empty batch is refused; otherwise the batch row and all its jobs appear together |
| JobQueue.Client.ReserveFromQueues | internal/queue/queue.go:193-259 | reclaim, select and reserve in one transaction, rolled back as a whole when nothing is eligible |
| JobQueue.Client.ReserveFair | internal/queue/queue.go:175-191 | the first queue with work from the cursor on is served, and the next cursor follows it |
| JobQueue.Client.Release | internal/queue/queue.go:268-278 | back in the queue after the delay, or failed after the last attempt |
| JobQueue.Client.Fail | internal/queue/queue.go:285-296 | recorded in failed_jobs and deleted |
| JobQueue.Client.CompleteBatchJob | internal/queue/queue.go:299-335 | counts down only above zero; the last count marks the batch finished and enqueues its completion job once |
| JobQueue.Worker.ReserveNext | internal/queue/worker.go:47-63 | the queue served and every cursor afterwards are those of the scheduling function |
| JobQueue.Worker.ServePools | internal/queue/worker.go:66-99 | the weighted loop over the pools, with its pool cursor and the cursors inside the pools |
| JobQueue.Worker.TryPools | internal/queue/worker.go:66-99 | the loop stops at the first pool with work, which it reserves from, and otherwise changes nothing |
| Scheduling.PartitionWorkerQueues | internal/queue/worker_queues.go:6-18 | the three pools are the queues with the fetch suffix, with the persist suffix, and the others, in order |
| Scheduling.WeightedStep | internal/queue/worker.go:66-99 | one reserve serves a given queue with work or brings it strictly closer, in rounds and within the round |
| Scheduling.ChooseKeepsReachable | internal/queue/worker.go:47-99 | every cursor stays inside its pool |
| Scheduling.FreshWorkerReachable | internal/queue/worker.go:29-41 | the cursors of a new worker are in range |
| Scheduling.NoStarvation | internal/queue/worker.go:47-99 | a queue that keeps a reservable job is served within (pools) x (queues in its pool) reserves, whatever the others hold |
| ListingMirror.RowResultIdempotent | internal/service/sync/listing_mirror.go:192-242 | applying a row twice is applying it once, and coordinates are set exactly when latitude and longitude are |
| ListingMirror.FlushWritten | internal/service/sync/listing_mirror.go:70-98 | a flush transaction, upserts then coordinates then cleared coordinates, leaves each listing as its row says and no other changed |
| ListingMirror.DeletesCommute | internal/service/sync/listing_mirror.go:100-151 | upserts first and deletes last is the same as row order, for distinct keys |
| ListingMirror.HydratedIsRowAtATime | internal/service/sync/listing_mirror.go:57-152 | for distinct keys batched hydration is row-at-a-time application, for every group size |
| ListingMirrorOrder.HydratedIffOrderKept | internal/service/sync/listing_mirror.go:57-152 | for any rows, table and group size, batched hydration is row order exactly when for each key's last row it is a delete, or the key is never deleted and, if that row has a position, so has every upsert of the key in its flush |
| ListingMirrorOrder.HydratedIffAlwaysKept | internal/service/sync/listing_mirror.go:57-152 | for every group size at once, exactly when the same holds with all upserts of the key |
| ListingMirrorOrder.RunAt | internal/service/sync/listing_mirror.go:70-151 | over all flushes a listing ends as in row order, except that its coordinates are cleared when an upsert of its last flush has none |
| ListingMirrorOrder.DuplicateKeyShapes | internal/service/sync/listing_mirror.go:57-152 | the shapes of two rows with one key, and which of them keep the order |
| ListingMirrorWriting.ListingMirrorWriter.HydrateReplicaBatch | internal/service/sync/listing_mirror.go:57-152 | the loop with its flush closure ends in the hydrated table and counts its rows; its transactions, replayed, give that table, flush each upsert once in row order and delete each removed key once |
| ListingMirrorWriting.CommitIsWrite | internal/service/sync/listing_mirror.go:70-98 | whatever table a transaction meets, it writes its rows to it and changes nothing else |
| ListingMirrorWriting.CommitsCoverRows | internal/service/sync/listing_mirror.go:57-152 | the transactions of a call write every row that writes at all |
| ListingMirrorWriting.CommitsAreApart | internal/service/sync/listing_mirror.go:57-152 | no row is written by two transactions of a call |
| ListingMirrorWriting.CallIsPartlyWritten | internal/service/sync/listing_mirror.go:57-152 | left alone, a call goes through tables with some rows written and the others untouched |
| PersistWriter.CommitIsStep | internal/service/sync/listing_mirror.go:70-151 | from any state of the pipeline the next transaction of a call is a write step, whatever was committed before it |
| PersistWriter.OthersLeaveCall | internal/queue/worker.go:101-136 | a step of another worker leaves the call where it is |
| PersistWriter.CallFinishes | internal/service/sync/listing_mirror.go:137-151 | after its last transaction only rows that write nothing are left, and the chunk is done |
| ListingMirrorWriting.ListingMirrorWriter.FlushPending | internal/service/sync/listing_mirror.go:70-98 | one transaction with the effect of a flush, or none when there is nothing to write |
| ListingMirrorWriting.ListingMirrorWriter.FlushCoordinates | internal/service/sync/listing_mirror.go:277-306 | segment by segment, every pair places its listing |
| ListingMirrorWriting.ListingMirrorWriter.FlushNullCoordinates | internal/service/sync/listing_mirror.go:308-330 | segment by segment, every key loses its coordinates |
| ListingMirrorWriting.ListingMirrorWriter.FlushDeletes | internal/service/sync/listing_mirror.go:332-359 | segment by segment, every key is removed, each statement a transaction of its own and no key in two |
| ReplicaPages.StorePage | internal/service/sync/replica_page.go:54-103 | consecutive chunks of the given size, the last one possibly shorter, that together are the page |
| ReplicaPages.RowsForChunk | internal/service/sync/replica_page.go:118-145 | chunk i is the i-th part, which is a stretch of the page, and an error exactly outside 1..n |
| ReplicaPages.ChunkWriteOnPage | internal/service/sync/listing_mirror.go:57-152 | writing part of one chunk moves exactly those rows of the page to the written side |
| ReplicaPages.ChunkOrderIsIrrelevant | internal/service/sync/replica_page.go:54-145 | hydrating every chunk at least once, in any order and with repetition, is applying the page row by row |
| PersistProtocol.FinalizeAtMostOnce | internal/queue/queue.go:299-335 | in every run, whatever the rows and the reclaims, a batch's completion job is enqueued at most once |
| PersistAccounting.ReserveIsFree | internal/queue/queue.go:193-259 | under fail-stop the job reserved is held by nobody |
| PersistAccounting.AccountingKept | internal/queue/worker.go:101-136 | every step keeps the accounting invariant: jobs, holders, counters, balances and failures agree |
| PersistAccounting.BatchAccounting | internal/queue/queue.go:98-158 | in every fail-stop run pending_jobs is queued plus failed plus deleted-but-uncounted chunks, and each failed one is in failed_jobs |
| PersistAccounting.FailedChunkBlocksFinalize | internal/queue/queue.go:268-335 | a batch with a failed or queued chunk is never announced |
| PersistHydration.FinalizeAfterEveryChunk | internal/queue/worker.go:128-134 | in every fail-stop run an announced batch has had every chunk of its page written since the page was stored |
| PersistHydration.SnapshotOrigin | internal/service/sync/replica_page.go:54-103 | the recorded page is what some fetch stored, with the mirror of that moment |
| ReplicaPageOrder.FlushView | internal/service/sync/listing_mirror.go:70-98 | a flush leaves each aspect of a listing as the last of its records that speaks of it says, or as it was, but clears a position when a record before the last has none |
| ReplicaPageOrder.CommitsPass | internal/service/sync/listing_mirror.go:70-151 | a transaction leaves the listings alone that its call has no row for |
| ReplicaPageOrder.CommitsLead | internal/service/sync/listing_mirror.go:57-152 | each transaction of a chunk that agrees with its page leaves an aspect alone, brings it to the page's value, or has the row that will still ahead of it |
| ReplicaPageOrder.UnsettledChunk | internal/service/sync/listing_mirror.go:57-152 | a page that does not settle has a chunk that, hydrated last in one flush, leaves some listing other than the page says, whatever the mirror was |
| ReplicaPageOrder.DistinctKeysSettle | internal/service/sync/replica_page.go:54-103 | a page without repeated keys settles, however it is cut |
| PersistSettled.FinalizedPageIsInTheMirror | internal/service/sync/listing_mirror.go:57-152 | end to end: once a page that settles is announced, its listings are the old mirror with the whole page applied row by row, under any interleaving, partial calls and retries |
| PersistUnsettled.ChunkCanBeLast | internal/queue/worker.go:101-136 | for every page, chunk and start mirror some fail-stop run finalizes the page with that chunk written last, in one flush and one delete |
| PersistUnsettled.UnsettledPageGoesWrong | internal/service/sync/listing_mirror.go:57-152 | for every page that does not settle and every start mirror some fail-stop run announces the page with a listing that is not as the page says |
| PersistUnsettled.InMirrorIffSettles | internal/service/sync/listing_mirror.go:57-152 | a page is in the mirror after every fail-stop run that finalizes it exactly when it settles, repeated keys included |
| PersistGuard.ActiveUntilAnnounced | internal/service/sync/fetch_guard.go:9-28 | in every run the guard finds a stored page until its completion job has been enqueued |
| PersistGuard.AnnouncedIsQuiet | internal/queue/worker.go:101-136 | in every fail-stop run no worker writes a chunk of an announced page |
| PersistRace.FinalizeOvertakesChunk | internal/queue/queue.go:206-210 | without fail-stop, for any two rows, some run enqueues finalize with the second chunk never written |
| PersistCounting.AllCountedIffNoneTwice | internal/queue/queue.go:299-335 | in every run, with any take-overs, when a batch is announced all of its chunk jobs have been counted down exactly when none was counted down twice |
| PersistCounting.CountedOnceMeansWritten | internal/queue/worker.go:101-136 | and then every chunk of the page has been written, without any assumption on reclaims |
| PersistCounting.FailStopCountsOnce | internal/queue/queue.go:206-210 | under fail-stop an announced batch has counted no job twice |
| PersistReplication.ReplicationIsAppliedInOrder | internal/service/sync/bridge_worker.go:231-417 | when the fetches of a replication read the guard one after the other and find none of its pages active, then whenever no page is active the listings are those of all pages applied in order to the mirror at the start, with any interleaving and retries |
| PersistReplication.StoredInTurn | internal/service/sync/bridge_worker.go:231-417 | the same of pages stored each after the one before was announced |
| PersistReplication.PageApplied | internal/service/sync/listing_mirror.go:57-152 | from one store to the next the replication's listings change by exactly the page in between |
| SyncCursors.CursorStore.ForDataset | internal/service/sync/cursor.go:40-58 | creates the row on first use and returns it |
| SyncCursors.CursorStore.ApplyPatch | internal/service/sync/cursor.go:124-149 | stores the merged cursor and changes no other dataset |
| SyncCursors.MaxModificationTimestamp | internal/service/sync/bridge_sync.go:384-401 | the largest timestamp of the rows that have one |
| SyncCursors.OrderIsIrrelevant | internal/service/sync/cursor.go:100-122 | the same patches in any order, at any times and any number of times end at the same timestamp |
| SyncCursors.NeverGoesBack | internal/service/sync/cursor.go:114-118 | between any two moments of a run the timestamp does not decrease |
| SyncCursors.CursorIsNewestFinalisedRow | internal/service/sync/bridge_worker.go:313-316 | the timestamp is the start value or the second of a finalised row, and has reached all of them, so it never passes the newest finalised row |
| CursorRace.ExclusiveIsAtomic | internal/service/sync/cursor.go:124-149 | statement by statement: while no two patches of a dataset overlap, its cursor is that of atomic patches in the order of their writes |
| CursorRace.ExclusiveNeverGoesBack | internal/service/sync/cursor.go:124-149 | so its timestamp never decreases |
| CursorRace.OverlapGoesBack | internal/service/sync/cursor.go:124-149 | of two overlapping patches neither order takes the timestamp back exactly when both are about to write the same one |
| CursorRace.RunGoesBack | internal/service/sync/cursor.go:124-149 | from any cursor table two overlapping finalizes can leave an earlier timestamp after a later one |
| FetchChain.FinalizeCarriesPlan | internal/service/sync/bridge_worker.go:296-330 | the finalize job leaves the cursor as the plan says, up to the second, and enqueues its next fetch or an incremental one, never both |
| FetchChain.CursorOutcome | internal/service/sync/bridge_worker.go:153-229 | replication is in progress exactly until it is complete; a sync is finished exactly by an incremental page with no more to come; nothing else touches these columns |
| FetchChain.StepKinds | internal/service/sync/bridge_worker.go:153-229 | what one fetch can lead to: phase, skip and depth of the next |
| FetchChain.PhasesMoveForward | internal/service/sync/bridge_worker.go:153-229 | phases only move from replication to nav_hydrate to incremental |
| FetchChain.SkipPhaseIsBounded | internal/service/sync/spark_worker.go:160-177 | a skip-based phase visits at most ceil(10000 / top) pages |
| FetchChain.ChainsTerminate | internal/service/sync/bridge_worker.go:153-229 | against finitely many replication pages a chain has at most 1 + pages + 2 ceil(10000 / top) fetches |
| FetchChain.CappedChainsTerminate | internal/service/sync/bridge_worker.go:86-90 | with a chain cap a chain has at most twice the cap, whatever the upstream answers |
| ReplicationSync.SyncWorker.FetchPage | internal/service/sync/bridge_worker.go:77-151 | every branch of the fetch handler, in order: cap, cursor, guard, answer |
| ReplicationSync.SyncWorker.DispatchPersistBatch | internal/service/sync/bridge_worker.go:231-286 | a finalize job for an empty page, otherwise a stored page and its batch |
| ReplicationSync.SyncWorker.PersistFinalize | internal/service/sync/spark_worker.go:310-366 | patch, close and delete the page, and at most one successor |
| ReplicationSync.SyncWorker.DispatchDataset | internal/service/sync/kickoff.go:71-127 | the kickoff's decision and the fetch it enqueues |
| ReplicationSync.SyncWorker.FindActivePage | internal/service/sync/replica_page.go:184-191 | true exactly when an active page of the provider and dataset exists |
| ReplicationSync.AtMostOneReplicationPage | internal/service/sync/fetch_guard.go:9-28 | however fetches, finalizes and kickoffs interleave, at most one replication page per provider and dataset is active |
| FetchRace.PagesWithinOverlap | internal/service/sync/fetch_guard.go:9-28 | statement by statement: if at most m replication fetches of a target overlap, active pages and fetches together never exceed m |
| FetchRace.ExclusiveFetchesStoreOne | internal/service/sync/fetch_guard.go:9-28 | while no two replication fetches of one target overlap, at most one page is active |
| FetchRace.OverlapIsReached | internal/service/sync/fetch_guard.go:9-28 | every run goes on to one with an active page for each fetch under way besides those it had |
| FetchRace.OverlappingFetchesStoreTwice | internal/service/sync/fetch_guard.go:9-28 | from any reachable state with two such fetches a run reaches two active pages |
| FetchRace.ManyPages | internal/service/sync/replica_page.go:54-103 | for every m some run has m active replication pages of one target |
| FetchRace.FetchIsGuardThenInsert | internal/service/sync/bridge_worker.go:101-150 | the whole fetch handler, when it stores a page, is the guard read and the insert |
| FetchRace.FinalizeIsDelete | internal/service/sync/bridge_worker.go:391-394 | the finalize handler changes the pages as one delete |
| ListingPayload.NormalizeBridgeExpandKeys | internal/service/mls/listing_payload.go:84-97 | the row in place gains each canonical name it lacks |
| ListingPayload.ExtractExpandedPayloads | internal/service/mls/listing_payload.go:111-151 | the last present spelling in the expand list fills each column, with the Bridge fallbacks |
| ListingPayload.StripJSONBKeysFromRaw | internal/service/mls/listing_payload.go:154-177 | the row without the given keys |
| ListingPayload.BuildCustomFields | internal/service/mls/listing_payload.go:188-213 | exactly the fields that are not OData, mapped or stripped |
| ListingPayload.MergeMirrorListing | internal/service/mls/listing_payload.go:229-279 | columns override raw data, custom fields only fill gaps |
| ListingPayload.BuildListingRecord | internal/service/mls/listing_row.go:78-129 | when a row is skipped, deleted or upserted, what an upsert stores, and when the shared row was extended |
| ListingPayload.CustomFieldsAddNothing | internal/service/mls/listing_payload.go:188-279 | after a split, merging the custom fields changes nothing, for every row and expand list |
| ListingPayload.SparkRoundTrip | internal/service/mls/listing_payload.go:84-279 | a Spark row comes back unchanged exactly when each expand key it has is a navigation column |
| ListingPayload.BridgeRoundTrip | internal/service/mls/listing_payload.go:84-279 | for every row: each field comes back under its canonical name, and nothing else does, exactly when fields in both spellings agree and each expand key that the row has is one of the seven names |
| ListingPayload.BridgeNamesAreDropped | internal/service/mls/listing_payload.go:100-151 | Rooms, UnitTypes and OpenHouses never come back; of a field in both spellings the value that returns is that of the spelling last in the expand list, or Bridge's own if neither is in it |
| ListingPayload.BridgeField | internal/service/mls/listing_payload.go:84-279 | what each field of any Bridge row becomes, for any expand list |
| ParcelSync.ParcelStore.SyncPage | internal/service/gis/sync_parcels.go:167-269 | the loop over features, its upsert statements, and the chain or sweep at the end, error paths included |
| ParcelSync.ParcelStore.UpsertParcelBatch | internal/repository/gis/parcels.go:32-92 | one statement: all rows, or none when a key repeats |
| ParcelSync.ParcelStore.DeleteStaleParcels | internal/repository/gis/parcels.go:96-106 | exactly the older rows of the source and scope go, and they are counted |
| ParcelSync.FlushedIsUpserted | internal/service/gis/sync_parcels.go:213-247 | whatever the chunk size, a page that succeeds has written its rows in order |
| ParcelSync.AcceptedIff | internal/repository/gis/parcels.go:32-92 | a page is accepted exactly when no parcel id repeats within one statement |
| ParcelSync.SyncCompletesIff | internal/service/gis/sync_parcels.go:167-269 | a sync completes exactly when the upstream is not empty and every page is accepted |
| ParcelSync.GenerationSwap | internal/service/gis/sync_parcels.go:167-269 | a completed sync of a stable upstream leaves the last write per id, the newer and out-of-scope rows, and nothing else of the source |
| ParcelSync.OtherSourcesUntouched | internal/service/gis/sync_parcels.go:167-269 | rows of other sources never change, also when a page fails |
| ParcelSync.NothingRemovedEarly | internal/service/gis/sync_parcels.go:252-262 | no row is removed by a page that is not the last |
| ParcelSyncRuns.RetriedSyncSwaps | internal/service/gis/sync_parcels.go:167-281 | with retried, repeated or cut-off page jobs and other writers about, a row that nobody else writes is untouched or one of those extracted before the sweep, and after it one of those extracted with its key, or what the sweep leaves |
| ParcelSyncRuns.RetriedSyncIsGenerationSwap | internal/service/gis/sync_parcels.go:167-281 | when the features with a key agree, its row is swapped as in an undisturbed sync |
| ParcelSyncRuns.SwapsIffAgrees | internal/service/gis/sync_parcels.go:167-281 | every run that sweeps, with any retries, repetitions and cut-offs, swaps the row of a key that nobody else writes exactly when the extracted rows with that key agree (or no run can sweep, because a statement repeats a key) |
| ParcelSyncRuns.RetryUndoesLastWrite | internal/service/gis/sync_parcels.go:167-281 | from any table, any extracted row can be the one that a swept key is left with: the sync completes and a second worker repeats that row's page up to its statement |
| ParcelSyncRuns.FlushedInTurn | internal/service/gis/sync_parcels.go:213-247 | a page job is the sequence of the statements that its rows are cut into, up to the first refused one |
| ParcelSyncRuns.SyncOfUpstream | internal/service/gis/sync_parcels.go:167-281 | the sync of a stable upstream that is not empty has exactly the rows of its features, in order; an empty upstream is no sync, its first page fails |
| FloodZones.LowRiskMeaning | internal/service/mls/flood_risk.go:9-31 | low risk exactly when there is no A or V in either case and there is an X or "no"; trimming and the X500 test make no difference |
| FloodZones.BuildListingFEMAUpdate | internal/service/fema/enrich.go:179-194 | an update's flag is that of its code, with or without an answer |
| FloodZones.FlagsAlwaysMatch | internal/repository/fema/listings.go:105-135 | however the mirror writer's transactions, with repeated keys or not, and FEMA batches interleave, every flag is that of its row's code |
| FloodEnrichment.EnrichmentService.SelectStaleForEnrichment | internal/repository/fema/listings.go:49-83 | the first ids past the cursor that are due, up to the limit |
| FloodEnrichment.EnrichmentService.BatchUpdateFEMA | internal/repository/fema/listings.go:105-135 | exactly the answered rows of the batch change, in whatever order |
| FloodEnrichment.EnrichmentService.RunBatch | internal/service/fema/enrich.go:97-176 | selects, updates, and chains from the last id exactly when the batch was full |
| FloodEnrichment.BatchesVisitEachOnce | internal/service/fema/enrich.go:97-176 | the batches of a kickoff visit each due id exactly once, in increasing order, and stop |
| FloodEnrichment.ChainUpdatesAnswered | internal/service/fema/enrich.go:97-176 | afterwards exactly the due rows whose query succeeded have been updated |

## Left out

- Floating-point rounding error: arithmetic is over exact reals.
- The paired-sales rates and the warnings of `extractMarketRates`: pairwise differences, taken as inputs.
- The lines of the adjustment grid: a comparable's adjustments are arbitrary inputs, so every result holds for all of them.
- LISTEN/NOTIFY, tickers, polling, logging and metrics: no effect on the tables.
- HTTP, OData URLs, JSON, gzip and SQL text: upstream pages are arbitrary sequences of rows and each statement is its effect.
- Liveness of the pipeline: a crash between storing a page and enqueuing its batch leaves an active page behind, and the kickoff compares two clock reads.
- Coverage of an incremental sync of several pages: finalize moves the lower bound while the skip grows.
- Page retention (`PurgeEligible`) and the admin and legacy paths of the queue.
- `ParseExpandKeys`: the expand list is given as parsed; an empty one becomes the default.
- Parcel kickoff: target selection and the generation counter are inputs of a sync.
- Geometry columns and county backfill: foreign computation.
- The replica selector, circuit breaker, rate limiters, leadership lock, search, handlers, middleware and the static site.
- Mortgage.MonthlyMortgage: a whole number of payments; a term that is not whole months has no last payment to reach.
- PersistProtocol.FinalizeAtMostOnce: counts enqueued completion jobs; a completion job that is itself retried may run its handler again.
- PersistSettled.FinalizedPageIsInTheMirror: says nothing of listings that another writer changes in the meantime.
- ListingMirrorWriting.ListingMirrorWriter.FlushCoordinates: for a key that is repeated in one segment PostgreSQL leaves open which pair of `UPDATE ... FROM (VALUES ...)` it takes; the model takes the last, and the results on repeated keys rest on that.
- FloodEnrichment.BatchesVisitEachOnce: a fixed set of stale rows; rows that turn stale behind the cursor wait for the next kickoff.
