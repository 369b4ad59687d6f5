# claude-gate, modelled and proved in Dafny

claude-gate is a proxy that lets clients with *gate tokens* share a pool of *real tokens*. Four of its
parts keep state whose guarantees are about whole runs and interleavings, not about single calls:

* **The usage pipeline.** Request handlers send usage entries into a bounded channel without blocking. One
  writer batches, retries, discards, inserts atomically and then updates the totals per token.
  `UsagePipeline` is the transition system, `UsageLedger` and `LedgerRuns` the totals, `Turns` what each turn
  of the program must do to both, `UsageWriter` the objects over Go slices that do it under every schedule,
  other users of the store included, and `PoisonedBatches` what becomes of the entries of a token that is
  deleted while they wait.
* **The streaming tap.** `SseStream` specifies the incremental line splitter against the stream as a whole,
  `Tap` is the reader object with its slices, `SsePrinter` the event printer and the round trip.
* **The token manager and pool.** `RoundRobin` holds the 64-bit arithmetic, `TokenPool` and `Manager` the
  objects, `Affinity` one undivided token resolution, `AffinityProtocol` any number of them interleaved step
  by step, `PoolProtocol` the interleaved database steps and refresh timers, errors included,
  `FailureProtocol` and `RefreshProtocol` what holds of them.
* **The relational store.** `Database` is the schema and its statements, `Store` the object with its
  transactions, `Integrity` what every sequence of operations keeps, `TokenRows` what it makes of each row
  and leaves alone, `Statistics` the usage queries, `Migrations` the resumable schema migrations.

`Prelude` and `Slices` are shared: small datatypes, and Go slices as windows into arrays with `append`.

## How to read it

Code that changes state step by step is a class whose methods are proved against functions on values; the
theorems are lemmas about those functions. Clocks, insert outcomes, scheduling and the results of the
wrapped reader are parameters, so a theorem holds for each of their values. `faulty` or `failAt` says which
database call of an operation fails. A step of a transition system that is not enabled changes nothing, so
any list of steps is a run. `dafny verify dfyconfig.toml` checks everything.

## What the proofs found

* The retry budget belongs to a streak of failures, not to an entry: an entry first flushed at retry count c is
  discarded, if at all, after exactly 4 - c failed inserts (`DiscardedAfterRestOfStreak`), which can be the
  first one (`DiscardedOnFirstTry`).
* A waiting entry whose token is deleted makes every later flush fail until the whole batch is discarded with it
  (`PoisonedBatchIsDiscarded`, `PoisonedBatchIsDecided`), entries of live tokens included (`LiveEntryIsLost`);
  without database errors that is exactly when anything is discarded (`FaultFreeDecisionIff`).
* In a store that began empty, totals and the all-time usage query differ by exactly what failed updates left
  out and by the entries whose other token was deleted, because the cascade removes their log rows
  (`TotalsAgainstQuery`, `TotalBeyondQuery`).
* "If the count reaches maxFailures, the token is deactivated" holds exactly when maxFailures is at least one,
  unless an error cuts a token's latest failure call short (`SettledIffPositiveThreshold`,
  `LostCallLeavesActive`).
* A reactivation holds, until the next failure or admin action, exactly when no call had already decided to
  deactivate the token (`ReactivationHoldsIff`); the decision is not checked again (`ReactivationCanBeUndone`).
* `RecordFailure`'s comment says that the pool is refreshed afterwards; the code returns early, without a
  refresh, when a database call fails or the row is gone. The model follows the code.
* The pool goes stale at rest exactly when a refresh installs a list that differs from the latest one over it
  (`QuiescentPoolIsFresh`, `OverlappingRefreshesGoStale`), or when an error costs a refresh
  (`FailedRefreshGoesStale`). Every refresh that overlaps no other restores the order (`SerialRefreshRestores`).
* `Select` may answer "no available tokens" although one is available, exactly when the search crosses 2^64 and
  the pool size does not divide it (`SearchCompleteIff`); round robin is fair across 2^64 exactly for pool sizes
  that divide it (`AlwaysFairIff`).
* A payload that merely quotes `message_start` overwrites the start record if it decodes
  (`QuotedMarkerOverwrites`); `ReadAsNamedIff` gives the exact condition for an event to be read as itself.
* Cache and table name the same token for a gate exactly when the last writes of both were of one token
  (`AgreeIffLastWritesMatch`), and go on doing so, as long as the table is not written for the gate, exactly
  when what the calls in flight are about to cache is the row's token (`AgreementLastsIff`). They do at rest if
  no two calls of that gate overlap, whatever other gates do (`CacheAgreesWithTable`), and more generally if no
  table write for it crosses a token about to be cached (`UncrossedWritesAgree`). One bind and one table
  fallback are enough to break it (`FallbackCrossesBind`), as are two binds (`BindsCross`).
* A binding outlasts everything but its expiry, the loss of its row or token, and one failed read of the table
  by a call that missed the cache, which then chooses a token anew (`BindingSticks`, `FailedReadLetsGoIff`). It
  ends with the latest expiry its entry or row was given (`BindingEnds`), which can be later than the row's own:
  an entry filled slowly outlives its row (`SlowFillOutlivesRow`).
* The loop that reads `schema_migrations` does not look at its error. That is harmless: a run that overlooks an
  applied version commits nothing (`RunExtendsPrefix`). Of files that share a version only one is ever committed
  (`SharedVersionRunsOnce`, `AllFilesRunIff`) and no error says so (`RecordedVersionsSucceed`); which one is up
  to `sort.Slice`, which does not promise to be stable, while `Sorted` is.

## Model

| member | source | states |
|---|---|---|
| UsagePipeline.UsageConserved | internal/proxy/usage_writer.go:41-158 | In every reachable state the accepted entries are, in order, the settled batches, the retry buffer, the buffer and the channel: nothing lost, doubled or reordered; every send was accepted or counted as dropped |
| UsagePipeline.NothingLost | internal/proxy/usage_writer.go:85-158 | As long as no batch was discarded, the accepted entries are the stored ones followed by those still in flight |
| UsagePipeline.DroppedOnlyWhenFull | internal/proxy/proxy.go:126-137 | A step drops an entry exactly when it is a send that finds the channel full; nothing but a send enters the channel |
| UsagePipeline.StepKeepsInv | internal/proxy/usage_writer.go:41-158 | Every step of senders, ticker, cancellation, drain and flush, whatever the insert does, keeps conservation, the retry state, the sizes and fair discarding |
| UsagePipeline.FlushKeepsInv | internal/proxy/usage_writer.go:85-158 | A flush of up to 100 new entries restores the invariant |
| UsagePipeline.FlushStoresBatch | internal/proxy/usage_writer.go:111-124 | A flush adds the whole batch to the stored entries or nothing of it |
| UsagePipeline.RetryInvariant | internal/proxy/usage_writer.go:53-122 | In every reachable state the retry count is 0 to 3 and is 0 exactly when the retry buffer is empty; while the writer runs the buffer is below 100 entries and the retry buffer below 100 per failure |
| UsagePipeline.DiscardedAtFourthFailure | internal/proxy/usage_writer.go:111-122 | A step discards if and only if its flush has something to insert, fails, and is the fourth failure in a row; the batch is everything the writer holds, at most 400 entries in the select loop; an earlier failure keeps everything |
| UsagePipeline.StepDecides | internal/proxy/usage_writer.go:46-122 | What each step decides: nothing without a flush of a non-empty batch, a commit on success, a longer streak on one of three failures, a discard on the fourth |
| UsagePipeline.FlushesAtHundred | internal/proxy/usage_writer.go:53-61 | A receive takes the oldest entry of the channel; short of the hundredth entry of the buffer nothing is flushed, and with the hundredth everything held is, retries first |
| UsagePipeline.DiscardedAfterRestOfStreak | internal/proxy/usage_writer.go:111-122 | In every discarded batch an entry first flushed at retry count c failed exactly 4 - c times, the oldest four times |
| UsagePipeline.DiscardedOnFirstTry | internal/proxy/usage_writer.go:111-122 | A reachable run in which an entry is discarded by the first insert that included it |
| UsageWriterObject.ProxyHandler.SendUsage | internal/proxy/proxy.go:125-138 | Enqueues at the end when there is room, counts a drop otherwise; never blocks |
| UsageWriterObject.UsageWriter.Flush | internal/proxy/usage_writer.go:85-158 | The writer's fields become what the pipeline's flush says and the buffers share no memory. The insert succeeds exactly when none of its calls fails and every row references existing tokens. Whatever others do to the store before the totals are paid, the store ends where a run of the ledger ends that committed the batch or nothing, nothing is left due, and exactly the dues of the failing updates are left out; if nobody interferes, the store has gained exactly the batch's rows and totals |
| UsageWriterObject.UsageWriter.PrependRetries | internal/proxy/usage_writer.go:91-94 | Retries come first; the buffer takes over or copies the retry memory and the retry buffer is nil |
| UsageWriterObject.UsageWriter.KeepOrDiscard | internal/proxy/usage_writer.go:111-122 | The failed batch is kept in memory that later appends to the buffer cannot reach, or dropped after the third retry |
| UsageWriterObject.UsageWriter.BuildLogs | internal/proxy/usage_writer.go:96-109 | One row per entry, in order, column by column |
| UsageWriterObject.UsageWriter.Aggregate | internal/proxy/usage_writer.go:125-144 | The two accumulation maps hold, for each token in the batch and no other, the sum of its entries |
| UsageWriterObject.UsageWriter.PayAll | internal/proxy/usage_writer.go:145-154 | Whatever the order of the map, each token is paid once, its sum and no other, except those whose update fails, while others use the store between the updates; if nobody does, the totals have grown by the map without the failing ones |
| UsageWriterObject.UsageWriter.PayTotals | internal/proxy/usage_writer.go:125-154 | Whatever others do in between, after it nothing of the batch is due and exactly the dues of the failing updates are left out; if nobody interferes, both kinds of totals have grown by their sums |
| UsageWriterObject.UsageWriter.PayOne | internal/store/gate_token.go:140-146 | One update pays what was due to one token, or leaves it out when it fails, after whatever others did before it; nothing else is paid or left out |
| UsageWriterObject.UsageWriter.LetOthers | internal/store/store.go:77-111 | Any number of operations of other users are steps of the ledger that pay nothing and commit nothing |
| Turns.PaidWithoutFaults | internal/proxy/usage_writer.go:125-154 | Without faults a flush leaves the totals of one update per entry |
| UsageWriterObject.UsageWriter.Drain | internal/proxy/usage_writer.go:71-83 | Moves everything in the channel behind the buffer, in order |
| UsageWriterObject.UsageWriter.Dispatch | internal/proxy/usage_writer.go:46-83 | Each turn takes exactly the step that phase and channel ask for, with the insert succeeding exactly as faults and store decide; it writes exactly the rows of its batch, at its time, leaves exactly the failing updates out of the totals, and performs others' operations in order and no other; if nobody interferes, it leaves the store of insert and updates |
| UsageWriterObject.UsageWriter.FlushStep | internal/proxy/usage_writer.go:85-158 | A flush takes the pipeline to the given state after it, commits exactly when the insert succeeds, and leaves the ledger at the store with the pipeline's committed batches |
| UsageWriterObject.UsageWriter.RunOp | internal/store/store.go:77-111 | Any other use of the store, between two turns or within a flush, is one step of the ledger |
| UsageWriterObject.UsageWriter.Run | internal/proxy/usage_writer.go:41-68 | For every schedule of senders, ticks, cancellation, faults and other users of the store, who act between the turns and between the insert and the updates of a flush: a trace in which every turn has moved pipeline and store as it must; whatever the steps of pipeline and ledger keep holds of objects and store, and only failing updates are left out of the totals |
| UsageWriterObject.Serve | internal/proxy/usage_writer.go:28-68 | From new objects on any store, while others create, change and delete tokens at any of those points: such a trace from the empty pipeline and this store; pipeline and ledger end in reachable states, nothing is due, only failing updates are left out, and usage_logs holds, in order, those of its earlier rows and of the committed entries, each once, whose tokens both still exist |
| UsageWriterObject.UsageWriter.SlicesAreBounded | internal/proxy/usage_writer.go:53-66 | So the retry count and the slice lengths obey the pipeline's bounds |
| Turns.ReadySteps | internal/proxy/usage_writer.go:53-61 | What the select loop makes of a ready channel: one entry received, with a flush if it fills the buffer; the last flush and the end if the channel is closed and empty; else nothing |
| Turns.TickSteps | internal/proxy/usage_writer.go:62-65 | What it makes of a tick: a flush of everything held, if there is anything |
| Turns.DrainSteps | internal/proxy/usage_writer.go:49-52 | After cancellation: one entry moved, or, with the channel empty, the last flush and the end |
| Turns.CancelledWriterStops | internal/proxy/usage_writer.go:71-83 | After cancellation and with nothing sent, as many turns of drain as there are entries in the channel, and one more, stop the writer with an empty channel, whatever else happens in between |
| Turns.ClosedWriterStops | internal/proxy/usage_writer.go:53-57 | On a closed channel as many receives as there are entries left, and one more, do so |
| Turns.Shutdown | internal/proxy/usage_writer.go:41-83 | Either way every entry ever accepted is then settled or left in the retry buffer, in order; and if nothing was discarded before and every flush commits, every one of them is stored |
| UsageLedger.GroupedIsOneByOne | internal/proxy/usage_writer.go:125-154 | For every batch and database, entries of deleted tokens included, the grouped updates leave exactly the database that one update per entry would |
| UsageLedger.OneByOneGrows | internal/store/gate_token.go:140-146 | One update per entry raises each total by the sum of the token's entries and changes nothing else |
| UsageLedger.GroupedGrows | internal/proxy/usage_writer.go:129-154 | So do the grouped updates |
| UsageLedger.GrownAlike | internal/store/real_token.go:161-167 | Two databases that grew from one by the same entries are equal |
| LedgerRuns.TotalsAccountForCommitted | internal/proxy/usage_writer.go:123-154 | From any integral store, in every reachable state, between two updates of a flush too: a live token's total, what is still due to it and what failed updates left out are its opening total and the sum over everything committed for it since |
| LedgerRuns.RowsAreLive | internal/store/store.go:92-111 | The table then holds, in order and with the ids and times they were written with, the rows ever written whose tokens both still exist |
| LedgerRuns.DuesAreGrouped | internal/proxy/usage_writer.go:125-144 | What a commit leaves due is the two accumulation maps, and nothing else |
| LedgerRuns.PaymentOrderInvisible | internal/proxy/usage_writer.go:145-154 | In whatever order, and however often, the totals are paid, once nothing is due the database is that of one update per entry |
| LedgerRuns.StepKeepsBalance | internal/proxy/usage_writer.go:111-154 | Commits, single payments, failed payments and all other store operations keep the accounts, the stored rows and the used ids in step |
| LedgerRuns.WithoutIsDropped | internal/store/store.go:92-111 | A cascading delete drops from the log table what it drops from the committed entries with both tokens alive |
| LedgerRuns.QuerySums | internal/store/usage.go:82-111 | The per-token query is the sum over the stored entries of the token |
| LedgerRuns.QueriesAreHistory | internal/store/usage.go:101-111 | In every reachable state and for every cut-off, the global and the per-token figures are the amounts of the entries ever written, at or after the cut-off, whose tokens both still exist |
| LedgerRuns.LiveAndLost | internal/store/store.go:92-111 | What was committed for a token splits into the entries still stored and those whose other token is gone |
| LedgerRuns.TotalsAgainstQuery | internal/store/usage.go:101-111 | At a flush boundary, from any integral store: a token's total, what failed updates left out and its rows at the start add up to its opening total, its all-time query and the entries whose other token was deleted; if nothing was left out or lost, total and query agree if and only if they did at the start, as in an empty store |
| LedgerRuns.TotalBeyondQuery | internal/store/store.go:92-111 | For every entry, a reachable state with nothing due or left out in which the gate's total is that entry's usage and its all-time query is zero |
| PoisonedBatches.PoisonedBatchIsDiscarded | internal/proxy/usage_writer.go:85-122 | Once the writer holds an entry of a deleted token, in every run the first batch decided is discarded and contains everything held with that entry |
| PoisonedBatches.PoisonedBatchIsDecided | internal/proxy/usage_writer.go:85-122 | And the decision comes: any run with as many flush attempts as are left of the streak of four decides the batch |
| PoisonedBatches.LiveEntryIsLost | internal/proxy/usage_writer.go:111-122 | For any two entries of one gate and two real tokens, a world reached from an empty store without any database error in which the only batch is discarded with both, although the first one's tokens exist |
| PoisonedBatches.FaultFreeDecisionIff | internal/proxy/usage_writer.go:111-122 | Without database errors a batch is discarded if and only if it holds an entry of a deleted token |
| PoisonedBatches.FaultFreeInsertIff | internal/store/usage.go:66-79 | Without errors of its own the insert succeeds exactly when no entry's token is missing |
| PoisonedBatches.FaultFreeLossIsExplained | internal/proxy/usage_writer.go:111-122 | In every run without errors every discarded batch holds an entry of a deleted token |
| PoisonedBatches.ReachableLossIsExplained | internal/proxy/usage_writer.go:111-122 | So it is in every world reached without errors from any store |
| PoisonedBatches.DeletedStaysDeleted | internal/store/store.go:92-111 | No later step brings a deleted token back |
| PoisonedBatches.TurnIsEvent | internal/proxy/usage_writer.go:46-157 | Every undisturbed turn of the writer whose total updates succeed is an event of this model: the same pipeline and the same store |
| SseStream.ChunkInvariance | internal/proxy/tap.go:35-71 | However the stream is cut into reads, the usage is the fold over the complete lines of the whole stream, the line buffer what follows the last newline, and the caller gets the stream |
| SseStream.CutsAgree | internal/proxy/tap.go:35-71 | Two cuts of one stream leave the tap in the same state |
| SseStream.ScanIsWhole | internal/proxy/tap.go:53-71 | The splitting loop agrees with the line-by-line specification of the whole text |
| SseStream.ScanContinues | internal/proxy/tap.go:53-71 | Scanning a second chunk is scanning both at once |
| SseStream.ScanPushesByte | internal/proxy/tap.go:60-70 | One more byte ends a line or extends the buffer |
| SseStream.NewlineIndex | internal/proxy/tap.go:61-66 | The first newline, or the length when there is none |
| SseStream.CompletesOnce | internal/proxy/tap.go:40-43 | The callback fires at the first end of file, with the usage of everything up to and including the bytes returned with it, never again, and never without one |
| SseStream.StartLine | internal/proxy/tap.go:80-125 | A data line with message_start anywhere in it replaces model, input and cache counts if it decodes, keeps the output, and otherwise changes nothing |
| SseStream.DeltaLine | internal/proxy/tap.go:80-139 | One with message_delta and without message_start replaces the output count if it decodes, and nothing else |
| SseStream.PlainLine | internal/proxy/tap.go:88-92 | A data line with neither word changes nothing |
| SseStream.OtherLine | internal/proxy/tap.go:80-85 | Only a data line changes anything |
| TapObject.TappingReader.Read | internal/proxy/tap.go:35-45 | The object's Read is the specified one; the caller gets the wrapped reader's bytes and error, and the line buffer is unchanged or in new memory |
| TapObject.TappingReader.ScanChunk | internal/proxy/tap.go:53-71 | scan computes the specified state, writes only memory of its own and never the chunk, and buffers in new memory |
| TapObject.TappingReader.Split | internal/proxy/tap.go:60-70 | The loop folds the complete lines and copies the rest |
| TapObject.TappingReader.CutLine | internal/proxy/tap.go:61-68 | The line and the remainder are windows around the first newline |
| TapObject.TappingReader.Process | internal/proxy/tap.go:80-99 | Only data lines with a marker change the usage, message_start first |
| TapObject.TappingReader.ParseMessageStart | internal/proxy/tap.go:117-126 | A payload that decodes replaces model, input and cache counts and keeps the output count; one that does not changes nothing |
| TapObject.TappingReader.ParseMessageDelta | internal/proxy/tap.go:133-139 | A payload that decodes replaces the output count only |
| TapObject.Drain | internal/proxy/tap.go:35-71 | Reading a stream through one buffer that the caller overwrites between reads gives the whole-stream result |
| SsePrinter.BuildSSEResponse | testutil/testutil.go:41-50 | Writes the name line if there is a name, the data line and an empty line for each event, in order |
| SsePrinter.PrintThenTap | internal/proxy/tap.go:80-139 | Round trip: printed events without newlines, each well marked, under any cut, yield field by field the model, input and cache counts of the last message_start and the output count of the last message_delta, and no partial line |
| SsePrinter.PrintedStream | testutil/testutil.go:41-50 | The tap sees a printed stream as its payloads in order, each once |
| SsePrinter.ReadAsNamedIff | internal/proxy/tap.go:87-98 | The tap treats an event as what its name says, for every earlier record, exactly when the marker words agree with the name or neither reading decodes |
| SsePrinter.ObservedIsLast | internal/proxy/tap.go:117-139 | Over well-marked events the last decodable start and delta decide the record |
| SsePrinter.QuotedMarkerOverwrites | internal/proxy/tap.go:88-98 | A payload that quotes message_start and decodes to an empty record wipes model, input and cache counts |
| Slices.Append | internal/proxy/tap.go:56-64 | append: contents in order, in the same array or a new one; nothing appended returns the slice itself |
| RoundRobin.SearchCompleteIff | internal/token/pool.go:62-71 | For every exclusion set failure means that every token is excluded, exactly when start + n is at most 2^64 or n divides 2^64 |
| RoundRobin.Slot | internal/token/pool.go:62-65 | The index is in range for every ticket, whether or not the sum wraps |
| RoundRobin.Search | internal/token/pool.go:63-71 | What the loop finds is in range and not excluded |
| RoundRobin.SearchFindsFirst | internal/token/pool.go:62-70 | What is found is the first slot from the ticket on that is not excluded |
| RoundRobin.AlignedVisitsAll | internal/token/pool.go:63-71 | Without a wrap, or with a power-of-two pool, every slot is visited |
| RoundRobin.MisalignedMisses | internal/token/pool.go:63-71 | Otherwise one named slot is never visited |
| RoundRobin.RoundRobinIsFair | internal/token/pool.go:52-72 | After any interleaving of m calls on an unchanged pool of n, each slot was returned floor(m/n) or ceil(m/n) times |
| RoundRobin.TicketsAreFair | internal/token/pool.go:62-64 | Of any m consecutive tickets each slot gets m/n, rounded down or up |
| RoundRobin.AlwaysFairIff | internal/token/pool.go:52-72 | For a pool of n, every run from every counter value, crossings of 2^64 included, is fair if and only if n divides 2^64 |
| RoundRobin.SkewedRunIsUnfair | internal/token/pool.go:62-64 | If n does not, 2^64 mod n + 1 calls in turn from 2^64 - 1 on return one slot twice where each is due at most once |
| TokenPoolObject.TokenPool.Select | internal/token/pool.go:52-72 | One ticket per call on a non-empty pool; the result is the first token from its slot on that is not excluded, without exclusions the token at the slot; without a misaligned wrap, none means that all are excluded |
| TokenPoolObject.TokenPool.GetByID | internal/token/pool.go:82-92 | The first cached token with the id, if there is one |
| TokenPoolObject.TokenPool.Refresh | internal/token/pool.go:38-48 | Installs exactly the eligible tokens, oldest first, or on error keeps the old list |
| TokenPoolObject.NoneMeansAllExcluded | internal/token/pool.go:63-71 | The completeness of the search in terms of tokens and the exclusion map |
| Affinity.ResolutionIsSafe | internal/token/manager.go:77-97 | For any cache, table and pool, resolution fails exactly when the pool is empty and otherwise yields a pool member |
| Affinity.FallbackIsExact | internal/token/sticky.go:64-76 | On a cache miss a binding is found exactly when its row has not expired, although the query's comparison is coarser |
| Affinity.ResolveIsExact | internal/token/sticky.go:57-77 | Resolve answers exactly when an entry with now before its expiry or, if the table can be read, such a row exists, entry first; a hit may extend the entry and never shortens it, an entry filled from a row expires with the row, and nothing else changes |
| Affinity.ResolvesBoundOrNext | internal/token/manager.go:77-97 | ResolveToken yields the token of an unexpired binding that is in the pool, and then takes no ticket and leaves the store alone; otherwise the token of the next ticket, to which row and entry are then bound for the time to live if both tokens exist |
| Affinity.CleanupIsInvisible | internal/store/sticky.go:46-52 | The cleanup keeps exactly the rows a query of that moment finds, and no later query can tell that it ran |
| Affinity.BindSticks | internal/token/manager.go:87-96 | A round-robin choice whose upsert succeeds binds the gate for the configured time |
| Affinity.StickyResolves | internal/token/manager.go:78-83 | While undisturbed, a bound gate resolves to its token and stays bound |
| AffinityProtocol.UndividedCallIsResolveToken | internal/token/manager.go:77-97 | The steps of one call taken in a row are the undivided resolution |
| AffinityProtocol.AgreeIffLastWritesMatch | internal/token/sticky.go:57-88 | In every interleaving a gate's cache entry and row name one token if and only if its last cache write and its last table write did |
| AffinityProtocol.AgreementLastsIff | internal/token/sticky.go:57-88 | From any state, over all runs without a table write for the gate: entry and row agree whenever no call of it stands between its two writes if and only if every token of the gate about to be cached is the row's and, unless such a call is there, the cached one is too |
| AffinityProtocol.UncrossedWritesAgree | internal/token/sticky.go:57-88 | Unless a table write for the gate crosses a token about to be cached, entry and row agree whenever no call of it stands between its two writes, whatever other gates do |
| AffinityProtocol.LateCacheWriteAgreesIff | internal/token/sticky.go:75-85 | A late cache write leaves them agreeing if and only if it is of the token the row names |
| AffinityProtocol.CacheAgreesWithTable | internal/token/sticky.go:57-88 | If no two calls of one gate overlap, whatever other gates do, its entry and row agree whenever none of its calls is in flight |
| AffinityProtocol.FallbackCrossesBind | internal/token/sticky.go:64-88 | A reachable state at rest in which one fallback and one undivided bind have left cache and table apart |
| AffinityProtocol.BindsCross | internal/token/sticky.go:80-88 | And one in which two interleaved binds have |
| AffinityProtocol.BindingSticks | internal/token/manager.go:77-97 | In any interleaving of calls of this and other gates, refreshes, cleanup, evictions, other store calls and restarts in which no table read of the gate fails, every call of a bound gate that returns yields its token until the expiry, unless the row is deleted or the token leaves the pool |
| AffinityProtocol.FailedReadLetsGoIff | internal/token/sticky.go:64-68 | A failed table read ends that if and only if it is the read of a call of this gate that missed the cache |
| AffinityProtocol.BindTakesHold | internal/token/sticky.go:80-88 | A bind starts that if and only if no other call of the gate in flight knows another token or is about to choose |
| AffinityProtocol.OnlyRenewalsOutlast | internal/token/sticky.go:57-88 | No step but a hit, a fill from a row and the two writes of a bind makes a gate's binding last longer, and each only by the expiry it sets |
| AffinityProtocol.BindingEnds | internal/token/manager.go:77-97 | Over every run: once the clock has reached the latest expiry that a gate's entry or row had, was given or was extended to, the next call of the gate is answered by round robin |
| AffinityProtocol.LapsedCallsChoose | internal/token/manager.go:77-97 | And in every interleaving from then on until a binding is renewed: no call of the gate finds a binding, and each is answered with what it chose |
| AffinityProtocol.ChooseTakesNext | internal/token/pool.go:52-72 | That choice is the token of the next ticket, and takes one ticket |
| AffinityProtocol.SlowFillOutlivesRow | internal/token/sticky.go:64-75 | An entry filled from a row outlives the row by exactly the time between the reading and the filling |
| AffinityProtocol.OnlyExpiredGo | internal/token/sticky.go:90-102 | An eviction takes an expired entry only, the cleanup exactly the rows that the table takes for expired, a restart every entry and no row |
| ManagerObject.StickyManager.Resolve | internal/token/sticky.go:57-77 | Cache first, then the unexpired row, which fills the cache until its own expiry |
| ManagerObject.StickyManager.Bind | internal/token/sticky.go:80-88 | The table first, the cache only if the table took it, which is the case exactly when nothing fails and both tokens exist |
| ManagerObject.StickyManager.CleanUp | internal/token/sticky.go:90-102 | One tick deletes the expired rows; an error changes nothing |
| ManagerObject.Manager.ResolveToken | internal/token/manager.go:77-97 | The method's result and every field it changes are those of the resolution function |
| ManagerObject.Manager.RefreshPool | internal/token/manager.go:59-72 | The pending timer is stopped, unless it has fired, and a new one armed |
| ManagerObject.Manager.OnTimer | internal/token/manager.go:65-71 | The callback installs the eligible tokens, or on error keeps the list |
| ManagerObject.Manager.RecordFailure | internal/token/manager.go:102-122 | What the database becomes and whether the call succeeds, for every failing call; on success the pending timer is stopped and a new one armed, otherwise the timer is left alone |
| ManagerObject.RecordFailureIsProtocol | internal/token/manager.go:102-122 | The undisturbed call is the protocol's steps in a row, up to any failing one, and schedules a refresh exactly when none failed and the row was there |
| ManagerObject.Manager.RefreshPoolStep | internal/token/manager.go:59-72 | The timer in the field follows the protocol's |
| ManagerObject.Manager.FireStep | internal/token/manager.go:65-71 | It fires exactly when the protocol's step is enabled, never after Stop |
| ManagerObject.ListsActiveIsEligible | internal/store/real_token.go:88-108 | The query's list is the listing that the protocol's load reads |
| FailureProtocol.ThresholdIsGuarded | internal/token/manager.go:102-122 | With maxFailures at least one, in every interleaving an active token at the threshold has its latest incrementer in flight and bound to deactivate it, unless a database error cut that call short; with no call in flight that is the only excuse |
| FailureProtocol.SettledIffPositiveThreshold | internal/token/manager.go:99-122 | The promise holds in every reachable state at rest without a call lost to an error exactly when maxFailures is at least one |
| FailureProtocol.LostCallLeavesActive | internal/token/manager.go:109-118 | A reachable state at rest in which an error has left a token active at the threshold |
| FailureProtocol.AbandonedIff | internal/token/manager.go:102-122 | That excuse is given only by an error in the token's latest failure call, and the next such call takes it back |
| FailureProtocol.StaysActiveIff | internal/token/manager.go:102-122 | A token active below the threshold stays active in every run without a new failure or an admin against it if and only if no call in flight has already decided to deactivate it |
| FailureProtocol.ReactivationHoldsIff | internal/store/real_token.go:128-145 | An admin's reactivation holds over all such runs if and only if no call had decided before it |
| FailureProtocol.StepKeepsGuard | internal/store/real_token.go:128-159 | Each database step of a failure call, failing or not, and each admin or background operation keeps the guard |
| FailureProtocol.NonPositiveThresholdFails | internal/token/manager.go:113-118 | With a threshold of zero or less, creating a token breaks the promise |
| FailureProtocol.ReactivationCanBeUndone | internal/token/manager.go:109-118 | A reachable run in which a reactivated token is switched off with its count at zero |
| RefreshProtocol.StalenessIsScheduled | internal/token/manager.go:59-72 | At most one timer is armed; unless an error cost a refresh since the latest read, a list read last that is not the eligible one means a refresh on its way, and with refreshes in order so does a stale pool, or one about to install |
| RefreshProtocol.MissedIff | internal/token/manager.go:65-71 | A refresh counts as lost exactly after an error in a failure call or in the query of a refresh, until the next one reads |
| RefreshProtocol.OrderAfterStep | internal/token/pool.go:38-48 | The order of refreshes is lost exactly when an older list is installed over the latest, and every read restores it |
| RefreshProtocol.SerialRefreshRestores | internal/token/pool.go:38-48 | A refresh that overlaps no other is, once installed, both the last to have read and the last to have installed, whatever happened before |
| RefreshProtocol.SerialReadIsAlone | internal/token/pool.go:38-48 | A refresh that reads while no list is waiting to be installed is such a refresh, up to the next read |
| RefreshProtocol.QuiescentPoolIsFresh | internal/token/pool.go:38-48 | At rest, without a refresh lost to an error, the pool is current if the refresh that installed last read last, and otherwise if and only if it read the same list |
| RefreshProtocol.QuiescentPoolIsActiveTokens | internal/admin/handler.go:137-202 | At rest, with refreshes in order, a positive threshold and nothing lost to errors, the pool is exactly the active tokens |
| RefreshProtocol.OverlappingRefreshesGoStale | internal/token/pool.go:38-48 | A reachable state at rest in which a deactivated token is in the pool |
| RefreshProtocol.FailedRefreshGoesStale | internal/token/manager.go:65-71 | A reachable state at rest in which a failed refresh has kept a new token out of the pool |
| RefreshProtocol.StepKeepsFresh | internal/token/manager.go:59-72 | Each step of failure calls, admin requests, timers and callbacks, failing ones included, keeps the staleness invariant |
| ManagerObject.AdminHandler.SetTokenActive | internal/admin/handler.go:137-174 | The mutation, which of the three statuses each case gives, and the pending timer stopped and a new one armed exactly after a successful change of a real token |
| ManagerObject.AdminHandler.DeleteToken | internal/admin/handler.go:177-202 | The cascade or nothing, the status for every failing call and for a missing token, and the refresh as above |
| ManagerObject.AdminHandler.CreateRealToken | internal/admin/handler.go:253-260 | The insert or nothing, Created or a server error, and the refresh as above |
| Integrity.StepKeepsIntegrity | internal/store/migrations/001_initial.sql:1-55 | Every store operation, failing or not, keeps both foreign keys of logs and sessions, unique gate strings and access tokens, and increasing log ids |
| Integrity.RunKeepsIntegrity | internal/store/store.go:77-111 | So does every sequence of operations |
| TokenRows.RealRowIsItsHistory | internal/store/real_token.go:128-167 | After any run that does not delete it, a real token's row: switched as the last switch of it said, with its own failures since its last reactivation and its own usage added, everything else as it was |
| TokenRows.GateRowIsItsHistory | internal/store/gate_token.go:120-146 | The same for gate tokens |
| TokenRows.TokensComeAndGo | internal/store/store.go:77-111 | A token comes by its own successful creation and goes by its own deletion, and by no other operation |
| TokenRows.RealIsCreated | internal/store/real_token.go:35-57 | A real token is created exactly when its id and access token are new, active, without failures or usage, with everything it was given; nothing else changes |
| TokenRows.LogsAfter | internal/store/usage.go:46-80 | A committed insert appends its rows, with the next ids and the time of insertion; no other operation but a delete touches the logs |
| TokenRows.SessionAfter | internal/store/sticky.go:33-57 | A gate's session after one operation: what an upsert of it gives, nothing after its deletion or when the cleanup takes it for expired, otherwise as before |
| Integrity.GateStringIsUnique | internal/store/gate_token.go:33-58 | A gate token is created exactly when its id and its string, the caller's or else the generated one, are new; it is then the only gate with that string, active and unused |
| Integrity.DeleteRemovesExactly | internal/store/store.go:92-111 | A delete succeeds exactly when nothing fails and the token exists; it removes the token and exactly the rows that refer to it, or nothing |
| Integrity.CascadeClearsReferences | internal/store/store.go:93-99 | After the two child deletes the parent delete cannot violate a foreign key |
| Integrity.ParentFirstFails | internal/store/store.go:99-102 | Without them the parent delete is refused exactly when a row still names the token |
| Integrity.WithoutMembers | internal/store/store.go:96-98 | The rows kept are exactly those that do not name the token |
| Integrity.PoisonedBatchNeverCommits | internal/store/usage.go:66-77 | After any run a batch with one row of a missing token is refused whole |
| StoreObject.Store.Delete | internal/store/store.go:77-87 | The transaction commits the whole cascade or leaves the database as it was, for every failing call |
| StoreObject.Store.CascadeDelete | internal/store/store.go:92-111 | The three statements compute the specified database, with no-rows for a missing token |
| StoreObject.Store.InsertUsageLogs | internal/store/usage.go:46-80 | All rows in order, with consecutive ids, exactly when no call fails and every row references existing tokens; otherwise none |
| StoreObject.Store.ListActiveRealTokens | internal/store/real_token.go:88-108 | Every active token below the threshold once, oldest first, and no other |
| StoreObject.Store.Exec | internal/store/real_token.go:35-57 | A single statement commits by itself or changes nothing, with its exact success condition |
| StoreObject.Store.Upsert | internal/store/sticky.go:33-44 | At most one session per gate: the row is replaced, provided both tokens exist |
| Statistics.StatisticsPartition | internal/store/usage.go:82-111 | In every reachable database, for either kind of token, any cut-off and listing order, the per-token figures add up to the global ones in all five fields |
| Statistics.FigureIsSum | internal/store/usage.go:82-98 | Each of the five figures is the sum of its own column over the matching rows, the last the count |
| Statistics.RowsPartition | internal/store/usage.go:82-99 | The same for any rows whose tokens are all listed |
| Statistics.SumPeelsRow | internal/store/usage.go:82-99 | A row is counted for exactly one listed token, or for none |
| Statistics.BatchCountsFromItsInsertion | internal/store/migrations/001_initial.sql:43 | A committed batch adds, for every cut-off up to the time of its insertion, its own sums and as many requests as it has entries to the global figures, and its entries of a token to that token's; for later cut-offs nothing |
| Statistics.MatchingAmounts | internal/store/usage.go:82-99 | A query is the sum, column by column, of the entries it selects |
| Migrations.MigrationsResume | internal/store/store.go:113-200 | After any sequence of runs, each failing anywhere or reading the table only in part, the committed scripts are a prefix of the version-sorted files, none twice, the table is exactly that prefix, and a run succeeds only by completing the list |
| Migrations.RunExtendsPrefix | internal/store/store.go:123-197 | One run extends the prefix by what it commits, or by nothing when it overlooked an applied version; it succeeds exactly when it read everything and completes the list |
| Migrations.Migrator.Migrate | internal/store/store.go:113-200 | The loop over the sorted files computes the specified run |
| Migrations.Migrator.OneFile | internal/store/store.go:169-197 | One turn skips an applied version, commits script and record together, or stops with neither |
| Migrations.Sorted | internal/store/store.go:165-167 | The same files, reordered |
| Migrations.SortedIncreasing | internal/store/store.go:165-167 | Distinct versions come out strictly increasing |
| Migrations.SharedVersionRunsOnce | internal/store/store.go:169-192 | Of two different scripts with one version at most one is ever committed, by any runs on any files |
| Migrations.DuplicateVersionIsSkipped | internal/store/store.go:169-192 | The shortest case: after a failure between two files of one version the next run reports success without the second |
| Migrations.AllFilesRunIff | internal/store/store.go:113-200 | Some runs commit every file if and only if no two files share a version, and then one undisturbed run does |
| Migrations.RecordedVersionsSucceed | internal/store/store.go:169-172 | Once every version is recorded each run that reads the whole table succeeds and commits nothing, whichever scripts have run |

## Left out

- HTTP routing, reverse proxying, headers, request parsing, authentication, web pages, configuration, logging: input and output without state of their own. Of `ServeHTTP` only `sendUsage` and `RecordFailure` are modelled, and of the admin handlers what follows the parsing.
- JSON decoding: `SseStream.Decoder` is any pair of functions from a payload to an optional record. `extractJSONUsage` is such a function and is not modelled.
- Bytes: a byte is a `char`; the tap only compares them.
- Time: an integer. SQLite compares stored times as text; the comparison is the parameter `LaterThan`, of which `NeverHides` assumes that no unexpired row is taken for expired. The cut-offs of the usage queries and the order of the token list compare integers. The rows of one batch carry one time of insertion.
- Affinity.CleanupIsInvisible: assumes that the comparison is monotone in the present time, that a row once taken for expired stays so.
- The time-to-live cache: an entry is returned until its expiry, a hit may extend it, a restart empties it, and times to live are positive.
- The columns `last_failure_at`, `last_used_at` and `updated_at`, renames, and the cached display fields of the pool.
- Int64 overflow of token counts and totals.
- File names of migrations: the version is given; files whose name has none are not listed.
- `InsertUsageLog`, `ListUsageLogs`, `ListRealTokens`, `ListGateTokens` and the lookups by token: plain reads and a single insert.
- Unbuffered channels: the channel is buffered with any capacity (1024 in `internal/proxy/setup.go`); a hand-over without a buffer is not modelled.
- Sending on a closed channel panics in Go; here such a send is not enabled.
- UsageWriterObject.UsageWriter.Drain: describes drain with no sender beside it; the interleaved case is the step `DrainOne` of the pipeline, which `OnDrain` takes one entry at a time.
- UsagePipeline.UsageConserved: promises that entries stay in the retry buffer after the final flush fails, not that they are stored; the final insert uses the cancelled context.
- Fresh ids: `LedgerRuns`, `PoisonedBatches` and the schedules of `UsageWriter` assume that a new token's id was never used before.
- A database call that reports an error has had no effect; a commit that succeeds and is reported as failed is not modelled.
- The expiry that an interleaved bind writes is computed in the step of its table write; the code reads the clock just before it.
- `sort.Slice` is the function `Sorted`, an insertion sort, instead of an in-place sort.
