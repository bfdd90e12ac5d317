# Segmented download, verified

A Dafny model of a download engine that cuts a payload of known size into pieces and blocks, gives each
worker a lane of whole pieces, streams range responses into a set of payload files, turns worker counters
into block flags, stores both, and picks up again after a restart. The model follows the Rust code branch by
branch; loops that update variables are methods with loops, objects that are updated in place are classes,
and everything those methods promise is tied to functions and predicates about which the theorems are proved.

## What is proved

**No progress claim without bytes, in every run.** `Protocol` is a transition system of 22 steps: bytes of a
slice reaching a file, committing and publishing a counter, retrying, restarting, finishing, the separate reads
and the final write of a progress sync, the separate reads and the store of a worker row and of the block flags,
purging rows, rebuilding workers, discarding the file, crash and restore, seeing all workers completed, and marking
everything completed after that. `ProtocolSafety.RunsAreSafe`:
whatever the interleaving, every counter, completed status, block flag and stored row stands for bytes that were
written, and every written byte is the origin's. A worker row may mix an old counter with a later status, as in the
program; this needs no assumption that rows are read atomically. `ProtocolSafety.RunsAssemble`: full or finished
lanes mean that the payload is the origin, byte for byte. The protocol is not safe by standing still:
`ProtocolCompletion.CanAlwaysComplete` leads from every reachable state to a completed download of the origin.

**The imperative code takes those steps.** `Downloads.RunDownloadLoop` (requests, retries, 16 KiB slices, device
failures half way through a slice, stop requests, broken connections) leads from a protocol state to a protocol state
by protocol steps, with `PayloadStores.PayloadStore`, a set of file arrays, as the payload. It does not stop for
nothing either: a stream stops exactly when its worker has been told to (`Transfer.StreamWorker.StreamResponse`), and
a loop that gets one good answer within its retry budget completes, wherever in its lane the failures before left it.
`TaskProtocol` reads a `Job.Task` as a protocol state: a sync, keeping or replacing the workers with all their rows,
a reset, completion, and a restart through `Recovery.BuildRestorePlan` are runs of the protocol, so its invariant
carries over to the task.

**Where the program does not keep the promise by itself, exactly when it does.** `ProtocolLimits`:

- Discarding the file is safe for all continuations if and only if no operation that began earlier is still in
  flight with something to claim (`ResetGuardIsExact`). The program does not wait for them.
- A reset leaves the stored block rows behind; a restart before they are overwritten is safe if and only if they do
  not fit the layout or none is completed (`StaleFlagsAfterReset`).
- When the file is missing at a restart, recovery clears piece states but keeps block states, and sets the byte
  count and the workers to nothing, so that the later check for a missing file skips the reset: safe if and only if no
  stored flag or row claims anything (`LostFileRestored`).
- Marking everything completed is safe if and only if every byte has been written (`CompletionIsExact`). The program
  checks that all listed workers have completed. For a given list that check is enough in every state if and only if
  the list is not empty or nothing is to be downloaded (`CompletionGuardIsExact`). The full length of a file is no
  evidence, because preparation creates it at full length (`FullLengthIsNoEvidence`).

`ProtocolWitnesses` gives, for every non-empty payload and every plan of it, runs from a freshly added task that end on
the failing side of the first three.

Elsewhere:

- The layout check compares indexes only, and accepts foreign geometry across the 1 MiB piece-size cap
  (`PlannerTheorems.EqualCountsMeanEqualSizes` with the exact condition, and a concrete pair of layouts).
- A task passes its own ranking to the planner, which follows it (`TaskPlans.PlannerFollowsRanking`). The ranking is the
  same however the sources are stored if and only if the primary source is among them or no two transfer sources have
  the same record (`RankingIsOrderFree`); the plan of a task without records is, if and only if the primary source is
  among them or there is at most one transfer source (`FreshPlanIsOrderFree`); and with an unknown size the plan is, if
  and only if there is at most one (`StreamingPlanIsOrderFree`).
- The rate limiter keeps to its limit in every run that does not raise it (`RateLimiter.RunsWithinLimit`). When it is
  lowered while callers hold the old rate, it keeps to the new one from then on if and only if none of those rates is
  higher (`LimitHoldsExactlyWhenLoaded`, and `ReservationGuardIsExact` for one caller about to lock);
  `LowerWhileLoading` is a pair of calls that exceeds it.
- A resumed request that is answered with the whole resource (status 200) is classified as an invalidated resume
  (`src/transfer/http.rs:76-81`), and `src/worker/runtime.rs:260-262` ends the worker on that class of error; but the
  error is wrapped into an HTTP error on the way (`src/worker/runtime.rs:101-112`), so the test never sees it and the
  request is retried like any other (`Downloads.RefusedResumeIsRetried`), until the retries are used up.

**Around it.** Lanes partition the payload into whole pieces and are balanced over sources; recovery accepts exactly the
complete layouts, in any order, idempotently; planner and recovery agree; sync and re-seed round a counter down by less
than a block; block and piece progress commute; multi-file writes refine one flat buffer; the list-backed and the
map-backed repository return the same rows after any well-formed calls, every saved row among them; a restart pauses
a download that was at work and gives it back exactly its stored workers and their bytes, and opening its files keeps
what they hold; which replies of a server are retried and which end a worker is fixed status by status;
a success ranks a source before all that have failures, a failure after all that have none, and neither moves any two
others; failover reaches a working source after at most as many failed attempts as there are broken sources.

## Hypotheses

- Range mode and a known total size, in the protocol and in `Downloads`.
- A partial response carries the origin's bytes from the start of its Content-Range and no more than that range
  (sections 14.4 and 15.3.7 of RFC 9110); the program checks start and end of the range
  (`Downloads.Honest`, `Transfer.ValidateResponse`).
- A completed write is durable, and a step of the protocol is one atomic access. The removal of a file and the
  clearing of counters, flags and worker rows that follows it are one step.
- A restart and a rebuild use the manifest geometry of the run (`PlannerTheorems.EqualCountsMeanEqualSizes` says when
  the program's own check ensures that), and the payload file stays in place across a restart, except in
  `ProtocolLimits.LostFileRestored`.
- At most one download loop runs for a worker at a time.
- Files are contiguous from 0 with distinct paths; sizes fit 64 bits and piece counts fit 32 bits.

## Model

| member | source | states |
|---|---|---|
| Pieces.PlanPieceLayouts | src/domain/piece.rs:31-54 | pieces are numbered from 0, adjacent, cover `[0, total)`, full-size except perhaps the last; none for an empty payload |
| Pieces.PieceCount | src/domain/piece.rs:31-54 | there are ceil(total / size) pieces |
| Pieces.PlanPieceBlocks | src/domain/piece.rs:66-93 | every piece is cut, in order, into blocks numbered from 0, full-size except the last of a piece |
| Pieces.GeometryChains | src/domain/piece.rs:31-93 | the blocks of all pieces are `[0, total)` without gap or overlap |
| Pieces.BlockKeysIncrease | src/domain/piece.rs:66-93 | block keys (piece, block) strictly increase, so a key names one block |
| Pieces.MarkCompletedBlocks | src/domain/piece.rs:124-139 | marks in place exactly the blocks that lie in the inclusive range |
| Pieces.LookupMeaning | src/domain/piece.rs:149-176 | a block counts as completed iff the first state with its key is completed; without one it does not |
| Pieces.LookupAligned | src/domain/piece.rs:149-176 | looking a block up by key finds the state at its own position |
| Pieces.DerivedMeaning | src/domain/piece.rs:149-176 | a derived piece is completed iff all of its blocks are |
| Pieces.DerivedEqualsMarked | src/domain/piece.rs:107-176 | for any range, deriving pieces from marked blocks equals marking pieces directly |
| Pieces.BlocksMarkAtLeastPieces | src/domain/piece.rs:107-176 | for several ranges the block form completes at least the pieces the piece form does |
| Pieces.MarkingIsASetOperation | src/domain/piece.rs:107-139 | marking is monotone and independent of order and repetition of ranges |
| Manifests.ForFilesWithPieceSize | src/domain/manifest.rs:127-160 | piece and block size are clamped into the payload; the geometry is well formed for every argument |
| Manifests.ForSingleFileWithPieceSize | src/domain/manifest.rs:58-95 | the single file is the payload |
| Sources.UpdatesBySource | src/domain/source.rs:218-272 | pushing a known id changes nothing, a new one is appended; replacing the primary replaces the source in its place, or puts a new one first |
| Sources.UpdatesKeepIdsDistinct | src/domain/source.rs:218-272 | both registry updates keep ids distinct, and replacing the primary leaves it in the set |
| Planner.PlanExecutionLanes | src/scheduler/planner.rs:46-131 | the loop plans the lanes of `LanePlan`, in all branches |
| Planner.PlanPartitions | src/scheduler/planner.rs:111-180 | lanes are whole pieces, in order, cover everything, and any two differ by at most one piece |
| Planner.PlannedLaneSource | src/scheduler/planner.rs:111-180 | lane i goes to the i-th source of the order, round-robin, and its (piece, block) keys at both ends are those of its first and last block |
| Planner.PartitionTiles | src/scheduler/planner.rs:111-180 | planned lanes tile the bytes `[0, total)` |
| PlannerTheorems.SourcesBalanced | src/scheduler/planner.rs:111-130 | lane counts of any two transfer sources differ by at most one |
| PlannerTheorems.ParallelismBound | src/scheduler/planner.rs:27-35 | with t usable workers there are more than t/2 lanes and at most t |
| PlannerTheorems.PlannerOrderLaw | src/scheduler/planner.rs:133-144 | one source leads another iff its id comes first among the preferences, or neither is named and it is the primary one, or else has the smaller id |
| PlannerTheorems.SuggestedSize | src/scheduler/planner.rs:27-35 | the suggested size is the least one that gives every usable worker at most one piece, cut at 1 MiB |
| PlannerTheorems.PlanForgetsSourceOrder | src/scheduler/planner.rs:74-144 | with the primary id in the set, the plan depends on the set of sources and the preferences only |
| PlannerTheorems.OrderMattersWithoutPrimary | src/scheduler/planner.rs:38-44 | planned without preferences and with no primary source present, any two transfer sources can be made to lead by reordering: different plans |
| TaskPlans.PlannerFollowsRanking | src/job/workers.rs:125-143 | with the ranked ids as preferences the planner takes the sources in exactly the order of the ranking |
| TaskPlans.TaskPlanLaw | src/job/workers.rs:125-143 | a task gets as many lanes as segments, or one without range support, at most one a piece; lane i goes to source i of the ranking, round-robin |
| TaskPlans.NoLanes | src/scheduler/planner.rs:46-73 | there are no lanes iff every source is metadata-only or the payload is known to be empty |
| TaskPlans.RankingIsOrderFree | src/job/mod.rs:584-615 | the ranking is the same for all stored orders iff the primary source is present or no two transfer sources have the same record |
| TaskPlans.FreshPlanIsOrderFree | src/job/workers.rs:125-143 | before anything is recorded, the plan is the same for all stored orders iff the primary source is present or there is at most one transfer source |
| TaskPlans.OrderFreeWhenUntied | src/job/workers.rs:125-143 | whatever has been recorded: with the primary source present or without ties the plan is the same for all stored orders |
| TaskPlans.StreamingPlanIsOrderFree | src/scheduler/planner.rs:52-67 | with an unknown size the plan is the same for all stored orders iff there is at most one transfer source |
| PlannerTheorems.SizeFromCount | src/scheduler/planner.rs:27-35 | below the cap the number of pieces determines the piece size |
| PlannerTheorems.EqualCountsMeanEqualSizes | src/job/mod.rs:773-790 | equal piece counts mean equal piece sizes iff both ideal sizes are on the same side of the cap |
| PlannerTheorems.GeometryIsDetermined | src/domain/piece.rs:31-93 | equal sizes mean the same pieces and blocks |
| PlannerTheorems.IndexOnlyMatchAcceptsOtherGeometry | src/job/mod.rs:781-790 | a payload and two worker counts whose layouts pass the index-only check but place a block differently |
| Progress.SeededDownloaded | src/job/workers.rs:330-368 | the accumulating loop computes the seed |
| Progress.SeedIsCompletedPrefix | src/job/workers.rs:330-368 | the seed is the length of the longest run of completed blocks at the start of the lane |
| Progress.SyncedMeaning | src/job/mod.rs:688-709 | a sync completes exactly the blocks inside some worker's counted prefix, and keeps the completed ones |
| Progress.SyncNeverClears | src/job/mod.rs:688-709 | completed blocks stay completed |
| Progress.SyncThenSeedRoundsDown | src/job/workers.rs:330-368 | on lanes of whole blocks a synced counter d is re-seeded as s on a block boundary, with s <= d < s + block size |
| Progress.RepeatedSyncs | src/job/mod.rs:668-724 | repeated syncs of growing counters leave what one sync of the latest would |
| Progress.ReportedProgress | src/job/mod.rs:668-724 | reported bytes lie between the completed blocks and that plus lanes * (block size - 1), within the payload |
| Mapping.BlockStatesRoundTrip | src/storage/mapping.rs:241-268 | block states saved, stored, returned in any order and converted are the same states |
| Mapping.SnapshotRoundTrip | src/job/mod.rs:408-436 | installed on the same manifest they restore every flag, and piece states are derived from them |
| Mapping.PieceStatesRoundTrip | src/storage/mapping.rs:214-240 | the same for piece states |
| Recovery.SanitizeWorkerRequests | src/recovery.rs:123-270 | the loop keeps all rows, normalised, or none |
| Recovery.AcceptedMeaning | src/recovery.rs:147-267 | the checks of the loop accept exactly the layouts with acceptable rows, unique indexes, no gap or overlap, up to the known total |
| Recovery.SurvivesExactlyWhenTiled | src/recovery.rs:123-270 | with a known size rows survive iff in index order they are such a layout |
| Recovery.SanitizeForgetsOrder | src/recovery.rs:123-130 | the stored order of rows does not matter |
| Recovery.SanitizeIdempotent | src/recovery.rs:123-270 | sanitising twice is sanitising once |
| Recovery.SanitizedProgressBounded | src/recovery.rs:71-82 | the recomputed downloaded size is at most the known total |
| Recovery.RestoredRows | src/recovery.rs:123-270 | stored rows are restored iff in index order they are sound one by one (task, range, counter, known source, whole lane metadata) and together cover the bytes from 0 on, up to the size when it is known; they come back field by field, with the sum of the counters |
| Recovery.BuildRestorePlan | src/recovery.rs:21-121 | by the stored status string: rows of a download that was running, preparing or paused, with a file and a complete layout, come back as they are, paused, with the sum of their counters; which status every other row keeps; "Completed" stays iff the file has the known positive total as its size; the total, if unknown, is one past the last restored byte |
| Recovery.PlannedLayoutSurvives | src/recovery.rs:123-270 | every stored planned layout is accepted in any row order, ranges, sources and counters unchanged |
| Job.MarkFromWorkers | src/job/mod.rs:689-709 | the loop over workers marks in place and sums with saturation |
| Job.Task.InstallManifest | src/job/mod.rs:408-436 | flags survive if the layout fits, pieces are derived from restored blocks, else restored, else reset |
| Job.Task.SyncPieceProgressFromWorkers | src/job/mod.rs:668-724 | block states, piece states and reported size after a sync, for known and unknown sizes and without a manifest |
| Job.Task.ResetResumeState | src/job/prepare.rs:340-347 | all flags, workers, worker rows and the byte count go, the keys stay |
| Job.Task.ResetMissingFileState | src/job/prepare.rs:325-338 | the reset happens iff there is a byte count or a worker |
| Job.Task.MarkAllPiecesCompleted | src/job/mod.rs:726-748 | all states of the manifest's layout become completed |
| Job.Task.AllWorkersCompleted | src/job/workers.rs:303-316 | true iff every listed worker is completed, in particular when there is none |
| Job.Task.CanReuseExistingWorkers | src/job/workers.rs:145-186 | true iff the workers are the planned lanes one by one, with fitting counters and unswitched sources |
| Job.Task.CreateWorkers | src/job/workers.rs:73-123 | workers for all lanes, seeded from the block states and stored; fails iff a lane's source is unknown, with the rows of the lanes before it stored |
| Job.Task.EnsureWorkers | src/job/workers.rs:37-57 | keeps the workers iff they still run the planned lanes, else replaces all of them and their rows, as far as sources are known |
| Job.LanesOfPlan | src/job/workers.rs:84-96 | planned lanes name known sources that carry payload, so creating workers does not fail |
| Job.RestoredSource | src/coordinator/registry.rs:119-168 | a restored worker keeps its stored source if the set knows it, else takes the primary one |
| JobTheorems.PlannedLanesCutBlocks | src/scheduler/planner.rs:111-180 | planned lanes are runs of whole blocks |
| JobTheorems.PlannedProgress | src/job/mod.rs:668-724 | the accounting bound holds on every planned lane set, so the report is never cut off |
| JobTheorems.RebuildRoundsDown | src/job/workers.rs:37-57 | a rebuilt worker gets its counter rounded down to a block boundary of the payload |
| JobTheorems.RestoredLayoutIsReused | src/coordinator/registry.rs:119-168 | a stored planned layout, restored, is what the same inputs plan: it is reused with its counters and completed workers |
| JobTheorems.DisjointLaneWritesCommute | src/payload/store.rs:50-61 | whatever two planned lanes write, the order of the writes does not matter, and neither touches the other's bytes |
| FileMaps.MapOfManifest | src/payload/file_map.rs:29-46 | the map of a manifest covers the payload, and is bounded iff there is something of known size to write |
| FileMaps.ResolveWrites | src/payload/file_map.rs:54-116 | resolves iff the range is in the payload; the slices partition the buffer in order, each inside its file |
| PayloadStores.PayloadStore.Prepare | src/payload/store.rs:25-48 | byte by byte: an opened file keeps what it had, as far as the manifest length reaches, and is filled up with zeros; if every file has its manifest length the payload is what is on disk; each file is its own array |
| PayloadStores.PayloadStore.WriteAt | src/payload/store.rs:50-61 | the files, one after the other, become the old payload with the accepted data spliced in; nothing if the range does not resolve |
| PayloadStores.ConcatSplice | src/payload/store.rs:50-61 | a write into one file is the same write into the concatenation of all files |
| PayloadStores.DisjointSplicesCommute | src/payload/store.rs:50-61 | writes to disjoint ranges commute |
| Transfer.ValidateResponse | src/transfer/http.rs:68-116 | a response passes iff it is 206 with exactly the requested range, or 200 without range mode; a rejected one is an invalidated resume iff the whole resource answers a resumed request |
| Transfer.StreamWorker.StreamResponse | src/transfer/http.rs:118-181 | for any body, stop and device failure: the store holds a prefix of the body and the counter says whole slices; it stops exactly when the looks that went well run out, with everything up to there stored, and otherwise ends with all of the body unless the connection or the device fails |
| Transfer.StreamWorker.StreamChunk | src/transfer/http.rs:156-177 | the loop over the 16 KiB slices of a chunk: one look and one slice at a time, stopping only when the looks run out |
| Downloads.VerdictsByReply | src/worker/runtime.rs:283-303 | 401, 403 and 404 end the worker; 408, 429, 500, 502, 503, 504, any other status than 206 and no reply at all are retried; a full partial response completes it |
| Downloads.Attempt | src/worker/runtime.rs:52-174 | one request, by the status of the reply: fatal, retried or done, unless the worker was told to stop; rejected replies change nothing; protocol steps |
| Downloads.RefusedResumeIsRetried | src/worker/runtime.rs:101-112 | a resumed request answered with status 200 is rejected as an invalidated resume and retried |
| Downloads.RunDownloadLoop | src/worker/runtime.rs:36-178 | the retry loop refines the protocol and sends at most max_retries + 1 requests; a first reply of 401, 403 or 404 fails it after one; n <= max_retries replies of 503 (or the like) and then the rest of the lane complete it; it completes only with the whole lane, and fails if all are retried |
| Downloads.StreamLeads | src/transfer/http.rs:145-177 | a streamed response as protocol steps, a torn slice dropped by the retry |
| ProtocolSafety.StepKeepsInv | src/job/mod.rs:668-724 | every step of the protocol keeps the invariant |
| ProtocolSafety.WriteKeepsInv | src/transfer/http.rs:168 | bytes that reach a file, in the payload or in a removed file |
| ProtocolSafety.SyncWorkerKeepsInv | src/job/mod.rs:691-709 | reading one counter in a sync marks written blocks only |
| ProtocolSafety.ReadStatusKeepsInv | src/storage/mapping.rs:83-84 | a row with an old counter and a later status claims written bytes only |
| ProtocolSafety.RebuildKeepsInv | src/job/workers.rs:48-54 | freshly seeded workers claim written bytes only and tile the payload |
| ProtocolSafety.ResetKeepsInv | src/job/prepare.rs:340-347 | discarding the file when nothing in flight has a claim |
| ProtocolSafety.RestoreKeepsInv | src/recovery.rs:21-103 | crash and restart from stored flags and an accepted layout, or none |
| ProtocolSafety.CheckCompletedKeepsInv | src/job/workers.rs:231-246 | when all listed workers have completed the payload is the origin, and is known to be |
| ProtocolSafety.CompleteKeepsInv | src/job/finalize.rs:37-42 | marking everything completed later, after other steps, still claims written bytes only |
| ProtocolSafety.RunsAreSafe | src/transfer/http.rs:145-177 | in every run, at every moment, no claim covers a byte that was never written |
| ProtocolSafety.RunsAssemble | src/worker/transfer.rs:77-94 | in every run, full or finished lanes mean the payload equals the origin |
| ProtocolSafety.WritesCommute | src/transfer/http.rs:156-177 | writes of different workers commute, because all they write are the origin's bytes |
| ProtocolCompletion.CanAlwaysComplete | src/job/workers.rs:37-57 | from every state of every run, whatever is in flight, rebuilding, finishing and completing ends with the origin and all blocks completed |
| ProtocolLimits.ResetGuardIsExact | src/job/prepare.rs:340-347 | a reset is safe for all continuations iff nothing in flight has or can get a claim |
| ProtocolLimits.StaleFlagsAfterReset | src/job/prepare.rs:340-347 | restarting right after a reset is safe iff the stored flags do not fit or claim nothing |
| ProtocolLimits.LostFileRestored | src/recovery.rs:84-93 | restarting without the file is safe iff no stored flag or row claims anything |
| ProtocolLimits.CompletionIsExact | src/job/finalize.rs:37-42 | marking everything completed is safe iff every byte has been written |
| ProtocolLimits.CompletedWorkersMeanAllBytes | src/job/workers.rs:303-316 | completed workers, when there are any, mean that every byte has been written |
| ProtocolLimits.CompletionGuardIsExact | src/job/workers.rs:303-316 | for a given list of workers, the check that all have completed makes completion safe in every state iff the list is not empty or nothing is to be downloaded |
| ProtocolLimits.FullLengthIsNoEvidence | src/payload/store.rs:38-40 | a fresh file has full length and no bytes; completing it is unsafe |
| ProtocolWitnesses.ResetWhileStoring | src/job/prepare.rs:340-347 | a run from a fresh task after which a reset is unsafe |
| ProtocolWitnesses.RestartAfterReset | src/job/prepare.rs:340-347 | a run from a fresh task after which a reset with nothing in flight and a restart are unsafe |
| ProtocolWitnesses.RestartWithoutFile | src/recovery.rs:84-93 | a run from a fresh task after which losing the file and a restart are unsafe |
| ProtocolRefinement.StreamIsARun | src/transfer/http.rs:156-177 | the slices of a response and the torn rest are a run of write, commit and publish steps |
| ProtocolRefinement.UninterruptedSync | src/job/mod.rs:668-724 | a sync nobody interrupts leaves the block states the sequential method computes |
| ProtocolRefinement.AcceptedRowsTile | src/recovery.rs:123-270 | the rows of an accepted layout tile the payload in index order, with the same ranges, counters and completed workers |
| TaskProtocol.Sync | src/job/mod.rs:668-724 | a sync by the task is the protocol's sync, uninterrupted |
| TaskProtocol.StoreFirstIsARun | src/job/workers.rs:98-120 | storing the listed workers one by one stores the rows the task stores |
| TaskProtocol.EnsureWorkers | src/job/workers.rs:37-57 | making sure of the workers is no step, or the protocol's rebuild and the store of every row |
| TaskProtocol.ResetResumeState | src/job/prepare.rs:340-347 | forgetting all progress is the protocol's reset |
| TaskProtocol.CompleteTask | src/job/workers.rs:231-246 | marking everything after all workers have completed is the protocol's completion, and the payload is then the origin |
| TaskProtocol.Restart | src/coordinator/registry.rs:98-100 | starting again through the restore plan is the protocol's restart from the accepted rows, or from none |
| Failover.RecordingRanks | src/job/mod.rs:571-615 | after a success a source ranks before every other one with failures, after a failure behind every other one without |
| Failover.RecordingMovesOne | src/job/mod.rs:571-615 | recording moves one source only: any two others keep their order |
| Failover.RankingLaw | src/job/mod.rs:584-615 | one source is ranked before another iff it has fewer failures, or as many and more successes, or the same record and is the primary one, or else the smaller id |
| Failover.RankedAreTransferSources | src/job/mod.rs:584-615 | the ranking is of all sources that are not metadata-only, and no fallback is metadata-only |
| Failover.FallbackRanksHighest | src/job/mod.rs:625-644 | the fallback carries payload and ranks higher than every other such source but the failing one |
| Failover.SourceRuntime.SelectRetrySource | src/job/mod.rs:625-644 | none for a source without failures, else the first other source of the ranking, under interference between its two reads |
| Failover.FallbackFailsLeast | src/job/mod.rs:584-615 | the fallback has no more consecutive failures than any other source |
| Failover.RankingForgetsOrder | src/job/mod.rs:584-615 | the ranking depends on the set of sources only, as long as the primary one is in it |
| Failover.RetryOrFail | src/worker/runtime.rs:235-281 | records the failure and switches source, under interference |
| Failover.DownloadWithFailover | src/worker/runtime.rs:52-174 | at most max_retries + 1 requests; with m broken sources, a working one and m retries, a working one is reached after at most m failures, with shared counters |
| RateLimiter.DownloadRateLimiter.ReserveSlot | src/rate_limiter.rs:51-57 | the slot is the first moment that is neither past nor taken, at the rate loaded before |
| RateLimiter.DownloadRateLimiter.SetLimit | src/rate_limiter.rs:22-27 | stores the rate and restarts the schedule, in two steps with anything in between; the limit is reported back |
| RateLimiter.DownloadRateLimiter.Acquire | src/rate_limiter.rs:38-68 | the state after all rounds, with whatever others do before and within them; the caller is released in the last slot, at the configured rate unless it was set while the caller held another; nothing happens for 0 bytes, and nobody passes a limited, open limiter without a slot |
| RateLimiter.AcquireWithin | src/rate_limiter.rs:38-68 | as long as nobody sets a higher limit, every call keeps every window within the limit |
| RateLimiter.RunsWithinLimit | src/rate_limiter.rs:13-68 | from a new limiter on, however the steps of callers and setters interleave: as long as the limit is not raised, every window begins at most limit * length bytes plus one request |
| RateLimiter.LimitHoldsExactlyWhenLoaded | src/rate_limiter.rs:22-57 | a configured limit holds for every continuation that does not set it iff no caller holds a higher rate |
| RateLimiter.ReservationGuardIsExact | src/rate_limiter.rs:45-57 | one caller's reservation keeps every continuation within the limit iff its rate is not higher |
| RateLimiter.LowerWhileLoading | src/rate_limiter.rs:22-68 | two calls of 4 KiB, the limit lowered from 2 to 1 KiB/s while the first holds its rate: the new limit is exceeded |
| RateLimiter.SlotsAreDisjoint | src/rate_limiter.rs:51-57 | slots are disjoint and in order |
| RateLimiter.WindowBound | src/rate_limiter.rs:38-68 | slots whose rates are within a limit begin, in any window of time, at most limit * length bytes plus one request |
| RateLimiter.ReleasedBy | src/rate_limiter.rs:38-68 | of such slots, by time t at most limit * (t - t0) bytes plus one request have been released since t0 |
| RateLimiter.LookaheadBound | src/rate_limiter.rs:51-57 | no caller waits longer than the bytes reserved before it take |
| RateLimiter.LimitRoundTrip | src/rate_limiter.rs:71-75 | a limit is reported back iff it can be counted in bytes |
| Tables.PutSame | src/repository/json_file.rs:153-162 | retain and push in the list is insert in the map |
| Tables.DropSame | src/repository/memory.rs:106-110 | dropping a task's rows in list and map |
| Tables.LoadsAgree | src/repository/json_file.rs:128-140 | filtering and sorting the list gives what any load of the map returns |
| JsonFileRepository.JsonFileRepository.SaveBundle | src/repository/json_file.rs:102-126 | the one-shot save of a bundle |
| JsonFileRepository.JsonFileRepository.SaveWorker | src/repository/json_file.rs:153-162 | replaces the row with the same task and index |
| MemoryRepository.Values | src/repository/memory.rs:73-84 | every row of the map once, in any order |
| MemoryRepository.LoadSorted | src/repository/memory.rs:73-84 | the task's rows, each once, in key order, whatever the map's order |
| MemoryRepository.MemoryRepository.SaveBundle | src/repository/contract.rs:14-34 | the inherited call-by-call save of a bundle |
| RepositoryAgreement.OneShotIsComposition | src/repository/contract.rs:14-34 | the one-shot bundle save ends in the state of the call-by-call one |
| RepositoryContract.BlockKeys | src/repository/memory.rs:153-163 | rows are well formed for saving iff they are the task's and no two have the same piece and block |
| RepositoryReads.SavedBlocksReadBack | src/repository/memory.rs:140-163 | after any calls, saved blocks are loaded from both repositories: each of them, nothing else, by piece and then block |
| RepositoryReads.SavedPiecesReadBack | src/repository/memory.rs:112-132 | saved pieces likewise, by piece |
| RepositoryReads.StatesAreRows | src/storage/mapping.rs:214-268 | the states of every manifest are such rows |
| RepositoryReads.CallsByFields | src/repository/json_file.rs:79-280 | what each call leaves of each table, row by row: a saved row replaces the one with its task and index (or algorithm, or id) only |
| RepositoryReads.ReadsByFields | src/repository/json_file.rs:62-258 | loads of the map-backed repository are the rows of the list-backed one, ordered on their fields, up to row ids |
| RepositoryAgreement.RepositoriesAgree | src/repository/memory.rs:35-209 | after any well-formed calls all loads of both repositories agree, up to row ids |
| RepositoryAgreement.TaskLookupsAgree | src/repository/memory.rs:43-45 | so do lookups of a task |
| RepositoryAgreement.MapsStayKeyed | src/repository/memory.rs:125-163 | rows stay under their own keys in the map repository |
| RepositoryAgreement.BundleLeavesOthers | src/repository/json_file.rs:102-126 | saving a bundle touches no other task's rows |
| RepositoryAgreement.DeleteRemovesExactlyOne | src/repository/json_file.rs:88-100 | deleting a task removes all of its rows and no other's |
| RepositoryAgreement.BundleReadsBack | src/repository/json_file.rs:102-140 | a saved bundle reads back as it was saved, in key order |
| RepositoryReads.SavedBundleReadsBack | src/repository/json_file.rs:102-140 | every row of a saved bundle is loaded and nothing else, in order |

## Left out

- HTTP client, TLS, cookies, probing, SQL, serialisation of the JSON file, logging, command line, dashboard and torrents: I/O, user interface and foreign code.
- Payloads of unknown size and servers without range support: a retry there restarts at the lane's start and keeps counting on top of the old counter, so that counter and stored prefix part; only the branches of the planner, the sync and the response check that handle them are modelled.
- ProtocolSafety.RunsAreSafe: is about runs whose resets happen with nothing claiming in flight, whose restarts follow a store of the flags after a reset, and whose completions had workers; the program guarantees none of the three, and `ProtocolLimits` says exactly when it does without them.
- ProtocolSafety.ResetKeepsInv: requires that nothing in flight has a claim; `ProtocolLimits.ResetGuardIsExact` treats every other state.
- ProtocolSafety.RestoreKeepsInv: requires that the flags were stored again after a reset; `ProtocolLimits.StaleFlagsAfterReset` and `ProtocolLimits.LostFileRestored` treat the rest.
- ProtocolSafety.CheckCompletedKeepsInv: requires a listed worker, which the program does not ask for; `ProtocolLimits.CompletionGuardIsExact` treats the empty list.
- TaskProtocol.CompleteTask: requires a worker for the same reason.
- TaskProtocol.Restart: is about a stored task row whose total is the payload's and not zero, as the hypotheses on restarts say.
- PlannerTheorems.OrderMattersWithoutPrimary: is about planning without preferences, which only the convenience function does; `TaskPlans` has the exact conditions for the plans a task makes.
- RateLimiter.RunsWithinLimit: windows that reach back beyond the last restart of the schedule are not bounded, because setting a limit forgets the slots before it.
- Pause and resume liveness, late status events and two download loops on one worker: the protocol has one loop per worker and says nothing about progress.
- Coordinator concurrency limits and the task queue: they are not enforced by one step and promise nothing about content.
- The "existing file is valid" shortcut as a claim about content: `ProtocolLimits.FullLengthIsNoEvidence` says why length does not imply it.
- Delay computation of retries and the waiting itself: floating-point backoff, no effect on content; only the retry budget is modelled.
- Progress events and statistics: they read what is published and change no modelled state.
- Row ids: the two repositories assign them differently; loads are compared up to them and lookups by row id are not modelled.
- Map keys are sequences of numbers (task id, then index, piece and block, or the characters of the algorithm name) instead of tuples.
- SourceSet is modelled on values: its holders clone it, so aliasing does not arise; fields of a source that ranking and planning do not read are dropped.
- Worker is split by concern: `Transfer.StreamWorker` has the counter that streaming updates, `Job.JobWorker` is what its task reads, `Failover` its current source, and `Protocol.Worker` what interleaving can see.
- The payload store does not grow files: a bounded payload's files are arrays of manifest length; unbounded files and the lazy opening of an unknown path are left out.
- Job.Task.InstallManifest: replaces states, manifest and sources at once, because the source writes them under separate locks that nothing in the model reads in between.
- RateLimiter.WindowBound: is about time as real numbers, because rounding of durations to nanoseconds is not the point.
- Waking the callers that wait when a limit is set is a choice of each round (`RateLimiter.Wake`), not a step of its own.
- Checksums are opaque values; verifying them is not part of this model.
