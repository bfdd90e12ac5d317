/** The task: its block and piece states, its workers, and the operations that relate them
    (src/job/mod.rs:408-436, 646-748, src/job/workers.rs, src/job/prepare.rs:341-347). */
module Job {
  import opened Widths
  import opened Wrappers
  import opened Pieces
  import opened Sources
  import opened Manifests
  import opened Planner
  import opened Progress
  import opened Rows

  /** A worker as its task sees it: lane, current source, published counter, and whether its status is
      `Completed`. */
  datatype JobWorker = JobWorker(id: nat, start: nat, end: nat, lengthKnown: bool, sourceId: string, counter: nat,
                                 completed: bool)

  function ProgressOf(w: JobWorker): LaneProgress {
    LaneProgress(w.start, w.end, if w.lengthKnown then w.counter else 0)
  }

  function AllProgress(workers: seq<JobWorker>): (r: seq<LaneProgress>)
    ensures |r| == |workers|
  {
    seq(|workers|, i requires 0 <= i < |workers| => ProgressOf(workers[i]))
  }

  /** Bytes from the start of its lane that the worker has counted; none while the length is unknown. */
  function Counted(w: JobWorker): nat {
    if w.lengthKnown then Min(w.counter, Max(w.end - w.start, 0) + 1) else 0
  }

  function CountedBytes(workers: seq<JobWorker>): nat {
    if workers == [] then 0 else Counted(workers[0]) + CountedBytes(workers[1..])
  }

  ghost predicate CountedBy(w: JobWorker, b: PieceBlock) {
    w.start <= b.offset && b.offset + b.length <= w.start + Counted(w)
  }

  /** The block states after a sync: a block is on when it was on before, under the manifest's keys, or some
      worker has counted all of it. */
  ghost predicate FlagsCounted(blocks: seq<PieceBlock>, before: seq<BlockState>, workers: seq<JobWorker>,
                               after: seq<BlockState>)
  {
    && Aligned(after, blocks)
    && forall j :: 0 <= j < |blocks| ==>
         (after[j].completed <==>
            || (Aligned(before, blocks) && before[j].completed)
            || exists i :: 0 <= i < |workers| && CountedBy(workers[i], blocks[j]))
  }

  lemma {:induction false} CountedIsSum(workers: seq<JobWorker>)
    ensures SumDownloaded(AllProgress(workers)) == CountedBytes(workers)
  {
    if workers != [] {
      CountedIsSum(workers[1..]);
      assert AllProgress(workers)[1..] == AllProgress(workers[1..]);
    }
  }

  lemma SyncByFields(m: Manifest, before: seq<BlockState>, workers: seq<JobWorker>)
    requires m.WellFormed() && m.totalKnown
    ensures FlagsCounted(m.blocks, before, workers,
                         SyncedBlocks(InstalledBlocks(m.blocks, before), m.blocks, AllProgress(workers)))
  {
    var start, progress := InstalledBlocks(m.blocks, before), AllProgress(workers);
    InstalledMeaning(m.blocks, before);
    forall j | 0 <= j < |m.blocks|
      ensures SyncedBlocks(start, m.blocks, progress)[j]
           == start[j].(completed := start[j].completed || exists i :: 0 <= i < |workers| && CountedBy(workers[i], m.blocks[j]))
    {
      assert Inside(m.blocks[j], m.pieces, m.blockSize);
      SyncedMeaning(start, m.blocks, progress, j);
      ClaimsAreCounts(workers, m.blocks[j]);
    }
  }

  lemma ClaimsAreCounts(workers: seq<JobWorker>, b: PieceBlock)
    ensures SomeClaims(AllProgress(workers), b) <==> exists i :: 0 <= i < |workers| && CountedBy(workers[i], b)
  {
    var progress := AllProgress(workers);
    assert forall i :: 0 <= i < |workers| ==> (Claims(progress[i], b) <==> CountedBy(workers[i], b));
  }

  /** The worker for a freshly planned lane. */
  function PlannedWorker(blocks: seq<PieceBlock>, states: seq<BlockState>, lane: Lane): JobWorker {
    JobWorker(lane.laneId, lane.start, lane.end, lane.lengthKnown, lane.sourceId,
              Seed(blocks, states, lane.start, lane.end), false)
  }

  function PlannedWorkers(blocks: seq<PieceBlock>, states: seq<BlockState>, lanes: seq<Lane>): (r: seq<JobWorker>)
    ensures |r| == |lanes|
  {
    seq(|lanes|, i requires 0 <= i < |lanes| => PlannedWorker(blocks, states, lanes[i]))
  }

  /** Worker rows after saving the first `n` of `workers` one by one. */
  function Saved(rows: map<nat, JobWorker>, workers: seq<JobWorker>, n: nat): map<nat, JobWorker>
    requires n <= |workers|
  {
    if n == 0 then rows else Saved(rows, workers, n - 1)[workers[n - 1].id := workers[n - 1]]
  }

  predicate SourceKnown(sources: SourceSet, lane: Lane) {
    sources.Get(lane.sourceId).Some?
  }

  /** The first lane from position `i` on whose source is unknown, or the number of lanes. */
  function FirstUnknown(sources: SourceSet, lanes: seq<Lane>, i: nat): (n: nat)
    requires i <= |lanes|
    ensures i <= n <= |lanes| && forall k :: i <= k < n ==> SourceKnown(sources, lanes[k])
    ensures n < |lanes| ==> !SourceKnown(sources, lanes[n])
    decreases |lanes| - i
  {
    if i == |lanes| || !SourceKnown(sources, lanes[i]) then i else FirstUnknown(sources, lanes, i + 1)
  }

  /** The worker still runs this lane, from this source, with a counter that fits it. */
  predicate Runs(w: JobWorker, lane: Lane) {
    && w.id == lane.laneId && w.start == lane.start && w.end == lane.end
    && w.sourceId == lane.sourceId
    && w.counter <= lane.Length()
  }

  predicate RunLanes(workers: seq<JobWorker>, lanes: seq<Lane>) {
    |workers| == |lanes| && forall i :: 0 <= i < |workers| ==> Runs(workers[i], lanes[i])
  }

  /** The worker rebuilt from an accepted request; an unknown source falls back to the primary one. */
  function RestoredWorker(r: SegmentRequest, sources: SourceSet, fallback: string): JobWorker {
    var source := if r.sourceId.Some? && sources.Get(r.sourceId.value).Some? then r.sourceId.value
                  else PrimaryId(sources).GetOr(fallback);
    JobWorker(r.index, r.start, r.end, true, source, r.downloaded.GetOr(0), r.status == Some("Completed"))
  }

  /** A restored worker keeps its source if the task still has it; else it gets the primary one, or the task's
      own address when there is no source at all. */
  lemma RestoredSource(r: SegmentRequest, sources: SourceSet, fallback: string)
    ensures var w := RestoredWorker(r, sources, fallback);
            if exists s :: s in sources.sources && r.sourceId == Some(s.id) then r.sourceId == Some(w.sourceId)
            else if sources.sources == [] then w.sourceId == fallback
            else exists s :: s in sources.sources && IsPrimary(sources, s) && w.sourceId == s.id
  {
    if sources.sources != [] {
      assert sources.sources[0] in sources.sources;
      PrimaryMeaning(sources, sources.Primary().value);
    }
  }

  /** Fresh workers run their lanes: they are kept the next time the same lanes are planned. */
  lemma PlannedAreReused(blocks: seq<PieceBlock>, states: seq<BlockState>, lanes: seq<Lane>)
    ensures RunLanes(PlannedWorkers(blocks, states, lanes), lanes)
    ensures forall i :: 0 <= i < |lanes| ==>
              var w := PlannedWorkers(blocks, states, lanes)[i];
              && !w.completed && w.lengthKnown == lanes[i].lengthKnown
              && w.counter == Seed(blocks, states, lanes[i].start, lanes[i].end)
  {
  }

  function RestoredWorkers(requests: seq<SegmentRequest>, sources: SourceSet, fallback: string): (r: seq<JobWorker>)
    ensures |r| == |requests|
  {
    seq(|requests|, i requires 0 <= i < |requests| => RestoredWorker(requests[i], sources, fallback))
  }

  function ClearedBlocks(states: seq<BlockState>): (r: seq<BlockState>)
    ensures |r| == |states|
  {
    seq(|states|, j requires 0 <= j < |states| => states[j].(completed := false))
  }

  function ClearedPieces(states: seq<PieceState>): (r: seq<PieceState>)
    ensures |r| == |states|
  {
    seq(|states|, k requires 0 <= k < |states| => states[k].(completed := false))
  }

  function FinishedPieces(states: seq<PieceState>): (r: seq<PieceState>)
    ensures |r| == |states|
  {
    seq(|states|, k requires 0 <= k < |states| => states[k].(completed := true))
  }

  // ---------------------------------------------------------------- the loops over states

  method CopyBlockFlags(next: seq<BlockState>, restored: seq<BlockState>) returns (r: seq<BlockState>)
    requires |next| == |restored|
    ensures |r| == |next| && forall j :: 0 <= j < |r| ==> r[j] == next[j].(completed := restored[j].completed)
  {
    r := next;
    for j := 0 to |next|
      invariant |r| == |next|
      invariant forall i :: 0 <= i < |next| ==>
                  r[i] == if i < j then next[i].(completed := restored[i].completed) else next[i]
    {
      r := r[j := r[j].(completed := restored[j].completed)];
    }
  }

  method CopyPieceFlags(next: seq<PieceState>, restored: seq<PieceState>) returns (r: seq<PieceState>)
    requires |next| == |restored|
    ensures |r| == |next| && forall k :: 0 <= k < |r| ==> r[k] == next[k].(completed := restored[k].completed)
  {
    r := next;
    for k := 0 to |next|
      invariant |r| == |next|
      invariant forall i :: 0 <= i < |next| ==>
                  r[i] == if i < k then next[i].(completed := restored[i].completed) else next[i]
    {
      r := r[k := r[k].(completed := restored[k].completed)];
    }
  }

  /** Marks, worker by worker, what the counters cover; sums the counters up. */
  method MarkFromWorkers(states: array<BlockState>, blocks: seq<PieceBlock>, workers: seq<JobWorker>)
    returns (downloaded: u64)
    modifies states
    ensures states[..] == SyncedBlocks(old(states[..]), blocks, AllProgress(workers))
    ensures downloaded == Min(SumDownloaded(AllProgress(workers)), U64_MAX)
  {
    downloaded := 0;
    ghost var progress, before := AllProgress(workers), states[..];
    assert progress[..0] == [];
    for i := 0 to |workers|
      invariant states[..] == SyncedBlocks(before, blocks, progress[..i])
      invariant downloaded == Min(SumDownloaded(progress[..i]), U64_MAX)
    {
      var w := ProgressOf(workers[i]);
      SyncOneMore(before, blocks, progress[..i], w);
      assert progress[..i + 1] == progress[..i] + [w];
      var workerDownloaded := w.Downloaded();
      downloaded := if downloaded + workerDownloaded > U64_MAX then U64_MAX else downloaded + workerDownloaded;
      if workerDownloaded > 0 {
        MarkCompletedBlocks(states, blocks, w.start, w.start + workerDownloaded - 1);
      }
    }
    assert progress[..|workers|] == progress;
  }

  // ---------------------------------------------------------------- the task

  class Task {
    var manifest: Option<Manifest>
    var sources: SourceSet
    var pieceStates: seq<PieceState>
    var blockStates: seq<BlockState>
    var workers: seq<JobWorker>
    /** Stored worker rows, by worker id. */
    var storedWorkers: map<nat, JobWorker>
    var downloadedSize: nat

    constructor (sources: SourceSet, pieceStates: seq<PieceState>, blockStates: seq<BlockState>,
                 workers: seq<JobWorker>, storedWorkers: map<nat, JobWorker>, downloaded: nat)
      ensures this.manifest == None && this.sources == sources && this.pieceStates == pieceStates
      ensures this.blockStates == blockStates && this.workers == workers && this.downloadedSize == downloaded
      ensures this.storedWorkers == storedWorkers
    {
      this.manifest, this.sources := None, sources;
      this.pieceStates, this.blockStates, this.workers := pieceStates, blockStates, workers;
      this.storedWorkers, this.downloadedSize := storedWorkers, downloaded;
    }

    method InstallManifest(m: Manifest)
      modifies this
      ensures manifest == Some(m) && sources == m.sources
      ensures blockStates == InstalledBlocks(m.blocks, old(blockStates))
      ensures pieceStates == InstalledPieces(m.pieces, m.blocks, old(pieceStates), old(blockStates))
      // Flag by flag: restored where the stored keys fit; pieces follow the restored blocks, or come back alone.
      ensures |blockStates| == |m.blocks| && forall j :: 0 <= j < |m.blocks| ==>
                blockStates[j] == BlockState(m.blocks[j].piece, m.blocks[j].block,
                                             Aligned(old(blockStates), m.blocks) && old(blockStates)[j].completed)
      ensures if Aligned(old(blockStates), m.blocks) then pieceStates == DerivePieceStates(m.pieces, m.blocks, blockStates)
              else |pieceStates| == |m.pieces| && forall k :: 0 <= k < |m.pieces| ==>
                pieceStates[k] == PieceState(m.pieces[k].piece,
                                             PiecesAligned(old(pieceStates), m.pieces) && old(pieceStates)[k].completed)
      ensures workers == old(workers) && storedWorkers == old(storedWorkers) && downloadedSize == old(downloadedSize)
    {
      InstalledMeaning(m.blocks, blockStates);
      InstalledPiecesMeaning(m.pieces, m.blocks, pieceStates, blockStates);
      if Aligned(blockStates, m.blocks) { InstallKeepsAligned(m.blocks, blockStates); }
      var pieces := InitializePieceStates(m.pieces);
      var blocks := InitializeBlockStates(m.blocks);
      if PieceStateLayoutMatches(pieces, pieceStates) {
        pieces := CopyPieceFlags(pieces, pieceStates);
      }
      if BlockStateLayoutMatches(blocks, blockStates) {
        blocks := CopyBlockFlags(blocks, blockStates);
        pieces := DerivePieceStates(m.pieces, m.blocks, blocks);
      }
      manifest, sources, pieceStates, blockStates := Some(m), m.sources, pieces, blocks;
    }

    /** Turns the counters of the listed workers into block flags, piece flags and a reported size. */
    method SyncPieceProgressFromWorkers() returns (downloaded: Option<nat>)
      modifies this
      ensures manifest == old(manifest) && sources == old(sources)
      ensures workers == old(workers) && storedWorkers == old(storedWorkers)
      ensures downloaded.None? <==> manifest.None?
      ensures downloaded.None? ==>
                blockStates == old(blockStates) && pieceStates == old(pieceStates) && downloadedSize == old(downloadedSize)
      ensures downloaded.Some? ==> downloadedSize == downloaded.value
      ensures downloaded.Some? && manifest.value.totalKnown ==>
                && blockStates == SyncedBlocks(InstalledBlocks(manifest.value.blocks, old(blockStates)),
                                               manifest.value.blocks, AllProgress(workers))
                && pieceStates == DerivePieceStates(manifest.value.pieces, manifest.value.blocks, blockStates)
                && downloaded.value == Min(Min(SumDownloaded(AllProgress(workers)), U64_MAX), manifest.value.total)
      ensures downloaded.Some? && !manifest.value.totalKnown ==>
                && blockStates == old(blockStates) && pieceStates == old(pieceStates)
                && downloaded.value == Min(SumDownloaded(AllProgress(workers)), U64_MAX)
      // On the fields: which blocks are on afterwards, and how many bytes are reported.
      ensures downloaded.Some? && manifest.value.totalKnown && manifest.value.WellFormed() ==>
                FlagsCounted(manifest.value.blocks, old(blockStates), workers, blockStates)
      ensures downloaded.Some? ==>
                downloaded.value == Min(Min(CountedBytes(workers), U64_MAX),
                                        if manifest.value.totalKnown then manifest.value.total else U64_MAX)
    {
      CountedIsSum(workers);
      if manifest.Some? && manifest.value.totalKnown && manifest.value.WellFormed() {
        SyncByFields(manifest.value, blockStates, workers);
      }
      if manifest.None? {
        return None;
      }
      var m := manifest.value;
      var start := InstalledBlocks(m.blocks, blockStates);
      var states := new BlockState[|start|](i requires 0 <= i < |start| => start[i]);
      assert states[..] == start;
      var sum := MarkFromWorkers(states, m.blocks, workers);
      if !m.totalKnown {
        downloadedSize := sum;
        return Some(sum);
      }
      blockStates := states[..];
      pieceStates := DerivePieceStates(m.pieces, m.blocks, blockStates);
      downloadedSize := Min(sum, m.total);
      return Some(downloadedSize);
    }

    method ResetPieceProgress()
      modifies this`pieceStates
      ensures pieceStates == ClearedPieces(old(pieceStates))
    {
      for k := 0 to |pieceStates|
        invariant |pieceStates| == |old(pieceStates)|
        invariant forall i :: 0 <= i < |pieceStates| ==>
                    pieceStates[i] == if i < k then old(pieceStates)[i].(completed := false) else old(pieceStates)[i]
      {
        pieceStates := pieceStates[k := pieceStates[k].(completed := false)];
      }
    }

    method ResetBlockProgress()
      modifies this`blockStates
      ensures blockStates == ClearedBlocks(old(blockStates))
    {
      for j := 0 to |blockStates|
        invariant |blockStates| == |old(blockStates)|
        invariant forall i :: 0 <= i < |blockStates| ==>
                    blockStates[i] == if i < j then old(blockStates)[i].(completed := false) else old(blockStates)[i]
      {
        blockStates := blockStates[j := blockStates[j].(completed := false)];
      }
    }

    /** Forgets all progress and all workers, in memory and stored; stored block flags are not touched. */
    method ResetResumeState()
      modifies this
      ensures manifest == old(manifest) && sources == old(sources)
      ensures pieceStates == ClearedPieces(old(pieceStates)) && blockStates == ClearedBlocks(old(blockStates))
      ensures workers == [] && storedWorkers == map[] && downloadedSize == 0
    {
      downloadedSize := 0;
      ResetPieceProgress();
      ResetBlockProgress();
      workers := [];
      storedWorkers := map[];
    }

    /** When a missing file is noticed, progress is reset only if there is some, or there are workers. */
    method ResetMissingFileState()
      modifies this
      ensures manifest == old(manifest) && sources == old(sources)
      ensures if old(downloadedSize) > 0 || old(workers) != [] then
                && pieceStates == ClearedPieces(old(pieceStates)) && blockStates == ClearedBlocks(old(blockStates))
                && workers == [] && storedWorkers == map[] && downloadedSize == 0
              else
                && pieceStates == old(pieceStates) && blockStates == old(blockStates)
                && workers == [] && storedWorkers == old(storedWorkers) && downloadedSize == 0
    {
      if downloadedSize == 0 && workers == [] {
        return;
      }
      ResetResumeState();
    }

    method AllWorkersCompleted() returns (all: bool)
      ensures all <==> forall i :: 0 <= i < |workers| ==> workers[i].completed
    {
      for i := 0 to |workers|
        invariant forall k :: 0 <= k < i ==> workers[k].completed
      {
        if !workers[i].completed {
          return false;
        }
      }
      return true;
    }

    method MarkAllPiecesCompleted()
      modifies this`pieceStates, this`blockStates, this`downloadedSize
      ensures manifest.None? ==>
                pieceStates == old(pieceStates) && blockStates == old(blockStates) && downloadedSize == old(downloadedSize)
      ensures manifest.Some? ==>
                && pieceStates == FinishedPieces(if |old(pieceStates)| == |manifest.value.pieces| then old(pieceStates)
                                                 else InitializePieceStates(manifest.value.pieces))
                && blockStates == AllCompleted(if |old(blockStates)| == |manifest.value.blocks| then old(blockStates)
                                                 else InitializeBlockStates(manifest.value.blocks))
                && downloadedSize == if manifest.value.totalKnown then manifest.value.total else old(downloadedSize)
    {
      if manifest.None? {
        return;
      }
      var m := manifest.value;
      if |pieceStates| != |m.pieces| {
        pieceStates := InitializePieceStates(m.pieces);
      }
      ghost var before := pieceStates;
      for k := 0 to |pieceStates|
        invariant blockStates == old(blockStates) && downloadedSize == old(downloadedSize)
        invariant |pieceStates| == |before|
        invariant forall i :: 0 <= i < |before| ==>
                    pieceStates[i] == if i < k then before[i].(completed := true) else before[i]
      {
        pieceStates := pieceStates[k := pieceStates[k].(completed := true)];
      }
      ghost var pieces := pieceStates;
      if |blockStates| != |m.blocks| {
        blockStates := InitializeBlockStates(m.blocks);
      }
      ghost var blocksBefore := blockStates;
      for j := 0 to |blockStates|
        invariant pieceStates == pieces && downloadedSize == old(downloadedSize)
        invariant |blockStates| == |blocksBefore|
        invariant forall i :: 0 <= i < |blocksBefore| ==>
                    blockStates[i] == if i < j then blocksBefore[i].(completed := true) else blocksBefore[i]
      {
        blockStates := blockStates[j := blockStates[j].(completed := true)];
      }
      if m.totalKnown {
        downloadedSize := m.total;
      }
    }

    // -------------------------------------------------------------- workers

    /** The lanes the task would run now. */
    method PlanLanes(segmentsPerTask: nat, rangeSupported: bool, preferred: seq<string>) returns (lanes: seq<Lane>)
      requires manifest.Some? && manifest.value.WellFormed()
      ensures lanes == PlannedLanes(manifest.value, segmentsPerTask, rangeSupported, preferred)
    {
      lanes := PlanExecutionLanes(manifest.value, if rangeSupported then segmentsPerTask else 1, rangeSupported, preferred);
    }

    method CanReuseExistingWorkers(existing: seq<JobWorker>, lanes: seq<Lane>) returns (reuse: bool)
      ensures reuse <==> RunLanes(existing, lanes)
      ensures reuse <==> |existing| == |lanes| && forall i :: 0 <= i < |existing| ==>
                && existing[i].id == lanes[i].laneId && existing[i].sourceId == lanes[i].sourceId
                && existing[i].start == lanes[i].start && existing[i].end == lanes[i].end
                && existing[i].counter <= Max(lanes[i].end - lanes[i].start, 0) + 1
    {
      if |existing| != |lanes| {
        return false;
      }
      for i := 0 to |existing|
        invariant forall k :: 0 <= k < i ==> Runs(existing[k], lanes[k])
      {
        if !Runs(existing[i], lanes[i]) {
          return false;
        }
      }
      return true;
    }

    /** Workers for the planned lanes, stored as they are created; `None` when a lane's source is unknown,
        with the rows of the workers before it stored. */
    method CreateWorkers(lanes: seq<Lane>) returns (created: Option<seq<JobWorker>>)
      requires manifest.Some?
      modifies this`storedWorkers
      ensures created.Some? <==> FirstUnknown(sources, lanes, 0) == |lanes|
      ensures created.Some? ==> created.value == PlannedWorkers(manifest.value.blocks, blockStates, lanes)
      ensures storedWorkers == Saved(old(storedWorkers), PlannedWorkers(manifest.value.blocks, blockStates, lanes),
                                     FirstUnknown(sources, lanes, 0))
    {
      ghost var all, before := PlannedWorkers(manifest.value.blocks, blockStates, lanes), storedWorkers;
      var made: seq<JobWorker> := [];
      for i := 0 to |lanes|
        invariant FirstUnknown(sources, lanes, i) == FirstUnknown(sources, lanes, 0)
        invariant storedWorkers == Saved(before, all, i) && made == all[..i]
      {
        if !SourceKnown(sources, lanes[i]) {
          return None;
        }
        var worker := CreateWorker(lanes[i]);
        storedWorkers := storedWorkers[worker.id := worker];
        made := made + [worker];
      }
      created := Some(made);
    }

    method CreateWorker(lane: Lane) returns (worker: JobWorker)
      requires manifest.Some?
      ensures worker == PlannedWorker(manifest.value.blocks, blockStates, lane)
    {
      var seed := SeededDownloaded(manifest.value.blocks, blockStates, lane.start, lane.end);
      worker := JobWorker(lane.laneId, lane.start, lane.end, lane.lengthKnown, lane.sourceId, seed, false);
    }

    /** Keeps the workers that still run the planned lanes, or replaces them all. */
    method EnsureWorkers(segmentsPerTask: nat, rangeSupported: bool, preferred: seq<string>) returns (ok: bool)
      requires manifest.Some? && manifest.value.WellFormed()
      modifies this`workers, this`storedWorkers
      ensures var lanes := PlannedLanes(manifest.value, segmentsPerTask, rangeSupported, preferred);
              if old(workers) != [] && RunLanes(old(workers), lanes)
              then ok && workers == old(workers) && storedWorkers == old(storedWorkers)
              else Replaced(manifest.value, lanes, ok)
      ensures sources == manifest.value.sources ==> ok
      ensures ok ==> RunLanes(workers, PlannedLanes(manifest.value, segmentsPerTask, rangeSupported, preferred))
    {
      var lanes := PlanLanes(segmentsPerTask, rangeSupported, preferred);
      LanesOfPlan(manifest.value, segmentsPerTask, rangeSupported, preferred);
      if workers != [] {
        var reuse := CanReuseExistingWorkers(workers, lanes);
        if reuse {
          return true;
        }
      }
      PlannedAreReused(manifest.value.blocks, blockStates, lanes);
      ok := ReplaceWorkers(lanes);
    }

    /** All workers are fresh, seeded from the block states, and their rows are the only ones stored; or
        there are none, and rows were stored up to the first lane of an unknown source. */
    ghost predicate Replaced(m: Manifest, lanes: seq<Lane>, ok: bool)
      reads this
    {
      var planned := PlannedWorkers(m.blocks, blockStates, lanes);
      && (ok <==> FirstUnknown(sources, lanes, 0) == |lanes|)
      && workers == (if ok then planned else [])
      && storedWorkers == Saved(map[], planned, FirstUnknown(sources, lanes, 0))
    }

    method ReplaceWorkers(lanes: seq<Lane>) returns (ok: bool)
      requires manifest.Some?
      modifies this`workers, this`storedWorkers
      ensures Replaced(manifest.value, lanes, ok)
    {
      workers := [];
      storedWorkers := map[];
      var created := CreateWorkers(lanes);
      if created.None? {
        return false;
      }
      workers := created.value;
      return true;
    }
  }

  function PlannedLanes(m: Manifest, segmentsPerTask: nat, rangeSupported: bool, preferred: seq<string>): seq<Lane>
    requires m.WellFormed()
  {
    LanePlan(m, if rangeSupported then segmentsPerTask else 1, rangeSupported, preferred)
  }

  /** The lane's source is one of the set that carries payload, not only metadata. */
  ghost predicate CarriesPayload(sources: SourceSet, lane: Lane) {
    exists s :: s in sources.sources && s.id == lane.sourceId && !s.metadataOnly
  }

  /** Planned lanes name known sources, and only ones that carry payload. */
  lemma LanesOfPlan(m: Manifest, segmentsPerTask: nat, rangeSupported: bool, preferred: seq<string>)
    requires m.WellFormed()
    ensures var lanes := PlannedLanes(m, segmentsPerTask, rangeSupported, preferred);
            forall i :: 0 <= i < |lanes| ==> SourceKnown(m.sources, lanes[i]) && CarriesPayload(m.sources, lanes[i])
  {
    var lanes := PlannedLanes(m, segmentsPerTask, rangeSupported, preferred);
    forall i | 0 <= i < |lanes|
      ensures SourceKnown(m.sources, lanes[i]) && CarriesPayload(m.sources, lanes[i])
    {
      LaneSourceKnown(m, if rangeSupported then segmentsPerTask else 1, rangeSupported, preferred, i);
    }
  }

  lemma LaneSourceKnown(m: Manifest, workers: nat, allowParallel: bool, preferred: seq<string>, i: nat)
    requires m.WellFormed() && i < |LanePlan(m, workers, allowParallel, preferred)|
    ensures SourceKnown(m.sources, LanePlan(m, workers, allowParallel, preferred)[i])
    ensures CarriesPayload(m.sources, LanePlan(m, workers, allowParallel, preferred)[i])
  {
    var active := m.sources.ActiveTransferSources();
    OrderedNonEmpty(m.sources, preferred);
    var ordered := OrderedSources(m.sources, preferred);
    var lane := LanePlan(m, workers, allowParallel, preferred)[i];
    if m.pieces == [] {
      assert active[0] in m.sources.sources;
    } else if allowParallel {
      var w := LaneCount(|m.pieces|, workers);
      SliceBounds(|m.pieces|, w, i);
      assert lane == LaneAt(m, w, ordered, i);
      assert ordered[i % |ordered|] in m.sources.sources;
    } else {
      assert ordered[0] in m.sources.sources;
    }
  }
}
