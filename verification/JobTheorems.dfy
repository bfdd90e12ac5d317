/** What the task's operations guarantee together: planned lanes and block progress fit each other, and a
    stored layout comes back as the layout that would be planned. */
module JobTheorems {
  import opened Widths
  import opened Wrappers
  import opened Pieces
  import opened Sources
  import opened Manifests
  import opened Planner
  import opened Progress
  import opened Rows
  import opened PayloadStores
  import opened Job
  import Mapping
  import Recovery

  // ---------------------------------------------------------------- lanes over blocks

  /** These workers' ranges are the lanes', in order. */
  ghost predicate OnLanes(workers: seq<LaneProgress>, lanes: seq<Lane>) {
    && |workers| == |lanes|
    && forall i :: 0 <= i < |lanes| ==> workers[i].start == lanes[i].start && workers[i].end == lanes[i].end
  }

  /** Where lane `i` begins, as a block position. */
  lemma LaneStartsAtBlock(m: Manifest, piece: nat) returns (j: nat)
    requires m.WellFormed() && piece < |m.pieces|
    ensures j < |m.blocks| && m.blocks[j].offset == m.pieces[piece].offset
    ensures piece == 0 ==> j == 0
  {
    j := PieceHasFirstBlock(m.blocks, m.pieces, m.blockSize, piece, |m.blocks| - 1);
    if piece == 0 {
      GeometryChains(m.pieces, m.blocks, m.pieceSize, m.blockSize, m.total);
      BoundaryOrder(m.blocks, m.blockSize, m.total, 0, j);
      j := 0;
    }
  }

  /** The block positions at which the first `n` lanes begin, and where lane `n - 1` ends. */
  lemma {:induction false} CutLanes(m: Manifest, lanes: seq<Lane>, n: nat) returns (cuts: seq<nat>)
    requires m.WellFormed() && Partition(lanes, m) && n < |lanes|
    ensures |cuts| == n + 1 && cuts[0] == 0
    ensures forall i :: 0 <= i <= n ==> cuts[i] < |m.blocks| && m.blocks[cuts[i]].offset == lanes[i].start
  {
    assert WholePieces(lanes[n], m);
    var j := LaneStartsAtBlock(m, lanes[n].pieceStart);
    if n == 0 {
      cuts := [0];
    } else {
      cuts := CutLanes(m, lanes, n - 1);
      cuts := cuts + [j];
    }
  }

  lemma LaneIsCut(m: Manifest, lanes: seq<Lane>, i: nat, lo: nat, hi: nat)
    requires m.WellFormed() && Partition(lanes, m) && i < |lanes|
    requires lo < |m.blocks| && m.blocks[lo].offset == lanes[i].start
    requires if i + 1 < |lanes| then hi < |m.blocks| && m.blocks[hi].offset == lanes[i + 1].start else hi == |m.blocks|
    ensures BlockAligned(m.blocks, lanes[i].start, lanes[i].end, lo, hi)
  {
    GeometryChains(m.pieces, m.blocks, m.pieceSize, m.blockSize, m.total);
    PartitionTiles(lanes, m);
    Recovery.LaneWithin(lanes, m.total, i);
    if hi <= lo {
      BoundaryOrder(m.blocks, m.blockSize, m.total, hi, lo);
    } else {
      BoundaryOrder(m.blocks, m.blockSize, m.total, lo, hi);
    }
  }

  /** The planned lanes are runs of whole blocks that follow each other and are all blocks. */
  lemma PlannedLanesCutBlocks(m: Manifest, lanes: seq<Lane>, workers: seq<LaneProgress>) returns (cuts: seq<nat>)
    requires m.WellFormed() && Partition(lanes, m) && OnLanes(workers, lanes)
    ensures LanesCutBlocks(workers, cuts, m.blocks)
  {
    cuts := CutLanes(m, lanes, |lanes| - 1);
    cuts := cuts + [|m.blocks|];
    forall i, k | 0 <= i && k == i + 1 && k < |cuts|
      ensures BlockAligned(m.blocks, workers[i].start, workers[i].end, cuts[i], cuts[k])
    {
      LaneIsCut(m, lanes, i, cuts[i], cuts[k]);
    }
  }

  // ---------------------------------------------------------------- progress on planned lanes

  /** Progress accounting on planned lanes: after a reset, however often progress is synced while the
      counters grow, the reported bytes lie between the completed blocks and those plus one unfinished
      block per lane, and within the payload, so the report is never cut off. */
  lemma PlannedProgress(m: Manifest, lanes: seq<Lane>, history: seq<seq<LaneProgress>>)
    requires m.WellFormed() && m.totalKnown && Partition(lanes, m) && history != []
    requires Growing(history)
    requires OnLanes(history[|history| - 1], lanes)
    ensures var states := SyncAll(InitializeBlockStates(m.blocks), m.blocks, history);
            var done := CompletedBytes(m.blocks, states, 0, |m.blocks|);
            var sum := SumDownloaded(history[|history| - 1]);
            done <= sum <= done + |lanes| * (m.blockSize - 1) && sum <= m.total
  {
    var cuts := PlannedLanesCutBlocks(m, lanes, history[|history| - 1]);
    CutProgress(m, history, cuts, |lanes|);
  }

  lemma CutProgress(m: Manifest, history: seq<seq<LaneProgress>>, cuts: seq<nat>, n: nat)
    requires m.WellFormed() && m.totalKnown && history != [] && Growing(history)
    requires LanesCutBlocks(history[|history| - 1], cuts, m.blocks) && n == |history[|history| - 1]|
    ensures var done := CompletedBytes(m.blocks, SyncAll(InitializeBlockStates(m.blocks), m.blocks, history), 0, |m.blocks|);
            var sum := SumDownloaded(history[|history| - 1]);
            done <= sum <= done + n * (m.blockSize - 1) && sum <= m.total
  {
    GeometryChains(m.pieces, m.blocks, m.pieceSize, m.blockSize, m.total);
    BlockKeysIncrease(m.blocks, m.pieces, m.blockSize);
    ReportedProgress(m.blocks, m.blockSize, m.total, history, cuts);
  }

  /** Sync, then rebuild on the same lanes: every worker is seeded with its counter rounded down to a
      block boundary of the payload. */
  lemma RebuildRoundsDown(m: Manifest, lanes: seq<Lane>, workers: seq<LaneProgress>, i: nat) returns (k: nat)
    requires m.WellFormed() && Partition(lanes, m) && OnLanes(workers, lanes) && i < |lanes|
    ensures var rebuilt := PlannedWorker(m.blocks, SyncedFromReset(m.blocks, workers), lanes[i]);
            && rebuilt.counter <= workers[i].Downloaded() < rebuilt.counter + m.blockSize
            && k <= |m.blocks| && rebuilt.start + rebuilt.counter == Boundary(m.blocks, k)
  {
    var cuts := PlannedLanesCutBlocks(m, lanes, workers);
    GeometryChains(m.pieces, m.blocks, m.pieceSize, m.blockSize, m.total);
    BlockKeysIncrease(m.blocks, m.pieces, m.blockSize);
    CutsOrder(workers, cuts, m.blocks, i + 1, i + 1);
    k := SyncThenSeedRoundsDown(workers, cuts, m.blocks, m.blockSize, m.total, i);
  }

  // ---------------------------------------------------------------- writes of different lanes

  /** `data` put at `offset` stays inside the lane. */
  ghost predicate WithinLane(lane: Lane, offset: nat, data: seq<byte>) {
    lane.start <= offset && offset + |data| <= lane.end + 1
  }

  lemma {:induction false} LanesDisjoint(lanes: seq<Lane>, total: nat, i: nat, k: nat)
    requires Tiles(lanes, total) && i < k < |lanes|
    ensures lanes[i].end < lanes[k].start && lanes[k].end < total
  {
    Recovery.LaneWithin(lanes, total, k);
    if i + 1 < k {
      LanesDisjoint(lanes, total, i, k - 1);
      assert lanes[k].start == lanes[k - 1].end + 1;
    }
  }

  /** Whatever two planned lanes write, it does not matter which writes first. */
  lemma DisjointLaneWritesCommute(m: Manifest, lanes: seq<Lane>, content: seq<byte>, i: nat, k: nat,
                                  o1: nat, d1: seq<byte>, o2: nat, d2: seq<byte>)
    requires m.WellFormed() && Partition(lanes, m) && |content| == m.total && i < |lanes| && k < |lanes| && i != k
    requires WithinLane(lanes[i], o1, d1) && WithinLane(lanes[k], o2, d2)
    ensures lanes[i].start <= lanes[i].end < |content| && o1 + |d1| <= |content| && o2 + |d2| <= |content|
    ensures Splice(Splice(content, o1, d1), o2, d2) == Splice(Splice(content, o2, d2), o1, d1)
    ensures Splice(content, o2, d2)[lanes[i].start..lanes[i].end + 1] == content[lanes[i].start..lanes[i].end + 1]
  {
    PartitionTiles(lanes, m);
    LanesDisjoint(lanes, m.total, if i < k then i else k, if i < k then k else i);
    Recovery.LaneWithin(lanes, m.total, i);
    DisjointSplicesCommute(content, o1, d1, o2, d2);
    SpliceElsewhere(content, o2, d2, lanes[i].start, lanes[i].end + 1);
  }

  // ---------------------------------------------------------------- stored layouts come back

  /** A planned layout that was stored, read back in any order, accepted and restored is the layout that
      the same inputs plan again, with the counters it was stored with: it is reused, not rebuilt. */
  lemma RestoredLayoutIsReused(m: Manifest, segmentsPerTask: nat, rangeSupported: bool, preferred: seq<string>,
                               taskId: nat, rows: seq<WorkerRow>, stored: seq<WorkerRow>, fallback: string)
    requires m.WellFormed() && m.pieces != [] && m.total <= U64_MAX && m.sources.ActiveTransferSources() != []
    requires Recovery.RowsOfLanes(rows, taskId, PlannedLanes(m, segmentsPerTask, rangeSupported, preferred))
    requires multiset(stored) == multiset(rows)
    ensures var lanes := PlannedLanes(m, segmentsPerTask, rangeSupported, preferred);
            var accepted := Recovery.Sanitized(taskId, Some(m.total), Some(m.sources), Mapping.DbWorkersToRequests(stored));
            var workers := Job.RestoredWorkers(accepted, m.sources, fallback);
            && workers != [] && RunLanes(workers, lanes)
            && forall i :: 0 <= i < |lanes| ==>
                 workers[i].counter == rows[i].downloaded && workers[i].completed == (rows[i].status == "Completed")
  {
    var lanes := PlannedLanes(m, segmentsPerTask, rangeSupported, preferred);
    var workers := if rangeSupported then segmentsPerTask else 1;
    PlanPartitions(m, workers, rangeSupported, preferred);
    LanesOfPlan(m, segmentsPerTask, rangeSupported, preferred);
    Recovery.PlannedLayoutSurvives(m, lanes, taskId, rows, stored);
    var accepted := Recovery.Sanitized(taskId, Some(m.total), Some(m.sources), Mapping.DbWorkersToRequests(stored));
    RestoredLanesRun(m.sources, taskId, lanes, rows, accepted, fallback);
  }

  lemma RestoredLanesRun(sources: SourceSet, taskId: nat, lanes: seq<Lane>, rows: seq<WorkerRow>,
                         accepted: seq<SegmentRequest>, fallback: string)
    requires Recovery.RowsOfLanes(rows, taskId, lanes) && |accepted| == |lanes|
    requires forall i :: 0 <= i < |lanes| ==> sources.Get(lanes[i].sourceId).Some?
    requires forall i :: 0 <= i < |lanes| ==>
               accepted[i] == Mapping.WorkerToRequest(rows[i]).(
                                status := Recovery.NormalizeWorkerStatus(Some(rows[i].status)))
    ensures var workers := Job.RestoredWorkers(accepted, sources, fallback);
            RunLanes(workers, lanes) && forall i :: 0 <= i < |lanes| ==>
              workers[i].counter == rows[i].downloaded && workers[i].completed == (rows[i].status == "Completed")
  {
    forall i | 0 <= i < |lanes|
      ensures Runs(RestoredWorker(accepted[i], sources, fallback), lanes[i])
      ensures RestoredWorker(accepted[i], sources, fallback).counter == rows[i].downloaded
      ensures RestoredWorker(accepted[i], sources, fallback).completed == (rows[i].status == "Completed")
    {
      RestoredLaneRuns(sources, taskId, lanes[i], rows[i], fallback);
    }
  }

  lemma RestoredLaneRuns(sources: SourceSet, taskId: nat, lane: Lane, row: WorkerRow, fallback: string)
    requires lane.start <= U64_MAX && lane.end <= U64_MAX && sources.Get(lane.sourceId).Some?
    requires row.downloaded <= lane.Length() && row == Mapping.WorkerToDb(taskId, lane, row.downloaded, row.status)
    ensures var request := Mapping.WorkerToRequest(row).(status := Recovery.NormalizeWorkerStatus(Some(row.status)));
            var worker := RestoredWorker(request, sources, fallback);
            Runs(worker, lane) && worker.counter == row.downloaded && worker.completed == (row.status == "Completed")
  {
  }
}
