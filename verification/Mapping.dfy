/** Row conversions in both directions (src/storage/mapping.rs), and the round trip of block states. */
module Mapping {
  import opened Widths
  import opened Wrappers
  import opened Sorting
  import opened Pieces
  import opened Progress
  import opened Planner
  import opened Rows

  function BlockStatesToDb(taskId: nat, states: seq<BlockState>): (rows: seq<BlockRow>)
    ensures |rows| == |states|
  {
    seq(|states|, j requires 0 <= j < |states| =>
      BlockRow(taskId, states[j].piece, states[j].block, states[j].completed))
  }

  function BlockRowKey(row: BlockRow): Key { [row.piece, row.block] }

  function DbBlocksToBlockStates(rows: seq<BlockRow>): seq<BlockState> {
    var sorted := SortByKey(rows, BlockRowKey);
    seq(|sorted|, j requires 0 <= j < |sorted| =>
      BlockState(sorted[j].piece, sorted[j].block, sorted[j].completed))
  }

  function PieceStatesToDb(taskId: nat, states: seq<PieceState>): (rows: seq<PieceRow>)
    ensures |rows| == |states|
  {
    seq(|states|, k requires 0 <= k < |states| => PieceRow(taskId, states[k].piece, states[k].completed))
  }

  function PieceRowKey(row: PieceRow): Key { [row.piece] }

  function DbPiecesToPieceStates(rows: seq<PieceRow>): seq<PieceState> {
    var sorted := SortByKey(rows, PieceRowKey);
    seq(|sorted|, k requires 0 <= k < |sorted| => PieceState(sorted[k].piece, sorted[k].completed))
  }

  /** A worker's row: one read of its counter and status. */
  function WorkerToDb(taskId: nat, lane: Lane, downloaded: u64, status: string): WorkerRow
    requires lane.start <= U64_MAX && lane.end <= U64_MAX
  {
    WorkerRow(lane.laneId, taskId, lane.laneId, Some(lane.sourceId),
              Some(lane.pieceStart), Some(lane.pieceEnd), Some(lane.blockStart), Some(lane.blockEnd),
              lane.start, lane.end, downloaded, status)
  }

  function WorkerToRequest(row: WorkerRow): SegmentRequest {
    SegmentRequest(Some(row.id), row.taskId, row.index, row.sourceId,
                   row.pieceStart, row.pieceEnd, row.blockStart, row.blockEnd,
                   row.start, row.end, Some(row.downloaded), Some(row.status))
  }

  function DbWorkersToRequests(rows: seq<WorkerRow>): (r: seq<SegmentRequest>)
    ensures |r| == |rows|
  {
    seq(|rows|, i requires 0 <= i < |rows| => WorkerToRequest(rows[i]))
  }

  /** Block states in manifest order are already in row-key order. */
  lemma AlignedRowsSorted(taskId: nat, blocks: seq<PieceBlock>, states: seq<BlockState>)
    requires Aligned(states, blocks) && KeysIncrease(blocks)
    ensures Sorted(BlockStatesToDb(taskId, states), BlockRowKey)
    ensures KeysIdentify(BlockStatesToDb(taskId, states), BlockRowKey)
  {
    var rows := BlockStatesToDb(taskId, states);
    forall i, j | 0 <= i < j < |rows|
      ensures Leq(BlockRowKey(rows[i]), BlockRowKey(rows[j]))
      ensures BlockRowKey(rows[i]) != BlockRowKey(rows[j])
    {
      assert KeyBelow(blocks[i], blocks[j]);
      assert BlockRowKey(rows[i])[1..] == [blocks[i].block] && BlockRowKey(rows[j])[1..] == [blocks[j].block];
      assert BlockRowKey(rows[i])[0] < BlockRowKey(rows[j])[0] || BlockRowKey(rows[i])[1] < BlockRowKey(rows[j])[1];
    }
  }

  /** Saved, stored, read back in any order and converted: the same block states. */
  lemma BlockStatesRoundTrip(taskId: nat, blocks: seq<PieceBlock>, states: seq<BlockState>, rows: seq<BlockRow>)
    requires Aligned(states, blocks) && KeysIncrease(blocks)
    requires multiset(rows) == multiset(BlockStatesToDb(taskId, states))
    ensures DbBlocksToBlockStates(rows) == states
  {
    var saved := BlockStatesToDb(taskId, states);
    AlignedRowsSorted(taskId, blocks, states);
    SortForgetsOrder(saved, rows, BlockRowKey);
    SortKeepsSorted(saved, BlockRowKey);
  }

  /** The same for piece states. */
  lemma PieceStatesRoundTrip(taskId: nat, states: seq<PieceState>, rows: seq<PieceRow>)
    requires forall i, k :: 0 <= i < k < |states| ==> states[i].piece < states[k].piece
    requires multiset(rows) == multiset(PieceStatesToDb(taskId, states))
    ensures DbPiecesToPieceStates(rows) == states
  {
    var saved := PieceStatesToDb(taskId, states);
    forall i, k | 0 <= i < k < |saved|
      ensures Leq(PieceRowKey(saved[i]), PieceRowKey(saved[k]))
      ensures PieceRowKey(saved[i]) != PieceRowKey(saved[k])
    {
      assert PieceRowKey(saved[i])[0] < PieceRowKey(saved[k])[0];
    }
    SortForgetsOrder(saved, rows, PieceRowKey);
    SortKeepsSorted(saved, PieceRowKey);
  }

  /** Installed on the same manifest they restore every flag, and pieces are derived from them. */
  lemma SnapshotRoundTrip(taskId: nat, pieces: seq<PieceLayout>, blocks: seq<PieceBlock>, blockSize: nat,
                          states: seq<BlockState>, rows: seq<BlockRow>, pieceRows: seq<PieceRow>)
    requires CutsPieces(blocks, pieces, blockSize) && Aligned(states, blocks)
    requires multiset(rows) == multiset(BlockStatesToDb(taskId, states))
    ensures InstalledBlocks(blocks, DbBlocksToBlockStates(rows)) == states
    ensures InstalledPieces(pieces, blocks, DbPiecesToPieceStates(pieceRows), DbBlocksToBlockStates(rows))
            == DerivePieceStates(pieces, blocks, states)
  {
    BlockKeysIncrease(blocks, pieces, blockSize);
    BlockStatesRoundTrip(taskId, blocks, states, rows);
    InstallKeepsAligned(blocks, states);
  }
}
