/** Repository rows (src/repository/models.rs) and restore requests (src/request/segment.rs). */
module Rows {
  import opened Widths
  import opened Wrappers
  import opened Sources

  /** `sources` is the decoded `source_set_json`, `None` when it does not parse. */
  datatype TaskRow = TaskRow(id: nat, url: string, filePath: string, status: string,
                             downloaded: u64, total: Option<u64>, sources: Option<SourceSet>)

  datatype WorkerRow = WorkerRow(
    id: nat, taskId: nat, index: nat, sourceId: Option<string>,
    pieceStart: Option<nat>, pieceEnd: Option<nat>, blockStart: Option<nat>, blockEnd: Option<nat>,
    start: u64, end: u64, downloaded: u64, status: string)

  datatype PieceRow = PieceRow(taskId: nat, piece: nat, completed: bool)

  datatype BlockRow = BlockRow(taskId: nat, piece: nat, block: nat, completed: bool)

  datatype ChecksumRow = ChecksumRow(id: nat, taskId: nat, algorithm: string, value: string, verified: bool)

  datatype SegmentRequest = SegmentRequest(
    id: Option<nat>, taskId: nat, index: nat, sourceId: Option<string>,
    pieceStart: Option<nat>, pieceEnd: Option<nat>, blockStart: Option<nat>, blockEnd: Option<nat>,
    start: u64, end: u64, downloaded: Option<u64>, status: Option<string>)
}
