/** Session manifests: payload geometry, files and sources (src/domain/manifest.rs,
    src/job/prepare.rs:101-135). */
module Manifests {
  import opened Widths
  import opened Pieces
  import opened Sources

  const DEFAULT_PIECE_SIZE: nat := 1024 * 1024
  const DEFAULT_BLOCK_SIZE: nat := 256 * 1024

  datatype FileManifest = FileManifest(path: string, length: nat, offset: nat) {
    function End(): nat { offset + length }
  }

  datatype Manifest = Manifest(
    total: nat,
    totalKnown: bool,
    pieceSize: nat,
    blockSize: nat,
    files: seq<FileManifest>,
    pieces: seq<PieceLayout>,
    blocks: seq<PieceBlock>,
    sources: SourceSet)
  {
    ghost predicate WellFormed() {
      if totalKnown then Geometry(pieces, blocks, pieceSize, blockSize, total)
      else total == 0 && pieces == [] && blocks == []
    }

    /** The files are `[0, total)` in order under distinct paths; empty files are allowed. */
    ghost predicate FilesCoverPayload() {
      && FilesTile(files, 0, total)
      && forall i, j :: 0 <= i < j < |files| ==> files[i].path != files[j].path
    }
  }

  ghost predicate FilesTile(files: seq<FileManifest>, start: nat, end: nat) {
    if files == [] then start == end
    else files[0].offset == start && FilesTile(files[1..], files[0].End(), end)
  }

  function ClampPieceSize(total: nat, pieceSize: nat): (r: nat)
    ensures 1 <= r
  {
    Min(Max(pieceSize, 1), Min(Max(total, 1), U32_MAX))
  }

  method ForFilesWithPieceSize(sources: SourceSet, total: nat, pieceSize: nat, blockSize: nat,
                               files: seq<FileManifest>)
    returns (m: Manifest)
    ensures m.WellFormed() && m.totalKnown && m.total == total
    ensures m.files == files && m.sources == sources
    ensures m.pieceSize == Min(Max(pieceSize, 1), Min(Max(total, 1), 0xFFFF_FFFF))
    ensures m.blockSize == Min(Max(blockSize, 1), m.pieceSize)
  {
    var size := ClampPieceSize(total, pieceSize);
    var pieces := PlanPieceLayouts(total, size);
    var blockLength := Min(Max(blockSize, 1), size);
    var blocks := PlanPieceBlocks(pieces, blockLength);
    m := Manifest(total, true, size, blockLength, files, pieces, blocks, sources);
  }

  method ForSingleFileWithPieceSize(sources: SourceSet, path: string, total: nat, pieceSize: nat, blockSize: nat)
    returns (m: Manifest)
    ensures m.WellFormed() && m.totalKnown && m.total == total && m.sources == sources
    ensures m.FilesCoverPayload()
    ensures m.pieceSize == Min(Max(pieceSize, 1), Min(Max(total, 1), 0xFFFF_FFFF))
    ensures m.blockSize == Min(Max(blockSize, 1), m.pieceSize)
    ensures m.files == [FileManifest(path, total, 0)]
  {
    m := ForFilesWithPieceSize(sources, total, pieceSize, blockSize, [FileManifest(path, total, 0)]);
  }

  method ForStreamingFile(sources: SourceSet, path: string) returns (m: Manifest)
    ensures m.WellFormed() && !m.totalKnown && m.sources == sources
    ensures m.files == [FileManifest(path, 0, 0)]
  {
    m := Manifest(0, false, DEFAULT_PIECE_SIZE, DEFAULT_BLOCK_SIZE, [FileManifest(path, 0, 0)], [], [], sources);
  }
}
