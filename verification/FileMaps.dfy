/** Resolving a flat payload range to per-file writes (src/payload/file_map.rs). */
module FileMaps {
  import opened Widths
  import opened Wrappers
  import opened Pieces
  import opened Sources
  import opened Manifests

  datatype WriteError = NoSegments | OutOfBounds | Unresolved | DeviceFailed

  /** Write `data[bufferStart..bufferEnd]` to `path` at `fileOffset`. */
  datatype WriteSlice = WriteSlice(path: string, fileOffset: nat, bufferStart: nat, bufferEnd: nat)

  datatype FileMap = FileMap(segments: seq<FileManifest>, total: u64, bounded: bool) {

    ghost predicate Contiguous() {
      FilesTile(segments, 0, total)
    }
  }

  function FromManifest(m: Manifest): FileMap
    requires m.total <= U64_MAX
  {
    FileMap(m.files, m.total, |m.pieces| > 0 || m.total > 0)
  }

  /** A manifest's map is bounded exactly when there is something of known size to write, and then it is
      the whole payload, file by file. */
  lemma MapOfManifest(m: Manifest)
    requires m.WellFormed() && m.FilesCoverPayload() && m.total <= U64_MAX
    ensures FromManifest(m).bounded <==> m.totalKnown && m.total > 0
    ensures FromManifest(m).Contiguous()
  {
    if m.totalKnown { assert CutsPayload(m.pieces, m.pieceSize, m.total); }
  }

  /** A download of unknown size writes wherever it likes in its one file. */
  method ForStreaming(sources: SourceSet, path: string) returns (files: FileMap)
    ensures !files.bounded && files.segments == [FileManifest(path, 0, 0)]
  {
    var m := ForStreamingFile(sources, path);
    files := FromManifest(m);
  }

  /** `slices[k]` writes into segment `segs[k]`; together the slices are the bytes
      `[offset, offset + len)` in order, each inside its own file. */
  ghost predicate Splits(slices: seq<WriteSlice>, segs: seq<nat>, segments: seq<FileManifest>, offset: nat, len: nat) {
    && |slices| == |segs|
    && (forall k :: 0 <= k < |slices| ==> SliceFits(slices[k], segs[k], segments, offset))
    && (forall i, k :: 0 <= i && k == i + 1 && k < |slices| ==> slices[k].bufferStart == slices[i].bufferEnd)
    && (slices != [] ==> slices[0].bufferStart == 0)
    && len == (if slices == [] then 0 else slices[|slices| - 1].bufferEnd)
  }

  ghost predicate SliceFits(slice: WriteSlice, seg: nat, segments: seq<FileManifest>, offset: nat) {
    && seg < |segments|
    && slice.path == segments[seg].path
    && slice.bufferStart < slice.bufferEnd
    && slice.fileOffset + (slice.bufferEnd - slice.bufferStart) <= segments[seg].length
    && segments[seg].offset + slice.fileOffset == offset + slice.bufferStart
  }

  lemma {:induction false} SegmentEnds(segments: seq<FileManifest>, start: nat, end: nat, k: nat)
    requires FilesTile(segments, start, end) && k < |segments|
    ensures start <= segments[k].offset && segments[k].End() <= end
    ensures k == 0 ==> segments[k].offset == start
    ensures segments[k].End() == if k + 1 < |segments| then segments[k + 1].offset else end
  {
    FilesOrdered(segments[1..], segments[0].End(), end);
    if k > 0 {
      SegmentEnds(segments[1..], segments[0].End(), end, k - 1);
    } else if |segments| > 1 {
      SegmentEnds(segments[1..], segments[0].End(), end, 0);
    }
  }

  lemma {:induction false} FilesOrdered(segments: seq<FileManifest>, start: nat, end: nat)
    requires FilesTile(segments, start, end)
    ensures start <= end
  {
    if segments != [] {
      FilesOrdered(segments[1..], segments[0].End(), end);
    }
  }

  method ResolveWrites(files: FileMap, offset: u64, len: u64)
    returns (r: Result<seq<WriteSlice>, WriteError>, ghost segs: seq<nat>)
    requires files.bounded ==> files.Contiguous()
    ensures files.bounded ==> (r.Ok? <==> offset + len <= files.total)
    ensures files.bounded && r.Ok? ==> Splits(r.value, segs, files.segments, offset, len)
    ensures !files.bounded && files.segments == [] ==> r == Err(NoSegments)
    ensures !files.bounded && files.segments != [] ==>
              r == Ok([WriteSlice(files.segments[0].path, offset, 0, len)])
  {
    segs := [];
    if !files.bounded {
      if files.segments == [] {
        r := Err(NoSegments);
        return;
      }
      r := Ok([WriteSlice(files.segments[0].path, offset, 0, len)]);
      return;
    }
    var end := SatAdd(offset, len);
    if end > files.total {
      r := Err(OutOfBounds);
      return;
    }
    var slices := [];
    var remainingStart, bufferOffset, remainingLen := offset, 0, len;
    if files.segments != [] { SegmentEnds(files.segments, 0, files.total, 0); }
    for k := 0 to |files.segments|
      invariant 0 <= remainingLen <= len && bufferOffset == len - remainingLen
      invariant remainingStart == offset + bufferOffset
      invariant bufferOffset > 0 ==> remainingStart <= files.total
      invariant Splits(slices, segs, files.segments, offset, bufferOffset)
      invariant remainingLen > 0 ==>
                  remainingStart >= (if k < |files.segments| then files.segments[k].offset else files.total)
    {
      if remainingLen == 0 {
        break;
      }
      var segment := files.segments[k];
      SegmentEnds(files.segments, 0, files.total, k);
      var segmentEnd := SatAdd(segment.offset, segment.length);
      if remainingStart >= segmentEnd || (remainingStart < segment.offset && offset >= segmentEnd) {
        continue;
      }
      var writeStart := Max(remainingStart, segment.offset);
      if writeStart >= segmentEnd {
        continue;
      }
      var writable := Min(segmentEnd - writeStart, remainingLen);
      var next := WriteSlice(segment.path, writeStart - segment.offset, bufferOffset, bufferOffset + writable);
      ExtendSplit(slices, segs, files.segments, offset, bufferOffset, next, k);
      slices := slices + [next];
      segs := segs + [k];
      remainingStart := writeStart + writable;
      bufferOffset := bufferOffset + writable;
      remainingLen := remainingLen - writable;
    }
    if remainingLen != 0 {
      r := Err(Unresolved);
      return;
    }
    r := Ok(slices);
  }

  lemma ExtendSplit(slices: seq<WriteSlice>, segs: seq<nat>, segments: seq<FileManifest>, offset: nat, len: nat,
                    next: WriteSlice, seg: nat)
    requires Splits(slices, segs, segments, offset, len)
    requires SliceFits(next, seg, segments, offset) && next.bufferStart == len
    ensures Splits(slices + [next], segs + [seg], segments, offset, next.bufferEnd)
  {
    var all := slices + [next];
    assert forall k :: 0 <= k < |slices| ==> all[k] == slices[k] && (segs + [seg])[k] == segs[k];
  }
}
