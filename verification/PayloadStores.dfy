/** The payload store: one open file per manifest entry, written through the file map
    (src/payload/store.rs). The files of a bounded payload have fixed length, so a file's
    contents are an array. */
module PayloadStores {
  import opened Widths
  import opened Wrappers
  import opened Manifests
  import opened FileMaps

  /** Overwrite `s` from `offset` on with `data`. */
  function Splice(s: seq<byte>, offset: nat, data: seq<byte>): (r: seq<byte>)
    requires offset + |data| <= |s|
    ensures |r| == |s|
  {
    s[..offset] + data + s[offset + |data|..]
  }

  function Concat(files: seq<seq<byte>>): seq<byte> {
    if files == [] then [] else files[0] + Concat(files[1..])
  }

  /** Bytes before file `i`. */
  function OffsetIn(files: seq<seq<byte>>, i: nat): nat
    requires i <= |files|
  {
    if i == 0 then 0 else |files[0]| + OffsetIn(files[1..], i - 1)
  }

  lemma {:induction false} OffsetFits(files: seq<seq<byte>>, i: nat)
    requires i < |files|
    ensures OffsetIn(files, i) + |files[i]| <= |Concat(files)|
  {
    if i > 0 {
      OffsetFits(files[1..], i - 1);
    }
  }

  /** Writing inside one file writes the same bytes into the concatenation of all files. */
  lemma {:induction false} ConcatSplice(files: seq<seq<byte>>, i: nat, fileOffset: nat, data: seq<byte>)
    requires i < |files| && fileOffset + |data| <= |files[i]|
    ensures OffsetIn(files, i) + fileOffset + |data| <= |Concat(files)|
    ensures Concat(files[i := Splice(files[i], fileOffset, data)])
            == Splice(Concat(files), OffsetIn(files, i) + fileOffset, data)
  {
    OffsetFits(files, i);
    var updated := files[i := Splice(files[i], fileOffset, data)];
    if i == 0 {
      assert updated[1..] == files[1..];
    } else {
      ConcatSplice(files[1..], i - 1, fileOffset, data);
      assert updated[1..] == files[1..][i - 1 := Splice(files[1..][i - 1], fileOffset, data)];
    }
  }

  /** Two writes to disjoint ranges commute. */
  lemma DisjointSplicesCommute(s: seq<byte>, o1: nat, d1: seq<byte>, o2: nat, d2: seq<byte>)
    requires o1 + |d1| <= |s| && o2 + |d2| <= |s|
    requires o1 + |d1| <= o2 || o2 + |d2| <= o1
    ensures Splice(Splice(s, o1, d1), o2, d2) == Splice(Splice(s, o2, d2), o1, d1)
  {
  }

  lemma SpliceElsewhere(s: seq<byte>, offset: nat, data: seq<byte>, lo: nat, hi: nat)
    requires offset + |data| <= |s| && lo <= hi <= |s| && (hi <= offset || offset + |data| <= lo)
    ensures Splice(s, offset, data)[lo..hi] == s[lo..hi]
  {
    forall i | lo <= i < hi
      ensures Splice(s, offset, data)[i] == s[i]
    {
    }
  }

  lemma SpliceTwice(s: seq<byte>, offset: nat, d1: seq<byte>, d2: seq<byte>)
    requires offset + |d1| + |d2| <= |s|
    ensures Splice(Splice(s, offset, d1), offset + |d1|, d2) == Splice(s, offset, d1 + d2)
  {
  }

  /** Writing the next part of a buffer extends the written prefix. */
  lemma SpliceOn(s: seq<byte>, before: seq<byte>, after: seq<byte>, offset: nat, data: seq<byte>,
                 at: nat, done: nat, end: nat, accepted: nat)
    requires offset + |data| <= |s| && done <= end <= |data| && done + accepted <= end && at == offset + done
    requires before == Splice(s, offset, data[..done])
    requires after == Splice(before, at, data[done..end][..accepted])
    ensures after == Splice(s, offset, data[..done + accepted])
  {
    SpliceTwice(s, offset, data[..done], data[done..end][..accepted]);
    assert data[..done] + data[done..end][..accepted] == data[..done + accepted];
  }

  lemma SpliceNothing(s: seq<byte>, offset: nat)
    requires offset <= |s|
    ensures Splice(s, offset, []) == s
  {
  }

  /** File contents after `set_len`: cut off, or extended with zeros. */
  function SetLen(contents: seq<byte>, length: nat): (r: seq<byte>)
    ensures |r| == length
  {
    if |contents| >= length then contents[..length]
    else contents + seq(length - |contents|, _ => 0)
  }

  lemma {:induction false} SegmentOffsets(segments: seq<FileManifest>, files: seq<seq<byte>>, start: nat, end: nat)
    requires FilesTile(segments, start, end) && |files| == |segments|
    requires forall i :: 0 <= i < |files| ==> |files[i]| == segments[i].length
    ensures forall i :: 0 <= i < |files| ==> segments[i].offset == start + OffsetIn(files, i)
    ensures start + |Concat(files)| == end
  {
    if segments != [] {
      SegmentOffsets(segments[1..], files[1..], segments[0].End(), end);
      forall i | 0 <= i < |files|
        ensures segments[i].offset == start + OffsetIn(files, i)
      {
        if i > 0 { assert segments[i] == segments[1..][i - 1]; }
      }
    }
  }

  /** Bytes put into one file are put into the payload at the file's offset. */
  lemma FileSpliced(files: seq<seq<byte>>, layout: FileMap, seg: nat, fileOffset: nat, part: seq<byte>, accepted: nat)
    requires layout.Contiguous() && |files| == |layout.segments| && seg < |files| && accepted <= |part|
    requires forall i :: 0 <= i < |files| ==> |files[i]| == layout.segments[i].length
    requires fileOffset + |part| <= |files[seg]|
    ensures layout.segments[seg].offset + fileOffset + |part| <= |Concat(files)|
    ensures Concat(files[seg := Splice(files[seg], fileOffset, part[..accepted])])
         == Splice(Concat(files), layout.segments[seg].offset + fileOffset, part[..accepted])
  {
    SegmentOffsets(layout.segments, files, 0, layout.total);
    ConcatSplice(files, seg, fileOffset, part);
    ConcatSplice(files, seg, fileOffset, part[..accepted]);
  }

  /** The bytes under `path`, none if there is no such file. */
  function OnDisk(disk: map<string, seq<byte>>, path: string): seq<byte> {
    if path in disk then disk[path] else []
  }

  /** What opening a file at its manifest length leaves in it. */
  function Opened(disk: map<string, seq<byte>>, segment: FileManifest): seq<byte> {
    SetLen(OnDisk(disk, segment.path), segment.length)
  }

  /** `file` has the bytes that were on disk, as far as both lengths reach, and zeros after them. */
  ghost predicate Keeps(disk: map<string, seq<byte>>, segment: FileManifest, file: seq<byte>) {
    && |file| == segment.length
    && forall k :: 0 <= k < |file| ==>
         file[k] == if segment.path in disk && k < |disk[segment.path]| then disk[segment.path][k] else 0
  }

  lemma OpenedKeeps(disk: map<string, seq<byte>>, segment: FileManifest)
    ensures Keeps(disk, segment, Opened(disk, segment))
    ensures |OnDisk(disk, segment.path)| == segment.length ==> Opened(disk, segment) == OnDisk(disk, segment.path)
  {
  }

  /** The files on disk, in manifest order. */
  function FilesOnDisk(disk: map<string, seq<byte>>, segments: seq<FileManifest>): (files: seq<seq<byte>>)
    ensures |files| == |segments|
    ensures forall i :: 0 <= i < |segments| ==> files[i] == OnDisk(disk, segments[i].path)
  {
    seq(|segments|, i requires 0 <= i < |segments| => OnDisk(disk, segments[i].path))
  }

  /** Every file is on disk at its manifest length already. */
  ghost predicate AllInPlace(disk: map<string, seq<byte>>, segments: seq<FileManifest>) {
    forall i :: 0 <= i < |segments| ==> segments[i].path in disk && |disk[segments[i].path]| == segments[i].length
  }

  lemma AllOpened(disk: map<string, seq<byte>>, segments: seq<FileManifest>, contents: seq<seq<byte>>)
    requires |contents| == |segments|
    requires forall i :: 0 <= i < |segments| ==> contents[i] == Opened(disk, segments[i])
    ensures forall i :: 0 <= i < |segments| ==> Keeps(disk, segments[i], contents[i])
    ensures AllInPlace(disk, segments) ==> contents == FilesOnDisk(disk, segments)
  {
    forall i | 0 <= i < |segments|
      ensures Keeps(disk, segments[i], contents[i])
      ensures AllInPlace(disk, segments) ==> contents[i] == FilesOnDisk(disk, segments)[i]
    {
      OpenedKeeps(disk, segments[i]);
    }
  }

  method NewFile(contents: seq<byte>) returns (file: array<byte>)
    ensures fresh(file) && file[..] == contents
  {
    file := new byte[|contents|](i requires 0 <= i < |contents| => contents[i]);
  }

  class PayloadStore {
    const fileMap: FileMap
    var handles: map<string, array<byte>>
    ghost var files: set<array<byte>>

    ghost predicate Valid()
      reads this
    {
      && fileMap.bounded && fileMap.Contiguous()
      && (forall i :: 0 <= i < |fileMap.segments| ==>
            && fileMap.segments[i].path in handles
            && handles[fileMap.segments[i].path] in files
            && handles[fileMap.segments[i].path].Length == fileMap.segments[i].length)
      && (forall i, j :: 0 <= i < j < |fileMap.segments| ==>
            handles[fileMap.segments[i].path] != handles[fileMap.segments[j].path])
    }

    /** The contents of every file, in manifest order. */
    ghost function Contents(): (c: seq<seq<byte>>)
      requires Valid()
      reads this, files
      ensures |c| == |fileMap.segments|
      ensures forall i :: 0 <= i < |c| ==> |c[i]| == fileMap.segments[i].length
    {
      seq(|fileMap.segments|,
          i requires 0 <= i < |fileMap.segments| && Valid()
            reads this, files
            => handles[fileMap.segments[i].path][..])
    }

    /** The payload: all files one after the other. */
    ghost function Flat(): seq<byte>
      requires Valid()
      reads this, files
    {
      Concat(Contents())
    }

    constructor (m: Manifest)
      requires m.total <= U64_MAX
      ensures fileMap == FromManifest(m) && handles == map[]
    {
      fileMap := FromManifest(m);
      handles := map[];
      files := {};
    }

    /** Opens every file of the manifest at its manifest length; `disk` is what was there before. */
    method Prepare(disk: map<string, seq<byte>>)
      requires fileMap.bounded && fileMap.Contiguous()
      requires forall i, j :: 0 <= i < j < |fileMap.segments| ==>
                 fileMap.segments[i].path != fileMap.segments[j].path
      modifies this
      ensures Valid() && fresh(files)
      // What was there stays, as far as the manifest length reaches; the rest is zeros.
      ensures forall i :: 0 <= i < |fileMap.segments| ==> Keeps(disk, fileMap.segments[i], Contents()[i])
      ensures AllInPlace(disk, fileMap.segments) ==> Flat() == Concat(FilesOnDisk(disk, fileMap.segments))
    {
      ghost var created: seq<array<byte>> := [];
      files := {};
      for k := 0 to |fileMap.segments|
        invariant |created| == k && fresh(files)
        invariant forall i :: 0 <= i < k ==>
                    fileMap.segments[i].path in handles && handles[fileMap.segments[i].path] == created[i]
        invariant forall i :: 0 <= i < k ==> created[i] in files && created[i][..] == Opened(disk, fileMap.segments[i])
        invariant forall i, j :: 0 <= i < j < k ==> created[i] != created[j]
      {
        var segment := fileMap.segments[k];
        var file := NewFile(Opened(disk, segment));
        handles := handles[segment.path := file];
        created := created + [file];
        files := files + {file};
      }
      forall i | 0 <= i < |fileMap.segments|
        ensures Contents()[i] == Opened(disk, fileMap.segments[i])
      {
      }
      ghost var contents := Contents();
      AllOpened(disk, fileMap.segments, contents);
    }

    /** Writes `data` at payload offset `offset`. The device accepts at most `budget` bytes before
        it fails; a failed write leaves the accepted prefix behind. */
    method WriteAt(offset: u64, data: seq<byte>, budget: nat) returns (r: Result<nat, WriteError>)
      requires Valid() && |data| <= U64_MAX
      modifies files
      ensures |old(Flat())| == fileMap.total
      ensures offset + |data| > fileMap.total ==> r.Err? && Flat() == old(Flat())
      ensures offset + |data| <= fileMap.total ==>
                && Flat() == Splice(old(Flat()), offset, data[..Min(budget, |data|)])
                && (r.Ok? <==> |data| <= budget)
    {
      var resolved, segs := ResolveWrites(fileMap, offset, |data|);
      SegmentOffsets(fileMap.segments, Contents(), 0, fileMap.total);
      if resolved.Err? {
        return Err(resolved.error);
      }
      var accepted := WriteSlices(resolved.value, segs, offset, data, budget);
      if accepted < |data| {
        return Err(DeviceFailed);
      }
      return Ok(|data|);
    }

    /** The loop over the resolved slices, stopping at the first device failure. */
    method WriteSlices(slices: seq<WriteSlice>, ghost segs: seq<nat>, ghost offset: nat, data: seq<byte>, budget: nat)
      returns (accepted: nat)
      requires Valid() && Splits(slices, segs, fileMap.segments, offset, |data|)
      requires offset + |data| <= |Flat()|
      modifies files
      ensures accepted == Min(budget, |data|)
      ensures Flat() == Splice(old(Flat()), offset, data[..accepted])
    {
      ghost var start := Flat();
      accepted := 0;
      SpliceNothing(start, offset);
      assert data[..0] == [];
      for k := 0 to |slices|
        invariant accepted == (if k == 0 then 0 else slices[k - 1].bufferEnd)
        invariant accepted <= budget && accepted <= |data|
        invariant Flat() == Splice(start, offset, data[..accepted])
      {
        SliceInside(slices, segs, fileMap.segments, offset, |data|, k);
        accepted := WriteSlice(slices[k], segs[k], start, offset, data, budget);
        if accepted < slices[k].bufferEnd {
          return;
        }
      }
    }

    /** One slice; everything before it is already in place. */
    method WriteSlice(slice: FileMaps.WriteSlice, ghost seg: nat, ghost start: seq<byte>, ghost offset: nat,
                      data: seq<byte>, budget: nat)
      returns (accepted: nat)
      requires Valid() && SliceFits(slice, seg, fileMap.segments, offset)
      requires slice.bufferEnd <= |data| && offset + |data| <= |start| && slice.bufferStart <= budget
      requires Flat() == Splice(start, offset, data[..slice.bufferStart])
      modifies files
      ensures accepted == Min(budget, slice.bufferEnd)
      ensures Flat() == Splice(start, offset, data[..accepted])
    {
      var part := data[slice.bufferStart..slice.bufferEnd];
      var taken := WriteFile(seg, slice.path, slice.fileOffset, part, budget - slice.bufferStart);
      accepted := slice.bufferStart + taken;
      SpliceOn(start, old(Flat()), Flat(), offset, data, fileMap.segments[seg].offset + slice.fileOffset,
               slice.bufferStart, slice.bufferEnd, taken);
    }

    lemma {:induction false} SliceInside(slices: seq<WriteSlice>, segs: seq<nat>, segments: seq<FileManifest>,
                                         offset: nat, len: nat, k: nat)
      requires Splits(slices, segs, segments, offset, len) && k < |slices|
      ensures SliceFits(slices[k], segs[k], segments, offset) && slices[k].bufferEnd <= len
      ensures slices[k].bufferStart == if k == 0 then 0 else slices[k - 1].bufferEnd
      decreases |slices| - k
    {
      if k + 1 < |slices| {
        SliceInside(slices, segs, segments, offset, len, k + 1);
        assert slices[k + 1].bufferStart == slices[k].bufferEnd;
      }
      if k > 0 { assert slices[k - 1].bufferEnd == slices[k].bufferStart; }
    }

    /** Seek and write into one file. */
    method WriteFile(ghost seg: nat, path: string, fileOffset: nat, part: seq<byte>, budget: nat)
      returns (accepted: nat)
      requires Valid() && seg < |fileMap.segments| && fileMap.segments[seg].path == path
      requires fileOffset + |part| <= fileMap.segments[seg].length
      modifies files
      ensures accepted == Min(budget, |part|)
      ensures fileMap.segments[seg].offset + fileOffset + |part| <= |old(Flat())|
      ensures Flat() == Splice(old(Flat()), fileMap.segments[seg].offset + fileOffset, part[..accepted])
    {
      var file := handles[path];
      ghost var before := Contents();
      accepted := WriteAll(file, fileOffset, part, budget);
      assert Contents() == before[seg := Splice(before[seg], fileOffset, part[..accepted])];
      FileSpliced(before, fileMap, seg, fileOffset, part, accepted);
    }
  }

  method WriteAll(file: array<byte>, fileOffset: nat, part: seq<byte>, budget: nat) returns (accepted: nat)
    requires fileOffset + |part| <= file.Length
    modifies file
    ensures accepted == Min(budget, |part|)
    ensures file[..] == Splice(old(file[..]), fileOffset, part[..accepted])
  {
    accepted := 0;
    while accepted < |part| && accepted < budget
      invariant accepted <= |part| && accepted <= budget
      invariant file[..] == Splice(old(file[..]), fileOffset, part[..accepted])
    {
      file[fileOffset + accepted] := part[accepted];
      accepted := accepted + 1;
    }
  }
}
