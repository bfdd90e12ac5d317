/** Streaming one HTTP response into the payload store (src/transfer/http.rs, src/worker/transfer.rs),
    and what that is in the protocol. */
module Transfer {
  import opened Widths
  import opened Wrappers
  import opened PayloadStores

  const RATE_LIMIT_SLICE_BYTES: nat := 16 * 1024

  // ---------------------------------------------------------------- responses

  datatype ContentRange = ContentRange(start: u64, end: u64)

  /** What the checks on a response look at. */
  datatype Head = Head(status: nat, contentRange: Option<ContentRange>)

  datatype Rejection = ResumeInvalidated | UnexpectedStatus | MissingContentRange | UnexpectedRange

  const OK: nat := 200
  const PARTIAL_CONTENT: nat := 206

  function ExpectedLength(lengthKnown: bool, start: u64, end: u64): u64 {
    if !lengthKnown then 0 else SatRangeLength(start, end)
  }

  function ValidateResponse(head: Head, laneStart: u64, laneEnd: u64, useRange: bool, expectedStart: u64)
    : (rejected: Option<Rejection>)
    ensures rejected.None? <==>
              if useRange then
                head.status == PARTIAL_CONTENT && head.contentRange == Some(ContentRange(expectedStart, laneEnd))
              else head.status == OK
    ensures rejected == Some(ResumeInvalidated) <==> useRange && expectedStart > laneStart && head.status == OK
    ensures rejected == Some(MissingContentRange) <==>
              useRange && head.status == PARTIAL_CONTENT && head.contentRange.None?
    ensures rejected == Some(UnexpectedRange) <==>
              useRange && head.status == PARTIAL_CONTENT && head.contentRange.Some?
              && head.contentRange.value != ContentRange(expectedStart, laneEnd)
  {
    if useRange then
      if expectedStart > laneStart && head.status == OK then Some(ResumeInvalidated)
      else if head.status != PARTIAL_CONTENT then Some(UnexpectedStatus)
      else match head.contentRange
           case None => Some(MissingContentRange)
           case Some(r) => if r.start != expectedStart || r.end != laneEnd then Some(UnexpectedRange) else None
    else if head.status != OK then Some(UnexpectedStatus)
    else None
  }

  /** A response body as it arrives: chunks, and perhaps the connection breaks after the last one. */
  datatype Body = Body(chunks: seq<seq<byte>>, broken: bool) {
    /** The bytes that arrive. */
    function Bytes(): seq<byte> { Concat(chunks) }
  }

  datatype Outcome = Ended | Stopped | NetworkFailed | StoreFailed

  /** `parts` are slice lengths that add up to `n`. */
  ghost predicate Slices(parts: seq<nat>, n: nat)
    decreases |parts|
  {
    if parts == [] then n == 0
    else
      var last := parts[|parts| - 1];
      0 < last <= RATE_LIMIT_SLICE_BYTES && last <= n && Slices(parts[..|parts| - 1], n - last)
  }

  // ---------------------------------------------------------------- looking whether to stop

  /** Into how many slices a chunk of `n` bytes is cut. */
  function SliceCount(n: nat): nat { CeilDiv(n, RATE_LIMIT_SLICE_BYTES) }

  /** How often a worker looks whether to stop during the first `k` chunks: before each chunk and before each
      of its slices. */
  function Looks(chunks: seq<seq<byte>>, k: nat): nat
    requires k <= |chunks|
  {
    if k == 0 then 0 else Looks(chunks, k - 1) + 1 + SliceCount(|chunks[k - 1]|)
  }

  /** How many looks have to go well for all of the body; noticing that the connection broke takes one more. */
  function Needed(body: Body): nat { Looks(body.chunks, |body.chunks|) + if body.broken then 1 else 0 }

  /** What `patience` looks get through of one chunk, when they do not suffice for all of it. */
  ghost predicate StoppedIn(chunk: nat, patience: int, stored: nat) {
    && 0 <= patience < 1 + SliceCount(chunk)
    && stored == if patience == 0 then 0 else (patience - 1) * RATE_LIMIT_SLICE_BYTES
  }

  /** The worker ran out of patience in chunk `k`, with everything before it stored. */
  ghost predicate StoppedAt(chunks: seq<seq<byte>>, patience: nat, stored: nat, k: nat)
    requires k < |chunks|
  {
    stored >= OffsetIn(chunks, k) && StoppedIn(|chunks[k]|, patience - Looks(chunks, k), stored - OffsetIn(chunks, k))
  }

  ghost predicate RanOut(chunks: seq<seq<byte>>, patience: nat, stored: nat) {
    exists k :: 0 <= k < |chunks| && StoppedAt(chunks, patience, stored, k)
  }

  lemma {:induction false} LooksMono(chunks: seq<seq<byte>>, i: nat, k: nat)
    requires i <= k <= |chunks|
    ensures Looks(chunks, i) <= Looks(chunks, k)
    decreases k
  {
    if i < k { LooksMono(chunks, i, k - 1); }
  }

  /** Running out means that the looks did not suffice. */
  lemma RanOutEarly(chunks: seq<seq<byte>>, patience: nat, stored: nat)
    requires RanOut(chunks, patience, stored)
    ensures patience < Looks(chunks, |chunks|)
  {
    var k :| 0 <= k < |chunks| && StoppedAt(chunks, patience, stored, k);
    LooksMono(chunks, k + 1, |chunks|);
  }

  lemma SliceCountIs(n: nat, i: nat)
    requires n <= i * RATE_LIMIT_SLICE_BYTES && (i > 0 ==> (i - 1) * RATE_LIMIT_SLICE_BYTES < n)
    ensures SliceCount(n) == i
  {
    CeilDivLeast(n, RATE_LIMIT_SLICE_BYTES, i);
    if i > 0 { CeilDivLeast(n, RATE_LIMIT_SLICE_BYTES, i - 1); }
  }

  /** After `n` slices of a chunk of `length` bytes, each after one look. */
  ghost predicate AfterSlices(length: nat, patience: nat, waits: nat, stored: nat, n: nat) {
    && waits == patience - 1 - n && stored == Min(n * RATE_LIMIT_SLICE_BYTES, length)
    && (n > 0 ==> (n - 1) * RATE_LIMIT_SLICE_BYTES < length)
  }

  lemma OneMoreSlice(length: nat, patience: nat, waits: nat, stored: nat, n: nat)
    requires AfterSlices(length, patience, waits, stored, n) && stored < length
    ensures waits == 0 ==> StoppedIn(length, patience, stored)
    ensures waits > 0 ==> AfterSlices(length, patience, waits - 1, stored + Min(RATE_LIMIT_SLICE_BYTES, length - stored), n + 1)
  {
    CeilDivLeast(length, RATE_LIMIT_SLICE_BYTES, n);
  }

  lemma AllSliced(length: nat, patience: nat, waits: nat, n: nat)
    requires AfterSlices(length, patience, waits, length, n)
    ensures waits == patience - 1 - SliceCount(length)
  {
    SliceCountIs(length, n);
  }

  // ---------------------------------------------------------------- the streaming loop

  /** The part of a worker that streaming uses. */
  class StreamWorker {
    const index: nat
    const start: u64
    const end: u64
    const lengthKnown: bool
    /** The published counter. */
    var downloadedSize: nat

    constructor (index: nat, start: u64, end: u64, lengthKnown: bool, downloaded: nat)
      ensures this.index == index && this.start == start && this.end == end && this.lengthKnown == lengthKnown
      ensures downloadedSize == downloaded
    {
      this.index, this.start, this.end, this.lengthKnown := index, start, end, lengthKnown;
      downloadedSize := downloaded;
    }

    /** Streams `body` into `store` from `offset` on. `patience` is how many times the worker may look
        before it finds itself told to stop; `budget` is how many bytes the device accepts before it
        fails. Whole slices count as downloaded, and are published one by one; a slice that fails
        half way leaves `torn` bytes behind that nobody counts. */
    method StreamResponse(store: PayloadStore, body: Body, downloaded: nat, useRange: bool, rangeStart: u64,
                          patience: nat, budget: nat)
      returns (outcome: Outcome, downloaded': nat, ghost slices: seq<nat>, ghost torn: nat)
      requires store.Valid()
      requires (if useRange then rangeStart else start) + |body.Bytes()| <= U64_MAX
      modifies this`downloadedSize, store.files
      ensures downloaded' >= downloaded && Slices(slices, downloaded' - downloaded)
      ensures downloadedSize == if downloaded' == downloaded then old(downloadedSize) else downloaded'
      ensures InPlace(store.Flat(), old(store.Flat()), (if useRange then rangeStart else start), body.Bytes(), downloaded' - downloaded + torn)
      ensures Finished(outcome, body, (if useRange then rangeStart else start), store.fileMap.total, budget, downloaded' - downloaded, torn)
      ensures outcome.Stopped? ==> patience < Needed(body)
                                   && (RanOut(body.chunks, patience, downloaded' - downloaded)
                                       || downloaded' - downloaded == |body.Bytes()|)
      ensures outcome.Ended? || outcome.NetworkFailed? ==> patience >= Needed(body)
      // With room and a working device only patience and the connection decide.
      ensures (if useRange then rangeStart else start) + |body.Bytes()| <= store.fileMap.total && |body.Bytes()| <= budget ==>
                outcome == if patience < Needed(body) then Stopped else if body.broken then NetworkFailed else Ended
    {
      FlatLength(store);
      var stored, waits;
      outcome, stored, waits, slices, torn :=
        StreamChunks(store, body.chunks, Offset(start, useRange, rangeStart), downloaded, patience, budget);
      downloaded' := downloaded + stored;
      if outcome.Stopped? { RanOutEarly(body.chunks, patience, stored); }
      if outcome.Ended? && body.broken {
        outcome := if waits == 0 then Stopped else NetworkFailed;
      }
    }

    method StreamChunks(store: PayloadStore, chunks: seq<seq<byte>>, offset: u64, downloaded: nat, patience: nat, budget: nat)
      returns (outcome: Outcome, stored: nat, waits: nat, ghost slices: seq<nat>, ghost torn: nat)
      requires store.Valid() && offset + |Concat(chunks)| <= U64_MAX && |store.Flat()| == store.fileMap.total
      modifies this`downloadedSize, store.files
      ensures Slices(slices, stored)
      ensures downloadedSize == if stored == 0 then old(downloadedSize) else downloaded + stored
      ensures InPlace(store.Flat(), old(store.Flat()), offset, Concat(chunks), stored + torn)
      ensures ChunksOutcome(outcome, |Concat(chunks)|, offset, store.fileMap.total, budget, stored, torn)
      ensures outcome.Ended? ==> waits == patience - Looks(chunks, |chunks|)
      ensures outcome.Stopped? ==> RanOut(chunks, patience, stored)
    {
      ghost var before, data := store.Flat(), Concat(chunks);
      InPlaceNothing(before, offset, data);
      outcome, stored, waits, slices, torn := Ended, 0, patience, [], 0;
      var k := 0;
      while k < |chunks| && outcome.Ended?
        invariant k <= |chunks| && Slices(slices, stored)
        invariant InPlace(store.Flat(), before, offset, data, stored + torn)
        invariant downloadedSize == if stored == 0 then old(downloadedSize) else downloaded + stored
        invariant InBody(outcome, chunks, k, patience, waits, offset, store.fileMap.total, budget, stored, torn)
      {
        ChunkIsPart(chunks, k);
        ghost var slices', before' := [], waits;
        var taken;
        outcome, taken, waits, slices', torn :=
          StreamChunk(store, chunks[k], offset + stored, downloaded + stored, waits, budget - stored, before, offset, data, stored);
        slices := SlicesConcat(slices, stored, slices', taken);
        ChunkStep(outcome, chunks, k, patience, before', waits, offset, store.fileMap.total, budget, stored, taken, torn);
        stored := stored + taken;
        k := k + 1;
      }
      OffsetOfEnd(chunks);
    }

    /** One item of the response stream; `stored` counts the bytes of the whole slices that got through. */
    method StreamChunk(store: PayloadStore, bytes: seq<byte>, writeOffset: u64, downloaded: nat, patience: nat, accepts: nat,
                       ghost before: seq<byte>, ghost offset: nat, ghost data: seq<byte>, ghost done: nat)
      returns (outcome: Outcome, stored: nat, waits: nat, ghost slices: seq<nat>, ghost torn: nat)
      requires store.Valid() && offset + |data| <= U64_MAX && |before| == store.fileMap.total
      requires writeOffset == offset + done && InPlace(store.Flat(), before, offset, data, done)
      requires IsPart(bytes, data, done)
      modifies this`downloadedSize, store.files
      ensures Slices(slices, stored)
      ensures downloadedSize == if stored == 0 then old(downloadedSize) else downloaded + stored
      ensures InPlace(store.Flat(), before, offset, data, done + stored + torn)
      ensures ChunksOutcome(outcome, |bytes|, writeOffset, store.fileMap.total, accepts, stored, torn)
      ensures outcome.Ended? ==> waits == patience - 1 - SliceCount(|bytes|)
      ensures outcome.Stopped? ==> StoppedIn(|bytes|, patience, stored)
    {
      outcome, stored, slices, torn := if patience == 0 then Stopped else Ended, 0, [], 0;
      waits := SatDec(patience);
      ghost var n := 0;
      while stored < |bytes| && outcome.Ended?
        invariant Slices(slices, stored)
        invariant downloadedSize == if stored == 0 then old(downloadedSize) else downloaded + stored
        invariant InPlace(store.Flat(), before, offset, data, done + stored + torn)
        invariant InChunk(outcome, |bytes|, patience, waits, writeOffset, store.fileMap.total, accepts, stored, torn, n)
        decreases if outcome.Ended? then |bytes| - stored + 1 else 0
      {
        var taken;
        outcome, taken, torn := StreamSlice(store, bytes, stored, writeOffset + stored, downloaded + stored, waits,
                                            accepts - stored, before, offset, data, done);
        SliceStep(outcome, |bytes|, patience, waits, writeOffset, store.fileMap.total, accepts, stored, taken, torn, n);
        waits := SatDec(waits);
        slices := MoreSlices(slices, stored, taken);
        stored := stored + taken;
        n := n + 1;
      }
      if outcome.Ended? { AllSliced(|bytes|, patience, waits, n); }
    }

    /** The next slice of a chunk: look whether to stop, write, count, publish. */
    method StreamSlice(store: PayloadStore, bytes: seq<byte>, from: nat, writeOffset: u64, downloaded: nat, waits: nat,
                       accepts: nat, ghost before: seq<byte>, ghost offset: nat, ghost data: seq<byte>, ghost done: nat)
      returns (outcome: Outcome, taken: nat, ghost torn: nat)
      requires store.Valid() && |before| == store.fileMap.total && from < |bytes| && IsPart(bytes, data, done)
      requires writeOffset == offset + done + from && InPlace(store.Flat(), before, offset, data, done + from)
      modifies this`downloadedSize, store.files
      ensures InPlace(store.Flat(), before, offset, data, done + from + taken + torn)
      ensures downloadedSize == if taken == 0 then old(downloadedSize) else downloaded + taken
      ensures ChunksOutcome(outcome, Min(RATE_LIMIT_SLICE_BYTES, |bytes| - from), writeOffset, store.fileMap.total, accepts,
                            taken, torn)
      ensures !outcome.Ended? ==> taken == 0
      ensures outcome.Stopped? <==> waits == 0
    {
      if waits == 0 {
        return Stopped, 0, 0;
      }
      var slice := NextSlice(bytes, from, data, done);
      var accepted := StoreSlice(store, slice, writeOffset, accepts, before, offset, data, done + from);
      if accepted < |slice| {
        return StoreFailed, 0, accepted;
      }
      downloadedSize := downloaded + |slice|;
      return Ended, |slice|, 0;
    }
  }

  function SatDec(n: nat): nat { if n == 0 then 0 else n - 1 }

  function Offset(start: u64, useRange: bool, rangeStart: u64): u64 {
    if useRange then rangeStart else start
  }

  /** `bytes` are the bytes of `data` from `at` on. */
  ghost predicate IsPart(bytes: seq<byte>, data: seq<byte>, at: nat) {
    at + |bytes| <= |data| && bytes == data[at..at + |bytes|]
  }

  lemma SubPart(bytes: seq<byte>, data: seq<byte>, at: nat, from: nat, n: nat)
    requires IsPart(bytes, data, at) && from + n <= |bytes|
    ensures IsPart(bytes[from..from + n], data, at + from)
  {
    var part := data[at + from..at + from + n];
    assert forall i :: 0 <= i < |part| ==> part[i] == data[at..at + |bytes|][from + i];
  }

  /** What a part of `length` bytes leads to: it ends with all of it in whole slices, it is stopped
      between slices, or a write fails, for lack of room or of a working device. */
  ghost predicate ChunksOutcome(outcome: Outcome, length: nat, offset: nat, total: nat, budget: nat, stored: nat, torn: nat) {
    && stored <= budget && stored + torn <= length
    && match outcome
       case Ended => stored == length && torn == 0
       case Stopped => torn == 0
       case StoreFailed => budget < length || offset + length > total
       case NetworkFailed => false
  }

  /** In the loop over the slices of one chunk, after `n` of them. */
  ghost predicate InChunk(outcome: Outcome, length: nat, patience: nat, waits: nat, offset: nat, total: nat, budget: nat,
                          stored: nat, torn: nat, n: nat)
  {
    if outcome.Ended? then
      stored <= length && stored <= budget && torn == 0 && AfterSlices(length, patience, waits, stored, n)
    else
      && ChunksOutcome(outcome, length, offset, total, budget, stored, torn)
      && (outcome.Stopped? ==> StoppedIn(length, patience, stored))
  }

  lemma SliceStep(outcome: Outcome, length: nat, patience: nat, waits: nat, offset: nat, total: nat, budget: nat,
                  stored: nat, taken: nat, torn: nat, n: nat)
    requires InChunk(Ended, length, patience, waits, offset, total, budget, stored, 0, n) && stored < length
    requires ChunksOutcome(outcome, Min(RATE_LIMIT_SLICE_BYTES, length - stored), offset + stored, total, budget - stored,
                           taken, torn)
    requires (outcome.Stopped? <==> waits == 0) && (!outcome.Ended? ==> taken == 0)
    ensures InChunk(outcome, length, patience, SatDec(waits), offset, total, budget, stored + taken, torn, n + 1)
  {
    OneMoreSlice(length, patience, waits, stored, n);
  }

  /** In the loop over the chunks of a body, before chunk `k`. */
  ghost predicate InBody(outcome: Outcome, chunks: seq<seq<byte>>, k: nat, patience: nat, waits: nat,
                         offset: nat, total: nat, budget: nat, stored: nat, torn: nat)
    requires k <= |chunks|
  {
    if outcome.Ended? then
      stored == OffsetIn(chunks, k) && torn == 0 && stored <= budget && waits == patience - Looks(chunks, k)
    else
      && ChunksOutcome(outcome, |Concat(chunks)|, offset, total, budget, stored, torn)
      && (outcome.Stopped? ==> RanOut(chunks, patience, stored))
  }

  lemma ChunkStep(outcome: Outcome, chunks: seq<seq<byte>>, k: nat, patience: nat, waits: nat, waits': nat,
                  offset: nat, total: nat, budget: nat, stored: nat, taken: nat, torn: nat)
    requires k < |chunks| && InBody(Ended, chunks, k, patience, waits, offset, total, budget, stored, 0)
    requires ChunksOutcome(outcome, |chunks[k]|, offset + stored, total, budget - stored, taken, torn)
    requires outcome.Ended? ==> waits' == waits - 1 - SliceCount(|chunks[k]|)
    requires outcome.Stopped? ==> StoppedIn(|chunks[k]|, waits, taken)
    ensures InBody(outcome, chunks, k + 1, patience, waits', offset, total, budget, stored + taken, torn)
  {
    ChunkIsPart(chunks, k);
    assert outcome.Stopped? ==> StoppedAt(chunks, patience, stored + taken, k);
  }

  ghost predicate Finished(outcome: Outcome, body: Body, offset: nat, total: nat, budget: nat, stored: nat, torn: nat) {
    if outcome.NetworkFailed? then body.broken && stored == |body.Bytes()| <= budget && torn == 0
    else ChunksOutcome(outcome, |body.Bytes()|, offset, total, budget, stored, torn) && (outcome.Ended? ==> !body.broken)
  }

  lemma {:induction false} ChunkIsPart(chunks: seq<seq<byte>>, k: nat)
    requires k < |chunks|
    ensures IsPart(chunks[k], Concat(chunks), OffsetIn(chunks, k))
    ensures OffsetIn(chunks, k + 1) == OffsetIn(chunks, k) + |chunks[k]|
  {
    if k > 0 {
      ChunkIsPart(chunks[1..], k - 1);
      SubPart(Concat(chunks[1..]), Concat(chunks), |chunks[0]|, OffsetIn(chunks[1..], k - 1), |chunks[k]|);
    } else {
      assert OffsetIn(chunks[1..], 0) == 0;
    }
  }

  lemma {:induction false} OffsetOfEnd(chunks: seq<seq<byte>>)
    ensures OffsetIn(chunks, |chunks|) == |Concat(chunks)|
  {
    if chunks != [] { OffsetOfEnd(chunks[1..]); }
  }

  lemma MoreSlices(parts: seq<nat>, n: nat, next: nat) returns (parts': seq<nat>)
    requires Slices(parts, n) && next <= RATE_LIMIT_SLICE_BYTES
    ensures Slices(parts', n + next)
  {
    parts' := if next > 0 then parts + [next] else parts;
    assert (parts + [next])[..|parts|] == parts;
  }

  lemma {:induction false} SlicesConcat(a: seq<nat>, m: nat, b: seq<nat>, n: nat) returns (all: seq<nat>)
    requires Slices(a, m) && Slices(b, n)
    ensures all == a + b && Slices(all, m + n)
    decreases |b|
  {
    all := a + b;
    if b == [] {
      assert all == a;
    } else {
      var last := |b| - 1;
      assert all[..|all| - 1] == a + b[..last];
      var _ := SlicesConcat(a, m, b[..last], n - b[last]);
    }
  }

  /** The next piece of a chunk, at most `RATE_LIMIT_SLICE_BYTES` long. */
  method NextSlice(bytes: seq<byte>, from: nat, ghost data: seq<byte>, ghost at: nat) returns (slice: seq<byte>)
    requires from < |bytes| && IsPart(bytes, data, at)
    ensures 0 < |slice| == Min(RATE_LIMIT_SLICE_BYTES, |bytes| - from)
    ensures IsPart(slice, data, at + from)
  {
    slice := bytes[from..Min(from + RATE_LIMIT_SLICE_BYTES, |bytes|)];
    SubPart(bytes, data, at, from, |slice|);
  }

  /** `write_at` for one slice: how much of it got through, which is all of it unless the write failed. */
  method StoreSlice(store: PayloadStore, slice: seq<byte>, writeOffset: u64, accepts: nat,
                    ghost before: seq<byte>, ghost offset: nat, ghost data: seq<byte>, ghost done: nat)
    returns (taken: nat)
    requires store.Valid() && |before| == store.fileMap.total && |slice| <= U64_MAX
    requires writeOffset == offset + done && InPlace(store.Flat(), before, offset, data, done)
    requires slice != [] && IsPart(slice, data, done)
    modifies store.files
    ensures InPlace(store.Flat(), before, offset, data, done + taken)
    ensures taken <= |slice| && taken <= accepts
    ensures taken < |slice| ==> accepts < |slice| || writeOffset + |slice| > store.fileMap.total
  {
    ghost var now := store.Flat();
    var r := store.WriteAt(writeOffset, slice, accepts);
    if writeOffset + |slice| > store.fileMap.total {
      return 0;
    }
    taken := if r.Ok? then |slice| else accepts;
    InPlaceMore(now, before, offset, data, done, slice, taken);
  }

  /** `content` with the first `done` bytes of `data` at `offset`. */
  function Put(content: seq<byte>, offset: nat, data: seq<byte>, done: nat): (r: seq<byte>)
    requires done <= |data|
    ensures |r| == |content|
  {
    seq(|content|, i requires 0 <= i < |content| && done <= |data| =>
      if offset <= i < offset + done then data[i - offset] else content[i])
  }

  /** `now` is `before` with the first `done` bytes of `data` in place at `offset`. */
  ghost predicate InPlace(now: seq<byte>, before: seq<byte>, offset: nat, data: seq<byte>, done: nat) {
    && done <= |data| && (done > 0 ==> offset + done <= |before|)
    && now == Put(before, offset, data, done)
  }

  lemma FlatLength(store: PayloadStore)
    requires store.Valid()
    ensures |store.Flat()| == store.fileMap.total
  {
    SegmentOffsets(store.fileMap.segments, store.Contents(), 0, store.fileMap.total);
  }

  lemma InPlaceNothing(before: seq<byte>, offset: nat, data: seq<byte>)
    ensures InPlace(before, before, offset, data, 0)
  {
  }

  lemma InPlaceMore(now: seq<byte>, before: seq<byte>, offset: nat, data: seq<byte>, done: nat, slice: seq<byte>, taken: nat)
    requires IsPart(slice, data, done) && taken <= |slice| && offset + done + |slice| <= |before|
    requires InPlace(now, before, offset, data, done)
    ensures InPlace(Splice(now, offset + done, slice[..taken]), before, offset, data, done + taken)
  {
  }
}
