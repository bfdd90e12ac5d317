/** From worker counters to block flags and back: what a progress sync computes and what a
    rebuilt worker is seeded with (src/job/mod.rs:668-724, src/job/workers.rs:330-368). */
module Progress {
  import opened Widths
  import opened Pieces

  /** A worker as a sync sees it: an inclusive byte range and a published counter. */
  datatype LaneProgress = LaneProgress(start: nat, end: nat, counter: nat) {
    function Expected(): nat { RangeLength(start, end) }
    /** The counter, clamped to the lane. */
    function Downloaded(): nat { Min(counter, Expected()) }
  }

  function ClaimRanges(workers: seq<LaneProgress>): seq<Range> {
    if workers == [] then []
    else
      var w := workers[0];
      (if w.Downloaded() == 0 then [] else [Range(w.start, w.start + w.Downloaded() - 1)])
      + ClaimRanges(workers[1..])
  }

  /** The block states after one sync over `workers`. */
  function SyncedBlocks(states: seq<BlockState>, blocks: seq<PieceBlock>, workers: seq<LaneProgress>): (r: seq<BlockState>)
    ensures |r| == |states|
  {
    MarkAllBlocks(states, blocks, ClaimRanges(workers))
  }

  function SumDownloaded(workers: seq<LaneProgress>): nat {
    if workers == [] then 0 else workers[0].Downloaded() + SumDownloaded(workers[1..])
  }

  /** The block lies in the claimed prefix of one worker. */
  ghost predicate Claims(w: LaneProgress, b: PieceBlock) {
    w.start <= b.offset && b.End() <= w.start + w.Downloaded()
  }

  ghost predicate SomeClaims(workers: seq<LaneProgress>, b: PieceBlock) {
    exists i :: 0 <= i < |workers| && Claims(workers[i], b)
  }

  lemma {:induction false} ClaimRangesMeaning(workers: seq<LaneProgress>, b: PieceBlock)
    requires b.length > 0
    ensures SomeCovers(ClaimRanges(workers), b.offset, b.length) <==> SomeClaims(workers, b)
  {
    if workers != [] {
      var w := workers[0];
      ClaimRangesMeaning(workers[1..], b);
      var ranges := ClaimRanges(workers);
      var head := if w.Downloaded() == 0 then [] else [Range(w.start, w.start + w.Downloaded() - 1)];
      assert ranges == head + ClaimRanges(workers[1..]);
      if SomeCovers(ranges, b.offset, b.length) {
        var r :| r in ranges && Covered(b.offset, b.length, r.start, r.end);
        if r in head {
          assert Claims(workers[0], b);
        } else {
          assert SomeClaims(workers[1..], b);
          var i :| 0 <= i < |workers| - 1 && Claims(workers[1..][i], b);
          assert Claims(workers[i + 1], b);
        }
      }
      if SomeClaims(workers, b) {
        var i :| 0 <= i < |workers| && Claims(workers[i], b);
        if i == 0 {
          assert Range(w.start, w.start + w.Downloaded() - 1) in ranges;
        } else {
          assert Claims(workers[1..][i - 1], b);
          var r :| r in ClaimRanges(workers[1..]) && Covered(b.offset, b.length, r.start, r.end);
          assert r in ranges;
        }
      }
    }
  }

  /** A sync completes exactly the blocks that some worker claims, and clears none. */
  lemma SyncedMeaning(states: seq<BlockState>, blocks: seq<PieceBlock>, workers: seq<LaneProgress>, j: nat)
    requires |states| == |blocks| && j < |blocks| && blocks[j].length > 0
    ensures SyncedBlocks(states, blocks, workers)[j]
            == states[j].(completed := states[j].completed || SomeClaims(workers, blocks[j]))
  {
    MarkAllBlocksMeaning(states, blocks, ClaimRanges(workers));
    ClaimRangesMeaning(workers, blocks[j]);
  }

  lemma {:induction false} MarkAllConcat(states: seq<BlockState>, blocks: seq<PieceBlock>, a: seq<Range>, b: seq<Range>)
    ensures MarkAllBlocks(states, blocks, a + b) == MarkAllBlocks(MarkAllBlocks(states, blocks, a), blocks, b)
    decreases |a|
  {
    if a == [] {
      assert a + b == b;
    } else {
      assert (a + b)[1..] == a[1..] + b;
      MarkAllConcat(MarkBlocks(states, blocks, a[0].start, a[0].end), blocks, a[1..], b);
    }
  }

  lemma {:induction false} ClaimRangesConcat(a: seq<LaneProgress>, b: seq<LaneProgress>)
    ensures ClaimRanges(a + b) == ClaimRanges(a) + ClaimRanges(b)
    ensures SumDownloaded(a + b) == SumDownloaded(a) + SumDownloaded(b)
  {
    if a == [] {
      assert a + b == b;
    } else {
      assert (a + b)[1..] == a[1..] + b;
      ClaimRangesConcat(a[1..], b);
    }
  }

  /** What one worker's counter marks. */
  function MarkClaim(states: seq<BlockState>, blocks: seq<PieceBlock>, w: LaneProgress): (r: seq<BlockState>)
    ensures |r| == |states|
  {
    if w.Downloaded() == 0 then states else MarkBlocks(states, blocks, w.start, w.start + w.Downloaded() - 1)
  }

  lemma ClaimOfOne(states: seq<BlockState>, blocks: seq<PieceBlock>, w: LaneProgress)
    ensures MarkAllBlocks(states, blocks, ClaimRanges([w])) == MarkClaim(states, blocks, w)
    ensures SumDownloaded([w]) == w.Downloaded()
  {
    assert [w][1..] == [];
    if w.Downloaded() != 0 {
      var r := Range(w.start, w.start + w.Downloaded() - 1);
      assert ClaimRanges([w]) == [r] && [r][1..] == [];
    }
  }

  /** One more worker in the sync loop. */
  lemma SyncOneMore(states: seq<BlockState>, blocks: seq<PieceBlock>, workers: seq<LaneProgress>, w: LaneProgress)
    ensures SyncedBlocks(states, blocks, workers + [w]) == MarkClaim(SyncedBlocks(states, blocks, workers), blocks, w)
    ensures SumDownloaded(workers + [w]) == SumDownloaded(workers) + w.Downloaded()
  {
    ClaimRangesConcat(workers, [w]);
    MarkAllConcat(states, blocks, ClaimRanges(workers), ClaimRanges([w]));
    ClaimOfOne(SyncedBlocks(states, blocks, workers), blocks, w);
  }

  // ---------------------------------------------------------------- installing stored states

  /** The layout checks compare positions and indices only, never byte ranges. */
  predicate BlockStateLayoutMatches(expected: seq<BlockState>, restored: seq<BlockState>) {
    && |expected| == |restored|
    && forall j :: 0 <= j < |expected| ==>
         expected[j].piece == restored[j].piece && expected[j].block == restored[j].block
  }

  predicate PieceStateLayoutMatches(expected: seq<PieceState>, restored: seq<PieceState>) {
    && |expected| == |restored|
    && forall k :: 0 <= k < |expected| ==> expected[k].piece == restored[k].piece
  }

  /** The block states of a manifest after installing it over stored states. */
  function InstalledBlocks(blocks: seq<PieceBlock>, existing: seq<BlockState>): (r: seq<BlockState>)
    ensures Aligned(r, blocks)
  {
    var next := InitializeBlockStates(blocks);
    if BlockStateLayoutMatches(next, existing) then
      seq(|next|, j requires 0 <= j < |next| && |existing| == |next| => next[j].(completed := existing[j].completed))
    else next
  }

  /** The piece states: derived from restored blocks, else restored on their own, else reset. */
  function InstalledPieces(pieces: seq<PieceLayout>, blocks: seq<PieceBlock>,
                           existingPieces: seq<PieceState>, existingBlocks: seq<BlockState>): seq<PieceState>
  {
    var next := InitializePieceStates(pieces);
    if BlockStateLayoutMatches(InitializeBlockStates(blocks), existingBlocks) then
      DerivePieceStates(pieces, blocks, InstalledBlocks(blocks, existingBlocks))
    else if PieceStateLayoutMatches(next, existingPieces) then
      seq(|next|, k requires 0 <= k < |next| && |existingPieces| == |next| =>
        next[k].(completed := existingPieces[k].completed))
    else next
  }

  /** A flag is restored when the stored states carry the manifest's keys one by one, and is off otherwise. */
  lemma InstalledMeaning(blocks: seq<PieceBlock>, existing: seq<BlockState>)
    ensures var r := InstalledBlocks(blocks, existing);
            |r| == |blocks| && forall j :: 0 <= j < |blocks| ==>
              r[j] == BlockState(blocks[j].piece, blocks[j].block, Aligned(existing, blocks) && existing[j].completed)
  {
  }

  /** The states carry the piece numbers of `pieces`, in order. */
  predicate PiecesAligned(states: seq<PieceState>, pieces: seq<PieceLayout>) {
    |states| == |pieces| && forall k :: 0 <= k < |pieces| ==> states[k].piece == pieces[k].piece
  }

  lemma InstalledPiecesMeaning(pieces: seq<PieceLayout>, blocks: seq<PieceBlock>,
                               existingPieces: seq<PieceState>, existingBlocks: seq<BlockState>)
    ensures var r := InstalledPieces(pieces, blocks, existingPieces, existingBlocks);
            if Aligned(existingBlocks, blocks) then r == DerivePieceStates(pieces, blocks, existingBlocks)
            else |r| == |pieces| && forall k :: 0 <= k < |pieces| ==>
              r[k] == PieceState(pieces[k].piece, PiecesAligned(existingPieces, pieces) && existingPieces[k].completed)
  {
    if Aligned(existingBlocks, blocks) { InstallKeepsAligned(blocks, existingBlocks); }
  }

  /** States that already carry the manifest's keys are installed unchanged. */
  lemma InstallKeepsAligned(blocks: seq<PieceBlock>, states: seq<BlockState>)
    requires Aligned(states, blocks)
    ensures InstalledBlocks(blocks, states) == states
  {
  }

  // ---------------------------------------------------------------- seeding

  predicate InLane(b: PieceBlock, start: nat, end: nat) {
    b.offset >= start && Max(b.End() - 1, 0) <= end
  }

  /** Length of the completed blocks of the lane, from block `j` on, up to the first incomplete one. */
  function SeedFrom(blocks: seq<PieceBlock>, states: seq<BlockState>, start: nat, end: nat, j: nat): nat
    requires j <= |blocks|
    decreases |blocks| - j
  {
    if j == |blocks| then 0
    else if !InLane(blocks[j], start, end) then SeedFrom(blocks, states, start, end, j + 1)
    else if !Lookup(states, blocks[j].piece, blocks[j].block) then 0
    else blocks[j].length + SeedFrom(blocks, states, start, end, j + 1)
  }

  function Seed(blocks: seq<PieceBlock>, states: seq<BlockState>, start: nat, end: nat): nat {
    Min(SeedFrom(blocks, states, start, end, 0), RangeLength(start, end))
  }

  method SeededDownloaded(blocks: seq<PieceBlock>, states: seq<BlockState>, start: nat, end: nat)
    returns (downloaded: nat)
    ensures downloaded == Seed(blocks, states, start, end)
  {
    downloaded := 0;
    var j := 0;
    while j < |blocks|
      invariant 0 <= j <= |blocks|
      invariant downloaded + SeedFrom(blocks, states, start, end, j) == SeedFrom(blocks, states, start, end, 0)
    {
      if InLane(blocks[j], start, end) {
        if !Lookup(states, blocks[j].piece, blocks[j].block) {
          break;
        }
        downloaded := downloaded + blocks[j].length;
      }
      j := j + 1;
    }
    downloaded := Min(downloaded, RangeLength(start, end));
  }

  /** The lane `[start, end]` is exactly the blocks `lo` to `hi - 1`. */
  ghost predicate BlockAligned(blocks: seq<PieceBlock>, start: nat, end: nat, lo: nat, hi: nat) {
    && lo < hi <= |blocks|
    && blocks[lo].offset == start
    && blocks[hi - 1].End() == end + 1
  }

  /** Where the blocks before `k` end. */
  function Boundary(blocks: seq<PieceBlock>, k: nat): nat
    requires k <= |blocks|
  {
    if k == 0 then 0 else blocks[k - 1].End()
  }

  lemma {:induction false} BoundaryOrder(blocks: seq<PieceBlock>, blockSize: nat, total: nat, i: nat, k: nat)
    requires Chained(blocks, blockSize, total) && i <= k <= |blocks|
    ensures Boundary(blocks, i) <= Boundary(blocks, k)
    ensures k < |blocks| ==> Boundary(blocks, k) == blocks[k].offset
    ensures i < k ==> Boundary(blocks, i) < Boundary(blocks, k)
  {
    if 0 < i < k {
      if i < k - 1 { ChainOrder(blocks, blockSize, total, i - 1, k - 1); }
      assert blocks[i].offset == blocks[i - 1].End();
      if i < k - 1 { ChainOrder(blocks, blockSize, total, i, k - 1); }
    }
    if 0 < k < |blocks| { assert blocks[k].offset == blocks[k - 1].End(); }
  }

  lemma LaneSpan(blocks: seq<PieceBlock>, blockSize: nat, total: nat, start: nat, end: nat, lo: nat, hi: nat)
    requires Chained(blocks, blockSize, total) && BlockAligned(blocks, start, end, lo, hi)
    ensures start == Boundary(blocks, lo) && end + 1 == Boundary(blocks, hi) && start <= end
  {
    BoundaryOrder(blocks, blockSize, total, lo, hi);
    BoundaryOrder(blocks, blockSize, total, 0, lo);
  }

  /** The seed is the longest completed run of blocks at the start of the lane. */
  lemma SeedIsCompletedPrefix(blocks: seq<PieceBlock>, states: seq<BlockState>, blockSize: nat, total: nat,
                              start: nat, end: nat, lo: nat, hi: nat)
    returns (k: nat)
    requires Chained(blocks, blockSize, total) && KeysIncrease(blocks) && Aligned(states, blocks)
    requires BlockAligned(blocks, start, end, lo, hi)
    ensures lo <= k <= hi
    ensures start + Seed(blocks, states, start, end) == Boundary(blocks, k)
    ensures forall j :: lo <= j < k ==> states[j].completed
    ensures k < hi ==> !states[k].completed
  {
    k := SeedRun(blocks, states, blockSize, total, start, end, lo, hi, lo);
    SeedSkips(blocks, states, blockSize, total, start, end, lo, hi, 0);
    LaneSpan(blocks, blockSize, total, start, end, lo, hi);
    BoundaryOrder(blocks, blockSize, total, lo, k);
    BoundaryOrder(blocks, blockSize, total, k, hi);
  }

  /** Blocks before the lane are skipped. */
  lemma {:induction false} SeedSkips(blocks: seq<PieceBlock>, states: seq<BlockState>, blockSize: nat, total: nat,
                                     start: nat, end: nat, lo: nat, hi: nat, j: nat)
    requires Chained(blocks, blockSize, total) && BlockAligned(blocks, start, end, lo, hi) && j <= lo
    ensures SeedFrom(blocks, states, start, end, j) == SeedFrom(blocks, states, start, end, lo)
    decreases lo - j
  {
    if j < lo {
      ChainOrder(blocks, blockSize, total, j, lo);
      SeedSkips(blocks, states, blockSize, total, start, end, lo, hi, j + 1);
    }
  }

  /** Blocks after the lane add nothing. */
  lemma {:induction false} SeedStops(blocks: seq<PieceBlock>, states: seq<BlockState>, blockSize: nat, total: nat,
                                     start: nat, end: nat, lo: nat, hi: nat, j: nat)
    requires Chained(blocks, blockSize, total) && BlockAligned(blocks, start, end, lo, hi) && hi <= j <= |blocks|
    ensures SeedFrom(blocks, states, start, end, j) == 0
    decreases |blocks| - j
  {
    if j < |blocks| {
      ChainOrder(blocks, blockSize, total, hi - 1, j);
      SeedStops(blocks, states, blockSize, total, start, end, lo, hi, j + 1);
    }
  }

  lemma InsideLane(blocks: seq<PieceBlock>, blockSize: nat, total: nat, start: nat, end: nat, lo: nat, hi: nat, j: nat)
    requires Chained(blocks, blockSize, total) && BlockAligned(blocks, start, end, lo, hi) && lo <= j < hi
    ensures InLane(blocks[j], start, end)
    ensures Boundary(blocks, j) == blocks[j].offset && Boundary(blocks, j + 1) == blocks[j].End()
  {
    LaneSpan(blocks, blockSize, total, start, end, lo, hi);
    BoundaryOrder(blocks, blockSize, total, lo, j);
    BoundaryOrder(blocks, blockSize, total, j + 1, hi);
  }

  lemma {:induction false} SeedRun(blocks: seq<PieceBlock>, states: seq<BlockState>, blockSize: nat, total: nat,
                                   start: nat, end: nat, lo: nat, hi: nat, j: nat)
    returns (k: nat)
    requires Chained(blocks, blockSize, total) && KeysIncrease(blocks) && Aligned(states, blocks)
    requires BlockAligned(blocks, start, end, lo, hi) && lo <= j <= hi
    ensures j <= k <= hi
    ensures Boundary(blocks, j) + SeedFrom(blocks, states, start, end, j) == Boundary(blocks, k)
    ensures forall i :: j <= i < k ==> states[i].completed
    ensures k < hi ==> !states[k].completed
    decreases hi - j
  {
    if j == hi {
      SeedStops(blocks, states, blockSize, total, start, end, lo, hi, j);
      k := hi;
    } else {
      LookupAligned(states, blocks, j);
      InsideLane(blocks, blockSize, total, start, end, lo, hi, j);
      if states[j].completed {
        k := SeedRun(blocks, states, blockSize, total, start, end, lo, hi, j + 1);
      } else {
        k := j;
      }
    }
  }

  // ---------------------------------------------------------------- lanes over blocks

  /** `workers[i]` is the lane of blocks `cuts[i]` to `cuts[i + 1] - 1`; together they are all blocks. */
  ghost predicate LanesCutBlocks(workers: seq<LaneProgress>, cuts: seq<nat>, blocks: seq<PieceBlock>) {
    && |cuts| == |workers| + 1
    && cuts[0] == 0 && cuts[|workers|] == |blocks|
    && (forall i, k :: 0 <= i && k == i + 1 && k < |cuts| ==>
          BlockAligned(blocks, workers[i].start, workers[i].end, cuts[i], cuts[k]))
  }

  lemma {:induction false} CutsOrder(workers: seq<LaneProgress>, cuts: seq<nat>, blocks: seq<PieceBlock>, i: nat, k: nat)
    requires LanesCutBlocks(workers, cuts, blocks) && i <= k < |cuts|
    ensures cuts[i] <= cuts[k] <= |blocks|
    decreases k - i
  {
    if i < k {
      CutsOrder(workers, cuts, blocks, i, k - 1);
      assert BlockAligned(blocks, workers[k - 1].start, workers[k - 1].end, cuts[k - 1], cuts[k]);
    } else if k > 0 {
      assert BlockAligned(blocks, workers[k - 1].start, workers[k - 1].end, cuts[k - 1], cuts[k]);
    }
  }

  /** Only the lane a block belongs to can claim it. */
  lemma OwnLaneClaims(workers: seq<LaneProgress>, cuts: seq<nat>, blocks: seq<PieceBlock>, blockSize: nat, total: nat,
                      i: nat, j: nat)
    requires Chained(blocks, blockSize, total) && LanesCutBlocks(workers, cuts, blocks)
    requires i < |workers| && cuts[i] <= j < cuts[i + 1] <= |blocks|
    ensures SomeClaims(workers, blocks[j]) <==> blocks[j].End() <= workers[i].start + workers[i].Downloaded()
  {
    assert BlockAligned(blocks, workers[i].start, workers[i].end, cuts[i], cuts[i + 1]);
    LaneSpan(blocks, blockSize, total, workers[i].start, workers[i].end, cuts[i], cuts[i + 1]);
    BoundaryOrder(blocks, blockSize, total, cuts[i], j);
    BoundaryOrder(blocks, blockSize, total, j, j + 1);
    assert blocks[j].End() <= workers[i].start + workers[i].Downloaded() ==> Claims(workers[i], blocks[j]);
    forall o | 0 <= o < |workers| && o != i
      ensures !Claims(workers[o], blocks[j])
    {
      assert BlockAligned(blocks, workers[o].start, workers[o].end, cuts[o], cuts[o + 1]);
      LaneSpan(blocks, blockSize, total, workers[o].start, workers[o].end, cuts[o], cuts[o + 1]);
      if o < i {
        CutsOrder(workers, cuts, blocks, o + 1, i);
        BoundaryOrder(blocks, blockSize, total, cuts[o + 1], j);
      } else {
        CutsOrder(workers, cuts, blocks, i + 1, o);
        BoundaryOrder(blocks, blockSize, total, j + 1, cuts[o]);
      }
    }
  }

  /** The states after syncing reset blocks. */
  function SyncedFromReset(blocks: seq<PieceBlock>, workers: seq<LaneProgress>): seq<BlockState> {
    SyncedBlocks(InitializeBlockStates(blocks), blocks, workers)
  }

  lemma SyncedFromResetMeaning(workers: seq<LaneProgress>, cuts: seq<nat>, blocks: seq<PieceBlock>,
                               blockSize: nat, total: nat, i: nat)
    requires Chained(blocks, blockSize, total) && LanesCutBlocks(workers, cuts, blocks) && i < |workers|
    ensures Aligned(SyncedFromReset(blocks, workers), blocks)
    ensures forall j :: cuts[i] <= j < cuts[i + 1] <= |blocks| ==>
              (SyncedFromReset(blocks, workers)[j].completed <==>
               blocks[j].End() <= workers[i].start + workers[i].Downloaded())
  {
    var states := SyncedFromReset(blocks, workers);
    forall j | 0 <= j < |blocks|
      ensures states[j] == BlockState(blocks[j].piece, blocks[j].block, SomeClaims(workers, blocks[j]))
    {
      SyncedMeaning(InitializeBlockStates(blocks), blocks, workers, j);
    }
    forall j | cuts[i] <= j < cuts[i + 1] <= |blocks|
      ensures SomeClaims(workers, blocks[j]) <==> blocks[j].End() <= workers[i].start + workers[i].Downloaded()
    {
      OwnLaneClaims(workers, cuts, blocks, blockSize, total, i, j);
    }
  }

  /** Syncing reset blocks and re-seeding lane `i` rounds its counter down to a block boundary. */
  lemma SyncThenSeedRoundsDown(workers: seq<LaneProgress>, cuts: seq<nat>, blocks: seq<PieceBlock>,
                               blockSize: nat, total: nat, i: nat)
    returns (k: nat)
    requires Chained(blocks, blockSize, total) && KeysIncrease(blocks) && LanesCutBlocks(workers, cuts, blocks)
    requires i < |workers|
    ensures var w := workers[i];
            var s := Seed(blocks, SyncedFromReset(blocks, workers), w.start, w.end);
            && s <= w.Downloaded() < s + blockSize
            && k <= |blocks| && w.start + s == Boundary(blocks, k)
    ensures cuts[i] <= k <= cuts[i + 1]
    ensures forall j :: cuts[i] <= j < cuts[i + 1] <= |blocks| ==>
              (SyncedFromReset(blocks, workers)[j].completed <==> j < k)
  {
    var w := workers[i];
    var states := SyncedFromReset(blocks, workers);
    var lo, hi := cuts[i], cuts[i + 1];
    SyncedFromResetMeaning(workers, cuts, blocks, blockSize, total, i);
    assert BlockAligned(blocks, w.start, w.end, lo, hi);
    LaneSpan(blocks, blockSize, total, w.start, w.end, lo, hi);
    k := SeedIsCompletedPrefix(blocks, states, blockSize, total, w.start, w.end, lo, hi);
    PrefixReaches(blocks, states, blockSize, total, w, lo, hi, k);
  }

  /** A completed prefix that is cut by the counter ends in the block the counter is in. */
  lemma PrefixReaches(blocks: seq<PieceBlock>, states: seq<BlockState>, blockSize: nat, total: nat,
                      w: LaneProgress, lo: nat, hi: nat, k: nat)
    requires Chained(blocks, blockSize, total) && |states| == |blocks| && lo <= k <= hi <= |blocks|
    requires w.start == Boundary(blocks, lo) && w.start + w.Expected() == Boundary(blocks, hi)
    requires forall j :: lo <= j < hi ==> (states[j].completed <==> blocks[j].End() <= w.start + w.Downloaded())
    requires forall j :: lo <= j < k ==> states[j].completed
    requires k < hi ==> !states[k].completed
    ensures Boundary(blocks, k) <= w.start + w.Downloaded() < Boundary(blocks, k) + blockSize
    ensures forall j :: lo <= j < hi ==> (states[j].completed <==> j < k)
  {
    BoundaryOrder(blocks, blockSize, total, k, hi);
    assert k > lo ==> states[k - 1].completed;
    forall j | k <= j < hi
      ensures !states[j].completed
    {
      BoundaryOrder(blocks, blockSize, total, k + 1, j + 1);
    }
  }

  // ---------------------------------------------------------------- accounting

  /** Total length of the completed blocks among `lo` to `hi - 1`. */
  function CompletedBytes(blocks: seq<PieceBlock>, states: seq<BlockState>, lo: nat, hi: nat): nat
    requires lo <= hi <= |blocks| && |states| == |blocks|
    decreases hi - lo
  {
    if lo == hi then 0
    else (if states[hi - 1].completed then blocks[hi - 1].length else 0) + CompletedBytes(blocks, states, lo, hi - 1)
  }

  lemma {:induction false} CompletedSplits(blocks: seq<PieceBlock>, states: seq<BlockState>, lo: nat, mid: nat, hi: nat)
    requires lo <= mid <= hi <= |blocks| && |states| == |blocks|
    ensures CompletedBytes(blocks, states, lo, hi)
            == CompletedBytes(blocks, states, lo, mid) + CompletedBytes(blocks, states, mid, hi)
    decreases hi - mid
  {
    if mid < hi {
      CompletedSplits(blocks, states, lo, mid, hi - 1);
    }
  }

  lemma {:induction false} CompletedRun(blocks: seq<PieceBlock>, states: seq<BlockState>, blockSize: nat, total: nat,
                                        lo: nat, k: nat, hi: nat)
    requires Chained(blocks, blockSize, total) && lo <= k <= hi <= |blocks| && |states| == |blocks|
    requires forall j :: lo <= j < hi ==> (states[j].completed <==> j < k)
    ensures CompletedBytes(blocks, states, lo, hi) == Boundary(blocks, k) - Boundary(blocks, lo)
    decreases hi - lo
  {
    if lo < hi {
      CompletedRun(blocks, states, blockSize, total, lo, Min(k, hi - 1), hi - 1);
      BoundaryOrder(blocks, blockSize, total, hi - 1, hi);
    }
  }

  lemma {:induction false} LaneAccount(workers: seq<LaneProgress>, cuts: seq<nat>, blocks: seq<PieceBlock>,
                    blockSize: nat, total: nat, i: nat)
    requires Chained(blocks, blockSize, total) && KeysIncrease(blocks) && LanesCutBlocks(workers, cuts, blocks)
    requires i < |workers|
    ensures cuts[i] <= cuts[i + 1] <= |blocks|
    ensures var done := CompletedBytes(blocks, SyncedFromReset(blocks, workers), cuts[i], cuts[i + 1]);
            done <= workers[i].Downloaded() <= done + (blockSize - 1)
    ensures Boundary(blocks, cuts[i]) + workers[i].Downloaded() <= Boundary(blocks, cuts[i + 1])
  {
    var w := workers[i];
    assert BlockAligned(blocks, w.start, w.end, cuts[i], cuts[i + 1]);
    var k := SyncThenSeedRoundsDown(workers, cuts, blocks, blockSize, total, i);
    CompletedRun(blocks, SyncedFromReset(blocks, workers), blockSize, total, cuts[i], k, cuts[i + 1]);
    LaneSpan(blocks, blockSize, total, w.start, w.end, cuts[i], cuts[i + 1]);
  }

  lemma {:induction false} LanesAccount(workers: seq<LaneProgress>, cuts: seq<nat>, blocks: seq<PieceBlock>,
                                        blockSize: nat, total: nat, n: nat)
    requires Chained(blocks, blockSize, total) && KeysIncrease(blocks) && LanesCutBlocks(workers, cuts, blocks)
    requires n <= |workers|
    ensures cuts[n] <= |blocks|
    ensures var done := CompletedBytes(blocks, SyncedFromReset(blocks, workers), 0, cuts[n]);
            && done <= SumDownloaded(workers[..n]) <= done + n * (blockSize - 1)
            && SumDownloaded(workers[..n]) <= Boundary(blocks, cuts[n])
  {
    CutsOrder(workers, cuts, blocks, 0, n);
    if n > 0 {
      var i := n - 1;
      LanesAccount(workers, cuts, blocks, blockSize, total, i);
      LaneAccount(workers, cuts, blocks, blockSize, total, i);
      SumOneMore(workers, i);
      CompletedSplits(blocks, SyncedFromReset(blocks, workers), 0, cuts[i], cuts[n]);
      MulOneMore(i, blockSize - 1);
    }
  }

  lemma SumOneMore(workers: seq<LaneProgress>, i: nat)
    requires i < |workers|
    ensures SumDownloaded(workers[..i + 1]) == SumDownloaded(workers[..i]) + workers[i].Downloaded()
  {
    assert workers[..i + 1] == workers[..i] + [workers[i]];
    ClaimRangesConcat(workers[..i], [workers[i]]);
    assert SumDownloaded([workers[i]]) == workers[i].Downloaded();
  }

  lemma MulOneMore(i: nat, x: int)
    ensures (i + 1) * x == i * x + x
  {
  }

  /** The counters of one lane set, read by successive syncs. */
  ghost predicate Advances(before: seq<LaneProgress>, after: seq<LaneProgress>) {
    && |before| == |after|
    && forall i :: 0 <= i < |before| ==>
         && before[i].start == after[i].start && before[i].end == after[i].end
         && before[i].counter <= after[i].counter
  }

  /** Successive reads of the counters of one lane set. */
  ghost predicate Growing(history: seq<seq<LaneProgress>>) {
    forall i, k :: 0 <= i && k == i + 1 && k < |history| ==> Advances(history[i], history[k])
  }

  function SyncAll(states: seq<BlockState>, blocks: seq<PieceBlock>, history: seq<seq<LaneProgress>>): (r: seq<BlockState>)
    ensures |r| == |states|
    decreases |history|
  {
    if history == [] then states
    else SyncedBlocks(SyncAll(states, blocks, history[..|history| - 1]), blocks, history[|history| - 1])
  }

  /** Syncing repeatedly while counters grow leaves what one sync of the latest counters would. */
  lemma {:induction false} RepeatedSyncs(blocks: seq<PieceBlock>, blockSize: nat, total: nat,
                                         history: seq<seq<LaneProgress>>)
    requires Chained(blocks, blockSize, total) && history != []
    requires Growing(history)
    ensures SyncAll(InitializeBlockStates(blocks), blocks, history)
            == SyncedFromReset(blocks, history[|history| - 1])
  {
    var n := |history| - 1;
    var fresh0 := InitializeBlockStates(blocks);
    if n > 0 {
      assert Growing(history[..n]);
      RepeatedSyncs(blocks, blockSize, total, history[..n]);
      var earlier := SyncedBlocks(fresh0, blocks, history[n - 1]);
      assert Advances(history[n - 1], history[n]);
      forall j | 0 <= j < |blocks|
        ensures SyncedBlocks(earlier, blocks, history[n])[j] == SyncedBlocks(fresh0, blocks, history[n])[j]
      {
        SyncedMeaning(fresh0, blocks, history[n - 1], j);
        SyncedMeaning(earlier, blocks, history[n], j);
        SyncedMeaning(fresh0, blocks, history[n], j);
        if SomeClaims(history[n - 1], blocks[j]) {
          var i :| 0 <= i < |history[n - 1]| && Claims(history[n - 1][i], blocks[j]);
          assert Claims(history[n][i], blocks[j]);
        }
      }
    } else {
      assert history[..0] == [];
    }
  }

  /** After a reset, however often progress is synced: the reported bytes are at least the completed
      blocks, exceed them by less than one block per lane, and never exceed the payload. */
  lemma ReportedProgress(blocks: seq<PieceBlock>, blockSize: nat, total: nat,
                         history: seq<seq<LaneProgress>>, cuts: seq<nat>)
    requires Chained(blocks, blockSize, total) && KeysIncrease(blocks) && history != []
    requires Growing(history)
    requires LanesCutBlocks(history[|history| - 1], cuts, blocks)
    ensures var workers := history[|history| - 1];
            var done := CompletedBytes(blocks, SyncAll(InitializeBlockStates(blocks), blocks, history), 0, |blocks|);
            && done <= SumDownloaded(workers) <= done + |workers| * (blockSize - 1)
            && SumDownloaded(workers) <= total
  {
    var workers := history[|history| - 1];
    RepeatedSyncs(blocks, blockSize, total, history);
    LanesAccount(workers, cuts, blocks, blockSize, total, |workers|);
    assert workers[..|workers|] == workers;
  }

  /** A sync never makes a completed block incomplete. */
  lemma SyncNeverClears(states: seq<BlockState>, blocks: seq<PieceBlock>, workers: seq<LaneProgress>, j: nat)
    requires |states| == |blocks| && j < |blocks| && states[j].completed
    ensures SyncedBlocks(states, blocks, workers)[j].completed
  {
    MarkAllBlocksMeaning(states, blocks, ClaimRanges(workers));
  }
}
