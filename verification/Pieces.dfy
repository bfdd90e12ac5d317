/** Cutting a payload into pieces and blocks, marking byte ranges as completed and deriving
    piece states from block states (src/domain/piece.rs). */
module Pieces {
  import opened Widths

  datatype PieceLayout = PieceLayout(piece: nat, offset: nat, length: nat) {
    function End(): nat { offset + length }
  }

  datatype PieceBlock = PieceBlock(piece: nat, block: nat, offset: nat, length: nat) {
    function End(): nat { offset + length }
  }

  datatype PieceState = PieceState(piece: nat, completed: bool)

  datatype BlockState = BlockState(piece: nat, block: nat, completed: bool)

  // ---------------------------------------------------------------- pieces

  /** Where the pieces cut so far end. */
  function PiecesEnd(pieces: seq<PieceLayout>): nat {
    if pieces == [] then 0 else pieces[|pieces| - 1].End()
  }

  ghost predicate PieceRun(pieces: seq<PieceLayout>, size: nat) {
    && (forall k :: 0 <= k < |pieces| ==> pieces[k].piece == k && 1 <= pieces[k].length <= size)
    && (pieces != [] ==> pieces[0].offset == 0)
    && (forall k :: 0 <= k < |pieces| - 1 ==> pieces[k].length == size)
    && (forall i, k :: 0 <= i && k == i + 1 && k < |pieces| ==> pieces[k].offset == pieces[i].End())
  }

  /** The pieces are `[0, total)` in order, each `size` bytes long except perhaps the last. */
  ghost predicate CutsPayload(pieces: seq<PieceLayout>, size: nat, total: nat) {
    PieceRun(pieces, size) && PiecesEnd(pieces) == total
  }

  lemma ExtendPieces(pieces: seq<PieceLayout>, next: PieceLayout, size: nat)
    requires PieceRun(pieces, size)
    requires next.piece == |pieces| && next.offset == PiecesEnd(pieces) && 1 <= next.length <= size
    requires pieces != [] ==> pieces[|pieces| - 1].length == size
    ensures PieceRun(pieces + [next], size) && PiecesEnd(pieces + [next]) == next.End()
  {
    var all := pieces + [next];
    assert forall k :: 0 <= k < |pieces| ==> all[k] == pieces[k];
  }

  method PlanPieceLayouts(total: nat, pieceSize: nat) returns (pieces: seq<PieceLayout>)
    ensures CutsPayload(pieces, Max(pieceSize, 1), total)
  {
    pieces := [];
    if total == 0 {
      return;
    }
    var size := Max(pieceSize, 1);
    var index, offset := 0, 0;
    while offset < total
      invariant offset <= total && index == |pieces|
      invariant PieceRun(pieces, size)
      invariant PiecesEnd(pieces) == offset
      invariant offset < total && pieces != [] ==> pieces[|pieces| - 1].length == size
    {
      var length := Min(total - offset, size);
      var next := PieceLayout(index, offset, length);
      ExtendPieces(pieces, next, size);
      pieces := pieces + [next];
      offset := offset + length;
      index := index + 1;
    }
  }

  /** There are ceil(total / size) pieces. */
  lemma PieceCount(pieces: seq<PieceLayout>, size: nat, total: nat)
    requires CutsPayload(pieces, size, total) && size > 0
    ensures |pieces| == CeilDiv(total, size)
  {
    var n := |pieces|;
    if n > 0 {
      PieceOffset(pieces, size, n - 1);
      assert total == (n - 1) * size + pieces[n - 1].length;
      assert n * size == (n - 1) * size + size;
      CeilDivLeast(total, size, n);
      CeilDivLeast(total, size, n - 1);
    }
  }

  /** Closed form: piece `k` starts at byte `k * size`. */
  lemma {:induction false} PieceOffset(pieces: seq<PieceLayout>, size: nat, k: nat)
    requires PieceRun(pieces, size) && k < |pieces|
    ensures pieces[k].offset == k * size
  {
    if k > 0 {
      PieceOffset(pieces, size, k - 1);
      assert k * size == (k - 1) * size + size;
    }
  }

  lemma {:induction false} PieceOrder(pieces: seq<PieceLayout>, size: nat, i: nat, k: nat)
    requires PieceRun(pieces, size) && i < k < |pieces|
    ensures pieces[i].End() <= pieces[k].offset
  {
    if i + 1 < k {
      PieceOrder(pieces, size, i, k - 1);
    }
  }

  // ---------------------------------------------------------------- blocks

  /** `next` is the block that follows `prev`: the rest of the same piece, or the next piece. */
  ghost predicate Follows(prev: PieceBlock, next: PieceBlock, pieces: seq<PieceLayout>)
    requires prev.piece < |pieces| && next.piece < |pieces|
  {
    if prev.End() < pieces[prev.piece].End() then
      next.piece == prev.piece && next.block == prev.block + 1 && next.offset == prev.End()
    else
      next.piece == prev.piece + 1 && next.block == 0 && next.offset == pieces[next.piece].offset
  }

  ghost predicate Inside(b: PieceBlock, pieces: seq<PieceLayout>, size: nat) {
    && b.piece < |pieces|
    && pieces[b.piece].offset <= b.offset < pieces[b.piece].End()
    && b.length == Min(size, pieces[b.piece].End() - b.offset)
  }

  ghost predicate BlockRun(blocks: seq<PieceBlock>, pieces: seq<PieceLayout>, size: nat) {
    && (forall j :: 0 <= j < |blocks| ==> Inside(blocks[j], pieces, size))
    && (blocks != [] ==>
          blocks[0].piece == 0 && blocks[0].block == 0 && blocks[0].offset == pieces[0].offset)
    && (forall i, j :: 0 <= i && j == i + 1 && j < |blocks| ==> Follows(blocks[i], blocks[j], pieces))
  }

  /** The blocks cut every piece, in order, into `size`-byte blocks numbered from 0. */
  ghost predicate CutsPieces(blocks: seq<PieceBlock>, pieces: seq<PieceLayout>, size: nat) {
    && BlockRun(blocks, pieces, size)
    && (blocks == [] <==> pieces == [])
    && (blocks != [] ==>
          var last := blocks[|blocks| - 1];
          last.piece == |pieces| - 1 && last.End() == pieces[|pieces| - 1].End())
  }

  method PlanPieceBlocks(pieces: seq<PieceLayout>, blockSize: nat) returns (blocks: seq<PieceBlock>)
    requires forall k :: 0 <= k < |pieces| ==> pieces[k].piece == k && pieces[k].length > 0
    ensures CutsPieces(blocks, pieces, Max(blockSize, 1))
  {
    blocks := [];
    if pieces == [] {
      return;
    }
    var size := Max(blockSize, 1);
    for k := 0 to |pieces|
      invariant BlockRun(blocks, pieces, size)
      invariant (blocks == []) == (k == 0)
      invariant k > 0 ==> blocks[|blocks| - 1].piece == k - 1
      invariant k > 0 ==> blocks[|blocks| - 1].End() == pieces[k - 1].End()
    {
      var piece := pieces[k];
      var index, offset := 0, piece.offset;
      while offset < piece.End()
        invariant piece.offset <= offset <= piece.End()
        invariant BlockRun(blocks, pieces, size)
        invariant offset == piece.offset ==> index == 0 && ((blocks == []) == (k == 0))
        invariant offset == piece.offset && k > 0 ==>
                    && blocks[|blocks| - 1].piece == k - 1
                    && blocks[|blocks| - 1].End() == pieces[k - 1].End()
        invariant offset > piece.offset ==>
                    && blocks != []
                    && var last := blocks[|blocks| - 1];
                       last.piece == k && last.End() == offset && last.block + 1 == index
      {
        var length := Min(piece.End() - offset, size);
        blocks := blocks + [PieceBlock(piece.piece, index, offset, length)];
        offset := offset + length;
        index := index + 1;
      }
    }
  }

  /** The payload geometry a manifest carries. */
  ghost predicate Geometry(pieces: seq<PieceLayout>, blocks: seq<PieceBlock>,
                           pieceSize: nat, blockSize: nat, total: nat)
  {
    && 1 <= blockSize <= pieceSize
    && CutsPayload(pieces, pieceSize, total)
    && CutsPieces(blocks, pieces, blockSize)
  }

  /** The blocks are `[0, total)` in order: what the progress accounting relies on. */
  ghost predicate Chained(blocks: seq<PieceBlock>, blockSize: nat, total: nat) {
    && (forall j :: 0 <= j < |blocks| ==> 1 <= blocks[j].length <= blockSize)
    && (blocks != [] ==> blocks[0].offset == 0)
    && (forall i, j :: 0 <= i && j == i + 1 && j < |blocks| ==> blocks[j].offset == blocks[i].End())
    && total == (if blocks == [] then 0 else blocks[|blocks| - 1].End())
  }

  lemma GeometryChains(pieces: seq<PieceLayout>, blocks: seq<PieceBlock>,
                       pieceSize: nat, blockSize: nat, total: nat)
    requires Geometry(pieces, blocks, pieceSize, blockSize, total)
    ensures Chained(blocks, blockSize, total)
  {
    forall i, j | 0 <= i && j == i + 1 && j < |blocks|
      ensures blocks[j].offset == blocks[i].End()
    {
      assert Follows(blocks[i], blocks[j], pieces);
      assert Inside(blocks[i], pieces, blockSize) && Inside(blocks[j], pieces, blockSize);
    }
  }

  lemma {:induction false} ChainOrder(blocks: seq<PieceBlock>, blockSize: nat, total: nat, i: nat, j: nat)
    requires Chained(blocks, blockSize, total) && i < j < |blocks|
    ensures blocks[i].End() <= blocks[j].offset
  {
    if i + 1 < j {
      ChainOrder(blocks, blockSize, total, i, j - 1);
    }
  }

  lemma ChainBound(blocks: seq<PieceBlock>, blockSize: nat, total: nat, j: nat)
    requires Chained(blocks, blockSize, total) && j < |blocks|
    ensures blocks[j].End() <= total
  {
    if j + 1 < |blocks| {
      ChainOrder(blocks, blockSize, total, j, |blocks| - 1);
    }
  }

  // A block is identified by its piece and its index in that piece.

  predicate SameKey(b: PieceBlock, piece: nat, block: nat) {
    b.piece == piece && b.block == block
  }

  predicate KeyBelow(a: PieceBlock, b: PieceBlock) {
    a.piece < b.piece || (a.piece == b.piece && a.block < b.block)
  }

  ghost predicate KeysIncrease(blocks: seq<PieceBlock>) {
    forall i, j :: 0 <= i < j < |blocks| ==> KeyBelow(blocks[i], blocks[j])
  }

  lemma {:induction false} BlockKeysIncrease(blocks: seq<PieceBlock>, pieces: seq<PieceLayout>, size: nat)
    requires BlockRun(blocks, pieces, size)
    ensures KeysIncrease(blocks)
  {
    if blocks != [] {
      var n := |blocks| - 1;
      BlockKeysIncrease(blocks[..n], pieces, size);
      forall i, j | 0 <= i < j < |blocks|
        ensures KeyBelow(blocks[i], blocks[j])
      {
        if j < n {
          assert KeyBelow(blocks[..n][i], blocks[..n][j]);
        } else {
          assert Follows(blocks[n - 1], blocks[n], pieces);
          if i < n - 1 { assert KeyBelow(blocks[..n][i], blocks[..n][n - 1]); }
        }
      }
    }
  }

  /** Every piece has a block that starts where the piece starts ... */
  lemma {:induction false} PieceHasFirstBlock(blocks: seq<PieceBlock>, pieces: seq<PieceLayout>,
                                              size: nat, p: nat, j: nat)
    returns (first: nat)
    requires BlockRun(blocks, pieces, size) && j < |blocks| && p <= blocks[j].piece
    ensures first <= j && SameKey(blocks[first], p, 0) && blocks[first].offset == pieces[p].offset
  {
    if j == 0 {
      first := 0;
    } else {
      assert Follows(blocks[j - 1], blocks[j], pieces);
      if p <= blocks[j - 1].piece {
        first := PieceHasFirstBlock(blocks, pieces, size, p, j - 1);
      } else {
        first := j;
      }
    }
  }

  /** ... and a block that ends where the piece ends. */
  lemma {:induction false} PieceHasLastBlock(blocks: seq<PieceBlock>, pieces: seq<PieceLayout>,
                                             size: nat, p: nat, j: nat)
    returns (last: nat)
    requires BlockRun(blocks, pieces, size) && j < |blocks|
    requires p < blocks[j].piece || (p == blocks[j].piece && blocks[j].End() == pieces[p].End())
    ensures last <= j && blocks[last].piece == p && blocks[last].End() == pieces[p].End()
  {
    if p == blocks[j].piece {
      last := j;
    } else {
      assert Follows(blocks[j - 1], blocks[j], pieces);
      assert Inside(blocks[j - 1], pieces, size);
      last := PieceHasLastBlock(blocks, pieces, size, p, j - 1);
    }
  }

  // ---------------------------------------------------------------- states

  function InitializePieceStates(pieces: seq<PieceLayout>): (states: seq<PieceState>) {
    seq(|pieces|, k requires 0 <= k < |pieces| => PieceState(pieces[k].piece, false))
  }

  function InitializeBlockStates(blocks: seq<PieceBlock>): (states: seq<BlockState>) {
    seq(|blocks|, j requires 0 <= j < |blocks| => BlockState(blocks[j].piece, blocks[j].block, false))
  }

  /** The states carry the keys of `blocks`, in order. */
  predicate Aligned(states: seq<BlockState>, blocks: seq<PieceBlock>) {
    && |states| == |blocks|
    && forall j :: 0 <= j < |blocks| ==> SameKey(blocks[j], states[j].piece, states[j].block)
  }

  /** `[offset, offset + length)` lies in the inclusive range `[start, end]`. */
  predicate Covered(offset: nat, length: nat, start: nat, end: nat) {
    offset >= start && Max(offset + length - 1, 0) <= end
  }

  function MarkBlocks(states: seq<BlockState>, blocks: seq<PieceBlock>, start: nat, end: nat): (r: seq<BlockState>)
    ensures |r| == |states|
  {
    seq(|states|, j requires 0 <= j < |states| =>
      if j < |blocks| && Covered(blocks[j].offset, blocks[j].length, start, end)
      then states[j].(completed := true) else states[j])
  }

  function MarkPieces(states: seq<PieceState>, pieces: seq<PieceLayout>, start: nat, end: nat): (r: seq<PieceState>)
    ensures |r| == |states|
  {
    seq(|states|, k requires 0 <= k < |states| =>
      if k < |pieces| && Covered(pieces[k].offset, pieces[k].length, start, end)
      then states[k].(completed := true) else states[k])
  }

  method MarkCompletedBlocks(states: array<BlockState>, blocks: seq<PieceBlock>, start: nat, end: nat)
    modifies states
    ensures states[..] == MarkBlocks(old(states[..]), blocks, start, end)
  {
    var j := 0;
    while j < states.Length && j < |blocks|
      invariant 0 <= j <= states.Length && j <= |blocks|
      invariant forall i :: 0 <= i < j ==> states[i] == MarkBlocks(old(states[..]), blocks, start, end)[i]
      invariant forall i :: j <= i < states.Length ==> states[i] == old(states[i])
    {
      if Covered(blocks[j].offset, blocks[j].length, start, end) {
        states[j] := states[j].(completed := true);
      }
      j := j + 1;
    }
  }

  function AllCompleted(states: seq<BlockState>): (r: seq<BlockState>)
    ensures |r| == |states|
    ensures forall j :: 0 <= j < |states| ==> r[j] == states[j].(completed := true)
  {
    seq(|states|, j requires 0 <= j < |states| => states[j].(completed := true))
  }

  /** The completed flag of the first state with this key, `false` when there is none. */
  function Lookup(states: seq<BlockState>, piece: nat, block: nat): bool {
    if states == [] then false
    else if states[0].piece == piece && states[0].block == block then states[0].completed
    else Lookup(states[1..], piece, block)
  }

  lemma {:induction false} LookupMeaning(states: seq<BlockState>, piece: nat, block: nat)
    ensures Lookup(states, piece, block) <==>
              exists j :: 0 <= j < |states| && states[j] == BlockState(piece, block, true) && NoneBefore(states, j, piece, block)
  {
    if states != [] {
      var rest := states[1..];
      LookupMeaning(rest, piece, block);
      if states[0].piece == piece && states[0].block == block {
        assert states[0].completed ==> NoneBefore(states, 0, piece, block);
      } else {
        forall j | 0 <= j < |rest|
          ensures NoneBefore(rest, j, piece, block) <==> NoneBefore(states, j + 1, piece, block)
        {
          assert NoneBefore(states, j + 1, piece, block) ==> forall i :: 0 <= i < j ==> rest[i] == states[i + 1];
        }
        if exists j :: 0 <= j < |rest| && rest[j] == BlockState(piece, block, true) && NoneBefore(rest, j, piece, block) {
          var j :| 0 <= j < |rest| && rest[j] == BlockState(piece, block, true) && NoneBefore(rest, j, piece, block);
          assert states[j + 1] == BlockState(piece, block, true);
        }
        if exists j :: 0 <= j < |states| && states[j] == BlockState(piece, block, true) && NoneBefore(states, j, piece, block) {
          var j :| 0 <= j < |states| && states[j] == BlockState(piece, block, true) && NoneBefore(states, j, piece, block);
          assert rest[j - 1] == states[j];
        }
      }
    }
  }

  /** No state before `n` has this key. */
  ghost predicate NoneBefore(states: seq<BlockState>, n: nat, piece: nat, block: nat) {
    forall i :: 0 <= i < n && i < |states| ==> states[i].piece != piece || states[i].block != block
  }

  predicate AllBlocksDone(piece: nat, blocks: seq<PieceBlock>, states: seq<BlockState>) {
    forall j :: 0 <= j < |blocks| && blocks[j].piece == piece ==>
      Lookup(states, piece, blocks[j].block)
  }

  function DerivePieceStates(pieces: seq<PieceLayout>, blocks: seq<PieceBlock>, states: seq<BlockState>)
    : (r: seq<PieceState>)
  {
    seq(|pieces|, k requires 0 <= k < |pieces| =>
      PieceState(pieces[k].piece, AllBlocksDone(pieces[k].piece, blocks, states)))
  }

  /** Looking a block up by key finds the state at the block's own position. */
  lemma {:induction false} LookupAligned(states: seq<BlockState>, blocks: seq<PieceBlock>, j: nat)
    requires Aligned(states, blocks) && KeysIncrease(blocks) && j < |blocks|
    ensures Lookup(states, blocks[j].piece, blocks[j].block) == states[j].completed
  {
    if j > 0 {
      assert KeyBelow(blocks[0], blocks[j]);
      LookupAligned(states[1..], blocks[1..], j - 1);
    }
  }

  /** The derived state of a piece: every byte range of the piece is in a completed block. */
  lemma DerivedMeaning(pieces: seq<PieceLayout>, blocks: seq<PieceBlock>, states: seq<BlockState>, size: nat, k: nat)
    requires BlockRun(blocks, pieces, size) && Aligned(states, blocks) && k < |pieces|
    ensures DerivePieceStates(pieces, blocks, states)[k].completed <==>
            forall j :: 0 <= j < |blocks| && blocks[j].piece == pieces[k].piece ==> states[j].completed
  {
    BlockKeysIncrease(blocks, pieces, size);
    forall j | 0 <= j < |blocks|
      ensures Lookup(states, blocks[j].piece, blocks[j].block) == states[j].completed
    {
      LookupAligned(states, blocks, j);
    }
  }

  // ---------------------------------------------------------------- blocks and pieces commute

  /** A piece is covered by a range exactly when all of its blocks are. */
  lemma PieceCoveredByBlocks(pieces: seq<PieceLayout>, blocks: seq<PieceBlock>,
                             pieceSize: nat, blockSize: nat, total: nat, k: nat, start: nat, end: nat)
    requires Geometry(pieces, blocks, pieceSize, blockSize, total) && k < |pieces|
    ensures Covered(pieces[k].offset, pieces[k].length, start, end) <==>
            forall j :: 0 <= j < |blocks| && blocks[j].piece == k ==>
              Covered(blocks[j].offset, blocks[j].length, start, end)
  {
    var n := |blocks| - 1;
    var first := PieceHasFirstBlock(blocks, pieces, blockSize, k, n);
    var last := PieceHasLastBlock(blocks, pieces, blockSize, k, n);
    assert Inside(blocks[first], pieces, blockSize) && Inside(blocks[last], pieces, blockSize);
    forall j | 0 <= j < |blocks| && blocks[j].piece == k
      ensures Covered(pieces[k].offset, pieces[k].length, start, end) ==>
              Covered(blocks[j].offset, blocks[j].length, start, end)
    {
      assert Inside(blocks[j], pieces, blockSize);
    }
  }

  /** Deriving pieces from the blocks a range covers equals marking the pieces it covers. */
  lemma DerivedEqualsMarked(pieces: seq<PieceLayout>, blocks: seq<PieceBlock>,
                            pieceSize: nat, blockSize: nat, total: nat, start: nat, end: nat)
    requires Geometry(pieces, blocks, pieceSize, blockSize, total)
    ensures DerivePieceStates(pieces, blocks, MarkBlocks(InitializeBlockStates(blocks), blocks, start, end))
            == MarkPieces(InitializePieceStates(pieces), pieces, start, end)
  {
    var states := MarkBlocks(InitializeBlockStates(blocks), blocks, start, end);
    forall k | 0 <= k < |pieces|
      ensures DerivePieceStates(pieces, blocks, states)[k].completed <==>
              Covered(pieces[k].offset, pieces[k].length, start, end)
    {
      DerivedMeaning(pieces, blocks, states, blockSize, k);
      PieceCoveredByBlocks(pieces, blocks, pieceSize, blockSize, total, k, start, end);
    }
  }

  datatype Range = Range(start: nat, end: nat)

  function MarkAllBlocks(states: seq<BlockState>, blocks: seq<PieceBlock>, ranges: seq<Range>): (r: seq<BlockState>)
    ensures |r| == |states|
    decreases |ranges|
  {
    if ranges == [] then states
    else MarkAllBlocks(MarkBlocks(states, blocks, ranges[0].start, ranges[0].end), blocks, ranges[1..])
  }

  function MarkAllPieces(states: seq<PieceState>, pieces: seq<PieceLayout>, ranges: seq<Range>): (r: seq<PieceState>)
    ensures |r| == |states|
    decreases |ranges|
  {
    if ranges == [] then states
    else MarkAllPieces(MarkPieces(states, pieces, ranges[0].start, ranges[0].end), pieces, ranges[1..])
  }

  ghost predicate SomeCovers(ranges: seq<Range>, offset: nat, length: nat) {
    exists r :: r in ranges && Covered(offset, length, r.start, r.end)
  }

  lemma {:induction false} MarkAllBlocksMeaning(states: seq<BlockState>, blocks: seq<PieceBlock>, ranges: seq<Range>)
    requires |states| == |blocks|
    ensures forall j :: 0 <= j < |blocks| ==>
              MarkAllBlocks(states, blocks, ranges)[j] ==
              states[j].(completed := states[j].completed || SomeCovers(ranges, blocks[j].offset, blocks[j].length))
    decreases |ranges|
  {
    if ranges != [] {
      var r := ranges[0];
      MarkAllBlocksMeaning(MarkBlocks(states, blocks, r.start, r.end), blocks, ranges[1..]);
      assert ranges == [r] + ranges[1..];
    }
  }

  lemma {:induction false} MarkAllPiecesMeaning(states: seq<PieceState>, pieces: seq<PieceLayout>, ranges: seq<Range>)
    requires |states| == |pieces|
    ensures forall k :: 0 <= k < |pieces| ==>
              MarkAllPieces(states, pieces, ranges)[k] ==
              states[k].(completed := states[k].completed || SomeCovers(ranges, pieces[k].offset, pieces[k].length))
    decreases |ranges|
  {
    if ranges != [] {
      var r := ranges[0];
      MarkAllPiecesMeaning(MarkPieces(states, pieces, r.start, r.end), pieces, ranges[1..]);
      assert ranges == [r] + ranges[1..];
    }
  }

  /** Marking is monotone and does not depend on the order or repetition of the ranges. */
  lemma MarkingIsASetOperation(states: seq<BlockState>, blocks: seq<PieceBlock>, a: seq<Range>, b: seq<Range>)
    requires |states| == |blocks|
    requires forall r :: r in a ==> r in b
    ensures forall j :: 0 <= j < |blocks| && MarkAllBlocks(states, blocks, a)[j].completed ==>
              MarkAllBlocks(states, blocks, b)[j].completed
    ensures (forall r :: r in b ==> r in a) ==> MarkAllBlocks(states, blocks, a) == MarkAllBlocks(states, blocks, b)
  {
    MarkAllBlocksMeaning(states, blocks, a);
    MarkAllBlocksMeaning(states, blocks, b);
  }

  /** With several ranges the block form marks at least the pieces the piece form marks. */
  lemma BlocksMarkAtLeastPieces(pieces: seq<PieceLayout>, blocks: seq<PieceBlock>,
                                pieceSize: nat, blockSize: nat, total: nat, ranges: seq<Range>, k: nat)
    requires Geometry(pieces, blocks, pieceSize, blockSize, total) && k < |pieces|
    requires MarkAllPieces(InitializePieceStates(pieces), pieces, ranges)[k].completed
    ensures DerivePieceStates(pieces, blocks, MarkAllBlocks(InitializeBlockStates(blocks), blocks, ranges))[k].completed
  {
    var states := MarkAllBlocks(InitializeBlockStates(blocks), blocks, ranges);
    MarkAllPiecesMeaning(InitializePieceStates(pieces), pieces, ranges);
    MarkAllBlocksMeaning(InitializeBlockStates(blocks), blocks, ranges);
    var r :| r in ranges && Covered(pieces[k].offset, pieces[k].length, r.start, r.end);
    PieceCoveredByBlocks(pieces, blocks, pieceSize, blockSize, total, k, r.start, r.end);
    DerivedMeaning(pieces, blocks, states, blockSize, k);
  }
}
