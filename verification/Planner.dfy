/** Cutting a manifest into execution lanes and assigning them to sources
    (src/scheduler/planner.rs). */
module Planner {
  import opened Widths
  import opened Wrappers
  import opened Sorting
  import opened Pieces
  import opened Sources
  import opened Manifests

  const MAX_HTTP_PIECE_SIZE: nat := 1024 * 1024

  datatype Lane = Lane(
    laneId: nat,
    sourceId: string,
    lengthKnown: bool,
    pieceStart: nat,
    pieceEnd: nat,
    blockStart: nat,
    blockEnd: nat,
    start: nat,
    end: nat)
  {
    /** Bytes of the lane; `end` is inclusive. */
    function Length(): nat { RangeLength(start, end) }
  }

  // ---------------------------------------------------------------- piece size

  /** The piece size that gives every requested worker one piece, before the cap. */
  function IdealPieceSize(total: nat, requestedWorkers: nat): (r: nat)
    requires total > 0
  {
    CeilDiv(total, TargetWorkers(total, requestedWorkers))
  }

  function TargetWorkers(total: nat, requestedWorkers: nat): (t: nat)
    requires total > 0
    ensures 1 <= t <= total
  {
    Min(Max(requestedWorkers, 1), total)
  }

  function SuggestedHttpPieceSize(total: nat, requestedWorkers: nat): nat {
    if total == 0 then 1
    else Max(Min(IdealPieceSize(total, requestedWorkers), MAX_HTTP_PIECE_SIZE), 1)
  }

  // ---------------------------------------------------------------- source order

  /** Position in the preference list, `usize::MAX` when absent. */
  function PreferredIndex(id: string, preferred: seq<string>): nat {
    if preferred == [] then U64_MAX
    else if preferred[0] == id then 0
    else var rest := PreferredIndex(id, preferred[1..]);
         if rest == U64_MAX then U64_MAX else rest + 1
  }

  lemma {:induction false} PreferredPlace(id: string, preferred: seq<string>)
    requires |preferred| < U64_MAX
    ensures if id in preferred then
              var i := PreferredIndex(id, preferred);
              i < |preferred| && preferred[i] == id && forall j :: 0 <= j < i ==> preferred[j] != id
            else PreferredIndex(id, preferred) == U64_MAX
  {
    if preferred != [] {
      PreferredPlace(id, preferred[1..]);
      assert preferred == [preferred[0]] + preferred[1..];
    }
  }

  function RankKey(s: Source, preferred: seq<string>, primaryId: Option<string>): Key {
    [PreferredIndex(s.id, preferred), if primaryId == Some(s.id) then 0 else 1] + Codes(s.id)
  }

  function Ranker(preferred: seq<string>, primaryId: Option<string>): Source -> Key {
    s => RankKey(s, preferred, primaryId)
  }

  function PrimaryId(sources: SourceSet): Option<string> {
    match sources.Primary()
    case Some(s) => Some(s.id)
    case None => None
  }

  function OrderedSources(sources: SourceSet, preferred: seq<string>): seq<Source> {
    SortByKey(sources.ActiveTransferSources(), Ranker(preferred, PrimaryId(sources)))
  }

  // ---------------------------------------------------------------- lanes

  /** Block index of the first block of a piece, 0 when it has none. */
  function FirstBlockIndex(blocks: seq<PieceBlock>, piece: nat): nat {
    if blocks == [] then 0
    else if blocks[0].piece == piece then blocks[0].block
    else FirstBlockIndex(blocks[1..], piece)
  }

  /** Block index of the last block of a piece, 0 when it has none. */
  function LastBlockIndex(blocks: seq<PieceBlock>, piece: nat): nat {
    if blocks == [] then 0
    else if blocks[|blocks| - 1].piece == piece then blocks[|blocks| - 1].block
    else LastBlockIndex(blocks[..|blocks| - 1], piece)
  }

  function AssignmentFromPieceSlice(laneId: nat, sourceId: string, pieces: seq<PieceLayout>, blocks: seq<PieceBlock>)
    : Option<Lane>
  {
    if pieces == [] then None
    else
      var first, last := pieces[0], pieces[|pieces| - 1];
      Some(Lane(laneId, sourceId, true, first.piece, last.piece,
                FirstBlockIndex(blocks, first.piece), LastBlockIndex(blocks, last.piece),
                first.offset, Max(last.End() - 1, 0)))
  }

  /** The piece slice of lane `i` out of `w`. */
  function SliceStart(n: nat, w: nat, i: nat): nat
    requires w > 0
  {
    (i * n) / w
  }

  function LaneCount(pieces: nat, requestedWorkers: nat): nat {
    Min(Max(requestedWorkers, 1), pieces)
  }

  method PlanExecutionLanes(m: Manifest, requestedWorkers: nat, allowParallel: bool, preferred: seq<string>)
    returns (lanes: seq<Lane>)
    requires m.WellFormed()
    ensures lanes == LanePlan(m, requestedWorkers, allowParallel, preferred)
  {
    var transferSources := m.sources.ActiveTransferSources();
    if m.pieces == [] {
      if (!m.totalKnown || transferSources == []) && transferSources != [] {
        return [StreamingLane(transferSources[0].id)];
      }
      return [];
    }
    if transferSources == [] {
      return [];
    }
    transferSources := OrderedSources(m.sources, preferred);
    OrderedNonEmpty(m.sources, preferred);
    if !allowParallel {
      return [AssignmentFromPieceSlice(0, transferSources[0].id, m.pieces, m.blocks).value];
    }
    var n := |m.pieces|;
    var workerCount := LaneCount(n, requestedWorkers);
    lanes := [];
    for index := 0 to workerCount
      invariant lanes == ParallelPlan(m, workerCount, transferSources, index)
    {
      var pieceStart := (index * n) / workerCount;
      var pieceEnd := ((index + 1) * n) / workerCount;
      SliceBounds(n, workerCount, index);
      if pieceStart == pieceEnd {
        continue;
      }
      var slice := m.pieces[pieceStart..pieceEnd];
      var sourceId := transferSources[index % |transferSources|].id;
      var assignment := AssignmentFromPieceSlice(index, sourceId, slice, m.blocks);
      if assignment.Some? {
        lanes := lanes + [assignment.value];
      }
    }
  }

  function StreamingLane(sourceId: string): Lane {
    Lane(0, sourceId, false, 0, 0, 0, 0, 0, 0)
  }

  /** A download of unknown size is one lane without bounds, from the transfer source stored first. */
  lemma StreamingPlan(m: Manifest, requestedWorkers: nat, allowParallel: bool, preferred: seq<string>)
    requires m.WellFormed() && !m.totalKnown
    ensures var active := m.sources.ActiveTransferSources();
            LanePlan(m, requestedWorkers, allowParallel, preferred)
            == if active == [] then [] else [Lane(0, active[0].id, false, 0, 0, 0, 0, 0, 0)]
  {
  }

  lemma OrderedNonEmpty(sources: SourceSet, preferred: seq<string>)
    ensures |OrderedSources(sources, preferred)| == |sources.ActiveTransferSources()|
    ensures forall s :: s in OrderedSources(sources, preferred) <==> s in sources.sources && CanTransfer(s)
  {
    SortPermutes(sources.ActiveTransferSources(), Ranker(preferred, PrimaryId(sources)));
  }

  /** Lane `i` of `w`: a whole number of pieces, and a source picked round-robin. */
  function LaneAt(m: Manifest, w: nat, ordered: seq<Source>, i: nat): Lane
    requires m.WellFormed() && i < w <= |m.pieces| && ordered != []
  {
    SliceBounds(|m.pieces|, w, i);
    AssignmentFromPieceSlice(
      i, ordered[i % |ordered|].id,
      m.pieces[SliceStart(|m.pieces|, w, i)..SliceStart(|m.pieces|, w, i + 1)], m.blocks).value
  }

  function ParallelPlan(m: Manifest, w: nat, ordered: seq<Source>, count: nat): (lanes: seq<Lane>)
    requires m.WellFormed() && count <= w <= |m.pieces| && ordered != []
    ensures |lanes| == count
  {
    seq(count, i requires 0 <= i < count => LaneAt(m, w, ordered, i))
  }

  function LanePlan(m: Manifest, requestedWorkers: nat, allowParallel: bool, preferred: seq<string>): seq<Lane>
    requires m.WellFormed()
  {
    var active := m.sources.ActiveTransferSources();
    if active == [] then []
    else if m.pieces == [] then
      if m.totalKnown then [] else [StreamingLane(active[0].id)]
    else
      OrderedNonEmpty(m.sources, preferred);
      var ordered := OrderedSources(m.sources, preferred);
      if allowParallel then
        var w := LaneCount(|m.pieces|, requestedWorkers);
        ParallelPlan(m, w, ordered, w)
      else
        [AssignmentFromPieceSlice(0, ordered[0].id, m.pieces, m.blocks).value]
  }

  // ---------------------------------------------------------------- arithmetic of the slices

  /** Going one lane further adds floor(n / w) pieces, or one more. */
  lemma SliceStep(n: nat, w: nat, i: nat)
    requires w > 0
    ensures n / w <= SliceStart(n, w, i + 1) - SliceStart(n, w, i) <= n / w + 1
  {
    assert (i + 1) * n == i * n + n;
    DivSum(i * n, n, w);
  }

  lemma DivSum(a: nat, b: nat, w: nat)
    requires w > 0
    ensures a / w + b / w <= (a + b) / w <= a / w + b / w + 1
  {
    QuotientOfSum(a, a / w, a % w, b, b / w, b % w, w);
  }

  lemma QuotientOfSum(a: nat, p: nat, r: nat, b: nat, q: nat, s: nat, w: nat)
    requires r < w && s < w && a == p * w + r && b == q * w + s
    ensures (a + b) / w == if r + s < w then p + q else p + q + 1
  {
    Distribute(p, q, w);
    Distribute(p + q, 1, w);
    DivUnique(a + b, w, if r + s < w then p + q else p + q + 1);
  }

  lemma Distribute(p: nat, q: nat, w: nat)
    ensures (p + q) * w == p * w + q * w
  {
  }

  lemma SliceEnds(n: nat, w: nat)
    requires w > 0
    ensures SliceStart(n, w, 0) == 0 && SliceStart(n, w, w) == n
  {
    assert 0 * n == 0 && 0 * w == 0 && w * n == n * w;
    DivUnique(0 * n, w, 0);
    DivUnique(w * n, w, n);
  }

  lemma SliceMonotone(n: nat, w: nat, i: nat)
    requires 0 < w && i <= w
    ensures SliceStart(n, w, i) <= n
  {
    MulMono(i, w, n);
    var d := (i * n) / w;
    assert i * n == d * w + (i * n) % w;
    assert n * w == w * n;
    MulCancel(d, n, w);
  }

  /** With no more lanes than pieces, every lane is a non-empty slice. */
  lemma SliceBounds(n: nat, w: nat, i: nat)
    requires 0 < w <= n && i < w
    ensures SliceStart(n, w, i) < SliceStart(n, w, i + 1) <= n
  {
    assert n / w >= 1 by {
      assert n == (n / w) * w + n % w;
      MulCancel(1, n / w, w);
    }
    SliceStep(n, w, i);
    SliceMonotone(n, w, i + 1);
  }

  // ---------------------------------------------------------------- what a plan is

  /** The lanes are `[0, total)` in order, cut at piece boundaries. */
  ghost predicate Partition(lanes: seq<Lane>, m: Manifest) {
    && lanes != [] && m.pieces != []
    && lanes[0].pieceStart == 0
    && lanes[|lanes| - 1].pieceEnd == |m.pieces| - 1
    && (forall i :: 0 <= i < |lanes| ==> WholePieces(lanes[i], m) && lanes[i].laneId == i)
    && (forall i, k :: 0 <= i && k == i + 1 && k < |lanes| ==> lanes[k].pieceStart == lanes[i].pieceEnd + 1)
  }

  /** The lane is the byte range of pieces `pieceStart` to `pieceEnd`. */
  ghost predicate WholePieces(lane: Lane, m: Manifest) {
    && lane.lengthKnown
    && lane.pieceStart <= lane.pieceEnd < |m.pieces|
    && lane.start == m.pieces[lane.pieceStart].offset
    && lane.end + 1 == m.pieces[lane.pieceEnd].End()
    && lane.start <= lane.end
    && lane.blockStart == 0
  }

  ghost predicate Tiles(lanes: seq<Lane>, total: nat) {
    && lanes != []
    && lanes[0].start == 0
    && lanes[|lanes| - 1].end + 1 == total
    && (forall i :: 0 <= i < |lanes| ==> lanes[i].start <= lanes[i].end)
    && (forall i, k :: 0 <= i && k == i + 1 && k < |lanes| ==> lanes[k].start == lanes[i].end + 1)
  }

  lemma {:induction false} FirstBlockIndexIsZero(blocks: seq<PieceBlock>, piece: nat, first: nat)
    requires first < |blocks| && SameKey(blocks[first], piece, 0)
    requires KeysIncrease(blocks)
    ensures FirstBlockIndex(blocks, piece) == 0
  {
    if first > 0 {
      assert KeyBelow(blocks[0], blocks[first]);
      FirstBlockIndexIsZero(blocks[1..], piece, first - 1);
    }
  }

  lemma {:induction false} LastBlockIndexIs(blocks: seq<PieceBlock>, piece: nat, last: nat)
    requires last < |blocks| && blocks[last].piece == piece
    requires forall j :: last < j < |blocks| ==> blocks[j].piece != piece
    ensures LastBlockIndex(blocks, piece) == blocks[last].block
  {
    if last + 1 < |blocks| {
      LastBlockIndexIs(blocks[..|blocks| - 1], piece, last);
    }
  }

  /** The lane's block keys are those of the blocks that begin and end where the lane does. */
  ghost predicate NamesItsBlocks(lane: Lane, m: Manifest) {
    && (exists j :: 0 <= j < |m.blocks| && BeginsLane(m.blocks[j], lane))
    && (exists j :: 0 <= j < |m.blocks| && EndsLane(m.blocks[j], lane))
  }

  ghost predicate BeginsLane(b: PieceBlock, lane: Lane) {
    b.piece == lane.pieceStart && b.block == lane.blockStart && b.offset == lane.start
  }

  ghost predicate EndsLane(b: PieceBlock, lane: Lane) {
    b.piece == lane.pieceEnd && b.block == lane.blockEnd && b.End() == lane.end + 1
  }

  /** Behind the block that ends where a piece ends there is no other block of the piece. */
  lemma NoneBehind(m: Manifest, piece: nat, last: nat, j: nat)
    requires m.WellFormed() && piece < |m.pieces| && last < j < |m.blocks|
    requires m.blocks[last].piece == piece && m.blocks[last].End() == m.pieces[piece].End()
    ensures m.blocks[j].piece != piece
  {
    GeometryChains(m.pieces, m.blocks, m.pieceSize, m.blockSize, m.total);
    ChainOrder(m.blocks, m.blockSize, m.total, last, j);
    assert Inside(m.blocks[j], m.pieces, m.blockSize);
  }

  lemma WholePiecesNameBlocks(m: Manifest, lane: Lane)
    requires m.WellFormed() && WholePieces(lane, m) && lane.blockEnd == LastBlockIndex(m.blocks, lane.pieceEnd)
    ensures NamesItsBlocks(lane, m)
  {
    BlockKeysIncrease(m.blocks, m.pieces, m.blockSize);
    var n := |m.blocks| - 1;
    var first := PieceHasFirstBlock(m.blocks, m.pieces, m.blockSize, lane.pieceStart, n);
    var last := PieceHasLastBlock(m.blocks, m.pieces, m.blockSize, lane.pieceEnd, n);
    forall j | last < j < |m.blocks|
      ensures m.blocks[j].piece != lane.pieceEnd
    {
      NoneBehind(m, lane.pieceEnd, last, j);
    }
    LastBlockIndexIs(m.blocks, lane.pieceEnd, last);
    assert BeginsLane(m.blocks[first], lane) && EndsLane(m.blocks[last], lane);
  }

  lemma SliceIsWholePieces(m: Manifest, laneId: nat, sourceId: string, lo: nat, hi: nat)
    requires m.WellFormed() && lo < hi <= |m.pieces|
    ensures var lane := AssignmentFromPieceSlice(laneId, sourceId, m.pieces[lo..hi], m.blocks).value;
            && WholePieces(lane, m) && NamesItsBlocks(lane, m) && lane.pieceStart == lo && lane.pieceEnd == hi - 1
            && lane.laneId == laneId && lane.sourceId == sourceId
  {
    PieceStartsAtBlockZero(m, lo);
    if lo + 1 < hi { PieceOrder(m.pieces, m.pieceSize, lo, hi - 1); }
    WholePiecesNameBlocks(m, AssignmentFromPieceSlice(laneId, sourceId, m.pieces[lo..hi], m.blocks).value);
  }

  lemma PieceStartsAtBlockZero(m: Manifest, piece: nat)
    requires m.WellFormed() && piece < |m.pieces|
    ensures FirstBlockIndex(m.blocks, piece) == 0
  {
    BlockKeysIncrease(m.blocks, m.pieces, m.blockSize);
    var first := PieceHasFirstBlock(m.blocks, m.pieces, m.blockSize, piece, |m.blocks| - 1);
    FirstBlockIndexIsZero(m.blocks, piece, first);
  }

  /** Lane `i` is the pieces from `from` up to `to`. */
  ghost predicate CutAt(lane: Lane, m: Manifest, i: nat, from: nat, to: nat) {
    WholePieces(lane, m) && lane.laneId == i && lane.pieceStart == from && lane.pieceEnd + 1 == to
  }

  lemma LaneAtSource(m: Manifest, w: nat, ordered: seq<Source>, i: nat)
    requires m.WellFormed() && i < w <= |m.pieces| && ordered != []
    ensures var lane := LaneAt(m, w, ordered, i);
            && lane.sourceId == ordered[i % |ordered|].id && WholePieces(lane, m) && NamesItsBlocks(lane, m)
            && CutAt(lane, m, i, SliceStart(|m.pieces|, w, i), SliceStart(|m.pieces|, w, i + 1))
  {
    SliceBounds(|m.pieces|, w, i);
    SliceIsWholePieces(m, i, ordered[i % |ordered|].id, SliceStart(|m.pieces|, w, i), SliceStart(|m.pieces|, w, i + 1));
  }

  /** The lanes are cut at these places, and each is `size` pieces or one more. */
  ghost predicate CutEvenly(lanes: seq<Lane>, m: Manifest, cuts: seq<nat>, size: nat) {
    && |cuts| == |lanes| + 1 && cuts[0] == 0 && cuts[|lanes|] == |m.pieces|
    && forall i {:trigger lanes[i]} :: 0 <= i < |lanes| ==>
         CutAt(lanes[i], m, i, cuts[i], cuts[i + 1]) && size <= cuts[i + 1] - cuts[i] <= size + 1
  }

  /** The parallel lanes are floor(pieces / lanes) pieces each, or one more. */
  lemma LaneCuts(m: Manifest, w: nat, ordered: seq<Source>) returns (cuts: seq<nat>, size: nat)
    requires m.WellFormed() && 0 < w <= |m.pieces| && ordered != []
    ensures CutEvenly(ParallelPlan(m, w, ordered, w), m, cuts, size)
  {
    var n := |m.pieces|;
    cuts, size := seq(w + 1, i requires 0 <= i => SliceStart(n, w, i)), n / w;
    SliceEnds(n, w);
    var lanes := ParallelPlan(m, w, ordered, w);
    forall i {:trigger lanes[i]} | 0 <= i < w
      ensures CutAt(lanes[i], m, i, cuts[i], cuts[i + 1]) && size <= cuts[i + 1] - cuts[i] <= size + 1
    {
      LaneAtSource(m, w, ordered, i);
      SliceStep(n, w, i);
    }
  }

  lemma CutsPartition(lanes: seq<Lane>, m: Manifest, cuts: seq<nat>, size: nat)
    requires lanes != [] && m.pieces != [] && CutEvenly(lanes, m, cuts, size)
    ensures Partition(lanes, m) && Balanced(lanes)
  {
  }

  /** Any two lanes differ by at most one piece. */
  ghost predicate Balanced(lanes: seq<Lane>) {
    forall i, j :: 0 <= i < |lanes| && 0 <= j < |lanes| ==>
      lanes[i].pieceEnd - lanes[i].pieceStart <= lanes[j].pieceEnd - lanes[j].pieceStart + 1
  }

  lemma OneLanePartitions(m: Manifest, ordered: seq<Source>)
    requires m.WellFormed() && m.pieces != [] && ordered != []
    ensures var lanes := [AssignmentFromPieceSlice(0, ordered[0].id, m.pieces, m.blocks).value];
            Partition(lanes, m) && Balanced(lanes)
  {
    assert m.pieces[0..|m.pieces|] == m.pieces;
    SliceIsWholePieces(m, 0, ordered[0].id, 0, |m.pieces|);
  }

  /** Lanes partition the payload, in order, into whole pieces; any two lanes differ by at most one piece. */
  lemma PlanPartitions(m: Manifest, requestedWorkers: nat, allowParallel: bool, preferred: seq<string>)
    requires m.WellFormed() && m.pieces != [] && m.sources.ActiveTransferSources() != []
    ensures var lanes := LanePlan(m, requestedWorkers, allowParallel, preferred);
            && Partition(lanes, m) && Balanced(lanes)
            && |lanes| == if allowParallel then Min(Max(requestedWorkers, 1), |m.pieces|) else 1
  {
    OrderedNonEmpty(m.sources, preferred);
    var ordered := OrderedSources(m.sources, preferred);
    if allowParallel {
      var w := LaneCount(|m.pieces|, requestedWorkers);
      var cuts, size := LaneCuts(m, w, ordered);
      CutsPartition(ParallelPlan(m, w, ordered, w), m, cuts, size);
    } else {
      OneLanePartitions(m, ordered);
    }
  }

  lemma OneLaneSource(m: Manifest, ordered: seq<Source>)
    requires m.WellFormed() && m.pieces != [] && ordered != []
    ensures var lane := AssignmentFromPieceSlice(0, ordered[0].id, m.pieces, m.blocks).value;
            lane.sourceId == ordered[0].id && WholePieces(lane, m) && NamesItsBlocks(lane, m)
  {
    assert m.pieces[0..|m.pieces|] == m.pieces;
    SliceIsWholePieces(m, 0, ordered[0].id, 0, |m.pieces|);
  }

  /** Lane `i` serves its pieces from the source in position `i` of the order, going round; without range
      requests there is one lane, from the first source. */
  lemma PlannedLaneSource(m: Manifest, requestedWorkers: nat, allowParallel: bool, preferred: seq<string>, i: nat)
    requires m.WellFormed() && m.pieces != [] && m.sources.ActiveTransferSources() != []
    requires i < |LanePlan(m, requestedWorkers, allowParallel, preferred)|
    ensures var lane := LanePlan(m, requestedWorkers, allowParallel, preferred)[i];
            var ordered := OrderedSources(m.sources, preferred);
            && ordered != [] && lane.sourceId == ordered[if allowParallel then i % |ordered| else 0].id
            && WholePieces(lane, m) && NamesItsBlocks(lane, m)
  {
    OrderedNonEmpty(m.sources, preferred);
    var ordered := OrderedSources(m.sources, preferred);
    if allowParallel {
      LaneAtSource(m, LaneCount(|m.pieces|, requestedWorkers), ordered, i);
    } else {
      OneLaneSource(m, ordered);
    }
  }

  /** A partition at piece boundaries tiles the bytes `[0, total)`. */
  lemma PartitionTiles(lanes: seq<Lane>, m: Manifest)
    requires m.WellFormed() && Partition(lanes, m)
    ensures Tiles(lanes, m.total)
  {
    forall i, k | 0 <= i && k == i + 1 && k < |lanes|
      ensures lanes[k].start == lanes[i].end + 1
    {
      assert WholePieces(lanes[i], m) && WholePieces(lanes[k], m);
      assert m.pieces[lanes[i].pieceEnd + 1].offset == m.pieces[lanes[i].pieceEnd].End();
    }
  }
}
