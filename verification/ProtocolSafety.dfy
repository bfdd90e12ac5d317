/** The invariant of the protocol, its preservation by every step, and what follows for whole runs. */
module ProtocolSafety {
  import opened Widths
  import opened Pieces
  import opened Planner
  import opened Progress
  import opened Protocol

  // ---------------------------------------------------------------- invariant

  ghost predicate LaneOnBlocks(blocks: seq<PieceBlock>, start: nat, end: nat) {
    exists lo, hi :: BlockAligned(blocks, start, end, lo, hi)
  }

  ghost predicate WorkerOk(c: Config, w: Worker) {
    && w.start <= w.end < c.m.total
    && w.counter <= w.local
    && w.local + w.inflight <= w.Length()
    && LaneOnBlocks(c.m.blocks, w.start, w.end)
  }

  ghost predicate RowOk(c: Config, row: Row) {
    && row.start <= row.end < c.m.total
    && row.counter <= row.Length()
    && LaneOnBlocks(c.m.blocks, row.start, row.end)
  }

  ghost predicate WorkerCovered(written: set<nat>, w: Worker) {
    && AllWritten(written, w.start, w.start + w.local + w.inflight)
    && (w.done ==> AllWritten(written, w.start, w.start + w.Length()))
  }

  /** A worker whose counter may be read for a claim: it works on the payload and covers what it says. */
  ghost predicate Tracked(written: set<nat>, workers: map<nat, Worker>, id: nat) {
    id in workers && workers[id].attached && WorkerCovered(written, workers[id])
  }

  ghost predicate FlagsOk(c: Config, written: set<nat>, states: seq<BlockState>) {
    Aligned(states, c.m.blocks) && FlagsCovered(c, written, states)
  }

  ghost predicate AllTracked(written: set<nat>, workers: map<nat, Worker>, ids: seq<nat>) {
    forall i :: 0 <= i < |ids| ==> Tracked(written, workers, ids[i])
  }

  ghost predicate FrameOk(c: Config, written: set<nat>, workers: map<nat, Worker>, frame: Frame) {
    match frame
    case ListFrame(todo) => AllTracked(written, workers, todo)
    case SyncFrame(states, todo) => FlagsOk(c, written, states) && AllTracked(written, workers, todo)
    case WorkerFrame(w) => Tracked(written, workers, w)
    case CounterFrame(w, counter) => Tracked(written, workers, w) && counter <= workers[w].counter
    case RowFrame(_, row) => RowOk(c, row) && RowCovered(written, row)
    case FlagsFrame(states) => FlagsOk(c, written, states)
    case CompletionFrame => c.m.total > 0 && AllWritten(written, 0, c.m.total)
  }

  ghost predicate ListedTile(workers: map<nat, Worker>, listed: seq<nat>, total: nat) {
    && listed != []
    && (forall i :: 0 <= i < |listed| ==> listed[i] in workers)
    && workers[listed[0]].start == 0
    && workers[listed[|listed| - 1]].end + 1 == total
    && (forall i, k :: 0 <= i && k == i + 1 && k < |listed| ==>
          workers[listed[k]].start == workers[listed[i]].end + 1)
  }

  ghost predicate InvWorkers(c: Config, workers: map<nat, Worker>, nextId: nat) {
    forall id :: id in workers ==> id < nextId && WorkerOk(c, workers[id])
  }

  ghost predicate InvListed(c: Config, written: set<nat>, workers: map<nat, Worker>, listed: seq<nat>) {
    && AllTracked(written, workers, listed)
    && (listed != [] ==> ListedTile(workers, listed, c.m.total))
  }

  ghost predicate InvFrames(c: Config, written: set<nat>, workers: map<nat, Worker>, frames: map<nat, Frame>) {
    forall f :: f in frames ==> FrameOk(c, written, workers, frames[f])
  }

  ghost predicate InvRows(c: Config, written: set<nat>, rows: map<nat, Row>) {
    forall i :: i in rows ==> RowOk(c, rows[i]) && RowCovered(written, rows[i])
  }

  ghost predicate InvStored(c: Config, written: set<nat>, states: seq<BlockState>, resetUnsaved: bool) {
    !resetUnsaved ==> FlagsCovered(c, written, states)
  }

  ghost predicate Inv(c: Config, s: State) {
    && ContentOk(c, s.content, s.written)
    && InvWorkers(c, s.workers, s.nextId)
    && InvListed(c, s.written, s.workers, s.listed)
    && FlagsOk(c, s.written, s.blocks)
    && InvFrames(c, s.written, s.workers, s.frames)
    && InvRows(c, s.written, s.rows)
    && InvStored(c, s.written, s.storedBlocks, s.resetUnsaved)
  }

  lemma InvIsSafe(c: Config, s: State)
    requires c.Valid() && Inv(c, s)
    ensures Safe(c, s)
  {
    forall i | 0 <= i < |s.listed|
      ensures ClaimCovered(s.written, s.workers, s.listed[i])
    {
      assert Tracked(s.written, s.workers, s.listed[i]);
      assert WorkerOk(c, s.workers[s.listed[i]]);
    }
  }

  lemma InitInv(c: Config)
    requires c.Valid()
    ensures Inv(c, Init(c))
  {
  }

  // ---------------------------------------------------------------- claims persist

  ghost predicate Grows(written: set<nat>, workers: map<nat, Worker>, written': set<nat>, workers': map<nat, Worker>) {
    && written <= written'
    && forall id :: Tracked(written, workers, id) ==>
         Tracked(written', workers', id) && workers[id].counter <= workers'[id].counter
  }

  lemma FlagsPersist(c: Config, written: set<nat>, written': set<nat>, states: seq<BlockState>)
    requires written <= written' && FlagsCovered(c, written, states)
    ensures FlagsCovered(c, written', states)
  {
    forall j | 0 <= j < |states| && j < |c.m.blocks| && states[j].completed
      ensures AllWritten(written', c.m.blocks[j].offset, c.m.blocks[j].End())
    {
      assert AllWritten(written, c.m.blocks[j].offset, c.m.blocks[j].End());
    }
  }

  lemma FramesPersist(c: Config, written: set<nat>, workers: map<nat, Worker>,
                      written': set<nat>, workers': map<nat, Worker>, frames: map<nat, Frame>)
    requires Grows(written, workers, written', workers') && InvFrames(c, written, workers, frames)
    ensures InvFrames(c, written', workers', frames)
  {
    forall f | f in frames
      ensures FrameOk(c, written', workers', frames[f])
    {
      assert FrameOk(c, written, workers, frames[f]);
      match frames[f]
      case ListFrame(_) =>
      case SyncFrame(states, todo) => FlagsPersist(c, written, written', states);
      case WorkerFrame(_) =>
      case CounterFrame(_, _) =>
      case RowFrame(_, row) =>
      case FlagsFrame(states) => FlagsPersist(c, written, written', states);
      case CompletionFrame =>
    }
  }

  lemma RowsPersist(c: Config, written: set<nat>, written': set<nat>, rows: map<nat, Row>)
    requires written <= written' && InvRows(c, written, rows)
    ensures InvRows(c, written', rows)
  {
    forall i | i in rows
      ensures RowOk(c, rows[i]) && RowCovered(written', rows[i])
    {
      assert RowCovered(written, rows[i]);
    }
  }

  /** Flags, rows, frames and what is stored keep their claims when nothing is erased. */
  lemma ClaimsPersist(c: Config, s: State, written': set<nat>, workers': map<nat, Worker>)
    requires Inv(c, s) && Grows(s.written, s.workers, written', workers')
    ensures FlagsOk(c, written', s.blocks)
    ensures InvFrames(c, written', workers', s.frames)
    ensures InvRows(c, written', s.rows)
    ensures InvStored(c, written', s.storedBlocks, s.resetUnsaved)
  {
    FlagsPersist(c, s.written, written', s.blocks);
    FramesPersist(c, s.written, s.workers, written', workers', s.frames);
    RowsPersist(c, s.written, written', s.rows);
    if !s.resetUnsaved { FlagsPersist(c, s.written, written', s.storedBlocks); }
  }

  // ---------------------------------------------------------------- steps of one worker

  /** Worker `w` becomes `x`: same lane, no claim without bytes. */
  ghost predicate Advances(c: Config, written: set<nat>, written': set<nat>, w: Worker, x: Worker) {
    && x.start == w.start && x.end == w.end && w.counter <= x.counter && WorkerOk(c, x)
    && (w.attached && WorkerCovered(written, w) ==> x.attached && WorkerCovered(written', x))
  }

  lemma AdvanceGrows(c: Config, written: set<nat>, written': set<nat>, workers: map<nat, Worker>, w: nat, x: Worker)
    requires w in workers && written <= written' && Advances(c, written, written', workers[w], x)
    ensures Grows(written, workers, written', workers[w := x])
  {
    forall id | Tracked(written, workers, id)
      ensures Tracked(written', workers[w := x], id)
    {
    }
  }

  lemma ListedPersist(c: Config, written: set<nat>, workers: map<nat, Worker>, written': set<nat>,
                      w: nat, x: Worker, listed: seq<nat>)
    requires w in workers && x.start == workers[w].start && x.end == workers[w].end
    requires Grows(written, workers, written', workers[w := x]) && InvListed(c, written, workers, listed)
    ensures InvListed(c, written', workers[w := x], listed)
  {
    var workers' := workers[w := x];
    assert forall id :: id in workers ==> workers'[id].start == workers[id].start && workers'[id].end == workers[id].end;
    forall i | 0 <= i < |listed|
      ensures Tracked(written', workers', listed[i])
    {
      assert Tracked(written, workers, listed[i]);
    }
  }

  lemma WorkerStep(c: Config, s: State, content': seq<byte>, written': set<nat>, w: nat, x: Worker)
    requires Inv(c, s) && w in s.workers
    requires s.written <= written' && ContentOk(c, content', written')
    requires Advances(c, s.written, written', s.workers[w], x)
    ensures Inv(c, s.(content := content', written := written', workers := s.workers[w := x]))
  {
    AdvanceGrows(c, s.written, written', s.workers, w, x);
    ListedPersist(c, s.written, s.workers, written', w, x, s.listed);
    ClaimsPersist(c, s, written', s.workers[w := x]);
  }

  /** What a write leaves: origin bytes where it landed, and a worker that claims no more than that. */
  lemma WriteOk(c: Config, content: seq<byte>, written: set<nat>, x: Worker, n: nat)
    requires ContentOk(c, content, written) && x.Position() + n <= |c.origin|
    requires WorkerOk(c, x) && x.local + x.inflight + n <= x.Length()
    ensures written <= LandedBytes(written, x, n) && ContentOk(c, Landed(c, content, x, n), LandedBytes(written, x, n))
    ensures Advances(c, written, LandedBytes(written, x, n), x, x.Writing(n))
  {
  }

  lemma WriteShape(c: Config, s: State, w: nat, n: nat) returns (content': seq<byte>, written': set<nat>)
    requires ContentOk(c, s.content, s.written) && Enabled(c, s, Write(w, n)) && WorkerOk(c, s.workers[w])
    ensures ApplyWrite(c, s, w, n)
         == s.(content := content', written := written', workers := s.workers[w := s.workers[w].Writing(n)])
    ensures s.written <= written' && ContentOk(c, content', written')
    ensures Advances(c, s.written, written', s.workers[w], s.workers[w].Writing(n))
  {
    var x := s.workers[w];
    content', written' := Landed(c, s.content, x, n), LandedBytes(s.written, x, n);
    WriteOk(c, s.content, s.written, x, n);
  }

  lemma WriteKeepsInv(c: Config, s: State, w: nat, n: nat)
    requires Inv(c, s) && Enabled(c, s, Write(w, n))
    ensures Inv(c, ApplyWrite(c, s, w, n))
  {
    var content', written' := WriteShape(c, s, w, n);
    WorkerStep(c, s, content', written', w, s.workers[w].Writing(n));
  }

  /** Moving, publishing or dropping the bytes of a slice claims nothing new. */
  lemma LocalAdvances(c: Config, written: set<nat>, x: Worker)
    requires WorkerOk(c, x)
    ensures Advances(c, written, written, x, x.Committed())
    ensures Advances(c, written, written, x, x.Published())
    ensures Advances(c, written, written, x, x.Retried())
    ensures Advances(c, written, written, x, x.Restarted())
    ensures x.counter == x.Length() ==> Advances(c, written, written, x, x.Finished())
  {
  }

  lemma LocalKeepsInv(c: Config, s: State, w: nat, x: Worker)
    requires Inv(c, s) && w in s.workers && Advances(c, s.written, s.written, s.workers[w], x)
    ensures Inv(c, SetWorker(s, w, x))
  {
    WorkerStep(c, s, s.content, s.written, w, x);
  }

  lemma CommitKeepsInv(c: Config, s: State, w: nat)
    requires Inv(c, s) && w in s.workers
    ensures Inv(c, SetWorker(s, w, s.workers[w].Committed()))
  {
    LocalAdvances(c, s.written, s.workers[w]);
    LocalKeepsInv(c, s, w, s.workers[w].Committed());
  }

  lemma PublishKeepsInv(c: Config, s: State, w: nat)
    requires Inv(c, s) && w in s.workers
    ensures Inv(c, SetWorker(s, w, s.workers[w].Published()))
  {
    LocalAdvances(c, s.written, s.workers[w]);
    LocalKeepsInv(c, s, w, s.workers[w].Published());
  }

  lemma RetryKeepsInv(c: Config, s: State, w: nat)
    requires Inv(c, s) && w in s.workers
    ensures Inv(c, SetWorker(s, w, s.workers[w].Retried()))
  {
    LocalAdvances(c, s.written, s.workers[w]);
    LocalKeepsInv(c, s, w, s.workers[w].Retried());
  }

  lemma RestartKeepsInv(c: Config, s: State, w: nat)
    requires Inv(c, s) && w in s.workers
    ensures Inv(c, SetWorker(s, w, s.workers[w].Restarted()))
  {
    LocalAdvances(c, s.written, s.workers[w]);
    LocalKeepsInv(c, s, w, s.workers[w].Restarted());
  }

  lemma FinishKeepsInv(c: Config, s: State, w: nat)
    requires Inv(c, s) && w in s.workers && s.workers[w].counter == s.workers[w].Length()
    ensures Inv(c, SetWorker(s, w, s.workers[w].Finished()))
  {
    LocalAdvances(c, s.written, s.workers[w]);
    LocalKeepsInv(c, s, w, s.workers[w].Finished());
  }

  // ---------------------------------------------------------------- reads and stores

  /** Only the frames change, by one frame. */
  lemma FrameStep(c: Config, s: State, f: nat, frame: Frame)
    requires Inv(c, s) && FrameOk(c, s.written, s.workers, frame)
    ensures Inv(c, SetFrame(s, f, frame))
  {
  }

  lemma MarkedBlockCovered(written: set<nat>, b: PieceBlock, w: Worker)
    requires b.length > 0 && w.counter <= w.local <= w.Length() && w.AsProgress().Downloaded() > 0
    requires WorkerCovered(written, w)
    requires Covered(b.offset, b.length, w.start, w.start + w.AsProgress().Downloaded() - 1)
    ensures AllWritten(written, b.offset, b.End())
  {
  }

  /** Marking a covered worker's blocks marks written blocks only. */
  lemma MarkWorkerCovered(c: Config, written: set<nat>, states: seq<BlockState>, w: Worker)
    requires c.Valid() && FlagsOk(c, written, states) && WorkerCovered(written, w) && WorkerOk(c, w)
    ensures FlagsOk(c, written, MarkWorker(states, c.m.blocks, w))
  {
    var marked := MarkWorker(states, c.m.blocks, w);
    forall j | 0 <= j < |marked| && marked[j].completed
      ensures AllWritten(written, c.m.blocks[j].offset, c.m.blocks[j].End())
    {
      if !states[j].completed {
        assert Inside(c.m.blocks[j], c.m.pieces, c.m.blockSize);
        MarkedBlockCovered(written, c.m.blocks[j], w);
      }
    }
  }

  lemma BeginSyncKeepsInv(c: Config, s: State, f: nat)
    requires Inv(c, s) && Enabled(c, s, BeginSync(f))
    ensures Inv(c, Apply(c, s, BeginSync(f)))
  {
    FrameStep(c, s, f, ListFrame(s.listed));
  }

  lemma ReadBlocksKeepsInv(c: Config, s: State, f: nat)
    requires Inv(c, s) && Enabled(c, s, ReadBlocks(f))
    ensures Inv(c, Apply(c, s, ReadBlocks(f)))
  {
    assert FrameOk(c, s.written, s.workers, s.frames[f]);
    InstallKeepsAligned(c.m.blocks, s.blocks);
    FrameStep(c, s, f, SyncFrame(s.blocks, s.frames[f].todo));
  }

  /** Reading one counter turns a sound sync frame into a sound one. */
  lemma SyncWorkerShape(c: Config, s: State, f: nat) returns (frame': Frame)
    requires c.Valid() && InvWorkers(c, s.workers, s.nextId) && Enabled(c, s, SyncWorker(f))
    requires FrameOk(c, s.written, s.workers, s.frames[f])
    ensures Apply(c, s, SyncWorker(f)) == SetFrame(s, f, frame') && FrameOk(c, s.written, s.workers, frame')
  {
    var frame := s.frames[f];
    var w := s.workers[frame.todo[0]];
    assert Tracked(s.written, s.workers, frame.todo[0]);
    MarkWorkerCovered(c, s.written, frame.states, w);
    frame' := SyncFrame(MarkWorker(frame.states, c.m.blocks, w), frame.todo[1..]);
    assert AllTracked(s.written, s.workers, frame.todo[1..]);
  }

  lemma SyncWorkerKeepsInv(c: Config, s: State, f: nat)
    requires c.Valid() && Inv(c, s) && Enabled(c, s, SyncWorker(f))
    ensures Inv(c, Apply(c, s, SyncWorker(f)))
  {
    var frame' := SyncWorkerShape(c, s, f);
    FrameStep(c, s, f, frame');
  }

  lemma BeginRowKeepsInv(c: Config, s: State, f: nat, position: nat)
    requires Inv(c, s) && Enabled(c, s, BeginRow(f, position))
    ensures Inv(c, Apply(c, s, BeginRow(f, position)))
  {
    assert Tracked(s.written, s.workers, s.listed[position]);
    FrameStep(c, s, f, WorkerFrame(s.listed[position]));
  }

  lemma ReadCounterKeepsInv(c: Config, s: State, f: nat)
    requires Inv(c, s) && Enabled(c, s, ReadCounter(f))
    ensures Inv(c, Apply(c, s, ReadCounter(f)))
  {
    assert FrameOk(c, s.written, s.workers, s.frames[f]);
    FrameStep(c, s, f, CounterFrame(s.frames[f].w, s.workers[s.frames[f].w].counter));
  }

  /** A row made of an old counter and a later status claims written bytes only. */
  lemma ReadStatusShape(c: Config, s: State, f: nat) returns (frame': Frame)
    requires InvWorkers(c, s.workers, s.nextId) && Enabled(c, s, ReadStatus(f))
    requires FrameOk(c, s.written, s.workers, s.frames[f])
    ensures Apply(c, s, ReadStatus(f)) == SetFrame(s, f, frame') && FrameOk(c, s.written, s.workers, frame')
  {
    var x := s.workers[s.frames[f].w];
    assert WorkerOk(c, x);
    frame' := RowFrame(x.index, Row(x.start, x.end, s.frames[f].counter, x.done));
  }

  lemma ReadStatusKeepsInv(c: Config, s: State, f: nat)
    requires Inv(c, s) && Enabled(c, s, ReadStatus(f))
    ensures Inv(c, Apply(c, s, ReadStatus(f)))
  {
    var frame' := ReadStatusShape(c, s, f);
    FrameStep(c, s, f, frame');
  }

  lemma ReadFlagsKeepsInv(c: Config, s: State, f: nat)
    requires Inv(c, s) && Enabled(c, s, ReadFlags(f))
    ensures Inv(c, Apply(c, s, ReadFlags(f)))
  {
    FrameStep(c, s, f, FlagsFrame(s.blocks));
  }

  lemma EndSyncKeepsInv(c: Config, s: State, f: nat)
    requires Inv(c, s) && Enabled(c, s, EndSync(f))
    ensures Inv(c, Apply(c, s, EndSync(f)))
  {
    assert FrameOk(c, s.written, s.workers, s.frames[f]);
  }

  lemma StoreRowKeepsInv(c: Config, s: State, f: nat)
    requires Inv(c, s) && Enabled(c, s, StoreRow(f))
    ensures Inv(c, Apply(c, s, StoreRow(f)))
  {
    assert FrameOk(c, s.written, s.workers, s.frames[f]);
  }

  lemma StoreFlagsKeepsInv(c: Config, s: State, f: nat)
    requires Inv(c, s) && Enabled(c, s, StoreFlags(f))
    ensures Inv(c, Apply(c, s, StoreFlags(f)))
  {
    assert FrameOk(c, s.written, s.workers, s.frames[f]);
  }

  // ---------------------------------------------------------------- rebuilding

  /** A planned lane starts and ends at block boundaries. */
  lemma LaneHasBlocks(c: Config, lanes: seq<Lane>, i: nat)
    requires c.Valid() && Partition(lanes, c.m) && i < |lanes|
    ensures LaneOnBlocks(c.m.blocks, lanes[i].start, lanes[i].end)
    ensures lanes[i].start <= lanes[i].end < c.m.total
  {
    var m, lane := c.m, lanes[i];
    assert WholePieces(lane, m);
    var n := |m.blocks| - 1;
    var first := PieceHasFirstBlock(m.blocks, m.pieces, m.blockSize, lane.pieceStart, n);
    var last := PieceHasLastBlock(m.blocks, m.pieces, m.blockSize, lane.pieceEnd, n);
    GeometryChains(m.pieces, m.blocks, m.pieceSize, m.blockSize, m.total);
    ChainBound(m.blocks, m.blockSize, m.total, last);
    if last < first { ChainOrder(m.blocks, m.blockSize, m.total, last, first); }
    assert BlockAligned(m.blocks, lane.start, lane.end, first, last + 1);
  }

  /** The byte range of consecutive completed blocks has been written. */
  lemma {:induction false} BlocksCover(c: Config, written: set<nat>, states: seq<BlockState>, lo: nat, k: nat)
    requires c.Valid() && FlagsOk(c, written, states) && lo <= k <= |c.m.blocks|
    requires forall j :: lo <= j < k ==> states[j].completed
    ensures AllWritten(written, Boundary(c.m.blocks, lo), Boundary(c.m.blocks, k))
    decreases k - lo
  {
    if lo < k {
      GeometryChains(c.m.pieces, c.m.blocks, c.m.pieceSize, c.m.blockSize, c.m.total);
      BlocksCover(c, written, states, lo, k - 1);
      BoundaryOrder(c.m.blocks, c.m.blockSize, c.m.total, k - 1, k);
      assert AllWritten(written, c.m.blocks[k - 1].offset, c.m.blocks[k - 1].End());
    }
  }

  /** A seeded worker claims written bytes only. */
  lemma SeedCovered(c: Config, written: set<nat>, states: seq<BlockState>, lane: Lane)
    requires c.Valid() && FlagsOk(c, written, states)
    requires LaneOnBlocks(c.m.blocks, lane.start, lane.end) && lane.start <= lane.end < c.m.total
    ensures WorkerOk(c, SeededWorker(c, states, lane)) && WorkerCovered(written, SeededWorker(c, states, lane))
  {
    var lo, hi :| BlockAligned(c.m.blocks, lane.start, lane.end, lo, hi);
    SeedBytes(c, written, states, lane.start, lane.end, lo, hi);
  }

  lemma SeedBytes(c: Config, written: set<nat>, states: seq<BlockState>, start: nat, end: nat, lo: nat, hi: nat)
    requires c.Valid() && FlagsOk(c, written, states) && BlockAligned(c.m.blocks, start, end, lo, hi)
    ensures Seed(c.m.blocks, states, start, end) <= Max(end - start, 0) + 1
    ensures AllWritten(written, start, start + Seed(c.m.blocks, states, start, end))
  {
    var blocks := c.m.blocks;
    GeometryChains(c.m.pieces, blocks, c.m.pieceSize, c.m.blockSize, c.m.total);
    BlockKeysIncrease(blocks, c.m.pieces, c.m.blockSize);
    var k := SeedIsCompletedPrefix(blocks, states, c.m.blockSize, c.m.total, start, end, lo, hi);
    LaneSpan(blocks, c.m.blockSize, c.m.total, start, end, lo, hi);
    BlocksCover(c, written, states, lo, k);
  }

  /** `workers` holds, under `ids`, the workers seeded for `lanes`. */
  ghost predicate SeededAs(c: Config, states: seq<BlockState>, lanes: seq<Lane>, ids: seq<nat>, workers: map<nat, Worker>) {
    && |ids| == |lanes|
    && forall i :: 0 <= i < |ids| ==> ids[i] in workers && workers[ids[i]] == SeededWorker(c, states, lanes[i])
  }

  /** The workers seeded for planned lanes are sound, covered and tile the payload. */
  lemma SeededOk(c: Config, written: set<nat>, states: seq<BlockState>,
                 lanes: seq<Lane>, ids: seq<nat>, workers: map<nat, Worker>)
    requires c.Valid() && FlagsOk(c, written, states) && Partition(lanes, c.m)
    requires SeededAs(c, states, lanes, ids, workers)
    ensures InvListed(c, written, workers, ids)
    ensures forall i :: 0 <= i < |ids| ==> WorkerOk(c, workers[ids[i]])
  {
    forall i | 0 <= i < |ids|
      ensures Tracked(written, workers, ids[i]) && WorkerOk(c, workers[ids[i]])
    {
      LaneHasBlocks(c, lanes, i);
      SeedCovered(c, written, states, lanes[i]);
    }
    PartitionTiles(lanes, c.m);
    SeededTile(c, states, lanes, ids, workers);
  }

  lemma SeededTile(c: Config, states: seq<BlockState>, lanes: seq<Lane>, ids: seq<nat>, workers: map<nat, Worker>)
    requires Tiles(lanes, c.m.total) && SeededAs(c, states, lanes, ids, workers)
    ensures ListedTile(workers, ids, c.m.total)
  {
  }

  lemma SeededWorkersAre(c: Config, states: seq<BlockState>, lanes: seq<Lane>, base: nat)
    ensures SeededAs(c, states, lanes, Ids(base, |lanes|), SeededWorkers(c, states, lanes, base))
    ensures forall id :: id in SeededWorkers(c, states, lanes, base) ==>
              base <= id < base + |lanes| && id in Ids(base, |lanes|)
  {
    var added := SeededWorkers(c, states, lanes, base);
    var ids := Ids(base, |lanes|);
    forall i | 0 <= i < |ids|
      ensures ids[i] in added && added[ids[i]] == SeededWorker(c, states, lanes[i])
    {
      assert ids[i] - base == i;
    }
    forall id | id in added
      ensures id in ids
    {
      assert ids[id - base] == id;
    }
  }

  /** Fresh workers come under fresh ids and disturb nobody. */
  lemma SeededWorkersAdded(c: Config, states: seq<BlockState>, lanes: seq<Lane>, ids: seq<nat>,
                           workers: map<nat, Worker>, added: map<nat, Worker>, base: nat)
    requires forall id :: id in workers ==> id < base
    requires forall id :: id in added ==> base <= id < base + |lanes| && id in ids
    requires SeededAs(c, states, lanes, ids, added)
    ensures forall id :: id in workers ==> id in workers + added && (workers + added)[id] == workers[id]
    ensures forall id :: id in workers + added && id !in workers ==> id < base + |lanes| && id in ids
    ensures SeededAs(c, states, lanes, ids, workers + added)
  {
  }

  lemma WorkersExtended(c: Config, written: set<nat>, workers: map<nat, Worker>, workers': map<nat, Worker>,
                        ids: seq<nat>, nextId: nat, nextId': nat)
    requires InvWorkers(c, workers, nextId) && nextId <= nextId'
    requires forall id :: id in workers ==> id in workers' && workers'[id] == workers[id]
    requires forall id :: id in workers' && id !in workers ==> id < nextId' && id in ids
    requires forall i :: 0 <= i < |ids| ==> ids[i] in workers' && WorkerOk(c, workers'[ids[i]])
    ensures Grows(written, workers, written, workers') && InvWorkers(c, workers', nextId')
  {
    forall id | id in workers'
      ensures id < nextId' && WorkerOk(c, workers'[id])
    {
      if id in workers {
        assert WorkerOk(c, workers[id]);
      } else {
        var i :| 0 <= i < |ids| && ids[i] == id;
        assert WorkerOk(c, workers'[ids[i]]);
      }
    }
  }

  lemma FreshWorkers(c: Config, states: seq<BlockState>, lanes: seq<Lane>, workers: map<nat, Worker>, nextId: nat)
    returns (workers': map<nat, Worker>, ids: seq<nat>)
    requires InvWorkers(c, workers, nextId)
    ensures workers' == workers + SeededWorkers(c, states, lanes, nextId) && ids == Ids(nextId, |lanes|)
    ensures forall id :: id in workers ==> id in workers' && workers'[id] == workers[id]
    ensures forall id :: id in workers' && id !in workers ==> id < nextId + |lanes| && id in ids
    ensures SeededAs(c, states, lanes, ids, workers')
  {
    ids := Ids(nextId, |lanes|);
    var added := SeededWorkers(c, states, lanes, nextId);
    workers' := workers + added;
    SeededWorkersAre(c, states, lanes, nextId);
    SeededWorkersAdded(c, states, lanes, ids, workers, added, nextId);
  }

  lemma SeededWorkersOk(c: Config, written: set<nat>, states: seq<BlockState>, lanes: seq<Lane>,
                        workers: map<nat, Worker>, workers': map<nat, Worker>, ids: seq<nat>, nextId: nat, nextId': nat)
    requires c.Valid() && FlagsOk(c, written, states) && Partition(lanes, c.m)
    requires InvWorkers(c, workers, nextId) && nextId <= nextId'
    requires forall id :: id in workers ==> id in workers' && workers'[id] == workers[id]
    requires forall id :: id in workers' && id !in workers ==> id < nextId' && id in ids
    requires SeededAs(c, states, lanes, ids, workers')
    ensures Grows(written, workers, written, workers') && InvWorkers(c, workers', nextId')
    ensures InvListed(c, written, workers', ids)
  {
    SeededOk(c, written, states, lanes, ids, workers');
    WorkersExtended(c, written, workers, workers', ids, nextId, nextId');
  }

  lemma RebuildKeepsInv(c: Config, s: State, lanes: seq<Lane>)
    requires c.Valid() && Inv(c, s) && Enabled(c, s, Rebuild(lanes))
    ensures Inv(c, ApplyRebuild(c, s, lanes))
  {
    var workers', ids := FreshWorkers(c, s.blocks, lanes, s.workers, s.nextId);
    SeededWorkersOk(c, s.written, s.blocks, lanes, s.workers, workers', ids, s.nextId, s.nextId + |lanes|);
    ClaimsPersist(c, s, s.written, workers');
  }

  // ---------------------------------------------------------------- reset, restore, finalize

  /** Frames without claims survive a reset, which erases everything claims could be about. */
  lemma ClaimlessFramesStayOk(c: Config, written: set<nat>, workers: map<nat, Worker>, frames: map<nat, Frame>)
    requires InvFrames(c, written, workers, frames)
    requires forall f :: f in frames ==> Claimless(frames[f])
    ensures InvFrames(c, {}, Detached(workers), frames)
  {
    forall f | f in frames
      ensures FrameOk(c, {}, Detached(workers), frames[f])
    {
      assert FrameOk(c, written, workers, frames[f]) && Claimless(frames[f]);
    }
  }

  lemma DetachedWorkersOk(c: Config, workers: map<nat, Worker>, nextId: nat)
    requires InvWorkers(c, workers, nextId)
    ensures InvWorkers(c, Detached(workers), nextId)
  {
    forall id | id in workers
      ensures WorkerOk(c, workers[id].(attached := false))
    {
      assert WorkerOk(c, workers[id]);
    }
  }

  lemma ResetKeepsInv(c: Config, s: State)
    requires c.Valid() && Inv(c, s) && Quiescent(s)
    ensures Inv(c, ApplyReset(c, s))
  {
    ClaimlessFramesStayOk(c, s.written, s.workers, s.frames);
    DetachedWorkersOk(c, s.workers, s.nextId);
  }

  lemma RestoredWorkersOk(c: Config, written: set<nat>, rows: map<nat, Row>, order: seq<nat>)
    requires InvRows(c, written, rows) && forall i :: 0 <= i < |order| ==> order[i] in rows
    ensures InvWorkers(c, RestoredWorkers(rows, order), |order|)
    ensures AllTracked(written, RestoredWorkers(rows, order), Ids(0, |order|))
  {
    var workers := RestoredWorkers(rows, order);
    forall id | id in workers
      ensures WorkerOk(c, workers[id]) && Tracked(written, workers, id)
    {
      assert RowOk(c, rows[order[id]]) && RowCovered(written, rows[order[id]]);
    }
  }

  lemma RestoredTile(rows: map<nat, Row>, order: seq<nat>, total: nat)
    requires RowsTile(rows, order, total)
    ensures ListedTile(RestoredWorkers(rows, order), Ids(0, |order|), total)
  {
    var workers := RestoredWorkers(rows, order);
    assert forall i :: 0 <= i < |order| ==> workers[i] == WorkerFromRow(order[i], rows[order[i]]);
  }

  lemma InstalledCovered(c: Config, written: set<nat>, states: seq<BlockState>)
    requires FlagsCovered(c, written, states)
    ensures FlagsOk(c, written, InstalledBlocks(c.m.blocks, states))
  {
    var r := InstalledBlocks(c.m.blocks, states);
    forall j | 0 <= j < |r| && r[j].completed
      ensures AllWritten(written, c.m.blocks[j].offset, c.m.blocks[j].End())
    {
      assert j < |states| && states[j].completed;
    }
  }

  lemma RestoreKeepsInv(c: Config, s: State, order: seq<nat>)
    requires c.Valid() && Inv(c, s) && Enabled(c, s, Restore(order))
    ensures Inv(c, Apply(c, s, Restore(order)))
  {
    InstalledCovered(c, s.written, s.storedBlocks);
    RestoredWorkersOk(c, s.written, s.rows, order);
    if order != [] { RestoredTile(s.rows, order, c.m.total); }
  }

  /** Every byte of the listed lane has been written. */
  ghost predicate LaneWritten(s: State, i: nat)
    requires i < |s.listed|
  {
    s.listed[i] in s.workers
    && AllWritten(s.written, s.workers[s.listed[i]].start, s.workers[s.listed[i]].end + 1)
  }

  /** Consecutive written lanes cover what they span. */
  lemma {:induction false} ListedCover(s: State, total: nat, n: nat)
    requires ListedTile(s.workers, s.listed, total) && 0 < n <= |s.listed|
    requires forall i :: 0 <= i < |s.listed| ==> LaneWritten(s, i)
    ensures AllWritten(s.written, 0, s.workers[s.listed[n - 1]].end + 1)
  {
    assert LaneWritten(s, n - 1);
    if n > 1 {
      ListedCover(s, total, n - 1);
      assert s.workers[s.listed[n - 1]].start == s.workers[s.listed[n - 2]].end + 1;
    }
  }

  /** Every listed worker has a full counter, or has been marked as completed. */
  ghost predicate ListedFull(s: State) {
    forall i :: 0 <= i < |s.listed| ==>
      s.listed[i] in s.workers && s.workers[s.listed[i]].Claim() == s.workers[s.listed[i]].Length()
  }

  lemma FullLanesWritten(c: Config, s: State)
    requires InvWorkers(c, s.workers, s.nextId) && AllTracked(s.written, s.workers, s.listed) && ListedFull(s)
    ensures forall i :: 0 <= i < |s.listed| ==> LaneWritten(s, i)
  {
    forall i | 0 <= i < |s.listed|
      ensures LaneWritten(s, i)
    {
      assert Tracked(s.written, s.workers, s.listed[i]);
      assert WorkerOk(c, s.workers[s.listed[i]]);
    }
  }

  /** Assembly: once every listed lane is full, the payload is the origin, byte for byte. */
  lemma FullLanesAssemble(c: Config, s: State)
    requires c.Valid() && Inv(c, s) && s.listed != [] && ListedFull(s)
    ensures AllWritten(s.written, 0, c.m.total)
    ensures s.content == c.origin
  {
    FullLanesWritten(c, s);
    ListedCover(s, c.m.total, |s.listed|);
    OnlyOrigin(c, s.content, s.written);
  }

  lemma OnlyOrigin(c: Config, content: seq<byte>, written: set<nat>)
    requires ContentOk(c, content, written) && AllWritten(written, 0, |c.origin|)
    ensures content == c.origin
  {
  }

  lemma MarkAllCovered(c: Config, written: set<nat>, states: seq<BlockState>)
    requires c.Valid() && Aligned(states, c.m.blocks) && AllWritten(written, 0, c.m.total)
    ensures FlagsOk(c, written, AllCompleted(states))
  {
    GeometryChains(c.m.pieces, c.m.blocks, c.m.pieceSize, c.m.blockSize, c.m.total);
    forall j | 0 <= j < |c.m.blocks|
      ensures AllWritten(written, c.m.blocks[j].offset, c.m.blocks[j].End())
    {
      ChainBound(c.m.blocks, c.m.blockSize, c.m.total, j);
    }
  }

  /** All listed workers completed: the payload is the origin, and may be marked so. */
  lemma CheckCompletedKeepsInv(c: Config, s: State, f: nat)
    requires c.Valid() && Inv(c, s) && Enabled(c, s, CheckCompleted(f))
    ensures s.content == c.origin
    ensures Inv(c, Apply(c, s, CheckCompleted(f)))
  {
    assert ListedFull(s);
    FullLanesAssemble(c, s);
    assert WorkerOk(c, s.workers[s.listed[0]]);
    FrameStep(c, s, f, CompletionFrame);
  }

  lemma CompleteKeepsInv(c: Config, s: State, f: nat)
    requires c.Valid() && Inv(c, s) && Enabled(c, s, Complete(f))
    ensures Inv(c, Apply(c, s, Complete(f)))
  {
    assert FrameOk(c, s.written, s.workers, s.frames[f]);
    MarkAllCovered(c, s.written, s.blocks);
    FrameGone(c, s.written, s.workers, s.frames, f);
  }

  lemma FrameGone(c: Config, written: set<nat>, workers: map<nat, Worker>, frames: map<nat, Frame>, f: nat)
    requires InvFrames(c, written, workers, frames)
    ensures InvFrames(c, written, workers, frames - {f})
  {
  }

  // ---------------------------------------------------------------- runs

  lemma SyncActionKeepsInv(c: Config, s: State, a: Action)
    requires c.Valid() && Inv(c, s) && Enabled(c, s, a) && (a.BeginSync? || a.ReadBlocks? || a.SyncWorker? || a.EndSync?)
    ensures Inv(c, Apply(c, s, a))
  {
    match a
    case BeginSync(f) => BeginSyncKeepsInv(c, s, f);
    case ReadBlocks(f) => ReadBlocksKeepsInv(c, s, f);
    case SyncWorker(f) => SyncWorkerKeepsInv(c, s, f);
    case EndSync(f) => EndSyncKeepsInv(c, s, f);
  }

  lemma ReadActionKeepsInv(c: Config, s: State, a: Action)
    requires Inv(c, s) && Enabled(c, s, a) && (a.BeginRow? || a.ReadCounter? || a.ReadStatus? || a.ReadFlags?)
    ensures Inv(c, Apply(c, s, a))
  {
    match a
    case BeginRow(f, position) => BeginRowKeepsInv(c, s, f, position);
    case ReadCounter(f) => ReadCounterKeepsInv(c, s, f);
    case ReadStatus(f) => ReadStatusKeepsInv(c, s, f);
    case ReadFlags(f) => ReadFlagsKeepsInv(c, s, f);
  }

  lemma StoreActionKeepsInv(c: Config, s: State, a: Action)
    requires Inv(c, s) && Enabled(c, s, a) && (a.StoreRow? || a.StoreFlags?)
    ensures Inv(c, Apply(c, s, a))
  {
    match a
    case StoreRow(f) => StoreRowKeepsInv(c, s, f);
    case StoreFlags(f) => StoreFlagsKeepsInv(c, s, f);
  }

  lemma PurgeKeepsInv(c: Config, s: State)
    requires Inv(c, s)
    ensures Inv(c, s.(rows := map[]))
  {
  }

  lemma LocalActionKeepsInv(c: Config, s: State, a: Action)
    requires Inv(c, s) && Enabled(c, s, a) && (a.Commit? || a.Publish? || a.Retry? || a.Restart? || a.Finish?)
    ensures Inv(c, Apply(c, s, a))
  {
    match a
    case Commit(w) => CommitKeepsInv(c, s, w);
    case Publish(w) => PublishKeepsInv(c, s, w);
    case Retry(w) => RetryKeepsInv(c, s, w);
    case Restart(w) => RestartKeepsInv(c, s, w);
    case Finish(w) => FinishKeepsInv(c, s, w);
  }

  lemma TaskActionKeepsInv(c: Config, s: State, a: Action)
    requires c.Valid() && Inv(c, s) && Enabled(c, s, a)
    requires a.PurgeRows? || a.Rebuild? || a.Reset? || a.Restore?
    ensures Inv(c, Apply(c, s, a))
  {
    match a
    case PurgeRows => PurgeKeepsInv(c, s);
    case Rebuild(lanes) => RebuildKeepsInv(c, s, lanes);
    case Reset => ResetKeepsInv(c, s);
    case Restore(order) => RestoreKeepsInv(c, s, order);
  }

  lemma CompletionActionKeepsInv(c: Config, s: State, a: Action)
    requires c.Valid() && Inv(c, s) && Enabled(c, s, a) && (a.CheckCompleted? || a.Complete?)
    ensures Inv(c, Apply(c, s, a))
  {
    match a
    case CheckCompleted(f) => CheckCompletedKeepsInv(c, s, f);
    case Complete(f) => CompleteKeepsInv(c, s, f);
  }

  /** Every enabled step keeps the invariant. */
  lemma StepKeepsInv(c: Config, s: State, a: Action)
    requires c.Valid() && Inv(c, s) && Enabled(c, s, a)
    ensures Inv(c, Apply(c, s, a))
  {
    if a.Write? {
      WriteKeepsInv(c, s, a.w, a.n);
    } else if a.Commit? || a.Publish? || a.Retry? || a.Restart? || a.Finish? {
      LocalActionKeepsInv(c, s, a);
    } else if a.BeginSync? || a.ReadBlocks? || a.SyncWorker? || a.EndSync? {
      SyncActionKeepsInv(c, s, a);
    } else if a.BeginRow? || a.ReadCounter? || a.ReadStatus? || a.ReadFlags? {
      ReadActionKeepsInv(c, s, a);
    } else if a.StoreRow? || a.StoreFlags? {
      StoreActionKeepsInv(c, s, a);
    } else if a.CheckCompleted? || a.Complete? {
      CompletionActionKeepsInv(c, s, a);
    } else {
      TaskActionKeepsInv(c, s, a);
    }
  }

  lemma {:induction false} RunKeepsInv(c: Config, s: State, actions: seq<Action>)
    requires c.Valid() && Inv(c, s) && CanRun(c, s, actions)
    ensures Inv(c, RunFrom(c, s, actions))
    decreases |actions|
  {
    if actions != [] {
      StepKeepsInv(c, s, actions[0]);
      RunKeepsInv(c, Apply(c, s, actions[0]), actions[1..]);
    }
  }

  /** In every run, at every moment: no counter, status, flag or stored row claims a byte that was
      never written, and every written byte is the origin's. */
  lemma RunsAreSafe(c: Config, actions: seq<Action>)
    requires c.Valid() && CanRun(c, Init(c), actions)
    ensures Safe(c, RunFrom(c, Init(c), actions))
  {
    InitInv(c);
    RunKeepsInv(c, Init(c), actions);
    InvIsSafe(c, RunFrom(c, Init(c), actions));
  }

  /** In every run: when all listed lanes are full, the payload is the origin, byte for byte. */
  lemma RunsAssemble(c: Config, actions: seq<Action>)
    requires c.Valid() && CanRun(c, Init(c), actions)
    ensures var s := RunFrom(c, Init(c), actions);
            s.listed != [] && ListedFull(s) ==> s.content == c.origin
  {
    InitInv(c);
    RunKeepsInv(c, Init(c), actions);
    var s := RunFrom(c, Init(c), actions);
    if s.listed != [] && ListedFull(s) {
      FullLanesAssemble(c, s);
    }
  }

  // ---------------------------------------------------------------- lanes are independent

  lemma LandedCommute(c: Config, content: seq<byte>, x: Worker, m: nat, y: Worker, n: nat)
    requires |content| == |c.origin| && x.Position() + m <= |c.origin| && y.Position() + n <= |c.origin|
    ensures Landed(c, Landed(c, content, x, m), y, n) == Landed(c, Landed(c, content, y, n), x, m)
  {
  }

  lemma LandedBytesCommute(written: set<nat>, x: Worker, m: nat, y: Worker, n: nat)
    ensures LandedBytes(LandedBytes(written, x, m), y, n) == LandedBytes(LandedBytes(written, y, n), x, m)
  {
  }

  /** Writes of different workers commute, even on overlapping lanes: whatever is written is the origin's. For
      arbitrary data on disjoint lanes see `JobTheorems.DisjointLaneWritesCommute`. */
  lemma WritesCommute(c: Config, s: State, a: nat, m: nat, b: nat, n: nat)
    requires a != b && Enabled(c, s, Write(a, m)) && Enabled(c, s, Write(b, n))
    ensures Enabled(c, Apply(c, s, Write(a, m)), Write(b, n)) && Enabled(c, Apply(c, s, Write(b, n)), Write(a, m))
    ensures Apply(c, Apply(c, s, Write(a, m)), Write(b, n)) == Apply(c, Apply(c, s, Write(b, n)), Write(a, m))
  {
    var x, y := s.workers[a], s.workers[b];
    LandedCommute(c, s.content, x, m, y, n);
    LandedBytesCommute(s.written, x, m, y, n);
    assert s.workers[a := x.Writing(m)][b := y.Writing(n)] == s.workers[b := y.Writing(n)][a := x.Writing(m)];
  }
}
