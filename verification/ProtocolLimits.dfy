/** Where the program does not keep its promises by itself, and exactly when it does: resets with
    operations in flight, stored block flags after a reset or a lost file, and completion without
    workers. */
module ProtocolLimits {
  import opened Pieces
  import opened Progress
  import opened Protocol
  import opened ProtocolSafety

  /** Whatever happens from here on, every claim stays true. */
  ghost predicate SafeForever(c: Config, s: State) {
    forall actions :: CanRun(c, s, actions) ==> Safe(c, RunFrom(c, s, actions))
  }

  lemma InvIsSafeForever(c: Config, s: State)
    requires c.Valid() && Inv(c, s)
    ensures SafeForever(c, s)
  {
    forall actions | CanRun(c, s, actions)
      ensures Safe(c, RunFrom(c, s, actions))
    {
      RunKeepsInv(c, s, actions);
      InvIsSafe(c, RunFrom(c, s, actions));
    }
  }

  /** A step that leads to trouble. */
  lemma StepIntoTrouble(c: Config, s: State, a: Action)
    requires Enabled(c, s, a) && !SafeForever(c, Apply(c, s, a))
    ensures !SafeForever(c, s)
  {
    var t := Apply(c, s, a);
    var rest :| CanRun(c, t, rest) && !Safe(c, RunFrom(c, t, rest));
    var actions := [a] + rest;
    assert actions[0] == a && actions[1..] == rest;
    assert CanRun(c, s, actions) && RunFrom(c, s, actions) == RunFrom(c, t, rest);
  }

  lemma NowInTrouble(c: Config, s: State)
    requires !Safe(c, s)
    ensures !SafeForever(c, s)
  {
    assert CanRun(c, s, []) && RunFrom(c, s, []) == s;
  }

  // ---------------------------------------------------------------- resets

  lemma NoBytes(written: set<nat>, lo: nat, hi: nat)
    requires written == {} && lo < hi
    ensures !AllWritten(written, lo, hi)
  {
    assert lo !in written;
  }

  /** A completed flag and no bytes. */
  lemma FlagWithoutBytes(c: Config, states: seq<BlockState>, j: nat)
    requires c.Valid() && |states| == |c.m.blocks| && j < |states| && states[j].completed
    ensures !FlagsCovered(c, {}, states)
  {
    assert Inside(c.m.blocks[j], c.m.pieces, c.m.blockSize);
    NoBytes({}, c.m.blocks[j].offset, c.m.blocks[j].End());
  }

  /** A sync that already holds a completed flag stores it. */
  lemma {:induction false} StaleSyncEnds(c: Config, s: State, f: nat, j: nat)
    requires c.Valid() && s.written == {} && f in s.frames && s.frames[f].SyncFrame?
    requires |s.frames[f].states| == |c.m.blocks| && j < |c.m.blocks| && s.frames[f].states[j].completed
    requires forall i :: 0 <= i < |s.frames[f].todo| ==> s.frames[f].todo[i] in s.workers
    ensures !SafeForever(c, s)
    decreases |s.frames[f].todo|
  {
    var frame := s.frames[f];
    if frame.todo == [] {
      var t := Apply(c, s, EndSync(f));
      FlagWithoutBytes(c, t.blocks, j);
      NowInTrouble(c, t);
      StepIntoTrouble(c, s, EndSync(f));
    } else {
      assert frame.todo[0] in s.workers;
      var t := Apply(c, s, SyncWorker(f));
      var next := SyncFrame(MarkWorker(frame.states, c.m.blocks, s.workers[frame.todo[0]]), frame.todo[1..]);
      assert t.frames[f] == next && next.states[j].completed && t.workers == s.workers;
      StaleSyncEnds(c, t, f, j);
      StepIntoTrouble(c, s, SyncWorker(f));
    }
  }

  /** A worker on a removed file that has published its whole lane. */
  ghost predicate FullOnRemovedFile(c: Config, s: State, w: nat) {
    && s.written == {} && w in s.workers && !s.workers[w].attached
    && WorkerOk(c, s.workers[w])
    && s.workers[w].counter == s.workers[w].Length()
  }

  lemma FirstBlockInLane(blocks: seq<PieceBlock>, blockSize: nat, total: nat, start: nat, end: nat, lo: nat, hi: nat)
    requires Chained(blocks, blockSize, total) && BlockAligned(blocks, start, end, lo, hi)
    ensures start <= end && Covered(blocks[lo].offset, blocks[lo].length, start, end)
  {
    LaneSpan(blocks, blockSize, total, start, end, lo, hi);
    BoundaryOrder(blocks, blockSize, total, lo + 1, hi);
  }

  lemma FullWorkerMarks(c: Config, states: seq<BlockState>, x: Worker) returns (j: nat)
    requires c.Valid() && WorkerOk(c, x) && x.counter == x.Length() && |states| == |c.m.blocks|
    ensures j < |states| && MarkWorker(states, c.m.blocks, x)[j].completed
  {
    var lo: nat, hi: nat :| BlockAligned(c.m.blocks, x.start, x.end, lo, hi);
    GeometryChains(c.m.pieces, c.m.blocks, c.m.pieceSize, c.m.blockSize, c.m.total);
    FirstBlockInLane(c.m.blocks, c.m.blockSize, c.m.total, x.start, x.end, lo, hi);
    j := lo;
  }

  /** Reading such a worker marks a block. */
  lemma StaleSyncReads(c: Config, s: State, f: nat)
    requires c.Valid() && f in s.frames && s.frames[f].SyncFrame? && s.frames[f].todo != []
    requires FullOnRemovedFile(c, s, s.frames[f].todo[0])
    requires |s.frames[f].states| == |c.m.blocks|
    requires forall i :: 0 <= i < |s.frames[f].todo| ==> s.frames[f].todo[i] in s.workers
    ensures !SafeForever(c, s)
  {
    var frame := s.frames[f];
    var x := s.workers[frame.todo[0]];
    var j := FullWorkerMarks(c, frame.states, x);
    StaleSyncEnds(c, Apply(c, s, SyncWorker(f)), f, j);
    StepIntoTrouble(c, s, SyncWorker(f));
  }

  /** A finished worker on a removed file, about to be stored with its status. */
  lemma StaleStatusStored(c: Config, s: State, f: nat)
    requires f in s.frames && s.frames[f].CounterFrame? && FullOnRemovedFile(c, s, s.frames[f].w)
    requires s.workers[s.frames[f].w].done
    ensures !SafeForever(c, s)
  {
    var t := Apply(c, s, ReadStatus(f));
    var u := Apply(c, t, StoreRow(f));
    var row := t.frames[f].row;
    assert u.rows[t.frames[f].index] == row && row.Claim() == row.Length();
    assert row.start !in u.written;
    assert !RowCovered(u.written, u.rows[t.frames[f].index]);
    NowInTrouble(c, u);
    StepIntoTrouble(c, t, StoreRow(f));
    StepIntoTrouble(c, s, ReadStatus(f));
  }

  /** A worker on a removed file can always run to the end of its lane and leave no byte behind. */
  lemma RunsToTheEnd(c: Config, s: State, w: nat) returns (t: State)
    requires c.Valid() && s.written == {} && |s.content| == |c.origin|
    requires w in s.workers && !s.workers[w].attached && WorkerOk(c, s.workers[w])
    ensures t == s.(workers := t.workers) && FullOnRemovedFile(c, t, w)
    ensures forall id :: id in s.workers ==> id in t.workers
    ensures t.workers[w].local == t.workers[w].Length()
    ensures !SafeForever(c, t) ==> !SafeForever(c, s)
  {
    var x := s.workers[w];
    var n := x.Length() - x.local - x.inflight;
    var s1 := Apply(c, s, Write(w, n));
    var s2 := Apply(c, s1, Commit(w));
    t := Apply(c, s2, Publish(w));
    assert s1 == SetWorker(s, w, x.Writing(n));
    assert s2 == SetWorker(s, w, x.Writing(n).Committed());
    assert t == SetWorker(s, w, x.Writing(n).Committed().Published());
    if !SafeForever(c, t) {
      StepIntoTrouble(c, s2, Publish(w));
      StepIntoTrouble(c, s1, Commit(w));
      StepIntoTrouble(c, s, Write(w, n));
    }
  }

  lemma StaleSync(c: Config, s: State, f: nat)
    requires c.Valid() && s.written == {} && |s.content| == |c.origin|
    requires f in s.frames && s.frames[f].SyncFrame? && |s.frames[f].states| == |c.m.blocks|
    requires forall i :: 0 <= i < |s.frames[f].todo| ==>
               && s.frames[f].todo[i] in s.workers && !s.workers[s.frames[f].todo[i]].attached
               && WorkerOk(c, s.workers[s.frames[f].todo[i]])
    requires !Claimless(s.frames[f])
    ensures !SafeForever(c, s)
  {
    var frame := s.frames[f];
    if frame.todo == [] {
      var j :| 0 <= j < |frame.states| && frame.states[j].completed;
      StaleSyncEnds(c, s, f, j);
    } else {
      assert frame.todo[0] in s.workers;
      var t := RunsToTheEnd(c, s, frame.todo[0]);
      StaleSyncReads(c, t, f);
    }
  }

  /** A sync that has read the worker list only. */
  lemma StaleList(c: Config, s: State, f: nat)
    requires c.Valid() && s.written == {} && |s.content| == |c.origin| && Aligned(s.blocks, c.m.blocks)
    requires f in s.frames && s.frames[f].ListFrame? && s.frames[f].todo != []
    requires forall i :: 0 <= i < |s.frames[f].todo| ==>
               && s.frames[f].todo[i] in s.workers && !s.workers[s.frames[f].todo[i]].attached
               && WorkerOk(c, s.workers[s.frames[f].todo[i]])
    ensures !SafeForever(c, s)
  {
    InstallKeepsAligned(c.m.blocks, s.blocks);
    StaleSync(c, Apply(c, s, ReadBlocks(f)), f);
    StepIntoTrouble(c, s, ReadBlocks(f));
  }

  /** All workers were seen completed, and their file is gone. */
  lemma StaleCompletion(c: Config, s: State, f: nat)
    requires c.Valid() && c.m.total > 0 && s.written == {} && Aligned(s.blocks, c.m.blocks)
    requires f in s.frames && s.frames[f].CompletionFrame?
    ensures !SafeForever(c, s)
  {
    var t := Apply(c, s, Complete(f));
    GeometryChains(c.m.pieces, c.m.blocks, c.m.pieceSize, c.m.blockSize, c.m.total);
    FlagWithoutBytes(c, t.blocks, 0);
    NowInTrouble(c, t);
    StepIntoTrouble(c, s, Complete(f));
  }

  lemma StaleCounter(c: Config, s: State, f: nat)
    requires c.Valid() && s.written == {} && |s.content| == |c.origin|
    requires f in s.frames && s.frames[f].CounterFrame?
    requires s.frames[f].w in s.workers && !s.workers[s.frames[f].w].attached && WorkerOk(c, s.workers[s.frames[f].w])
    ensures !SafeForever(c, s)
  {
    var w := s.frames[f].w;
    var t := RunsToTheEnd(c, s, w);
    var u := Apply(c, t, Finish(w));
    StaleStatusStored(c, u, f);
    StepIntoTrouble(c, t, Finish(w));
  }

  lemma StaleWorker(c: Config, s: State, f: nat)
    requires c.Valid() && s.written == {} && |s.content| == |c.origin|
    requires f in s.frames && s.frames[f].WorkerFrame?
    requires s.frames[f].w in s.workers && !s.workers[s.frames[f].w].attached && WorkerOk(c, s.workers[s.frames[f].w])
    ensures !SafeForever(c, s)
  {
    StaleCounter(c, Apply(c, s, ReadCounter(f)), f);
    StepIntoTrouble(c, s, ReadCounter(f));
  }

  lemma StaleStore(c: Config, s: State, f: nat)
    requires c.Valid() && s.written == {} && f in s.frames && !Claimless(s.frames[f])
    requires s.frames[f].RowFrame? || (s.frames[f].FlagsFrame? && |s.frames[f].states| == |c.m.blocks|)
    ensures !SafeForever(c, s)
  {
    match s.frames[f]
    case RowFrame(index, row) =>
      var t := Apply(c, s, StoreRow(f));
      assert t.rows[index] == row && row.start !in t.written;
      assert !RowCovered(t.written, t.rows[index]);
      NowInTrouble(c, t);
      StepIntoTrouble(c, s, StoreRow(f));
    case FlagsFrame(states) =>
      var j :| 0 <= j < |states| && states[j].completed;
      var t := Apply(c, s, StoreFlags(f));
      FlagWithoutBytes(c, states, j);
      NowInTrouble(c, t);
      StepIntoTrouble(c, s, StoreFlags(f));
  }

  lemma InFlightClaimSurfaces(c: Config, s: State, f: nat)
    requires c.Valid() && Inv(c, s) && f in s.frames && !Claimless(s.frames[f])
    ensures !SafeForever(c, ApplyReset(c, s))
  {
    var t := ApplyReset(c, s);
    assert FrameOk(c, s.written, s.workers, s.frames[f]);
    DetachedWorkersOk(c, s.workers, s.nextId);
    match s.frames[f]
    case ListFrame(todo) =>
      assert forall i :: 0 <= i < |todo| ==> Tracked(s.written, s.workers, todo[i]);
      StaleList(c, t, f);
    case SyncFrame(states, todo) =>
      assert forall i :: 0 <= i < |todo| ==> Tracked(s.written, s.workers, todo[i]);
      StaleSync(c, t, f);
    case WorkerFrame(w) => StaleWorker(c, t, f);
    case CounterFrame(w, _) => StaleCounter(c, t, f);
    case RowFrame(_, _) => StaleStore(c, t, f);
    case FlagsFrame(_) => StaleStore(c, t, f);
    case CompletionFrame => StaleCompletion(c, t, f);
  }

  /** Discarding the file and all progress is safe, for every continuation, exactly when no sync and
      no store that began before the reset is still in flight with something to claim. */
  lemma ResetGuardIsExact(c: Config, s: State)
    requires c.Valid() && Inv(c, s)
    ensures SafeForever(c, ApplyReset(c, s)) <==> Quiescent(s)
  {
    if Quiescent(s) {
      ResetKeepsInv(c, s);
      InvIsSafeForever(c, ApplyReset(c, s));
    } else {
      var f :| f in s.frames && !Claimless(s.frames[f]);
      InFlightClaimSurfaces(c, s, f);
    }
  }

  /** A reset leaves the stored block rows behind. A restart before they are overwritten restores
      them: the result is safe exactly when they do not fit the layout or none is completed. */
  lemma StaleFlagsAfterReset(c: Config, s: State)
    requires c.Valid() && Inv(c, s)
    ensures SafeForever(c, ApplyRestore(c, ApplyReset(c, s), []))
        <==> !BlockStateLayoutMatches(InitializeBlockStates(c.m.blocks), s.storedBlocks) || NoneCompleted(s.storedBlocks)
  {
    var t := ApplyRestore(c, ApplyReset(c, s), []);
    if !BlockStateLayoutMatches(InitializeBlockStates(c.m.blocks), s.storedBlocks) || NoneCompleted(s.storedBlocks) {
      assert FlagsCovered(c, {}, t.blocks);
      InvIsSafeForever(c, t);
    } else {
      var j :| 0 <= j < |s.storedBlocks| && s.storedBlocks[j].completed;
      assert t.blocks[j].completed;
      FlagWithoutBytes(c, t.blocks, j);
      NowInTrouble(c, t);
    }
  }

  /** The payload file is gone when the program starts again, and is created anew. */
  ghost function FileLost(c: Config, s: State): State {
    s.(content := Zeros(c.m.total), written := {}, resetUnsaved := true)
  }

  /** Recovery then restores no workers and no bytes, so that the check for a missing file finds nothing to
      reset, and the stored block flags and worker rows live on: that is safe exactly when none of them
      claims anything. */
  lemma LostFileRestored(c: Config, s: State)
    requires c.Valid() && Inv(c, s)
    ensures SafeForever(c, ApplyRestore(c, FileLost(c, s), []))
        <==> (!BlockStateLayoutMatches(InitializeBlockStates(c.m.blocks), s.storedBlocks) || NoneCompleted(s.storedBlocks))
             && forall i :: i in s.rows ==> s.rows[i].Claim() == 0
  {
    var t := ApplyRestore(c, FileLost(c, s), []);
    var fits := BlockStateLayoutMatches(InitializeBlockStates(c.m.blocks), s.storedBlocks);
    if exists i :: i in s.rows && s.rows[i].Claim() > 0 {
      var i :| i in s.rows && s.rows[i].Claim() > 0;
      NoBytes(t.written, t.rows[i].start, t.rows[i].start + t.rows[i].Claim());
      assert !RowCovered(t.written, t.rows[i]);
      NowInTrouble(c, t);
    } else if fits && !NoneCompleted(s.storedBlocks) {
      var j :| 0 <= j < |s.storedBlocks| && s.storedBlocks[j].completed;
      assert t.blocks[j].completed;
      FlagWithoutBytes(c, t.blocks, j);
      NowInTrouble(c, t);
    } else {
      assert FlagsCovered(c, {}, t.blocks);
      assert InvRows(c, {}, s.rows);
      InvIsSafeForever(c, t);
    }
  }

  // ---------------------------------------------------------------- completion

  lemma AllFlagsMeanAllBytes(c: Config, written: set<nat>, states: seq<BlockState>)
    requires c.Valid() && Aligned(states, c.m.blocks)
    ensures FlagsCovered(c, written, AllCompleted(states)) <==> AllWritten(written, 0, c.m.total)
  {
    var all := AllCompleted(states);
    if AllWritten(written, 0, c.m.total) {
      MarkAllCovered(c, written, states);
    } else if FlagsCovered(c, written, all) {
      GeometryChains(c.m.pieces, c.m.blocks, c.m.pieceSize, c.m.blockSize, c.m.total);
      BlocksCover(c, written, all, 0, |all|);
    }
  }

  /** Marking everything completed is safe exactly when every byte has been written, that is, when the
      payload is known to be the origin. */
  lemma CompletionIsExact(c: Config, s: State)
    requires c.Valid() && Inv(c, s)
    ensures Safe(c, s.(blocks := AllCompleted(s.blocks))) <==> AllWritten(s.written, 0, c.m.total)
  {
    InvIsSafe(c, s);
    AllFlagsMeanAllBytes(c, s.written, s.blocks);
    OnlyFlagsChange(c, s, AllCompleted(s.blocks));
  }

  lemma OnlyFlagsChange(c: Config, s: State, states: seq<BlockState>)
    requires Safe(c, s)
    ensures Safe(c, s.(blocks := states)) <==> FlagsCovered(c, s.written, states)
  {
  }

  /** Completed workers have written the whole payload, when there are any. */
  lemma CompletedWorkersMeanAllBytes(c: Config, s: State)
    requires c.Valid() && Inv(c, s) && s.listed != [] && ListedDone(s)
    ensures AllWritten(s.written, 0, c.m.total)
  {
    assert ListedFull(s);
    FullLanesAssemble(c, s);
  }

  /** A prepared file has its full length from the start, so length is no evidence: completing a fresh
      task of a non-empty payload is unsafe. */
  lemma FullLengthIsNoEvidence(c: Config)
    requires c.Valid() && c.m.total > 0
    ensures |Init(c).content| == c.m.total && ListedDone(Init(c))
    ensures !Safe(c, Init(c).(blocks := AllCompleted(Init(c).blocks)))
  {
    InitInv(c);
    CompletionIsExact(c, Init(c));
    assert 0 !in Init(c).written;
  }
  /** The program marks everything completed when all the listed workers have completed. For a given list
      of workers that is safe in every state exactly when the list is not empty, or nothing is to be
      downloaded. */
  lemma CompletionGuardIsExact(c: Config, listed: seq<nat>)
    requires c.Valid()
    ensures (forall s :: Inv(c, s) && s.listed == listed && ListedDone(s) ==> Safe(c, s.(blocks := AllCompleted(s.blocks))))
        <==> listed != [] || c.m.total == 0
  {
    if listed == [] && c.m.total > 0 {
      InitInv(c);
      FullLengthIsNoEvidence(c);
      assert Init(c).listed == listed;
    } else {
      forall s | Inv(c, s) && s.listed == listed && ListedDone(s)
        ensures Safe(c, s.(blocks := AllCompleted(s.blocks)))
      {
        if listed != [] { CompletedWorkersMeanAllBytes(c, s); }
        CompletionIsExact(c, s);
      }
    }
  }
}
