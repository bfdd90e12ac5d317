/** Runs of the program, from a freshly added task, that end where the promises of ProtocolLimits fail:
    for every non-empty payload and every plan of it. */
module ProtocolWitnesses {
  import opened Pieces
  import opened Planner
  import opened Progress
  import opened Protocol
  import opened ProtocolSafety
  import opened ProtocolRefinement
  import opened ProtocolCompletion
  import opened ProtocolLimits

  /** The first listed worker is about to be stored. */
  lemma PickRow(c: Config, s: State)
    requires s.listed != [] && 0 !in s.frames
    ensures Enabled(c, s, BeginRow(0, 0))
    ensures CanRun(c, s, [BeginRow(0, 0)]) && RunFrom(c, s, [BeginRow(0, 0)]) == SetFrame(s, 0, WorkerFrame(s.listed[0]))
  {
    RunOne(c, s, BeginRow(0, 0));
  }

  lemma PickedIsNoQuiet(s: State, w: nat)
    ensures !Quiescent(SetFrame(s, 0, WorkerFrame(w)))
  {
    var t := SetFrame(s, 0, WorkerFrame(w));
    assert 0 in t.frames && !Claimless(t.frames[0]);
  }

  /** The workers have been planned and one of them is about to be stored: a reset at this moment leaves
      an operation behind that can store progress of the removed file. */
  lemma ResetWhileStoring(c: Config, lanes: seq<Lane>) returns (actions: seq<Action>)
    requires c.Valid() && c.m.total > 0 && Partition(lanes, c.m)
    ensures CanRun(c, Init(c), actions)
    ensures !SafeForever(c, ApplyReset(c, RunFrom(c, Init(c), actions)))
  {
    InitInv(c);
    var s := RebuildListsWorkers(c, Init(c), lanes);
    PickRow(c, s);
    RunConcat(c, Init(c), [Rebuild(lanes)], [BeginRow(0, 0)]);
    RunKeepsInv(c, s, [BeginRow(0, 0)]);
    PickedIsNoQuiet(s, s.listed[0]);
    ResetGuardIsExact(c, SetFrame(s, 0, WorkerFrame(s.listed[0])));
    actions := [Rebuild(lanes)] + [BeginRow(0, 0)];
  }

  lemma FlagsStored(c: Config, s: State, f: nat)
    requires f !in s.frames
    ensures var actions := [ReadFlags(f)] + [StoreFlags(f)];
            CanRun(c, s, actions)
            && RunFrom(c, s, actions) == s.(storedBlocks := s.blocks, resetUnsaved := false)
  {
    RunOne(c, s, ReadFlags(f));
    RunOneMore(c, s, [ReadFlags(f)], StoreFlags(f));
    assert s.frames[f := FlagsFrame(s.blocks)] - {f} == s.frames;
  }

  /** A download can run to its end and store that all blocks are completed, with nothing left in flight. */
  lemma CompletedRun(c: Config, lanes: seq<Lane>) returns (s: State, actions: seq<Action>)
    requires c.Valid() && c.m.total > 0 && Partition(lanes, c.m)
    ensures CanRun(c, Init(c), actions) && RunFrom(c, Init(c), actions) == s
    ensures Inv(c, s) && Quiescent(s)
    ensures Aligned(s.storedBlocks, c.m.blocks) && s.storedBlocks != [] && s.storedBlocks[0].completed
  {
    InitInv(c);
    var t, completing := CanAlwaysComplete(c, Init(c), lanes);
    RunKeepsInv(c, Init(c), completing);
    FlagsStored(c, t, 0);
    actions := completing + ([ReadFlags(0)] + [StoreFlags(0)]);
    RunConcat(c, Init(c), completing, [ReadFlags(0)] + [StoreFlags(0)]);
    RunKeepsInv(c, Init(c), actions);
    s := RunFrom(c, Init(c), actions);
    GeometryChains(c.m.pieces, c.m.blocks, c.m.pieceSize, c.m.blockSize, c.m.total);
  }

  lemma AlignedFits(states: seq<BlockState>, blocks: seq<PieceBlock>)
    requires Aligned(states, blocks)
    ensures BlockStateLayoutMatches(InitializeBlockStates(blocks), states)
  {
  }

  /** Completed, stored, reset with nothing in flight, restarted before the flags are stored again: the
      blocks are marked completed over an empty file. */
  lemma RestartAfterReset(c: Config, lanes: seq<Lane>) returns (actions: seq<Action>)
    requires c.Valid() && c.m.total > 0 && Partition(lanes, c.m)
    ensures CanRun(c, Init(c), actions) && Enabled(c, RunFrom(c, Init(c), actions), Reset)
    ensures !SafeForever(c, ApplyRestore(c, ApplyReset(c, RunFrom(c, Init(c), actions)), []))
  {
    var s: State;
    s, actions := CompletedRun(c, lanes);
    AlignedFits(s.storedBlocks, c.m.blocks);
    StaleFlagsAfterReset(c, s);
  }

  /** Completed, stored, and the file removed before the program starts again: the same. */
  lemma RestartWithoutFile(c: Config, lanes: seq<Lane>) returns (actions: seq<Action>)
    requires c.Valid() && c.m.total > 0 && Partition(lanes, c.m)
    ensures CanRun(c, Init(c), actions)
    ensures !SafeForever(c, ApplyRestore(c, FileLost(c, RunFrom(c, Init(c), actions)), []))
  {
    var s: State;
    s, actions := CompletedRun(c, lanes);
    AlignedFits(s.storedBlocks, c.m.blocks);
    LostFileRestored(c, s);
  }
}
