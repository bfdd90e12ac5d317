/** The two repositories cannot be told apart by what they return: any well-formed calls, any loads. */
module RepositoryAgreement {
  import opened Wrappers
  import opened Sorting
  import opened Tables
  import opened Rows
  import opened RepositoryContract
  import L = Lists
  import M = MemoryRepository

  ghost predicate SameState(s: RowLists, m: RowMaps) {
    && Same(Tasks(), s.tasks, m.tasks) && Same(Workers(), s.workers, m.workers)
    && Same(Pieces(), s.pieces, m.pieces) && Same(Blocks(), s.blocks, m.blocks)
    && Same(Checksums(), s.checksums, m.checksums)
  }

  // ---------------------------------------------------------------- single operations

  /** In a table whose keys are right, removing by key is removing by row. */
  lemma RemoveUnderIsRemoveTask<R(!new)>(kind: Kind<R>, rows: seq<R>, table: map<Key, R>, task: nat)
    requires KindOk(kind) && Same(kind, rows, table)
    ensures RemoveUnder(table, task) == RemoveTask(kind, table, task)
  {
    forall k | k in table
      ensures k != [] && k[0] == kind.task(table[k])
    {
      var i := TaskOfKey(kind, rows, table, k);
    }
  }

  lemma {:induction false} InsertUnderIsInsert<R>(kind: Kind<R>, table: map<Key, R>, task: nat, more: seq<R>)
    requires forall i :: 0 <= i < |more| ==> kind.task(more[i]) == task
    ensures InsertAllUnder(kind, table, task, more) == InsertAll(kind, table, more)
    decreases |more|
  {
    if more != [] {
      InsertUnderIsInsert(kind, InsertRow(kind, table, more[0]), task, more[1..]);
    }
  }

  lemma ReplaceSame<R(!new)>(kind: Kind<R>, rows: seq<R>, table: map<Key, R>, task: nat, more: seq<R>)
    requires KindOk(kind) && Same(kind, rows, table) && RowsOf(kind, task, more)
    ensures Same(kind, DropTask(kind, rows, task) + more, InsertAllUnder(kind, RemoveUnder(table, task), task, more))
  {
    RemoveUnderIsRemoveTask(kind, rows, table, task);
    InsertUnderIsInsert(kind, RemoveTask(kind, table, task), task, more);
    DropSame(kind, rows, table, task);
    PutAllSame(kind, DropTask(kind, rows, task), RemoveTask(kind, table, task), more);
    PutAllAfterDrop(kind, rows, task, more);
  }

  lemma DeleteTaskSame(s: RowLists, m: RowMaps, id: nat)
    requires SameState(s, m)
    ensures SameState(ListStep(s, DeleteTask(id)), MapStep(m, DeleteTask(id)))
  {
    KindsOk();
    RemoveUnderIsRemoveTask(Tasks(), s.tasks, m.tasks, id);
    DropSame(Tasks(), s.tasks, m.tasks, id);
    DropSame(Workers(), s.workers, m.workers, id);
    DropSame(Pieces(), s.pieces, m.pieces, id);
    DropSame(Blocks(), s.blocks, m.blocks, id);
    DropSame(Checksums(), s.checksums, m.checksums, id);
  }

  /** Every operation keeps the two states the same. */
  lemma StepSame(s: RowLists, m: RowMaps, op: Op)
    requires SameState(s, m) && OpOk(op)
    ensures SameState(ListStep(s, op), MapStep(m, op))
  {
    KindsOk();
    match op
    case SaveTask(t) => PutSame(Tasks(), s.tasks, m.tasks, t);
    case DeleteTask(id) => DeleteTaskSame(s, m, id);
    case SaveWorker(w) => PutSame(Workers(), s.workers, m.workers, w);
    case DeleteWorkers(id) => DropSame(Workers(), s.workers, m.workers, id);
    case SavePieces(id, rows) =>
      PieceKeys(id, rows);
      ReplaceSame(Pieces(), s.pieces, m.pieces, id, rows);
    case DeletePieces(id) => DropSame(Pieces(), s.pieces, m.pieces, id);
    case SaveBlocks(id, rows) =>
      BlockKeys(id, rows);
      ReplaceSame(Blocks(), s.blocks, m.blocks, id, rows);
    case DeleteBlocks(id) => DropSame(Blocks(), s.blocks, m.blocks, id);
    case SaveChecksum(c) => PutSame(Checksums(), s.checksums, m.checksums, c);
    case DeleteChecksums(id) => DropSame(Checksums(), s.checksums, m.checksums, id);
  }

  lemma {:induction false} RunSame(s: RowLists, m: RowMaps, ops: seq<Op>)
    requires SameState(s, m) && forall i :: 0 <= i < |ops| ==> OpOk(ops[i])
    ensures SameState(ListRun(s, ops), MapRun(m, ops))
    decreases |ops|
  {
    if ops != [] {
      StepSame(s, m, ops[0]);
      RunSame(ListStep(s, ops[0]), MapStep(m, ops[0]), ops[1..]);
    }
  }

  // ---------------------------------------------------------------- bundles

  lemma {:induction false} ListRunConcat(s: RowLists, a: seq<Op>, b: seq<Op>)
    ensures ListRun(s, a + b) == ListRun(ListRun(s, a), b)
    decreases |a|
  {
    if a == [] {
      assert a + b == b;
    } else {
      assert (a + b)[0] == a[0] && (a + b)[1..] == a[1..] + b;
      ListRunConcat(ListStep(s, a[0]), a[1..], b);
    }
  }

  lemma {:induction false} RunSaveWorkers(s: RowLists, workers: seq<WorkerRow>)
    ensures ListRun(s, SaveWorkers(workers)) == s.(workers := PutAll(Workers(), s.workers, workers))
    decreases |workers|
  {
    if workers != [] {
      assert SaveWorkers(workers)[1..] == SaveWorkers(workers[1..]);
      RunSaveWorkers(ListStep(s, SaveWorker(workers[0])), workers[1..]);
    }
  }

  lemma {:induction false} RunSaveChecksums(s: RowLists, checksums: seq<ChecksumRow>)
    ensures ListRun(s, SaveChecksums(checksums)) == s.(checksums := PutAll(Checksums(), s.checksums, checksums))
    decreases |checksums|
  {
    if checksums != [] {
      assert SaveChecksums(checksums)[1..] == SaveChecksums(checksums[1..]);
      RunSaveChecksums(ListStep(s, SaveChecksum(checksums[0])), checksums[1..]);
    }
  }

  lemma RunOne(s: RowLists, a: Op)
    ensures ListRun(s, [a]) == ListStep(s, a)
  {
    assert [a][1..] == [];
  }

  lemma RunTwo(s: RowLists, a: Op, b: Op)
    ensures ListRun(s, [a, b]) == ListStep(ListStep(s, a), b)
  {
    assert [a, b][1..] == [b];
    RunOne(ListStep(s, a), b);
  }

  lemma RunThree(s: RowLists, a: Op, b: Op, c: Op)
    ensures ListRun(s, [a, b, c]) == ListStep(ListStep(ListStep(s, a), b), c)
  {
    assert [a, b, c][1..] == [b, c];
    RunTwo(ListStep(s, a), b, c);
  }

  lemma RunFour(s: RowLists, a: seq<Op>, b: seq<Op>, c: seq<Op>, d: seq<Op>)
    ensures ListRun(s, a + b + c + d) == ListRun(ListRun(ListRun(ListRun(s, a), b), c), d)
  {
    ListRunConcat(s, a + b + c, d);
    ListRunConcat(s, a + b, c);
    ListRunConcat(s, a, b);
  }

  /** Rows saved one by one after the task's rows are gone are appended. */
  lemma BundleAppends(s: RowLists, b: Bundle)
    requires BundleOk(b)
    ensures PutAll(Workers(), DropTask(Workers(), s.workers, b.task.id), b.workers)
         == DropTask(Workers(), s.workers, b.task.id) + b.workers
    ensures PutAll(Checksums(), DropTask(Checksums(), s.checksums, b.task.id), b.checksums)
         == DropTask(Checksums(), s.checksums, b.task.id) + b.checksums
  {
    BundleKeys(b);
    PutAllAfterDrop(Workers(), s.workers, b.task.id, b.workers);
    PutAllAfterDrop(Checksums(), s.checksums, b.task.id, b.checksums);
  }

  lemma FirstSteps(s: RowLists, b: Bundle) returns (t: RowLists)
    ensures t == ListRun(s, [SaveTask(b.task), DeleteWorkers(b.task.id)])
    ensures t == s.(tasks := Put(Tasks(), s.tasks, b.task), workers := DropTask(Workers(), s.workers, b.task.id))
  {
    RunTwo(s, SaveTask(b.task), DeleteWorkers(b.task.id));
    t := ListRun(s, [SaveTask(b.task), DeleteWorkers(b.task.id)]);
  }

  lemma MiddleSteps(s: RowLists, b: Bundle) returns (t: RowLists)
    ensures t == ListRun(s, [SavePieces(b.task.id, b.pieces), SaveBlocks(b.task.id, b.blocks), DeleteChecksums(b.task.id)])
    ensures t == s.(pieces := DropTask(Pieces(), s.pieces, b.task.id) + b.pieces,
                    blocks := DropTask(Blocks(), s.blocks, b.task.id) + b.blocks,
                    checksums := DropTask(Checksums(), s.checksums, b.task.id))
  {
    RunThree(s, SavePieces(b.task.id, b.pieces), SaveBlocks(b.task.id, b.blocks), DeleteChecksums(b.task.id));
    t := ListRun(s, [SavePieces(b.task.id, b.pieces), SaveBlocks(b.task.id, b.blocks), DeleteChecksums(b.task.id)]);
  }

  lemma FourRuns(s: RowLists, a: seq<Op>, b: seq<Op>, c: seq<Op>, d: seq<Op>,
                 s1: RowLists, s2: RowLists, s3: RowLists, s4: RowLists)
    requires s1 == ListRun(s, a) && s2 == ListRun(s1, b) && s3 == ListRun(s2, c) && s4 == ListRun(s3, d)
    ensures ListRun(s, a + b + c + d) == s4
  {
    RunFour(s, a, b, c, d);
  }

  /** What the calls of a bundle come to, one after the other. */
  lemma CallByCall(s: RowLists, b: Bundle)
    ensures ListRun(s, BundleOps(b))
         == RowLists(Put(Tasks(), s.tasks, b.task),
                     PutAll(Workers(), DropTask(Workers(), s.workers, b.task.id), b.workers),
                     DropTask(Pieces(), s.pieces, b.task.id) + b.pieces,
                     DropTask(Blocks(), s.blocks, b.task.id) + b.blocks,
                     PutAll(Checksums(), DropTask(Checksums(), s.checksums, b.task.id), b.checksums))
  {
    var s1 := FirstSteps(s, b);
    RunSaveWorkers(s1, b.workers);
    var s2 := s1.(workers := PutAll(Workers(), s1.workers, b.workers));
    var s3 := MiddleSteps(s2, b);
    RunSaveChecksums(s3, b.checksums);
    var s4 := s3.(checksums := PutAll(Checksums(), s3.checksums, b.checksums));
    FourRuns(s, [SaveTask(b.task), DeleteWorkers(b.task.id)], SaveWorkers(b.workers),
             [SavePieces(b.task.id, b.pieces), SaveBlocks(b.task.id, b.blocks), DeleteChecksums(b.task.id)],
             SaveChecksums(b.checksums), s1, s2, s3, s4);
  }

  /** The one-shot bundle save ends in exactly the state of the call-by-call one. */
  lemma OneShotIsComposition(s: RowLists, b: Bundle)
    requires BundleOk(b)
    ensures ListBundle(s, b) == ListRun(s, BundleOps(b))
  {
    BundleAppends(s, b);
    CallByCall(s, b);
  }

  lemma BundleOpsOk(b: Bundle)
    requires BundleOk(b)
    ensures forall i :: 0 <= i < |BundleOps(b)| ==> OpOk(BundleOps(b)[i])
  {
  }

  /** A call, whichever way each repository carries it out. */
  lemma CallSame(s: RowLists, m: RowMaps, call: Call)
    requires SameState(s, m) && CallOk(call)
    ensures SameState(ListCall(s, call), MapCall(m, call))
  {
    match call
    case One(op) => StepSame(s, m, op);
    case SaveBundle(b) =>
      OneShotIsComposition(s, b);
      BundleOpsOk(b);
      RunSame(s, m, BundleOps(b));
  }

  lemma {:induction false} CallsSame(s: RowLists, m: RowMaps, calls: seq<Call>)
    requires SameState(s, m) && forall i :: 0 <= i < |calls| ==> CallOk(calls[i])
    ensures SameState(ListCalls(s, calls), MapCalls(m, calls))
    decreases |calls|
  {
    if calls != [] {
      CallSame(s, m, calls[0]);
      CallsSame(ListCall(s, calls[0]), MapCall(m, calls[0]), calls[1..]);
    }
  }

  // ---------------------------------------------------------------- what callers see

  function NoLists(): RowLists { RowLists([], [], [], [], []) }

  function NoMaps(): RowMaps { RowMaps(map[], map[], map[], map[], map[]) }

  /** What a caller can load for a task from the map repository. */
  ghost predicate LoadedFrom(m: RowMaps, id: nat, tasks: seq<TaskRow>, workers: seq<WorkerRow>, pieces: seq<PieceRow>,
                             blocks: seq<BlockRow>, checksums: seq<ChecksumRow>)
  {
    && IsLoadAll(Tasks(), m.tasks, tasks) && IsLoad(Workers(), m.workers, id, workers)
    && IsLoad(Pieces(), m.pieces, id, pieces) && IsLoad(Blocks(), m.blocks, id, blocks)
    && IsLoad(Checksums(), m.checksums, id, checksums)
  }

  /** Rows without row ids of their own are stored as they are. */
  lemma StoredAsTheyAre(tasks: seq<TaskRow>, pieces: seq<PieceRow>, blocks: seq<BlockRow>)
    ensures Stored(Tasks(), tasks) == tasks && Stored(Pieces(), pieces) == pieces && Stored(Blocks(), blocks) == blocks
  {
  }

  lemma SameLoads(s: RowLists, m: RowMaps, id: nat, tasks: seq<TaskRow>, workers: seq<WorkerRow>,
                  pieces: seq<PieceRow>, blocks: seq<BlockRow>, checksums: seq<ChecksumRow>)
    requires SameState(s, m) && LoadedFrom(m, id, tasks, workers, pieces, blocks, checksums)
    ensures tasks == LoadAll(Tasks(), s.tasks)
    ensures workers == Stored(Workers(), Load(Workers(), s.workers, id))
    ensures pieces == Load(Pieces(), s.pieces, id)
    ensures blocks == Load(Blocks(), s.blocks, id)
    ensures checksums == Stored(Checksums(), Load(Checksums(), s.checksums, id))
  {
    KindsOk();
    LoadAllAgrees(Tasks(), s.tasks, m.tasks, tasks);
    LoadsAgree(Workers(), s.workers, m.workers, id, workers);
    LoadsAgree(Pieces(), s.pieces, m.pieces, id, pieces);
    LoadsAgree(Blocks(), s.blocks, m.blocks, id, blocks);
    LoadsAgree(Checksums(), s.checksums, m.checksums, id, checksums);
    StoredAsTheyAre(LoadAll(Tasks(), s.tasks), Load(Pieces(), s.pieces, id), Load(Blocks(), s.blocks, id));
  }

  lemma ReachedSame(calls: seq<Call>)
    requires forall i :: 0 <= i < |calls| ==> CallOk(calls[i])
    ensures SameState(ListCalls(NoLists(), calls), MapCalls(NoMaps(), calls))
  {
    CallsSame(NoLists(), NoMaps(), calls);
  }

  /** After any well-formed calls every load of the map repository returns what the list repository
      returns, up to the row ids it assigns to workers and checksums. */
  lemma RepositoriesAgree(calls: seq<Call>, id: nat, tasks: seq<TaskRow>, workers: seq<WorkerRow>,
                          pieces: seq<PieceRow>, blocks: seq<BlockRow>, checksums: seq<ChecksumRow>)
    requires forall i :: 0 <= i < |calls| ==> CallOk(calls[i])
    requires LoadedFrom(MapCalls(NoMaps(), calls), id, tasks, workers, pieces, blocks, checksums)
    ensures var s := ListCalls(NoLists(), calls);
            && tasks == LoadAll(Tasks(), s.tasks)
            && workers == Stored(Workers(), Load(Workers(), s.workers, id))
            && pieces == Load(Pieces(), s.pieces, id)
            && blocks == Load(Blocks(), s.blocks, id)
            && checksums == Stored(Checksums(), Load(Checksums(), s.checksums, id))
  {
    ReachedSame(calls);
    SameLoads(ListCalls(NoLists(), calls), MapCalls(NoMaps(), calls), id, tasks, workers, pieces, blocks, checksums);
  }

  /** After any well-formed calls the map repository's keys are its rows' keys, which is what its loads need. */
  lemma MapsStayKeyed(calls: seq<Call>)
    requires forall i :: 0 <= i < |calls| ==> CallOk(calls[i])
    ensures var m := MapCalls(NoMaps(), calls);
            && M.Keyed(Tasks(), m.tasks) && M.Keyed(Workers(), m.workers) && M.Keyed(Pieces(), m.pieces)
            && M.Keyed(Blocks(), m.blocks) && M.Keyed(Checksums(), m.checksums)
  {
    ReachedSame(calls);
    KeyedTables(ListCalls(NoLists(), calls), MapCalls(NoMaps(), calls));
  }

  lemma KeyedTables(s: RowLists, m: RowMaps)
    requires SameState(s, m)
    ensures M.Keyed(Tasks(), m.tasks) && M.Keyed(Workers(), m.workers) && M.Keyed(Pieces(), m.pieces)
    ensures M.Keyed(Blocks(), m.blocks) && M.Keyed(Checksums(), m.checksums)
  {
    KindsOk();
    M.SameIsKeyed(Tasks(), s.tasks, m.tasks);
    M.SameIsKeyed(Workers(), s.workers, m.workers);
    M.SameIsKeyed(Pieces(), s.pieces, m.pieces);
    M.SameIsKeyed(Blocks(), s.blocks, m.blocks);
    M.SameIsKeyed(Checksums(), s.checksums, m.checksums);
  }

  lemma {:induction false} FindTaskMeaning(tasks: seq<TaskRow>, id: nat)
    ensures FindTask(tasks, id).Some? ==> FindTask(tasks, id).value in tasks && FindTask(tasks, id).value.id == id
    ensures FindTask(tasks, id).None? ==> forall t :: t in tasks ==> t.id != id
  {
    if tasks != [] { FindTaskMeaning(tasks[1..], id); }
  }

  /** Looking a task up in the list finds what the map has under its id. */
  lemma TaskLookupsAgree(calls: seq<Call>, id: nat)
    requires forall i :: 0 <= i < |calls| ==> CallOk(calls[i])
    ensures var s, m := ListCalls(NoLists(), calls), MapCalls(NoMaps(), calls);
            FindTask(s.tasks, id) == if [id] in m.tasks then Some(m.tasks[[id]]) else None
  {
    ReachedSame(calls);
    LookupsAgree(ListCalls(NoLists(), calls).tasks, MapCalls(NoMaps(), calls).tasks, id);
  }

  lemma LookupsAgree(rows: seq<TaskRow>, table: map<Key, TaskRow>, id: nat)
    requires Same(Tasks(), rows, table)
    ensures FindTask(rows, id) == if [id] in table then Some(table[[id]]) else None
  {
    KindsOk();
    FindTaskMeaning(rows, id);
    var found := FindTask(rows, id);
    if found.Some? {
      var i :| 0 <= i < |rows| && rows[i] == found.value;
      assert KeyOf(Tasks(), rows[i]) == [id];
    }
    if [id] in table {
      var i := TaskOfKey(Tasks(), rows, table, [id]);
      assert [id][0] == KeyOf(Tasks(), rows[i])[0] == rows[i].id;
      assert rows[i] in rows;
    }
  }

  // ---------------------------------------------------------------- other tasks

  ghost predicate SameFor(s: RowLists, t: RowLists, id: nat) {
    && Load(Tasks(), s.tasks, id) == Load(Tasks(), t.tasks, id)
    && Load(Workers(), s.workers, id) == Load(Workers(), t.workers, id)
    && Load(Pieces(), s.pieces, id) == Load(Pieces(), t.pieces, id)
    && Load(Blocks(), s.blocks, id) == Load(Blocks(), t.blocks, id)
    && Load(Checksums(), s.checksums, id) == Load(Checksums(), t.checksums, id)
  }

  /** Saving a bundle touches no other task's rows. */
  lemma BundleLeavesOthers(s: RowLists, b: Bundle, other: nat)
    requires BundleOk(b) && other != b.task.id
    ensures SameFor(ListBundle(s, b), s, other)
  {
    PutKeepsOthers(Tasks(), s.tasks, b.task, other);
    OthersKept(Workers(), s.workers, b.task.id, b.workers, other);
    OthersKept(Pieces(), s.pieces, b.task.id, b.pieces, other);
    OthersKept(Blocks(), s.blocks, b.task.id, b.blocks, other);
    OthersKept(Checksums(), s.checksums, b.task.id, b.checksums, other);
  }

  /** Deleting a task removes all of its rows and no other's. */
  lemma DeleteRemovesExactlyOne(s: RowLists, id: nat, other: nat)
    requires other != id
    ensures SameFor(ListStep(s, DeleteTask(id)), s, other)
    ensures SameFor(ListStep(s, DeleteTask(id)), NoLists(), id)
  {
    DropKeepsOthers(Tasks(), s.tasks, id, other);
    DropKeepsOthers(Workers(), s.workers, id, other);
    DropKeepsOthers(Pieces(), s.pieces, id, other);
    DropKeepsOthers(Blocks(), s.blocks, id, other);
    DropKeepsOthers(Checksums(), s.checksums, id, other);
  }

  lemma DropKeepsOthers<R>(kind: Kind<R>, rows: seq<R>, task: nat, other: nat)
    requires task != other
    ensures Load(kind, DropTask(kind, rows, task), other) == Load(kind, rows, other)
    ensures Load(kind, DropTask(kind, rows, task), task) == Load(kind, [], task)
  {
    OthersKept(kind, rows, task, [], other);
    assert DropTask(kind, rows, task) + [] == DropTask(kind, rows, task);
    L.FilterNone(DropTask(kind, rows, task), r => kind.task(r) == task);
  }

  /** A saved bundle reads back as it was saved, in key order. */
  lemma BundleReadsBack(s: RowLists, b: Bundle)
    requires BundleOk(b)
    ensures var t := ListBundle(s, b);
            && Load(Workers(), t.workers, b.task.id) == SortByKey(b.workers, Workers().sub)
            && Load(Pieces(), t.pieces, b.task.id) == SortByKey(b.pieces, Pieces().sub)
            && Load(Blocks(), t.blocks, b.task.id) == SortByKey(b.blocks, Blocks().sub)
            && Load(Checksums(), t.checksums, b.task.id) == SortByKey(b.checksums, Checksums().sub)
  {
    ReplacedReadsBack(Workers(), s.workers, b.task.id, b.workers);
    ReplacedReadsBack(Pieces(), s.pieces, b.task.id, b.pieces);
    ReplacedReadsBack(Blocks(), s.blocks, b.task.id, b.blocks);
    ReplacedReadsBack(Checksums(), s.checksums, b.task.id, b.checksums);
  }

  lemma ReplacedReadsBack<R>(kind: Kind<R>, rows: seq<R>, task: nat, more: seq<R>)
    requires forall j :: 0 <= j < |more| ==> kind.task(more[j]) == task
    ensures Load(kind, DropTask(kind, rows, task) + more, task) == SortByKey(more, kind.sub)
  {
    var keep := (r: R) => kind.task(r) == task;
    var kept := DropTask(kind, rows, task);
    L.FilterConcat(kept, more, keep);
    L.FilterNone(kept, keep);
    L.FilterAll(more, keep);
    assert L.Filter(kept + more, keep) == more;
  }
}
