/** What comes back from either repository, in terms of the fields of the rows: what was saved and nothing
    else, in which order, whatever the calls before. */
module RepositoryReads {
  import opened Sorting
  import opened Tables
  import opened Rows
  import opened RepositoryContract
  import opened RepositoryAgreement
  import L = Lists
  import P = Pieces
  import Mapping

  // ---------------------------------------------------------------- order

  ghost predicate TasksInOrder(rows: seq<TaskRow>) {
    forall i, j :: 0 <= i < j < |rows| ==> rows[i].id < rows[j].id
  }

  ghost predicate WorkersInOrder(rows: seq<WorkerRow>) {
    forall i, j :: 0 <= i < j < |rows| ==> rows[i].index < rows[j].index
  }

  ghost predicate PiecesInOrder(rows: seq<PieceRow>) {
    forall i, j :: 0 <= i < j < |rows| ==> rows[i].piece < rows[j].piece
  }

  ghost predicate BlocksInOrder(rows: seq<BlockRow>) {
    forall i, j :: 0 <= i < j < |rows| ==>
      rows[i].piece < rows[j].piece || (rows[i].piece == rows[j].piece && rows[i].block < rows[j].block)
  }

  ghost predicate ChecksumsInOrder(rows: seq<ChecksumRow>) {
    forall i, j :: 0 <= i < j < |rows| ==> StringLess(rows[i].algorithm, rows[j].algorithm)
  }

  /** Different keys in key order. */
  ghost predicate Ordered<R>(rows: seq<R>, key: R -> Key) {
    Sorted(rows, key) && KeysDistinct(rows, key)
  }

  lemma OneNumber(a: int, b: int)
    ensures Leq([a], [b]) <==> a <= b
  {
    assert [a][1..] == [] && [b][1..] == [];
  }

  lemma TwoNumbers(a: int, b: int, c: int, d: int)
    ensures Leq([a, b], [c, d]) <==> a < c || (a == c && b <= d)
  {
    assert [a, b][1..] == [b] && [c, d][1..] == [d];
    OneNumber(b, d);
  }

  lemma TaskOrder(rows: seq<TaskRow>)
    requires Ordered(rows, FullKey(Tasks()))
    ensures TasksInOrder(rows)
  {
    forall i, j | 0 <= i < j < |rows|
      ensures rows[i].id < rows[j].id
    {
      assert KeyOf(Tasks(), rows[i]) == [rows[i].id] && KeyOf(Tasks(), rows[j]) == [rows[j].id];
      assert FullKey(Tasks())(rows[i]) != FullKey(Tasks())(rows[j]);
      OneNumber(rows[i].id, rows[j].id);
    }
  }

  lemma WorkerOrder(rows: seq<WorkerRow>)
    requires Ordered(rows, Workers().sub)
    ensures WorkersInOrder(rows)
  {
    forall i, j | 0 <= i < j < |rows|
      ensures rows[i].index < rows[j].index
    {
      assert Workers().sub(rows[i]) != Workers().sub(rows[j]);
      OneNumber(rows[i].index, rows[j].index);
    }
  }

  lemma PieceOrder(rows: seq<PieceRow>)
    requires Ordered(rows, RepositoryContract.Pieces().sub)
    ensures PiecesInOrder(rows)
  {
    forall i, j | 0 <= i < j < |rows|
      ensures rows[i].piece < rows[j].piece
    {
      assert RepositoryContract.Pieces().sub(rows[i]) != RepositoryContract.Pieces().sub(rows[j]);
      OneNumber(rows[i].piece, rows[j].piece);
    }
  }

  lemma BlockOrder(rows: seq<BlockRow>)
    requires Ordered(rows, Blocks().sub)
    ensures BlocksInOrder(rows)
  {
    forall i, j | 0 <= i < j < |rows|
      ensures rows[i].piece < rows[j].piece || (rows[i].piece == rows[j].piece && rows[i].block < rows[j].block)
    {
      assert Blocks().sub(rows[i]) != Blocks().sub(rows[j]);
      TwoNumbers(rows[i].piece, rows[i].block, rows[j].piece, rows[j].block);
    }
  }

  lemma ChecksumOrder(rows: seq<ChecksumRow>)
    requires Ordered(rows, Checksums().sub)
    ensures ChecksumsInOrder(rows)
  {
    forall i, j | 0 <= i < j < |rows|
      ensures StringLess(rows[i].algorithm, rows[j].algorithm)
    {
      assert Checksums().sub(rows[i]) != Checksums().sub(rows[j]);
      CodesOrder(rows[i].algorithm, rows[j].algorithm);
    }
  }

  // ---------------------------------------------------------------- any load of a reached state

  /** A task's rows of a table with different keys: those of the table that are the task's, in key order. */
  lemma LoadIsOrdered<R>(kind: Kind<R>, rows: seq<R>, task: nat)
    requires KeysDistinct(rows, FullKey(kind))
    ensures Ordered(Load(kind, rows, task), kind.sub)
    ensures forall r :: r in Load(kind, rows, task) <==> r in rows && kind.task(r) == task
  {
    var kept := L.Filter(rows, r => kind.task(r) == task);
    SubKeysDistinct(kind, rows, task);
    SortPermutes(kept, kind.sub);
    SortSorts(kept, kind.sub);
    SortKeepsDistinct(kept, kind.sub);
  }

  /** Which of the list repository's rows a task gets, and in which order. */
  ghost predicate LoadsByFields(s: RowLists, id: nat) {
    var workers, pieces := Load(Workers(), s.workers, id), Load(RepositoryContract.Pieces(), s.pieces, id);
    var blocks, checksums := Load(Blocks(), s.blocks, id), Load(Checksums(), s.checksums, id);
    && WorkersInOrder(workers) && (forall w :: w in workers <==> w in s.workers && w.taskId == id)
    && PiecesInOrder(pieces) && (forall p :: p in pieces <==> p in s.pieces && p.taskId == id)
    && BlocksInOrder(blocks) && (forall b :: b in blocks <==> b in s.blocks && b.taskId == id)
    && ChecksumsInOrder(checksums) && (forall c :: c in checksums <==> c in s.checksums && c.taskId == id)
  }

  lemma LoadsInOrder(s: RowLists, m: RowMaps, id: nat)
    requires SameState(s, m)
    ensures LoadsByFields(s, id)
  {
    LoadIsOrdered(Workers(), s.workers, id);
    LoadIsOrdered(RepositoryContract.Pieces(), s.pieces, id);
    LoadIsOrdered(Blocks(), s.blocks, id);
    LoadIsOrdered(Checksums(), s.checksums, id);
    WorkerOrder(Load(Workers(), s.workers, id));
    PieceOrder(Load(RepositoryContract.Pieces(), s.pieces, id));
    BlockOrder(Load(Blocks(), s.blocks, id));
    ChecksumOrder(Load(Checksums(), s.checksums, id));
  }

  lemma TasksLoadInOrder(s: RowLists, m: RowMaps)
    requires SameState(s, m)
    ensures TasksInOrder(LoadAll(Tasks(), s.tasks))
    ensures forall t :: t in LoadAll(Tasks(), s.tasks) <==> t in s.tasks
  {
    SortPermutes(s.tasks, FullKey(Tasks()));
    SortSorts(s.tasks, FullKey(Tasks()));
    SortKeepsDistinct(s.tasks, FullKey(Tasks()));
    TaskOrder(LoadAll(Tasks(), s.tasks));
  }

  /** The same rows in the same order, but for the row ids. */
  ghost predicate WorkersButIds(a: seq<WorkerRow>, b: seq<WorkerRow>) {
    |a| == |b| && forall i :: 0 <= i < |a| ==> a[i] == b[i].(id := a[i].id)
  }

  ghost predicate ChecksumsButIds(a: seq<ChecksumRow>, b: seq<ChecksumRow>) {
    |a| == |b| && forall i :: 0 <= i < |a| ==> a[i] == b[i].(id := a[i].id)
  }

  /** What a task gets from either repository: exactly its rows, by index, by piece, by piece and block, and by
      the name of the algorithm. The map repository gives workers and checksums row ids of its own and changes
      nothing else. */
  ghost predicate ReadFrom(s: RowLists, id: nat, tasks: seq<TaskRow>, workers: seq<WorkerRow>, pieces: seq<PieceRow>,
                           blocks: seq<BlockRow>, checksums: seq<ChecksumRow>)
  {
    && LoadsByFields(s, id)
    && TasksInOrder(tasks) && (forall t :: t in tasks <==> t in s.tasks)
    && WorkersButIds(workers, Load(Workers(), s.workers, id))
    && pieces == Load(RepositoryContract.Pieces(), s.pieces, id)
    && blocks == Load(Blocks(), s.blocks, id)
    && ChecksumsButIds(checksums, Load(Checksums(), s.checksums, id))
  }

  lemma SameReads(s: RowLists, m: RowMaps, id: nat, tasks: seq<TaskRow>, workers: seq<WorkerRow>,
                  pieces: seq<PieceRow>, blocks: seq<BlockRow>, checksums: seq<ChecksumRow>)
    requires SameState(s, m) && LoadedFrom(m, id, tasks, workers, pieces, blocks, checksums)
    ensures ReadFrom(s, id, tasks, workers, pieces, blocks, checksums)
  {
    SameLoads(s, m, id, tasks, workers, pieces, blocks, checksums);
    LoadsInOrder(s, m, id);
    TasksLoadInOrder(s, m);
  }

  /** So it is after any well-formed calls. */
  lemma ReadsByFields(calls: seq<Call>, id: nat, tasks: seq<TaskRow>, workers: seq<WorkerRow>,
                      pieces: seq<PieceRow>, blocks: seq<BlockRow>, checksums: seq<ChecksumRow>)
    requires forall i :: 0 <= i < |calls| ==> CallOk(calls[i])
    requires LoadedFrom(MapCalls(NoMaps(), calls), id, tasks, workers, pieces, blocks, checksums)
    ensures ReadFrom(ListCalls(NoLists(), calls), id, tasks, workers, pieces, blocks, checksums)
  {
    ReachedSame(calls);
    SameReads(ListCalls(NoLists(), calls), MapCalls(NoMaps(), calls), id, tasks, workers, pieces, blocks, checksums);
  }

  // ---------------------------------------------------------------- what each call changes, row by row

  lemma DropTaskRows<R>(kind: Kind<R>, rows: seq<R>, task: nat)
    ensures forall r :: r in DropTask(kind, rows, task) <==> r in rows && kind.task(r) != task
  {
  }

  lemma PutRows<R>(kind: Kind<R>, rows: seq<R>, row: R)
    ensures forall r :: r in Put(kind, rows, row) <==>
              r == row || (r in rows && !(kind.task(r) == kind.task(row) && kind.sub(r) == kind.sub(row)))
  {
    var keep := (r: R) => KeyOf(kind, r) != KeyOf(kind, row);
    forall r
      ensures r in Put(kind, rows, row) <==>
                r == row || (r in rows && !(kind.task(r) == kind.task(row) && kind.sub(r) == kind.sub(row)))
    {
      KeyParts(kind, r, row);
      assert r in Put(kind, rows, row) <==> r in L.Filter(rows, keep) || r == row;
    }
  }
  /** The rows after a call, kind by kind, in terms of their fields. */
  ghost predicate StepByFields(s: RowLists, op: Op, t: RowLists) {
    match op
    case SaveTask(x) =>
      t == s.(tasks := t.tasks) && forall r :: r in t.tasks <==> r == x || (r in s.tasks && r.id != x.id)
    case DeleteTask(id) =>
      && (forall r :: r in t.tasks <==> r in s.tasks && r.id != id)
      && (forall r :: r in t.workers <==> r in s.workers && r.taskId != id)
      && (forall r :: r in t.pieces <==> r in s.pieces && r.taskId != id)
      && (forall r :: r in t.blocks <==> r in s.blocks && r.taskId != id)
      && (forall r :: r in t.checksums <==> r in s.checksums && r.taskId != id)
    case SaveWorker(x) =>
      && t == s.(workers := t.workers)
      && forall r :: r in t.workers <==> r == x || (r in s.workers && !(r.taskId == x.taskId && r.index == x.index))
    case DeleteWorkers(id) =>
      t == s.(workers := t.workers) && forall r :: r in t.workers <==> r in s.workers && r.taskId != id
    case SavePieces(id, rows) =>
      t == s.(pieces := t.pieces) && forall r :: r in t.pieces <==> r in rows || (r in s.pieces && r.taskId != id)
    case DeletePieces(id) =>
      t == s.(pieces := t.pieces) && forall r :: r in t.pieces <==> r in s.pieces && r.taskId != id
    case SaveBlocks(id, rows) =>
      t == s.(blocks := t.blocks) && forall r :: r in t.blocks <==> r in rows || (r in s.blocks && r.taskId != id)
    case DeleteBlocks(id) =>
      t == s.(blocks := t.blocks) && forall r :: r in t.blocks <==> r in s.blocks && r.taskId != id
    case SaveChecksum(x) =>
      && t == s.(checksums := t.checksums)
      && forall r :: r in t.checksums <==> r == x || (r in s.checksums && !(r.taskId == x.taskId && r.algorithm == x.algorithm))
    case DeleteChecksums(id) =>
      t == s.(checksums := t.checksums) && forall r :: r in t.checksums <==> r in s.checksums && r.taskId != id
  }

  lemma SavedWorkerRows(rows: seq<WorkerRow>, x: WorkerRow)
    ensures forall r :: r in Put(Workers(), rows, x) <==> r == x || (r in rows && !(r.taskId == x.taskId && r.index == x.index))
  {
    PutRows(Workers(), rows, x);
    forall r: WorkerRow
      ensures Workers().sub(r) == Workers().sub(x) <==> r.index == x.index
    {
      assert Workers().sub(r)[0] == r.index && Workers().sub(x)[0] == x.index;
    }
  }

  lemma SavedChecksumRows(rows: seq<ChecksumRow>, x: ChecksumRow)
    ensures forall r :: r in Put(Checksums(), rows, x) <==>
              r == x || (r in rows && !(r.taskId == x.taskId && r.algorithm == x.algorithm))
  {
    PutRows(Checksums(), rows, x);
    forall r: ChecksumRow
      ensures Checksums().sub(r) == Checksums().sub(x) <==> r.algorithm == x.algorithm
    {
      if Codes(r.algorithm) == Codes(x.algorithm) { CodesInjective(r.algorithm, x.algorithm); }
    }
  }

  /** Every call of the list repository, on the fields: a save replaces the row of the same task, index or
      algorithm, or all rows of the task; a delete removes the task's rows; nothing else changes. */
  lemma CallsByFields(s: RowLists, op: Op)
    ensures StepByFields(s, op, ListStep(s, op))
  {
    match op
    case SaveTask(x) => PutRows(Tasks(), s.tasks, x);
    case SaveWorker(x) => SavedWorkerRows(s.workers, x);
    case SaveChecksum(x) => SavedChecksumRows(s.checksums, x);
    case _ =>
  }

  // ---------------------------------------------------------------- saved rows come back

  /** Block states of a manifest, saved after any calls: both repositories load every one of them, nothing else
      for the task, and in manifest order. */
  lemma SavedBlocksReadBack(calls: seq<Call>, id: nat, rows: seq<BlockRow>, loaded: seq<BlockRow>)
    requires forall i :: 0 <= i < |calls| ==> CallOk(calls[i])
    requires BlocksOf(id, rows)
    requires IsLoad(Blocks(), MapStep(MapCalls(NoMaps(), calls), SaveBlocks(id, rows)).blocks, id, loaded)
    ensures BlocksInOrder(loaded) && forall b :: b in loaded <==> b in rows
    ensures loaded == Load(Blocks(), ListStep(ListCalls(NoLists(), calls), SaveBlocks(id, rows)).blocks, id)
  {
    var s, m := ListCalls(NoLists(), calls), MapCalls(NoMaps(), calls);
    ReachedSame(calls);
    StepSame(s, m, SaveBlocks(id, rows));
    SavedBlocksLoad(ListStep(s, SaveBlocks(id, rows)), MapStep(m, SaveBlocks(id, rows)), s.blocks, id, rows, loaded);
  }

  lemma SavedBlocksLoad(s: RowLists, m: RowMaps, before: seq<BlockRow>, id: nat, rows: seq<BlockRow>, loaded: seq<BlockRow>)
    requires SameState(s, m) && s.blocks == DropTask(Blocks(), before, id) + rows && BlocksOf(id, rows)
    requires IsLoad(Blocks(), m.blocks, id, loaded)
    ensures loaded == Load(Blocks(), s.blocks, id) && BlocksInOrder(loaded)
    ensures forall b :: b in loaded <==> b in rows
  {
    KindsOk();
    LoadsAgree(Blocks(), s.blocks, m.blocks, id, loaded);
    StoredAsTheyAre([], [], Load(Blocks(), s.blocks, id));
    LoadIsOrdered(Blocks(), s.blocks, id);
    BlockOrder(loaded);
  }

  lemma SavedPiecesReadBack(calls: seq<Call>, id: nat, rows: seq<PieceRow>, loaded: seq<PieceRow>)
    requires forall i :: 0 <= i < |calls| ==> CallOk(calls[i])
    requires PiecesOf(id, rows)
    requires IsLoad(RepositoryContract.Pieces(), MapStep(MapCalls(NoMaps(), calls), SavePieces(id, rows)).pieces, id, loaded)
    ensures PiecesInOrder(loaded) && forall p :: p in loaded <==> p in rows
    ensures loaded == Load(RepositoryContract.Pieces(), ListStep(ListCalls(NoLists(), calls), SavePieces(id, rows)).pieces, id)
  {
    var s, m := ListCalls(NoLists(), calls), MapCalls(NoMaps(), calls);
    ReachedSame(calls);
    StepSame(s, m, SavePieces(id, rows));
    SavedPiecesLoad(ListStep(s, SavePieces(id, rows)), MapStep(m, SavePieces(id, rows)), s.pieces, id, rows, loaded);
  }

  lemma SavedPiecesLoad(s: RowLists, m: RowMaps, before: seq<PieceRow>, id: nat, rows: seq<PieceRow>, loaded: seq<PieceRow>)
    requires SameState(s, m) && s.pieces == DropTask(RepositoryContract.Pieces(), before, id) + rows && PiecesOf(id, rows)
    requires IsLoad(RepositoryContract.Pieces(), m.pieces, id, loaded)
    ensures loaded == Load(RepositoryContract.Pieces(), s.pieces, id) && PiecesInOrder(loaded)
    ensures forall p :: p in loaded <==> p in rows
  {
    KindsOk();
    LoadsAgree(RepositoryContract.Pieces(), s.pieces, m.pieces, id, loaded);
    StoredAsTheyAre([], Load(RepositoryContract.Pieces(), s.pieces, id), []);
    LoadIsOrdered(RepositoryContract.Pieces(), s.pieces, id);
    PieceOrder(loaded);
  }

  /** What a task saves of its states is well formed. */
  lemma StatesAreRows(id: nat, blocks: seq<P.PieceBlock>, states: seq<P.BlockState>, pieces: seq<P.PieceState>)
    requires P.Aligned(states, blocks) && P.KeysIncrease(blocks)
    requires forall i, k :: 0 <= i < k < |pieces| ==> pieces[i].piece < pieces[k].piece
    ensures BlocksOf(id, Mapping.BlockStatesToDb(id, states)) && PiecesOf(id, Mapping.PieceStatesToDb(id, pieces))
  {
    var rows := Mapping.BlockStatesToDb(id, states);
    forall i, j | 0 <= i < j < |rows|
      ensures rows[i].piece != rows[j].piece || rows[i].block != rows[j].block
    {
      assert P.KeyBelow(blocks[i], blocks[j]);
      assert P.SameKey(blocks[i], states[i].piece, states[i].block) && P.SameKey(blocks[j], states[j].piece, states[j].block);
    }
  }

  /** A bundle, saved after any calls, reads back row by row, in order, but for the row ids of the map. */
  lemma SavedBundleReadsBack(s: RowLists, m: RowMaps, b: Bundle, tasks: seq<TaskRow>, workers: seq<WorkerRow>,
                             pieces: seq<PieceRow>, blocks: seq<BlockRow>, checksums: seq<ChecksumRow>)
    requires SameState(s, m) && BundleOk(b)
    requires LoadedFrom(MapCall(m, SaveBundle(b)), b.task.id, tasks, workers, pieces, blocks, checksums)
    ensures ReadFrom(ListBundle(s, b), b.task.id, tasks, workers, pieces, blocks, checksums)
    ensures forall r :: r in Load(Workers(), ListBundle(s, b).workers, b.task.id) <==> r in b.workers
    ensures forall r :: r in pieces <==> r in b.pieces
    ensures forall r :: r in blocks <==> r in b.blocks
    ensures forall r :: r in Load(Checksums(), ListBundle(s, b).checksums, b.task.id) <==> r in b.checksums
  {
    CallSame(s, m, SaveBundle(b));
    SameReads(ListBundle(s, b), MapCall(m, SaveBundle(b)), b.task.id, tasks, workers, pieces, blocks, checksums);
    BundleRows(s, b);
  }

  lemma BundleRows(s: RowLists, b: Bundle)
    requires BundleOk(b)
    ensures var t := ListBundle(s, b);
            && (forall r :: r in t.workers && r.taskId == b.task.id <==> r in b.workers)
            && (forall r :: r in t.pieces && r.taskId == b.task.id <==> r in b.pieces)
            && (forall r :: r in t.blocks && r.taskId == b.task.id <==> r in b.blocks)
            && (forall r :: r in t.checksums && r.taskId == b.task.id <==> r in b.checksums)
  {
  }
}
