/** The operations of a repository (src/repository/contract.rs), what they mean for a repository that keeps
    lists (src/repository/json_file.rs) and for one that keeps maps (src/repository/memory.rs). */
module RepositoryContract {
  import opened Widths
  import opened Wrappers
  import opened Sorting
  import opened Tables
  import opened Rows

  // ---------------------------------------------------------------- the five kinds of rows

  /** Low half-words of task id and index, side by side. */
  function WorkerStorageId(taskId: nat, index: nat): nat {
    (taskId % 0x1_0000) * 0x1_0000 + index % 0x1_0000
  }

  function AlgorithmCode(algorithm: string): nat {
    match algorithm
    case "MD5" => 1
    case "SHA1" => 2
    case "SHA256" => 3
    case "NONE" => 4
    case _ => 15
  }

  function ChecksumStorageId(taskId: nat, algorithm: string): nat {
    Min(Min(taskId * 16, U32_MAX) + AlgorithmCode(algorithm), U32_MAX)
  }

  /** Two workers get the same row id only if their task ids and their indexes agree in the low half-words. */
  lemma WorkerIdsApart(task: nat, index: nat, task': nat, index': nat)
    ensures WorkerStorageId(task, index) == WorkerStorageId(task', index')
        <==> task % 0x1_0000 == task' % 0x1_0000 && index % 0x1_0000 == index' % 0x1_0000
  {
  }

  predicate KnownAlgorithm(algorithm: string) {
    algorithm == "MD5" || algorithm == "SHA1" || algorithm == "SHA256" || algorithm == "NONE"
  }

  /** Two checksums of tasks with small ids get the same row id only for one task, and there for one algorithm
      or for two unknown ones. */
  lemma ChecksumIdsApart(task: nat, algorithm: string, task': nat, algorithm': string)
    requires task < 0x0FFF_FFFF && task' < 0x0FFF_FFFF
    ensures ChecksumStorageId(task, algorithm) == ChecksumStorageId(task', algorithm')
        <==> task == task' && (algorithm == algorithm' || (!KnownAlgorithm(algorithm) && !KnownAlgorithm(algorithm')))
  {
  }

  function Tasks(): Kind<TaskRow> { Kind((t: TaskRow) => t.id, (t: TaskRow) => [], (t: TaskRow) => t) }

  function Workers(): Kind<WorkerRow> {
    Kind((w: WorkerRow) => w.taskId, (w: WorkerRow) => [w.index],
         (w: WorkerRow) => w.(id := WorkerStorageId(w.taskId, w.index)))
  }

  function Pieces(): Kind<PieceRow> {
    Kind((p: PieceRow) => p.taskId, (p: PieceRow) => [p.piece], (p: PieceRow) => p)
  }

  function Blocks(): Kind<BlockRow> {
    Kind((b: BlockRow) => b.taskId, (b: BlockRow) => [b.piece, b.block], (b: BlockRow) => b)
  }

  function Checksums(): Kind<ChecksumRow> {
    Kind((c: ChecksumRow) => c.taskId, (c: ChecksumRow) => Codes(c.algorithm),
         (c: ChecksumRow) => c.(id := ChecksumStorageId(c.taskId, c.algorithm)))
  }

  lemma KindsOk()
    ensures KindOk(Tasks()) && KindOk(Workers()) && KindOk(Pieces()) && KindOk(Blocks()) && KindOk(Checksums())
  {
  }

  // ---------------------------------------------------------------- operations

  datatype Op =
    | SaveTask(task: TaskRow)
    | DeleteTask(taskId: nat)
    | SaveWorker(worker: WorkerRow)
    | DeleteWorkers(taskId: nat)
    | SavePieces(taskId: nat, pieces: seq<PieceRow>)
    | DeletePieces(taskId: nat)
    | SaveBlocks(taskId: nat, blocks: seq<BlockRow>)
    | DeleteBlocks(taskId: nat)
    | SaveChecksum(checksum: ChecksumRow)
    | DeleteChecksums(taskId: nat)

  datatype Bundle = Bundle(task: TaskRow, workers: seq<WorkerRow>, pieces: seq<PieceRow>, blocks: seq<BlockRow>,
                           checksums: seq<ChecksumRow>)

  datatype Call = One(op: Op) | SaveBundle(bundle: Bundle)

  /** Rows of one task, with different keys. */
  ghost predicate RowsOf<R>(kind: Kind<R>, task: nat, rows: seq<R>) {
    KeysDistinct(rows, FullKey(kind)) && forall i :: 0 <= i < |rows| ==> kind.task(rows[i]) == task
  }

  /** Workers of the task under different indexes. */
  ghost predicate WorkersOf(task: nat, rows: seq<WorkerRow>) {
    && (forall i :: 0 <= i < |rows| ==> rows[i].taskId == task)
    && forall i, j :: 0 <= i < j < |rows| ==> rows[i].index != rows[j].index
  }

  /** Different pieces of the task. */
  ghost predicate PiecesOf(task: nat, rows: seq<PieceRow>) {
    && (forall i :: 0 <= i < |rows| ==> rows[i].taskId == task)
    && forall i, j :: 0 <= i < j < |rows| ==> rows[i].piece != rows[j].piece
  }

  /** Different blocks of the task: not the same block of the same piece. */
  ghost predicate BlocksOf(task: nat, rows: seq<BlockRow>) {
    && (forall i :: 0 <= i < |rows| ==> rows[i].taskId == task)
    && forall i, j :: 0 <= i < j < |rows| ==> rows[i].piece != rows[j].piece || rows[i].block != rows[j].block
  }

  /** Checksums of the task by different algorithms. */
  ghost predicate ChecksumsOf(task: nat, rows: seq<ChecksumRow>) {
    && (forall i :: 0 <= i < |rows| ==> rows[i].taskId == task)
    && forall i, j :: 0 <= i < j < |rows| ==> rows[i].algorithm != rows[j].algorithm
  }

  /** What is told apart by the fields is told apart by the keys, and nothing else is. */
  lemma WorkerKeys(task: nat, rows: seq<WorkerRow>)
    ensures RowsOf(Workers(), task, rows) <==> WorkersOf(task, rows)
  {
    forall i, j | 0 <= i < j < |rows| && rows[i].taskId == task && rows[j].taskId == task
      ensures FullKey(Workers())(rows[i]) != FullKey(Workers())(rows[j]) <==> rows[i].index != rows[j].index
    {
      KeyParts(Workers(), rows[i], rows[j]);
      assert Workers().sub(rows[i])[0] == rows[i].index && Workers().sub(rows[j])[0] == rows[j].index;
    }
  }

  lemma PieceKeys(task: nat, rows: seq<PieceRow>)
    ensures RowsOf(Pieces(), task, rows) <==> PiecesOf(task, rows)
  {
    forall i, j | 0 <= i < j < |rows| && rows[i].taskId == task && rows[j].taskId == task
      ensures FullKey(Pieces())(rows[i]) != FullKey(Pieces())(rows[j]) <==> rows[i].piece != rows[j].piece
    {
      KeyParts(Pieces(), rows[i], rows[j]);
      assert Pieces().sub(rows[i])[0] == rows[i].piece && Pieces().sub(rows[j])[0] == rows[j].piece;
    }
  }

  lemma BlockKeys(task: nat, rows: seq<BlockRow>)
    ensures RowsOf(Blocks(), task, rows) <==> BlocksOf(task, rows)
  {
    forall i, j | 0 <= i < j < |rows| && rows[i].taskId == task && rows[j].taskId == task
      ensures FullKey(Blocks())(rows[i]) != FullKey(Blocks())(rows[j])
         <==> rows[i].piece != rows[j].piece || rows[i].block != rows[j].block
    {
      KeyParts(Blocks(), rows[i], rows[j]);
      assert Blocks().sub(rows[i])[0] == rows[i].piece && Blocks().sub(rows[j])[0] == rows[j].piece;
      assert Blocks().sub(rows[i])[1] == rows[i].block && Blocks().sub(rows[j])[1] == rows[j].block;
    }
  }

  lemma ChecksumKeys(task: nat, rows: seq<ChecksumRow>)
    ensures RowsOf(Checksums(), task, rows) <==> ChecksumsOf(task, rows)
  {
    forall i, j | 0 <= i < j < |rows| && rows[i].taskId == task && rows[j].taskId == task
      ensures FullKey(Checksums())(rows[i]) != FullKey(Checksums())(rows[j]) <==> rows[i].algorithm != rows[j].algorithm
    {
      KeyParts(Checksums(), rows[i], rows[j]);
      if Codes(rows[i].algorithm) == Codes(rows[j].algorithm) { CodesInjective(rows[i].algorithm, rows[j].algorithm); }
    }
  }

  ghost predicate OpOk(op: Op) {
    match op
    case SavePieces(id, rows) => PiecesOf(id, rows)
    case SaveBlocks(id, rows) => BlocksOf(id, rows)
    case _ => true
  }

  ghost predicate BundleOk(b: Bundle) {
    && WorkersOf(b.task.id, b.workers) && PiecesOf(b.task.id, b.pieces)
    && BlocksOf(b.task.id, b.blocks) && ChecksumsOf(b.task.id, b.checksums)
  }

  lemma BundleKeys(b: Bundle)
    requires BundleOk(b)
    ensures RowsOf(Workers(), b.task.id, b.workers) && RowsOf(Pieces(), b.task.id, b.pieces)
    ensures RowsOf(Blocks(), b.task.id, b.blocks) && RowsOf(Checksums(), b.task.id, b.checksums)
  {
    WorkerKeys(b.task.id, b.workers);
    PieceKeys(b.task.id, b.pieces);
    BlockKeys(b.task.id, b.blocks);
    ChecksumKeys(b.task.id, b.checksums);
  }

  ghost predicate CallOk(call: Call) {
    match call
    case One(op) => OpOk(op)
    case SaveBundle(b) => BundleOk(b)
  }

  /** The trait's own `save_bundle`: one call after the other. */
  function BundleOps(b: Bundle): seq<Op> {
    [SaveTask(b.task), DeleteWorkers(b.task.id)] + SaveWorkers(b.workers)
    + [SavePieces(b.task.id, b.pieces), SaveBlocks(b.task.id, b.blocks), DeleteChecksums(b.task.id)]
    + SaveChecksums(b.checksums)
  }

  function SaveWorkers(workers: seq<WorkerRow>): (r: seq<Op>)
    ensures |r| == |workers|
  {
    seq(|workers|, i requires 0 <= i < |workers| => SaveWorker(workers[i]))
  }

  function SaveChecksums(checksums: seq<ChecksumRow>): (r: seq<Op>)
    ensures |r| == |checksums|
  {
    seq(|checksums|, i requires 0 <= i < |checksums| => SaveChecksum(checksums[i]))
  }

  // ---------------------------------------------------------------- lists

  datatype RowLists = RowLists(tasks: seq<TaskRow>, workers: seq<WorkerRow>, pieces: seq<PieceRow>, blocks: seq<BlockRow>,
                         checksums: seq<ChecksumRow>)

  function ListStep(s: RowLists, op: Op): RowLists {
    match op
    case SaveTask(t) => s.(tasks := Put(Tasks(), s.tasks, t))
    case DeleteTask(id) =>
      RowLists(DropTask(Tasks(), s.tasks, id), DropTask(Workers(), s.workers, id), DropTask(Pieces(), s.pieces, id),
            DropTask(Blocks(), s.blocks, id), DropTask(Checksums(), s.checksums, id))
    case SaveWorker(w) => s.(workers := Put(Workers(), s.workers, w))
    case DeleteWorkers(id) => s.(workers := DropTask(Workers(), s.workers, id))
    case SavePieces(id, rows) => s.(pieces := DropTask(Pieces(), s.pieces, id) + rows)
    case DeletePieces(id) => s.(pieces := DropTask(Pieces(), s.pieces, id))
    case SaveBlocks(id, rows) => s.(blocks := DropTask(Blocks(), s.blocks, id) + rows)
    case DeleteBlocks(id) => s.(blocks := DropTask(Blocks(), s.blocks, id))
    case SaveChecksum(c) => s.(checksums := Put(Checksums(), s.checksums, c))
    case DeleteChecksums(id) => s.(checksums := DropTask(Checksums(), s.checksums, id))
  }

  function ListRun(s: RowLists, ops: seq<Op>): RowLists
    decreases |ops|
  {
    if ops == [] then s else ListRun(ListStep(s, ops[0]), ops[1..])
  }

  /** The whole bundle under one lock. */
  function ListBundle(s: RowLists, b: Bundle): RowLists {
    var id := b.task.id;
    RowLists(Put(Tasks(), s.tasks, b.task), DropTask(Workers(), s.workers, id) + b.workers,
          DropTask(Pieces(), s.pieces, id) + b.pieces, DropTask(Blocks(), s.blocks, id) + b.blocks,
          DropTask(Checksums(), s.checksums, id) + b.checksums)
  }

  function ListCall(s: RowLists, call: Call): RowLists {
    match call
    case One(op) => ListStep(s, op)
    case SaveBundle(b) => ListBundle(s, b)
  }

  /** The first task with this id. */
  function FindTask(tasks: seq<TaskRow>, id: nat): Option<TaskRow> {
    if tasks == [] then None else if tasks[0].id == id then Some(tasks[0]) else FindTask(tasks[1..], id)
  }

  // ---------------------------------------------------------------- maps

  datatype RowMaps = RowMaps(tasks: map<Key, TaskRow>, workers: map<Key, WorkerRow>, pieces: map<Key, PieceRow>,
                       blocks: map<Key, BlockRow>, checksums: map<Key, ChecksumRow>)

  /** Rows are entered under the task they are saved for, whatever task they say they belong to. */
  function InsertAllUnder<R>(kind: Kind<R>, table: map<Key, R>, task: nat, more: seq<R>): map<Key, R>
    decreases |more|
  {
    if more == [] then table
    else InsertAllUnder(kind, table[[task] + kind.sub(more[0]) := kind.stored(more[0])], task, more[1..])
  }

  /** Removes by the task in the key. */
  function RemoveUnder<R>(table: map<Key, R>, task: nat): map<Key, R> {
    map k | k in table && (k == [] || k[0] != task) :: table[k]
  }

  function MapStep(s: RowMaps, op: Op): RowMaps {
    match op
    case SaveTask(t) => s.(tasks := InsertRow(Tasks(), s.tasks, t))
    case DeleteTask(id) =>
      RowMaps(RemoveUnder(s.tasks, id), RemoveTask(Workers(), s.workers, id), RemoveTask(Pieces(), s.pieces, id),
           RemoveTask(Blocks(), s.blocks, id), RemoveTask(Checksums(), s.checksums, id))
    case SaveWorker(w) => s.(workers := InsertRow(Workers(), s.workers, w))
    case DeleteWorkers(id) => s.(workers := RemoveTask(Workers(), s.workers, id))
    case SavePieces(id, rows) => s.(pieces := InsertAllUnder(Pieces(), RemoveUnder(s.pieces, id), id, rows))
    case DeletePieces(id) => s.(pieces := RemoveTask(Pieces(), s.pieces, id))
    case SaveBlocks(id, rows) => s.(blocks := InsertAllUnder(Blocks(), RemoveUnder(s.blocks, id), id, rows))
    case DeleteBlocks(id) => s.(blocks := RemoveTask(Blocks(), s.blocks, id))
    case SaveChecksum(c) => s.(checksums := InsertRow(Checksums(), s.checksums, c))
    case DeleteChecksums(id) => s.(checksums := RemoveTask(Checksums(), s.checksums, id))
  }

  function MapRun(s: RowMaps, ops: seq<Op>): RowMaps
    decreases |ops|
  {
    if ops == [] then s else MapRun(MapStep(s, ops[0]), ops[1..])
  }

  function MapCall(s: RowMaps, call: Call): RowMaps {
    match call
    case One(op) => MapStep(s, op)
    case SaveBundle(b) => MapRun(s, BundleOps(b))
  }

  // ---------------------------------------------------------------- sequences of calls

  function ListCalls(s: RowLists, calls: seq<Call>): RowLists
    decreases |calls|
  {
    if calls == [] then s else ListCalls(ListCall(s, calls[0]), calls[1..])
  }

  function MapCalls(s: RowMaps, calls: seq<Call>): RowMaps
    decreases |calls|
  {
    if calls == [] then s else MapCalls(MapCall(s, calls[0]), calls[1..])
  }
}
