/** The repository that keeps rows in lists and writes them to a JSON file (src/repository/json_file.rs:62-278);
    the file itself is not part of this model. */
module JsonFileRepository {
  import opened Wrappers
  import opened Sorting
  import opened Lists
  import opened Tables
  import opened Rows
  import opened RepositoryContract

  /** `retain` with either of two conditions that agree on the rows. */
  lemma {:induction false} SameFilter<R>(rows: seq<R>, a: R -> bool, b: R -> bool)
    requires forall r :: r in rows ==> a(r) == b(r)
    ensures Filter(rows, a) == Filter(rows, b)
  {
    if rows != [] {
      assert rows[0] in rows;
      SameFilter(rows[1..], a, b);
    }
  }

  /** Comparing the fields of a key is comparing keys. */
  lemma PutFilter<R>(kind: Kind<R>, rows: seq<R>, row: R, keep: R -> bool)
    requires forall r :: r in rows ==> keep(r) == !(kind.task(r) == kind.task(row) && kind.sub(r) == kind.sub(row))
    ensures Filter(rows, keep) + [row] == Put(kind, rows, row)
  {
    var apart := (r: R) => KeyOf(kind, r) != KeyOf(kind, row);
    forall r | r in rows
      ensures keep(r) == apart(r)
    {
      KeyParts(kind, r, row);
    }
    SameFilter(rows, keep, apart);
  }

  class JsonFileRepository {
    var tasks: seq<TaskRow>
    var workers: seq<WorkerRow>
    var pieces: seq<PieceRow>
    var blocks: seq<BlockRow>
    var checksums: seq<ChecksumRow>

    ghost function State(): RowLists
      reads this
    {
      RowLists(tasks, workers, pieces, blocks, checksums)
    }

    constructor ()
      ensures State() == RowLists([], [], [], [], [])
    {
      tasks, workers, pieces, blocks, checksums := [], [], [], [], [];
    }

    method LoadTasks() returns (r: seq<TaskRow>)
      ensures r == LoadAll(Tasks(), tasks)
    {
      r := SortByKey(tasks, FullKey(Tasks()));
    }

    method LoadTask(taskId: nat) returns (r: Option<TaskRow>)
      ensures r == FindTask(tasks, taskId)
    {
      for i := 0 to |tasks|
        invariant FindTask(tasks, taskId) == FindTask(tasks[i..], taskId)
      {
        assert tasks[i..][1..] == tasks[i + 1..];
        if tasks[i].id == taskId {
          return Some(tasks[i]);
        }
      }
      r := None;
    }

    method SaveTask(task: TaskRow)
      modifies this
      ensures State() == ListStep(old(State()), Op.SaveTask(task))
    {
      PutFilter(Tasks(), tasks, task, (t: TaskRow) => t.id != task.id);
      tasks := Filter(tasks, (t: TaskRow) => t.id != task.id);
      tasks := tasks + [task];
    }

    method DeleteTask(taskId: nat)
      modifies this
      ensures State() == ListStep(old(State()), Op.DeleteTask(taskId))
    {
      tasks := DropTask(Tasks(), tasks, taskId);
      workers := DropTask(Workers(), workers, taskId);
      pieces := DropTask(Pieces(), pieces, taskId);
      blocks := DropTask(Blocks(), blocks, taskId);
      checksums := DropTask(Checksums(), checksums, taskId);
    }

    /** Everything under one lock. */
    method SaveBundle(b: Bundle)
      modifies this
      ensures State() == ListBundle(old(State()), b)
    {
      var id := b.task.id;
      PutFilter(Tasks(), tasks, b.task, (t: TaskRow) => t.id != id);
      tasks := Filter(tasks, (t: TaskRow) => t.id != id) + [b.task];
      workers := DropTask(Workers(), workers, id) + b.workers;
      pieces := DropTask(Pieces(), pieces, id) + b.pieces;
      blocks := DropTask(Blocks(), blocks, id) + b.blocks;
      checksums := DropTask(Checksums(), checksums, id) + b.checksums;
    }

    method LoadWorkers(taskId: nat) returns (r: seq<WorkerRow>)
      ensures r == Load(Workers(), workers, taskId)
    {
      r := Load(Workers(), workers, taskId);
    }

    method SaveWorker(worker: WorkerRow)
      modifies this
      ensures State() == ListStep(old(State()), Op.SaveWorker(worker))
    {
      var keep := (w: WorkerRow) => !(w.taskId == worker.taskId && w.index == worker.index);
      PutFilter(Workers(), workers, worker, keep);
      workers := Filter(workers, keep);
      workers := workers + [worker];
    }

    method DeleteWorkers(taskId: nat)
      modifies this
      ensures State() == ListStep(old(State()), Op.DeleteWorkers(taskId))
    {
      workers := DropTask(Workers(), workers, taskId);
    }

    method LoadPieces(taskId: nat) returns (r: seq<PieceRow>)
      ensures r == Load(Pieces(), pieces, taskId)
    {
      r := Load(Pieces(), pieces, taskId);
    }

    method SavePieces(taskId: nat, rows: seq<PieceRow>)
      modifies this
      ensures State() == ListStep(old(State()), Op.SavePieces(taskId, rows))
    {
      pieces := DropTask(Pieces(), pieces, taskId);
      pieces := pieces + rows;
    }

    method DeletePieces(taskId: nat)
      modifies this
      ensures State() == ListStep(old(State()), Op.DeletePieces(taskId))
    {
      pieces := DropTask(Pieces(), pieces, taskId);
    }

    method LoadBlocks(taskId: nat) returns (r: seq<BlockRow>)
      ensures r == Load(Blocks(), blocks, taskId)
    {
      r := Load(Blocks(), blocks, taskId);
    }

    method SaveBlocks(taskId: nat, rows: seq<BlockRow>)
      modifies this
      ensures State() == ListStep(old(State()), Op.SaveBlocks(taskId, rows))
    {
      blocks := DropTask(Blocks(), blocks, taskId);
      blocks := blocks + rows;
    }

    method DeleteBlocks(taskId: nat)
      modifies this
      ensures State() == ListStep(old(State()), Op.DeleteBlocks(taskId))
    {
      blocks := DropTask(Blocks(), blocks, taskId);
    }

    method LoadChecksums(taskId: nat) returns (r: seq<ChecksumRow>)
      ensures r == Load(Checksums(), checksums, taskId)
    {
      r := Load(Checksums(), checksums, taskId);
    }

    method SaveChecksum(checksum: ChecksumRow)
      modifies this
      ensures State() == ListStep(old(State()), Op.SaveChecksum(checksum))
    {
      var keep := (c: ChecksumRow) => !(c.taskId == checksum.taskId && c.algorithm == checksum.algorithm);
      forall c | c in checksums
        ensures c.algorithm == checksum.algorithm <==> Codes(c.algorithm) == Codes(checksum.algorithm)
      {
        if Codes(c.algorithm) == Codes(checksum.algorithm) { CodesInjective(c.algorithm, checksum.algorithm); }
      }
      PutFilter(Checksums(), checksums, checksum, keep);
      checksums := Filter(checksums, keep);
      checksums := checksums + [checksum];
    }

    method DeleteChecksums(taskId: nat)
      modifies this
      ensures State() == ListStep(old(State()), Op.DeleteChecksums(taskId))
    {
      checksums := DropTask(Checksums(), checksums, taskId);
    }
  }
}
